/**
 * Loop unrolling in the byte-stream script executor. A script is a vector of
 * commands; `loop(n) { … }` is read as a LOOP_START command whose argument is
 * the count, the body, and a LOOP_END command. Unrolling replaces the
 * innermost loop by its body repeated n times until no LOOP_START is left.
 */
module ScriptUnroller {
  import opened Wrappers

  datatype CommandType =
    | DELAY_SECONDS | DELAY_MILLISECONDS | DELAY_MICROSECONDS
    | WRITE | READ | FLUSH_RX | FLUSH_TX | FLUSH_RX_TX
    | LOOP_START | LOOP_END | COMMAND_UNSPECIFIED

  datatype Command = Command(commandType: CommandType, commandArgument: string)

  predicate IsStart(c: Command) { c.commandType == LOOP_START }

  predicate IsEnd(c: Command) { c.commandType == LOOP_END }

  predicate HasStart(cmds: seq<Command>)
  {
    exists j :: 0 <= j < |cmds| && IsStart(cmds[j])
  }

  /** No loop marker of either kind. */
  predicate Plain(cmds: seq<Command>)
  {
    forall j :: 0 <= j < |cmds| ==> !IsStart(cmds[j]) && !IsEnd(cmds[j])
  }

  // ---------------------------------------------------------------- containsLoopStart

  /** containsLoopStart: a linear scan for a LOOP_START command. */
  method ContainsLoopStart(commands: seq<Command>) returns (b: bool)
    ensures b <==> HasStart(commands)
  {
    var i := 0;
    while i < |commands|
      invariant 0 <= i <= |commands|
      invariant forall j :: 0 <= j < i ==> !IsStart(commands[j])
    {
      if IsStart(commands[i]) {
        return true;
      }
      i := i + 1;
    }
    return false;
  }

  // ---------------------------------------------------------------- findInnerLoopIndexes

  /** The index of the last LOOP_START. */
  function LastStart(cmds: seq<Command>): (r: Option<nat>)
    ensures r.Some? ==> r.value < |cmds| && IsStart(cmds[r.value])
    ensures r.Some? ==> forall j :: r.value < j < |cmds| ==> !IsStart(cmds[j])
    ensures r.None? <==> !HasStart(cmds)
  {
    if |cmds| == 0 then None
    else if IsStart(cmds[|cmds| - 1]) then Some(|cmds| - 1)
    else LastStart(cmds[..|cmds| - 1])
  }

  /** The index of the first LOOP_END at or after `from`. */
  function FirstEndFrom(cmds: seq<Command>, from: nat): (r: Option<nat>)
    ensures r.Some? ==> from <= r.value < |cmds| && IsEnd(cmds[r.value])
    ensures r.Some? ==> forall j :: from <= j < r.value ==> !IsEnd(cmds[j])
    ensures r.None? <==> forall j :: from <= j < |cmds| ==> !IsEnd(cmds[j])
    decreases |cmds| - from
  {
    if from >= |cmds| then None
    else if IsEnd(cmds[from]) then Some(from)
    else FirstEndFrom(cmds, from + 1)
  }

  function StartIndex(cmds: seq<Command>): nat
  {
    match LastStart(cmds)
    case Some(s) => s
    case None => 0
  }

  /** The innermost loop: the last LOOP_START and the first LOOP_END after it, 0 where none is found. */
  function InnerLoopIndexes(cmds: seq<Command>): (nat, nat)
  {
    var s := StartIndex(cmds);
    match FirstEndFrom(cmds, s)
    case Some(e) => (s, e)
    case None => (s, 0)
  }

  /** The pair findInnerLoopIndexes returns as written: the end is offset by the start. */
  function InnerLoopIndexesAsWritten(cmds: seq<Command>): (nat, nat)
  {
    var s := StartIndex(cmds);
    match FirstEndFrom(cmds, s)
    case Some(i) => (s, if s == 0 then s + i else s + i - 1)
    case None => (s, 0)
  }

  /** The first loop of findInnerLoopIndexes: remembers the index of every LOOP_START it passes. */
  method LastLoopStartPosition(commands: seq<Command>) returns (lastLoopStartPosition: nat)
    ensures lastLoopStartPosition == StartIndex(commands)
  {
    lastLoopStartPosition := 0;
    var i := 0;
    while i < |commands|
      invariant 0 <= i <= |commands|
      invariant lastLoopStartPosition == StartIndex(commands[..i])
    {
      assert commands[..i + 1][..i] == commands[..i];
      if IsStart(commands[i]) {
        lastLoopStartPosition := i;
      }
      i := i + 1;
    }
    assert commands[..i] == commands;
  }

  /** findInnerLoopIndexes as written: `lastLoopStartPosition + i` (minus one when the start is not 0). */
  method FindInnerLoopIndexesAsWritten(commands: seq<Command>) returns (positions: (nat, nat))
    ensures positions == InnerLoopIndexesAsWritten(commands)
  {
    var lastLoopStartPosition := LastLoopStartPosition(commands);
    var lastLoopEndPosition: nat := 0;
    var i := lastLoopStartPosition;
    while i < |commands|
      invariant lastLoopStartPosition <= i
      invariant forall j :: lastLoopStartPosition <= j < i && j < |commands| ==> !IsEnd(commands[j])
    {
      if IsEnd(commands[i]) {
        if lastLoopStartPosition == 0 {
          lastLoopEndPosition := lastLoopStartPosition + i;
        } else {
          lastLoopEndPosition := lastLoopStartPosition + i - 1;
        }
        break;
      }
      i := i + 1;
    }
    positions := (lastLoopStartPosition, lastLoopEndPosition);
  }

  /** findInnerLoopIndexes as intended: the end is the index of the LOOP_END itself. */
  method FindInnerLoopIndexes(commands: seq<Command>) returns (positions: (nat, nat))
    ensures positions == InnerLoopIndexes(commands)
    ensures HasStart(commands) ==> IsStart(commands[positions.0])
    ensures forall j :: positions.0 < j < |commands| ==> !IsStart(commands[j])
  {
    var lastLoopStartPosition := LastLoopStartPosition(commands);
    var lastLoopEndPosition: nat := 0;
    var i := lastLoopStartPosition;
    while i < |commands|
      invariant lastLoopStartPosition <= i
      invariant forall j :: lastLoopStartPosition <= j < i && j < |commands| ==> !IsEnd(commands[j])
    {
      if IsEnd(commands[i]) {
        lastLoopEndPosition := i;
        break;
      }
      i := i + 1;
    }
    positions := (lastLoopStartPosition, lastLoopEndPosition);
  }

  // ---------------------------------------------------------------- unrolling one loop

  /** The body repeated `n` times; no copies for a count of zero or less. */
  function Repeat(body: seq<Command>, n: int): (r: seq<Command>)
    ensures Plain(body) ==> Plain(r)
    decreases if n < 0 then 0 else n
  {
    if n <= 0 then [] else Repeat(body, n - 1) + body
  }

  /** The commands with the loop between `s` and `e` replaced by `n` copies of its body. */
  function UnrollAt(cmds: seq<Command>, s: nat, e: nat, n: int): seq<Command>
    requires s < e < |cmds|
  {
    cmds[..s] + Repeat(cmds[s + 1..e], n) + cmds[e + 1..]
  }

  /** The element-by-element copy loops of doUnrollLoopCommands: `acc` followed by `cmds[from..to]`. */
  method AppendRange(acc: seq<Command>, cmds: seq<Command>, from: nat, to: nat) returns (r: seq<Command>)
    requires from <= to <= |cmds|
    ensures r == acc + cmds[from..to]
  {
    r := acc;
    var i := from;
    while i < to
      invariant from <= i <= to
      invariant r == acc + cmds[from..i]
    {
      assert cmds[from..i + 1] == cmds[from..i] + [cmds[i]];
      r := r + [cmds[i]];
      i := i + 1;
    }
  }

  /** One pass of the while loop of doUnrollLoopCommands, copying as the source does. */
  method UnrollInnerLoop(copyCommands: seq<Command>, positions: (nat, nat), numberOfLoops: int) returns (temp: seq<Command>)
    requires positions.0 < positions.1 < |copyCommands|
    ensures temp == UnrollAt(copyCommands, positions.0, positions.1, numberOfLoops)
  {
    var toUnroll: seq<Command> := [];
    var loops := 0;
    while loops < numberOfLoops
      invariant loops <= numberOfLoops || loops == 0
      invariant 0 <= loops
      invariant toUnroll == Repeat(copyCommands[positions.0 + 1..positions.1], loops)
    {
      toUnroll := AppendRange(toUnroll, copyCommands, positions.0 + 1, positions.1);
      loops := loops + 1;
    }
    temp := AppendRange([], copyCommands, 0, positions.0);
    temp := temp + toUnroll;
    temp := AppendRange(temp, copyCommands, positions.1 + 1, |copyCommands|);
  }

  // ---------------------------------------------------------------- balanced scripts

  function Weight(c: Command): int
  {
    if IsStart(c) then 1 else if IsEnd(c) then -1 else 0
  }

  /** Loops opened minus loops closed. */
  function Depth(cmds: seq<Command>): int
  {
    if cmds == [] then 0 else Depth(cmds[..|cmds| - 1]) + Weight(cmds[|cmds| - 1])
  }

  /** The number of LOOP_START commands. */
  function StartCount(cmds: seq<Command>): nat
  {
    if cmds == [] then 0 else StartCount(cmds[..|cmds| - 1]) + (if IsStart(cmds[|cmds| - 1]) then 1 else 0)
  }

  /**
   * What the script reader guarantees: no loop is closed before it is opened
   * and every loop is closed.
   */
  predicate Balanced(cmds: seq<Command>)
  {
    PrefixesNonNegative(cmds) && Depth(cmds) == 0
  }

  /** No prefix closes more loops than it opens. */
  predicate PrefixesNonNegative(cmds: seq<Command>)
  {
    forall k :: 0 <= k <= |cmds| ==> Depth(cmds[..k]) >= 0
  }

  lemma {:induction false} DepthAppend(a: seq<Command>, b: seq<Command>)
    ensures Depth(a + b) == Depth(a) + Depth(b)
    decreases |b|
  {
    if b != [] {
      var b' := b[..|b| - 1];
      assert (a + b)[..|a + b| - 1] == a + b';
      assert (a + b)[|a + b| - 1] == b[|b| - 1];
      DepthAppend(a, b');
      assert Depth(a + b) == Depth(a + b') + Depth([b[|b| - 1]]);
      assert Depth(b) == Depth(b') + Depth([b[|b| - 1]]);
    } else {
      assert a + b == a;
    }
  }

  lemma {:induction false} StartCountAppend(a: seq<Command>, b: seq<Command>)
    ensures StartCount(a + b) == StartCount(a) + StartCount(b)
    decreases |b|
  {
    if b != [] {
      var b' := b[..|b| - 1];
      assert (a + b)[..|a + b| - 1] == a + b';
      assert (a + b)[|a + b| - 1] == b[|b| - 1];
      StartCountAppend(a, b');
      assert StartCount(a + b) == StartCount(a + b') + StartCount([b[|b| - 1]]);
      assert StartCount(b) == StartCount(b') + StartCount([b[|b| - 1]]);
    } else {
      assert a + b == a;
    }
  }

  lemma {:induction false} PlainCounts(cmds: seq<Command>)
    requires Plain(cmds)
    ensures Depth(cmds) == 0 && StartCount(cmds) == 0
    decreases |cmds|
  {
    if cmds != [] {
      PlainCounts(cmds[..|cmds| - 1]);
    }
  }

  lemma {:induction false} NoStartCounts(cmds: seq<Command>)
    requires !HasStart(cmds)
    ensures StartCount(cmds) == 0 && Depth(cmds) <= 0
    ensures (exists j :: 0 <= j < |cmds| && IsEnd(cmds[j])) ==> Depth(cmds) < 0
    decreases |cmds|
  {
    if cmds != [] {
      var init := cmds[..|cmds| - 1];
      assert !HasStart(init) by {
        forall j | 0 <= j < |init| ensures !IsStart(init[j]) {
          assert init[j] == cmds[j];
        }
      }
      NoStartCounts(init);
      forall j | 0 <= j < |cmds| - 1 && IsEnd(cmds[j]) ensures Depth(init) < 0 {
        assert IsEnd(init[j]);
      }
    }
  }

  /** A balanced script without LOOP_START has no LOOP_END either. */
  lemma BalancedWithoutStartIsPlain(cmds: seq<Command>)
    requires Balanced(cmds) && !HasStart(cmds)
    ensures Plain(cmds)
  {
    forall j | 0 <= j < |cmds|
      ensures !IsEnd(cmds[j])
    {
      var prefix := cmds[..j + 1];
      assert !HasStart(prefix) by {
        forall k | 0 <= k < |prefix| ensures !IsStart(prefix[k]) {
          assert prefix[k] == cmds[k];
        }
      }
      NoStartCounts(prefix);
      assert prefix[j] == cmds[j];
    }
  }

  /** In a balanced script the last LOOP_START is followed by a LOOP_END. */
  lemma InnerLoopIsClosed(cmds: seq<Command>)
    requires Balanced(cmds) && HasStart(cmds)
    ensures var (s, e) := InnerLoopIndexes(cmds); s < e < |cmds| && IsStart(cmds[s]) && IsEnd(cmds[e])
    ensures var (s, e) := InnerLoopIndexes(cmds); Plain(cmds[s + 1..e]) && !HasStart(cmds[e + 1..])
  {
    var s := LastStart(cmds).value;
    var tail := cmds[s + 1..];
    assert !HasStart(tail) by {
      forall k | 0 <= k < |tail| ensures !IsStart(tail[k]) {
        assert tail[k] == cmds[s + 1 + k];
      }
    }
    match FirstEndFrom(cmds, s)
    case None =>
      DepthThroughPlainTail(cmds, s);
      assert false;
    case Some(e) =>
      assert !IsEnd(cmds[s]);
      var after := cmds[e + 1..];
      assert !HasStart(after) by {
        forall k | 0 <= k < |after| ensures !IsStart(after[k]) {
          assert after[k] == cmds[e + 1 + k];
        }
      }
  }

  /** A LOOP_START followed only by plain commands leaves one loop open. */
  lemma DepthThroughPlainTail(cmds: seq<Command>, s: nat)
    requires s < |cmds| && IsStart(cmds[s]) && Plain(cmds[s + 1..])
    ensures Depth(cmds) == Depth(cmds[..s]) + 1
  {
    var tail := cmds[s + 1..];
    PlainCounts(tail);
    assert cmds == cmds[..s + 1] + tail;
    DepthAppend(cmds[..s + 1], tail);
    assert cmds[..s + 1] == cmds[..s] + [cmds[s]];
    DepthAppend(cmds[..s], [cmds[s]]);
  }

  /** Depth and start count of a prefix, split at an earlier point. */
  lemma PrefixSplit(cmds: seq<Command>, i: nat, j: nat)
    requires i <= j <= |cmds|
    ensures Depth(cmds[..j]) == Depth(cmds[..i]) + Depth(cmds[i..j])
    ensures StartCount(cmds[..j]) == StartCount(cmds[..i]) + StartCount(cmds[i..j])
  {
    assert cmds[..j] == cmds[..i] + cmds[i..j];
    DepthAppend(cmds[..i], cmds[i..j]);
    StartCountAppend(cmds[..i], cmds[i..j]);
  }

  /** A loop around a body of depth zero closes what it opens. */
  lemma LoopDepth(cmds: seq<Command>, s: nat, e: nat)
    requires s < e < |cmds| && IsStart(cmds[s]) && IsEnd(cmds[e]) && Depth(cmds[s + 1..e]) == 0
    ensures Depth(cmds[..e + 1]) == Depth(cmds[..s])
  {
    DepthSplit(cmds, s, s + 1);
    DepthSplit(cmds, s + 1, e);
    DepthSplit(cmds, e, e + 1);
    assert cmds[s..s + 1] == [cmds[s]] && cmds[e..e + 1] == [cmds[e]];
    assert Depth([cmds[s]]) == 1 && Depth([cmds[e]]) == -1;
  }

  /** A loop around a body without LOOP_START holds one LOOP_START. */
  lemma LoopStartCount(cmds: seq<Command>, s: nat, e: nat)
    requires s < e < |cmds| && IsStart(cmds[s]) && IsEnd(cmds[e]) && StartCount(cmds[s + 1..e]) == 0
    ensures StartCount(cmds[..e + 1]) == StartCount(cmds[..s]) + 1
  {
    StartCountSplit(cmds, s, s + 1);
    StartCountSplit(cmds, s + 1, e);
    StartCountSplit(cmds, e, e + 1);
    assert cmds[s..s + 1] == [cmds[s]] && cmds[e..e + 1] == [cmds[e]];
    assert StartCount([cmds[s]]) == 1 && StartCount([cmds[e]]) == 0;
  }

  /** Start count of a prefix, split at an earlier point. */
  lemma StartCountSplit(cmds: seq<Command>, i: nat, j: nat)
    requires i <= j <= |cmds|
    ensures StartCount(cmds[..j]) == StartCount(cmds[..i]) + StartCount(cmds[i..j])
  {
    assert cmds[..j] == cmds[..i] + cmds[i..j];
    StartCountAppend(cmds[..i], cmds[i..j]);
  }

  /** The script cut around its innermost loop: the loop itself opens and closes once. */
  lemma InnerLoopPieces(cmds: seq<Command>, s: nat, e: nat)
    requires Balanced(cmds) && HasStart(cmds) && (s, e) == InnerLoopIndexes(cmds)
    ensures s < e < |cmds| && Plain(cmds[s + 1..e]) && !HasStart(cmds[e + 1..])
    ensures Depth(cmds[..e + 1]) == Depth(cmds[..s])
    ensures StartCount(cmds[..e + 1]) == StartCount(cmds[..s]) + 1
  {
    InnerLoopIsClosed(cmds);
    PlainCounts(cmds[s + 1..e]);
    LoopDepth(cmds, s, e);
    LoopStartCount(cmds, s, e);
  }

  /** A prefix that ends before the loop is untouched by replacing the loop with `r`. */
  lemma PrefixBeforeLoop(cmds: seq<Command>, s: nat, e: nat, r: seq<Command>, k: nat)
    requires s < e < |cmds| && k <= s
    ensures (cmds[..s] + r + cmds[e + 1..])[..k] == cmds[..k]
  {
  }

  /** A prefix that ends inside the copies `r` of a plain body has the depth of the script before the loop. */
  lemma PrefixInCopies(cmds: seq<Command>, s: nat, e: nat, r: seq<Command>, k: nat)
    requires s < e < |cmds| && Plain(r) && s < k <= s + |r|
    ensures Depth((cmds[..s] + r + cmds[e + 1..])[..k]) == Depth(cmds[..s])
  {
    var a := cmds[..s];
    var rp := r[..k - s];
    assert (a + r + cmds[e + 1..])[..k] == a + rp;
    assert Plain(rp) by {
      forall j | 0 <= j < |rp| ensures !IsStart(rp[j]) && !IsEnd(rp[j]) {
        assert rp[j] == r[j];
      }
    }
    PlainCounts(rp);
    DepthAppend(a, rp);
  }

  /** A prefix of `a + r + t` reaching into `t`, for `r` of depth zero. */
  lemma PrefixThroughTail(a: seq<Command>, r: seq<Command>, t: seq<Command>, k: nat, tm: seq<Command>)
    requires Depth(r) == 0 && |a| + |r| <= k <= |a| + |r| + |t| && tm == t[..k - |a| - |r|]
    ensures Depth((a + r + t)[..k]) == Depth(a) + Depth(tm)
  {
    assert (a + r + t)[..k] == a + r + tm;
    DepthAppend(a, r);
    DepthAppend(a + r, tm);
  }

  /** A prefix that ends after the copies `r` has the depth of the matching prefix of the script. */
  lemma PrefixAfterCopies(cmds: seq<Command>, s: nat, e: nat, r: seq<Command>, k: nat, j: nat)
    requires s < e < |cmds| && Depth(r) == 0 && Depth(cmds[..e + 1]) == Depth(cmds[..s])
    requires s + |r| < k && j == e + 1 + (k - s - |r|) && j <= |cmds|
    ensures Depth((cmds[..s] + r + cmds[e + 1..])[..k]) == Depth(cmds[..j])
  {
    SliceOfSuffix(cmds, e + 1, j);
    PrefixThroughTail(cmds[..s], r, cmds[e + 1..], k, cmds[e + 1..j]);
    DepthSplit(cmds, e + 1, j);
  }

  /** A prefix of a suffix is a slice. */
  lemma SliceOfSuffix(cmds: seq<Command>, i: nat, j: nat)
    requires i <= j <= |cmds|
    ensures cmds[i..][..j - i] == cmds[i..j]
  {
  }

  /**
   * Replacing a closed loop by copies `r` of a plain body keeps every prefix
   * of the script at a non-negative depth.
   */
  lemma ReplacedPrefixesNonNegative(cmds: seq<Command>, s: nat, e: nat, r: seq<Command>)
    requires s < e < |cmds| && Plain(r) && Depth(r) == 0
    requires PrefixesNonNegative(cmds) && Depth(cmds[..e + 1]) == Depth(cmds[..s])
    ensures PrefixesNonNegative(cmds[..s] + r + cmds[e + 1..])
  {
    var result := cmds[..s] + r + cmds[e + 1..];
    forall k | 0 <= k <= |result|
      ensures Depth(result[..k]) >= 0
    {
      if k <= s {
        PrefixBeforeLoop(cmds, s, e, r, k);
      } else if k <= s + |r| {
        PrefixInCopies(cmds, s, e, r, k);
      } else {
        PrefixAfterCopies(cmds, s, e, r, k, e + 1 + (k - s - |r|));
      }
    }
  }

  /** Depth of a prefix, split at an earlier point. */
  lemma DepthSplit(cmds: seq<Command>, i: nat, j: nat)
    requires i <= j <= |cmds|
    ensures Depth(cmds[..j]) == Depth(cmds[..i]) + Depth(cmds[i..j])
  {
    assert cmds[..j] == cmds[..i] + cmds[i..j];
    DepthAppend(cmds[..i], cmds[i..j]);
  }

  /** Depth and start count of a script, split at any point. */
  lemma TailSplit(cmds: seq<Command>, i: nat)
    requires i <= |cmds|
    ensures Depth(cmds) == Depth(cmds[..i]) + Depth(cmds[i..])
    ensures StartCount(cmds) == StartCount(cmds[..i]) + StartCount(cmds[i..])
  {
    assert cmds == cmds[..i] + cmds[i..];
    DepthAppend(cmds[..i], cmds[i..]);
    StartCountAppend(cmds[..i], cmds[i..]);
  }

  /** Depth and start count of three pieces in a row. */
  lemma ThreePieces(a: seq<Command>, b: seq<Command>, c: seq<Command>)
    ensures Depth(a + b + c) == Depth(a) + Depth(b) + Depth(c)
    ensures StartCount(a + b + c) == StartCount(a) + StartCount(b) + StartCount(c)
  {
    DepthAppend(a, b);
    DepthAppend(a + b, c);
    StartCountAppend(a, b);
    StartCountAppend(a + b, c);
  }

  /** Replacing a loop by copies of a body of depth zero keeps the depth. */
  lemma UnrollDepth(cmds: seq<Command>, s: nat, e: nat, n: int)
    requires s < e < |cmds| && Depth(Repeat(cmds[s + 1..e], n)) == 0
    requires Depth(cmds[..e + 1]) == Depth(cmds[..s])
    ensures Depth(UnrollAt(cmds, s, e, n)) == Depth(cmds)
  {
    ThreePieces(cmds[..s], Repeat(cmds[s + 1..e], n), cmds[e + 1..]);
    TailSplit(cmds, e + 1);
  }

  /** Replacing a loop by copies of a body without LOOP_START removes one LOOP_START. */
  lemma UnrollStartCount(cmds: seq<Command>, s: nat, e: nat, n: int)
    requires s < e < |cmds| && StartCount(Repeat(cmds[s + 1..e], n)) == 0
    requires StartCount(cmds[..e + 1]) == StartCount(cmds[..s]) + 1
    ensures StartCount(UnrollAt(cmds, s, e, n)) == StartCount(cmds) - 1
  {
    ThreePieces(cmds[..s], Repeat(cmds[s + 1..e], n), cmds[e + 1..]);
    TailSplit(cmds, e + 1);
  }

  /** Replacing a closed loop around a plain body by copies of that body keeps the script balanced. */
  lemma UnrollClosedLoop(cmds: seq<Command>, s: nat, e: nat, n: int)
    requires Balanced(cmds) && s < e < |cmds| && Plain(cmds[s + 1..e])
    requires Depth(cmds[..e + 1]) == Depth(cmds[..s])
    ensures Balanced(UnrollAt(cmds, s, e, n))
  {
    var r := Repeat(cmds[s + 1..e], n);
    PlainCounts(r);
    UnrollDepth(cmds, s, e, n);
    ReplacedPrefixesNonNegative(cmds, s, e, r);
  }

  /** Unrolling the innermost loop keeps the script balanced and removes one LOOP_START. */
  lemma UnrollKeepsBalance(cmds: seq<Command>, n: int)
    requires Balanced(cmds) && HasStart(cmds)
    ensures InnerLoopIndexes(cmds).0 < InnerLoopIndexes(cmds).1 < |cmds|
    ensures Balanced(UnrollAt(cmds, InnerLoopIndexes(cmds).0, InnerLoopIndexes(cmds).1, n))
    ensures StartCount(UnrollAt(cmds, InnerLoopIndexes(cmds).0, InnerLoopIndexes(cmds).1, n)) == StartCount(cmds) - 1
  {
    var (s, e) := InnerLoopIndexes(cmds);
    InnerLoopPieces(cmds, s, e);
    PlainCounts(Repeat(cmds[s + 1..e], n));
    UnrollClosedLoop(cmds, s, e, n);
    UnrollStartCount(cmds, s, e, n);
  }

  // ---------------------------------------------------------------- doUnrollLoopCommands

  /**
   * What doUnrollLoopCommands returns for a balanced script; `stoi` reads the
   * loop count from the LOOP_START argument.
   */
  function Unrolled(cmds: seq<Command>, stoi: string -> int): (r: seq<Command>)
    requires Balanced(cmds)
    ensures Plain(r)
    decreases StartCount(cmds)
  {
    if !HasStart(cmds) then
      BalancedWithoutStartIsPlain(cmds);
      cmds
    else
      var (s, e) := InnerLoopIndexes(cmds);
      UnrollKeepsBalance(cmds, stoi(cmds[s].commandArgument));
      Unrolled(UnrollAt(cmds, s, e, stoi(cmds[s].commandArgument)), stoi)
  }

  /** doUnrollLoopCommands: unroll the innermost loop until no LOOP_START remains. */
  method DoUnrollLoopCommands(commands: seq<Command>, stoi: string -> int) returns (copyCommands: seq<Command>)
    requires Balanced(commands)
    ensures copyCommands == Unrolled(commands, stoi)
    ensures !HasStart(commands) ==> copyCommands == commands
  {
    copyCommands := commands;
    var more := ContainsLoopStart(copyCommands);
    if !more {
      return copyCommands;
    }
    while more
      invariant Balanced(copyCommands)
      invariant more <==> HasStart(copyCommands)
      invariant Unrolled(copyCommands, stoi) == Unrolled(commands, stoi)
      decreases StartCount(copyCommands)
    {
      var innerLoopPositions := FindInnerLoopIndexes(copyCommands);
      InnerLoopIsClosed(copyCommands);
      var numberOfLoops := stoi(copyCommands[innerLoopPositions.0].commandArgument);
      UnrollKeepsBalance(copyCommands, numberOfLoops);
      copyCommands := UnrollInnerLoop(copyCommands, innerLoopPositions, numberOfLoops);
      more := ContainsLoopStart(copyCommands);
    }
  }

  /** A script without loop markers opens and closes nothing. */
  lemma {:induction false} PlainDepthZero(cmds: seq<Command>)
    requires Plain(cmds)
    ensures Depth(cmds) == 0
    decreases |cmds|
  {
    if cmds != [] {
      var front := cmds[..|cmds| - 1];
      assert forall j :: 0 <= j < |front| ==> front[j] == cmds[j];
      PlainDepthZero(front);
    }
  }

  /** A script without loop markers is balanced. */
  lemma PlainIsBalanced(cmds: seq<Command>)
    requires Plain(cmds)
    ensures Balanced(cmds)
  {
    forall k | 0 <= k <= |cmds|
      ensures Depth(cmds[..k]) >= 0
    {
      assert forall j :: 0 <= j < k ==> cmds[..k][j] == cmds[j];
      PlainDepthZero(cmds[..k]);
    }
    PlainDepthZero(cmds);
  }

  /**
   * Unrolling is idempotent: the unrolled script is balanced again and a
   * second unroll gives it back unchanged.
   */
  lemma UnrolledIsIdempotent(cmds: seq<Command>, stoi: string -> int)
    requires Balanced(cmds)
    ensures Balanced(Unrolled(cmds, stoi))
    ensures Unrolled(Unrolled(cmds, stoi), stoi) == Unrolled(cmds, stoi)
  {
    PlainIsBalanced(Unrolled(cmds, stoi));
  }

  /** A single loop around plain commands, followed by plain commands. */
  function SingleLoop(arg: string, body: seq<Command>, tail: seq<Command>): seq<Command>
  {
    [Command(LOOP_START, arg)] + body + [Command(LOOP_END, "")] + tail
  }

  lemma SingleLoopShape(arg: string, body: seq<Command>, tail: seq<Command>)
    requires Plain(body) && Plain(tail)
    ensures var cmds := SingleLoop(arg, body, tail); var e := 1 + |body|;
      e < |cmds| && IsStart(cmds[0]) && IsEnd(cmds[e]) &&
      cmds[1..e] == body && cmds[e + 1..] == tail &&
      (forall j :: 1 <= j < |cmds| && j != e ==> !IsStart(cmds[j]) && !IsEnd(cmds[j]))
  {
    var cmds := SingleLoop(arg, body, tail);
    var e := 1 + |body|;
    assert cmds[e] == Command(LOOP_END, "");
    forall j | 1 <= j < |cmds| && j != e ensures !IsStart(cmds[j]) && !IsEnd(cmds[j]) {
      if j < e { assert cmds[j] == body[j - 1]; } else { assert cmds[j] == tail[j - e - 1]; }
    }
    assert cmds[1..e] == body;
    assert cmds[e + 1..] == tail;
  }

  /** A single loop around plain commands is balanced, and it is its own innermost loop. */
  lemma SingleLoopBalanced(arg: string, body: seq<Command>, tail: seq<Command>)
    requires Plain(body) && Plain(tail)
    ensures Balanced(SingleLoop(arg, body, tail))
    ensures InnerLoopIndexes(SingleLoop(arg, body, tail)) == (0, 1 + |body|)
  {
    var cmds := SingleLoop(arg, body, tail);
    var e := 1 + |body|;
    SingleLoopShape(arg, body, tail);
    forall k | 0 <= k <= |cmds|
      ensures Depth(cmds[..k]) >= 0
    {
      DepthPrefix(cmds, e, k);
    }
    DepthPrefix(cmds, e, |cmds|);
    assert cmds[..|cmds|] == cmds;
    LastStartOfFront(cmds);
    FirstEndOfPlainRun(cmds, 0, e);
  }

  lemma RepeatThenTailIsPlain(body: seq<Command>, n: int, tail: seq<Command>)
    requires Plain(body) && Plain(tail)
    ensures Plain(Repeat(body, n) + tail)
  {
    var r := Repeat(body, n);
    var next := r + tail;
    forall j | 0 <= j < |next| ensures !IsStart(next[j]) && !IsEnd(next[j]) {
      if j < |r| { assert next[j] == r[j]; } else { assert next[j] == tail[j - |r|]; }
    }
  }

  /** One loop around plain commands unrolls to its body repeated, then the rest. */
  lemma SingleLoopUnrolls(arg: string, body: seq<Command>, tail: seq<Command>, stoi: string -> int)
    requires Plain(body) && Plain(tail)
    ensures Balanced(SingleLoop(arg, body, tail))
    ensures Unrolled(SingleLoop(arg, body, tail), stoi) == Repeat(body, stoi(arg)) + tail
  {
    var cmds := SingleLoop(arg, body, tail);
    var e := 1 + |body|;
    SingleLoopShape(arg, body, tail);
    SingleLoopBalanced(arg, body, tail);
    var next := UnrollAt(cmds, 0, e, stoi(arg));
    assert next == Repeat(body, stoi(arg)) + tail;
    RepeatThenTailIsPlain(body, stoi(arg), tail);
    UnrollKeepsBalance(cmds, stoi(arg));
  }

  lemma {:induction false} DepthPrefix(cmds: seq<Command>, e: nat, k: nat)
    requires 0 < e < |cmds| && k <= |cmds|
    requires IsStart(cmds[0]) && IsEnd(cmds[e])
    requires forall j :: 1 <= j < |cmds| && j != e ==> !IsStart(cmds[j]) && !IsEnd(cmds[j])
    ensures Depth(cmds[..k]) == if k == 0 || k > e then 0 else 1
    decreases k
  {
    if k > 0 {
      DepthPrefix(cmds, e, k - 1);
      assert cmds[..k][..k - 1] == cmds[..k - 1];
    }
  }

  lemma LastStartOfFront(cmds: seq<Command>)
    requires |cmds| > 0 && IsStart(cmds[0])
    requires forall j :: 1 <= j < |cmds| ==> !IsStart(cmds[j])
    ensures LastStart(cmds) == Some(0)
  {
  }

  lemma FirstEndOfPlainRun(cmds: seq<Command>, from: nat, e: nat)
    requires from <= e < |cmds| && IsEnd(cmds[e])
    requires forall j :: from <= j < e ==> !IsEnd(cmds[j])
    ensures FirstEndFrom(cmds, from) == Some(e)
  {
  }

  /**
   * The offset end index of the as-written search: after two plain writes, a
   * loop of count 2 around one write and a final write, it ends the body one
   * command late, so the LOOP_END is copied into the output and the final
   * write is dropped.
   */
  lemma InnerLoopIndexesAsWrittenOverruns()
    ensures var cmds := [Command(WRITE, "a"), Command(WRITE, "b"), Command(LOOP_START, "2"),
                         Command(WRITE, "c"), Command(LOOP_END, ""), Command(WRITE, "d")];
      InnerLoopIndexesAsWritten(cmds) == (2, 5) && InnerLoopIndexes(cmds) == (2, 4) &&
      UnrollAt(cmds, 2, 5, 2) == [cmds[0], cmds[1], cmds[3], cmds[4], cmds[3], cmds[4]] &&
      UnrollAt(cmds, 2, 4, 2) == [cmds[0], cmds[1], cmds[3], cmds[3], cmds[5]]
  {
    var cmds := [Command(WRITE, "a"), Command(WRITE, "b"), Command(LOOP_START, "2"),
                 Command(WRITE, "c"), Command(LOOP_END, ""), Command(WRITE, "d")];
    assert IsStart(cmds[2]);
    assert LastStart(cmds) == Some(2);
    assert FirstEndFrom(cmds, 2) == Some(4);
    assert cmds[3..5] == [cmds[3], cmds[4]];
    assert cmds[3..4] == [cmds[3]];
  }
}
