/**
 * The header-only templates of the GeneralUtilities namespace: splitting a
 * string on a delimiter, searching with a predicate, filtering characters and
 * vector membership. The iterator loops of the source are methods here, each
 * proved against a specification function.
 */
module GeneralTemplates {
  import opened Wrappers
  import opened StdString

  // ---------------------------------------------------------------- parseToVector

  /** The one leading delimiter parseToVector drops before splitting. */
  function DropLeadingDelimiter(s: string, delimiter: char): (r: string)
    ensures r == s || (|s| > 0 && s[0] == delimiter && r == s[1..])
  {
    if |s| > 0 && s[0] == delimiter then s[1..] else s
  }

  /** The splitting loop: one piece per delimiter, no piece after a trailing delimiter. */
  function SplitPieces(c: string, delimiter: char): (parts: seq<string>)
    ensures forall k :: 0 <= k < |parts| ==> delimiter !in parts[k]
    ensures c != [] ==> |parts| > 0
    decreases |c|
  {
    if c == [] then []
    else match IndexOf(c, delimiter)
      case None => [c]
      case Some(p) => [c[..p]] + SplitPieces(c[p + 1..], delimiter)
  }

  /** What parseToVector returns. */
  function ParseToVectorSpec(s: string, delimiter: char): (parts: seq<string>)
    ensures |parts| > 0 || delimiter in s
    ensures forall k :: 0 <= k < |parts| ==> delimiter !in parts[k]
  {
    var c := DropLeadingDelimiter(s, delimiter);
    if delimiter !in c then [c] else SplitPieces(c, delimiter)
  }

  /** The pieces glued back together with the delimiter between them. */
  function Join(parts: seq<string>, delimiter: char): string
  {
    if |parts| == 0 then []
    else if |parts| == 1 then parts[0]
    else parts[0] + [delimiter] + Join(parts[1..], delimiter)
  }

  /** One turn of the splitting loop: the piece before the first delimiter, or the whole rest. */
  lemma SplitPiecesStep(c: string, delimiter: char)
    requires |c| > 0
    ensures IndexOf(c, delimiter).Some? ==>
      SplitPieces(c, delimiter) == [c[..IndexOf(c, delimiter).value]] + SplitPieces(c[IndexOf(c, delimiter).value + 1..], delimiter)
    ensures IndexOf(c, delimiter).None? ==> SplitPieces(c, delimiter) == [c]
  {
  }

  /** parseToVector: split `thing` on `delimiter` after dropping one leading delimiter. */
  method ParseToVector(thing: string, delimiter: char) returns (parts: seq<string>)
    ensures parts == ParseToVectorSpec(thing, delimiter)
  {
    var copy := thing;
    if |copy| > 0 && copy[0] == delimiter {
      copy := copy[1..];
    }
    if delimiter !in copy {
      return [copy];
    }
    parts := SplitLoop(copy, delimiter);
  }

  /** The splitting loop of parseToVector, which emplaces one piece per turn. */
  method SplitLoop(thing: string, delimiter: char) returns (parts: seq<string>)
    ensures parts == SplitPieces(thing, delimiter)
  {
    var copy := thing;
    parts := [];
    while |copy| > 0
      invariant SplitPieces(thing, delimiter) == parts + SplitPieces(copy, delimiter)
      decreases |copy|
    {
      SplitPiecesStep(copy, delimiter);
      var found := IndexOf(copy, delimiter);
      ghost var before := parts;
      var piece := if found.Some? then copy[..found.value] else copy;
      var rest := if found.Some? then copy[found.value + 1..] else "";
      assert SplitPieces(copy, delimiter) == [piece] + SplitPieces(rest, delimiter);
      parts := parts + [piece];
      copy := rest;
      assert before + ([piece] + SplitPieces(copy, delimiter)) == parts + SplitPieces(copy, delimiter);
    }
  }

  /** Text without the delimiter comes back as one element equal to the text. */
  lemma ParseWithoutDelimiter(s: string, delimiter: char)
    requires delimiter !in s
    ensures ParseToVectorSpec(s, delimiter) == [s]
  {
  }

  lemma JoinCons(a: string, rest: seq<string>, delimiter: char)
    requires |rest| > 0
    ensures Join([a] + rest, delimiter) == a + [delimiter] + Join(rest, delimiter)
  {
    assert ([a] + rest)[1..] == rest;
  }

  lemma {:induction false} JoinSplitPieces(c: string, delimiter: char)
    requires c == [] || c[|c| - 1] != delimiter
    ensures Join(SplitPieces(c, delimiter), delimiter) == c
    decreases |c|
  {
    if c != [] {
      match IndexOf(c, delimiter)
      case None =>
      case Some(p) =>
        var rest := c[p + 1..];
        assert rest != [];
        JoinSplitPieces(rest, delimiter);
        JoinCons(c[..p], SplitPieces(rest, delimiter), delimiter);
        assert c == c[..p] + [delimiter] + rest;
    }
  }

  /** Text that neither starts nor ends with the delimiter is recovered by joining its pieces. */
  lemma JoinParseToVector(s: string, delimiter: char)
    requires s == [] || (s[0] != delimiter && s[|s| - 1] != delimiter)
    ensures Join(ParseToVectorSpec(s, delimiter), delimiter) == s
  {
    if delimiter in s {
      JoinSplitPieces(s, delimiter);
    }
  }

  lemma JoinStartsWith(parts: seq<string>, delimiter: char)
    requires |parts| > 0 && |parts[0]| > 0
    ensures |Join(parts, delimiter)| > 0 && Join(parts, delimiter)[0] == parts[0][0]
  {
  }

  lemma IndexOfAfterPiece(a: string, delimiter: char, b: string)
    requires delimiter !in a
    ensures IndexOf(a + [delimiter] + b, delimiter) == Some(|a|)
  {
    var c := a + [delimiter] + b;
    assert c[|a|] == delimiter;
    assert c[..|a|] == a;
    assert forall j :: 0 <= j < |a| ==> c[j] == a[j];
  }

  lemma {:induction false} SplitPiecesOfJoin(parts: seq<string>, delimiter: char)
    requires |parts| > 0
    requires forall k :: 0 <= k < |parts| ==> |parts[k]| > 0 && delimiter !in parts[k]
    ensures SplitPieces(Join(parts, delimiter), delimiter) == parts
    decreases |parts|
  {
    if |parts| > 1 {
      var rest := parts[1..];
      var tail := Join(rest, delimiter);
      var c := Join(parts, delimiter);
      assert c == parts[0] + [delimiter] + tail;
      IndexOfAfterPiece(parts[0], delimiter, tail);
      var p := |parts[0]|;
      assert c[..p] == parts[0];
      assert c[p + 1..] == tail;
      SplitPiecesOfJoin(rest, delimiter);
      assert parts == [parts[0]] + rest;
    }
  }

  /** Non-empty pieces without the delimiter survive a join followed by a split. */
  lemma ParseToVectorOfJoin(parts: seq<string>, delimiter: char)
    requires |parts| > 0
    requires forall k :: 0 <= k < |parts| ==> |parts[k]| > 0 && delimiter !in parts[k]
    ensures ParseToVectorSpec(Join(parts, delimiter), delimiter) == parts
  {
    var c := Join(parts, delimiter);
    JoinStartsWith(parts, delimiter);
    assert DropLeadingDelimiter(c, delimiter) == c;
    SplitPiecesOfJoin(parts, delimiter);
    if |parts| > 1 {
      assert c == parts[0] + [delimiter] + Join(parts[1..], delimiter);
      assert c[|parts[0]|] == delimiter;
    }
  }

  // ---------------------------------------------------------------- findLastOfIf

  /** findLastOfIf: the largest index whose element satisfies `function`, npos when none does. */
  method FindLastOfIf<T>(s: seq<T>, pred: T -> bool) returns (found: Option<nat>)
    ensures found.Some? ==> found.value < |s| && pred(s[found.value])
    ensures found.Some? ==> forall j :: found.value < j < |s| ==> !pred(s[j])
    ensures found.None? <==> forall j :: 0 <= j < |s| ==> !pred(s[j])
  {
    found := None;
    var i := 0;
    while i < |s|
      invariant 0 <= i <= |s|
      invariant found.Some? ==> found.value < i && pred(s[found.value])
      invariant found.Some? ==> forall j :: found.value < j < i ==> !pred(s[j])
      invariant found.None? ==> forall j :: 0 <= j < i ==> !pred(s[j])
    {
      if pred(s[i]) {
        found := Some(i);
      }
      i := i + 1;
    }
  }

  // ---------------------------------------------------------------- stripFromStringIf

  /** The first index whose character satisfies `function`. */
  function FirstIndexWhere(s: string, pred: char -> bool): (r: Option<nat>)
    ensures r.Some? ==> r.value < |s| && pred(s[r.value])
    ensures r.Some? ==> forall j :: 0 <= j < r.value ==> !pred(s[j])
    ensures r.None? <==> forall j :: 0 <= j < |s| ==> !pred(s[j])
  {
    if |s| == 0 then None
    else if pred(s[0]) then Some(0)
    else match FirstIndexWhere(s[1..], pred)
      case None => None
      case Some(k) => Some(k + 1)
  }

  /** stripFromStringIf: drops only the first character satisfying `function`. */
  method StripFromStringIf(stringToStrip: string, pred: char -> bool) returns (r: string)
    ensures FirstIndexWhere(stringToStrip, pred).None? ==> r == stringToStrip
    ensures FirstIndexWhere(stringToStrip, pred).Some? ==>
      var k := FirstIndexWhere(stringToStrip, pred).value;
      r == stringToStrip[..k] + stringToStrip[k + 1..]
  {
    var s := stringToStrip;
    var substitutionMade := false;
    ghost var k: nat := 0;
    r := "";
    var i := 0;
    while i < |s|
      invariant 0 <= i <= |s|
      invariant !substitutionMade ==> r == s[..i] && forall j :: 0 <= j < i ==> !pred(s[j])
      invariant substitutionMade ==> k < i && FirstIndexWhere(s, pred) == Some(k)
      invariant substitutionMade ==> r == s[..k] + s[k + 1..i]
    {
      if pred(s[i]) && !substitutionMade {
        substitutionMade := true;
        k := i;
      } else {
        if substitutionMade {
          assert s[k + 1..i + 1] == s[k + 1..i] + [s[i]];
        }
        r := r + [s[i]];
      }
      i := i + 1;
    }
    assert i == |s|;
    assert s[..i] == s;
    if substitutionMade {
      assert s[k + 1..i] == s[k + 1..];
    }
  }

  // ---------------------------------------------------------------- stripAllFromStringIf

  /** The characters of `s` failing `function`, in their original order. */
  function KeepFailing(s: string, pred: char -> bool): string
  {
    if |s| == 0 then []
    else KeepFailing(s[..|s| - 1], pred) + (if pred(s[|s| - 1]) then [] else [s[|s| - 1]])
  }

  /**
   * KeepFailing keeps no character satisfying `function` and every character
   * failing it, as often as it occurs.
   */
  lemma {:induction false} KeepFailingKeepsExactlyFailing(s: string, pred: char -> bool)
    ensures |KeepFailing(s, pred)| <= |s|
    ensures forall i :: 0 <= i < |KeepFailing(s, pred)| ==> !pred(KeepFailing(s, pred)[i])
    ensures forall c :: !pred(c) ==> multiset(KeepFailing(s, pred))[c] == multiset(s)[c]
  {
    if |s| > 0 {
      var init, last := s[..|s| - 1], s[|s| - 1];
      assert s == init + [last];
      KeepFailingKeepsExactlyFailing(init, pred);
    }
  }

  /** Extending the scanned prefix by one character. */
  lemma KeepFailingStep(s: string, i: nat, pred: char -> bool)
    requires i < |s|
    ensures KeepFailing(s[..i + 1], pred) == KeepFailing(s[..i], pred) + (if pred(s[i]) then [] else [s[i]])
  {
    assert s[..i + 1][..i] == s[..i];
  }

  /** KeepFailing works piece by piece over a concatenation. */
  lemma {:induction false} KeepFailingConcat(a: string, b: string, pred: char -> bool)
    ensures KeepFailing(a + b, pred) == KeepFailing(a, pred) + KeepFailing(b, pred)
  {
    if |b| > 0 {
      var init, last := b[..|b| - 1], b[|b| - 1];
      assert (a + b)[..|a + b| - 1] == a + init;
      KeepFailingConcat(a, init, pred);
    } else {
      assert a + b == a;
    }
  }

  /** A string none of whose characters satisfies `pred` is kept whole. */
  lemma {:induction false} KeepFailingOfFailing(s: string, pred: char -> bool)
    requires forall i :: 0 <= i < |s| ==> !pred(s[i])
    ensures KeepFailing(s, pred) == s
  {
    if |s| > 0 {
      KeepFailingOfFailing(s[..|s| - 1], pred);
    }
  }

  /** stripAllFromStringIf: keeps exactly the characters failing `function`. */
  method StripAllFromStringIf(stringToStrip: string, pred: char -> bool) returns (r: string)
    ensures r == KeepFailing(stringToStrip, pred)
  {
    r := "";
    var i := 0;
    while i < |stringToStrip|
      invariant 0 <= i <= |stringToStrip|
      invariant r == KeepFailing(stringToStrip[..i], pred)
    {
      KeepFailingStep(stringToStrip, i, pred);
      if !pred(stringToStrip[i]) {
        r := r + [stringToStrip[i]];
      }
      i := i + 1;
    }
    assert stringToStrip[..i] == stringToStrip;
  }

  // ---------------------------------------------------------------- vectorContains

  /** vectorContains: linear search for an equal element. */
  method VectorContains<T(==)>(vectorToCheck: seq<T>, compareObject: T) returns (b: bool)
    ensures b <==> compareObject in vectorToCheck
  {
    var i := 0;
    while i < |vectorToCheck|
      invariant 0 <= i <= |vectorToCheck|
      invariant compareObject !in vectorToCheck[..i]
    {
      if vectorToCheck[i] == compareObject {
        return true;
      }
      i := i + 1;
    }
    assert vectorToCheck[..i] == vectorToCheck;
    return false;
  }
}
