/**
 * The fixed-width bitset: N bits kept in one `size_t` word, indexed from the
 * most significant used bit (little-endian) or from bit 0 (big-endian). The
 * word is updated in place with `|=` and `&= ~`, so the bitset is an object
 * whose word is a field; the word is a sequence of its 64 bits, bit k at
 * index k, and `Bits()` is the bitset's abstract view, index by index.
 */
module Bitsets {
  import opened Wrappers
  import opened GeneralUtilities

  datatype Endian = LittleEndian | BigEndian

  datatype BitsetError =
    | IndexOutOfRange(index: nat, numberOfBits: nat)
    | LengthMismatch(length: nat, numberOfBits: nat)

  /**
   * `1 << k` is a shift of the `int` 1, so a position must stay below 31 for
   * the mask to be a single positive bit.
   */
  const MAX_BITS: nat := 31

  // ---------------------------------------------------------------- the 64-bit word

  const WORD_BITS: nat := 64

  /** A `size_t`: bit k of the value at index k. */
  type Word = w: seq<bool> | |w| == WORD_BITS witness seq(WORD_BITS, _ => false)

  /** The value 0. */
  function ZeroWord(): (w: Word)
    ensures forall k :: 0 <= k < WORD_BITS ==> !w[k]
  {
    seq(WORD_BITS, _ => false)
  }

  /** `1 << k` for k < 31: the `int` mask converts to the `size_t` with bit k alone set. */
  function Mask(k: nat): (w: Word)
    requires k < MAX_BITS
    ensures forall j :: 0 <= j < WORD_BITS ==> (w[j] <==> j == k)
  {
    seq(WORD_BITS, j => j == k)
  }

  /** `a | b`. */
  function Or(a: Word, b: Word): (w: Word)
    ensures forall j :: 0 <= j < WORD_BITS ==> (w[j] <==> a[j] || b[j])
  {
    seq(WORD_BITS, j requires 0 <= j < WORD_BITS => a[j] || b[j])
  }

  /**
   * `a & ~b`; in the source `~(1 << k)` is an `int` that sign-extends to
   * every bit but k, the complement of the mask in the word.
   */
  function AndNot(a: Word, b: Word): (w: Word)
    ensures forall j :: 0 <= j < WORD_BITS ==> (w[j] <==> a[j] && !b[j])
  {
    seq(WORD_BITS, j requires 0 <= j < WORD_BITS => a[j] && !b[j])
  }

  // ---------------------------------------------------------------- index to position

  /** The bit position of index i: counted down from the top used bit for little-endian. */
  function Position(numberOfBits: nat, endian: Endian, i: nat): (p: nat)
    requires i < numberOfBits
    ensures p < numberOfBits
    ensures endian == LittleEndian ==> p + i + 1 == numberOfBits
    ensures endian == BigEndian ==> p == i
  {
    if endian == LittleEndian then numberOfBits - i - 1 else i
  }

  /** Distinct indexes name distinct bits, for either byte order. */
  lemma PositionInjective(numberOfBits: nat, endian: Endian, i: nat, j: nat)
    requires i < numberOfBits && j < numberOfBits && i != j
    ensures Position(numberOfBits, endian, i) != Position(numberOfBits, endian, j)
  {
  }

  /** The bits of a word, index by index, as `test` reads them. */
  function BitsOf(v: Word, numberOfBits: nat, endian: Endian): (bits: seq<bool>)
    requires numberOfBits <= MAX_BITS
    ensures |bits| == numberOfBits
  {
    seq(numberOfBits, i requires 0 <= i < numberOfBits => v[Position(numberOfBits, endian, i)])
  }

  /** The bits at and above position n, which no index reaches, agree. */
  predicate SameAbove(a: Word, b: Word, n: nat)
    requires n <= WORD_BITS
  {
    a[n..] == b[n..]
  }

  /** set(i) on the word: index i becomes true and every other index keeps its value. */
  lemma BitsAfterSet(v: Word, numberOfBits: nat, endian: Endian, i: nat)
    requires numberOfBits <= MAX_BITS && i < numberOfBits
    ensures BitsOf(Or(v, Mask(Position(numberOfBits, endian, i))), numberOfBits, endian) == BitsOf(v, numberOfBits, endian)[i := true]
  {
    var before := BitsOf(v, numberOfBits, endian);
    var after := BitsOf(Or(v, Mask(Position(numberOfBits, endian, i))), numberOfBits, endian);
    forall j | 0 <= j < numberOfBits
      ensures after[j] == before[i := true][j]
    {
      if j != i {
        PositionInjective(numberOfBits, endian, i, j);
      }
    }
    SameEntries(after, before[i := true]);
  }

  /** Or-ing in the mask of a position below N leaves the unused bits alone. */
  lemma AboveAfterSet(v: Word, numberOfBits: nat, p: nat)
    requires p < numberOfBits <= MAX_BITS
    ensures SameAbove(Or(v, Mask(p)), v, numberOfBits)
  {
    SameEntries(Or(v, Mask(p))[numberOfBits..], v[numberOfBits..]);
  }

  /** reset(i) on the word: index i becomes false and every other index keeps its value. */
  lemma BitsAfterReset(v: Word, numberOfBits: nat, endian: Endian, i: nat)
    requires numberOfBits <= MAX_BITS && i < numberOfBits
    ensures BitsOf(AndNot(v, Mask(Position(numberOfBits, endian, i))), numberOfBits, endian) == BitsOf(v, numberOfBits, endian)[i := false]
  {
    var before := BitsOf(v, numberOfBits, endian);
    var after := BitsOf(AndNot(v, Mask(Position(numberOfBits, endian, i))), numberOfBits, endian);
    forall j | 0 <= j < numberOfBits
      ensures after[j] == before[i := false][j]
    {
      if j != i {
        PositionInjective(numberOfBits, endian, i, j);
      }
    }
    SameEntries(after, before[i := false]);
  }

  /** Clearing a position below N leaves the unused bits alone. */
  lemma AboveAfterReset(v: Word, numberOfBits: nat, p: nat)
    requires p < numberOfBits <= MAX_BITS
    ensures SameAbove(AndNot(v, Mask(p)), v, numberOfBits)
  {
    SameEntries(AndNot(v, Mask(p))[numberOfBits..], v[numberOfBits..]);
  }

  /** Sequences of flags that agree index by index are equal. */
  lemma SameEntries(a: seq<bool>, b: seq<bool>)
    requires |a| == |b| && forall j :: 0 <= j < |a| ==> a[j] == b[j]
    ensures a == b
  {
  }

  /** The zero word has no index set. */
  lemma BitsOfZero(numberOfBits: nat, endian: Endian)
    requires numberOfBits <= MAX_BITS
    ensures BitsOf(ZeroWord(), numberOfBits, endian) == seq(numberOfBits, _ => false)
  {
    SameEntries(BitsOf(ZeroWord(), numberOfBits, endian), seq(numberOfBits, _ => false));
  }

  // ---------------------------------------------------------------- counting

  /** The number of true entries. */
  function CountTrue(bits: seq<bool>): nat
  {
    if |bits| == 0 then 0 else CountTrue(bits[..|bits| - 1]) + (if bits[|bits| - 1] then 1 else 0)
  }

  /** The count is at most the width, zero exactly when nothing is set and the width exactly when everything is. */
  lemma {:induction false} CountTrueBounds(bits: seq<bool>)
    ensures CountTrue(bits) <= |bits|
    ensures CountTrue(bits) == 0 <==> true !in bits
    ensures CountTrue(bits) == |bits| <==> false !in bits
  {
    if |bits| > 0 {
      var init := bits[..|bits| - 1];
      CountTrueBounds(init);
      assert bits == init + [bits[|bits| - 1]];
    }
  }

  // ---------------------------------------------------------------- the guard of reset, flip and test

  /** The range check of reset, flip and test as written: only indexes above N are refused. */
  function RejectsAsWritten(numberOfBits: nat, whichOne: nat): bool
  {
    whichOne > numberOfBits
  }

  /** The range check of set, and the intended one everywhere: indexes from N on are refused. */
  function Rejects(numberOfBits: nat, whichOne: nat): (r: bool)
    ensures !r <==> whichOne < numberOfBits
  {
    whichOne >= numberOfBits
  }

  /** The little-endian shift amount `m_numberOfBits - whichOne - 1`, computed in `size_t`. */
  function ShiftAmountAsWritten(numberOfBits: nat, whichOne: nat): (r: nat)
    ensures r < 0x1_0000_0000_0000_0000
  {
    (numberOfBits - whichOne - 1) % 0x1_0000_0000_0000_0000
  }

  /**
   * Index N passes the check of reset, flip and test as written, and its
   * little-endian shift amount wraps to the largest `size_t`, a shift past
   * the width of the word; the intended check refuses it.
   */
  lemma GuardAsWrittenAdmitsWidth(numberOfBits: nat)
    ensures !RejectsAsWritten(numberOfBits, numberOfBits)
    ensures ShiftAmountAsWritten(numberOfBits, numberOfBits) == 0xFFFF_FFFF_FFFF_FFFF
    ensures Rejects(numberOfBits, numberOfBits)
  {
  }

  // ---------------------------------------------------------------- the object

  class Bitset {
    const numberOfBits: nat
    const endian: Endian
    var underlyingValue: Word

    /** The bits, index by index. */
    function Bits(): (bits: seq<bool>)
      requires numberOfBits <= MAX_BITS
      reads this
      ensures |bits| == numberOfBits
    {
      BitsOf(underlyingValue, numberOfBits, endian)
    }

    /** The empty bitset of N bits. */
    constructor (n: nat, e: Endian)
      requires n <= MAX_BITS
      ensures numberOfBits == n && endian == e && underlyingValue == ZeroWord()
      ensures Bits() == seq(n, _ => false)
    {
      numberOfBits, endian, underlyingValue := n, e, ZeroWord();
      new;
      BitsOfZero(n, e);
    }

    /** The bitset whose index i holds bit i of `initialValue`, through setMultiple. */
    constructor FromValue(n: nat, initialValue: Word, e: Endian)
      requires n <= MAX_BITS
      ensures numberOfBits == n && endian == e
      ensures Bits() == initialValue[..n]
      ensures SameAbove(underlyingValue, ZeroWord(), n)
    {
      numberOfBits, endian, underlyingValue := n, e, ZeroWord();
      new;
      SetMultiple(initialValue);
    }

    /** test: the bit at an index, refused from index N on. */
    function Test(whichOne: nat): (r: Result<bool, BitsetError>)
      requires numberOfBits <= MAX_BITS
      reads this
      ensures r.Ok? <==> whichOne < numberOfBits
      ensures r.Ok? ==> r.value == Bits()[whichOne]
      ensures r.Err? ==> r.error == IndexOutOfRange(whichOne, numberOfBits)
    {
      if Rejects(numberOfBits, whichOne) then Err(IndexOutOfRange(whichOne, numberOfBits))
      else Ok(underlyingValue[Position(numberOfBits, endian, whichOne)])
    }

    /** set(i): index i becomes true, nothing else changes; refused from index N on. */
    method Set(whichOne: nat) returns (r: Result<(), BitsetError>)
      requires numberOfBits <= MAX_BITS
      modifies this
      ensures whichOne >= numberOfBits ==>
        r == Err(IndexOutOfRange(whichOne, numberOfBits)) && underlyingValue == old(underlyingValue)
      ensures whichOne < numberOfBits ==> r == Ok(())
      ensures whichOne < numberOfBits ==> Bits() == old(Bits())[whichOne := true]
      ensures SameAbove(underlyingValue, old(underlyingValue), numberOfBits)
    {
      if Rejects(numberOfBits, whichOne) {
        return Err(IndexOutOfRange(whichOne, numberOfBits));
      }
      BitsAfterSet(underlyingValue, numberOfBits, endian, whichOne);
      AboveAfterSet(underlyingValue, numberOfBits, Position(numberOfBits, endian, whichOne));
      underlyingValue := Or(underlyingValue, Mask(Position(numberOfBits, endian, whichOne)));
      return Ok(());
    }

    /** reset(i): index i becomes false, nothing else changes; refused from index N on. */
    method Reset(whichOne: nat) returns (r: Result<(), BitsetError>)
      requires numberOfBits <= MAX_BITS
      modifies this
      ensures whichOne >= numberOfBits ==>
        r == Err(IndexOutOfRange(whichOne, numberOfBits)) && underlyingValue == old(underlyingValue)
      ensures whichOne < numberOfBits ==> r == Ok(())
      ensures whichOne < numberOfBits ==> Bits() == old(Bits())[whichOne := false]
      ensures SameAbove(underlyingValue, old(underlyingValue), numberOfBits)
    {
      if Rejects(numberOfBits, whichOne) {
        return Err(IndexOutOfRange(whichOne, numberOfBits));
      }
      BitsAfterReset(underlyingValue, numberOfBits, endian, whichOne);
      AboveAfterReset(underlyingValue, numberOfBits, Position(numberOfBits, endian, whichOne));
      underlyingValue := AndNot(underlyingValue, Mask(Position(numberOfBits, endian, whichOne)));
      return Ok(());
    }

    /** flip(i): index i is negated, nothing else changes; refused from index N on. */
    method Flip(whichOne: nat) returns (r: Result<(), BitsetError>)
      requires numberOfBits <= MAX_BITS
      modifies this
      ensures whichOne >= numberOfBits ==>
        r == Err(IndexOutOfRange(whichOne, numberOfBits)) && underlyingValue == old(underlyingValue)
      ensures whichOne < numberOfBits ==> r == Ok(())
      ensures whichOne < numberOfBits ==> Bits() == old(Bits())[whichOne := !old(Bits())[whichOne]]
      ensures SameAbove(underlyingValue, old(underlyingValue), numberOfBits)
    {
      if Rejects(numberOfBits, whichOne) {
        return Err(IndexOutOfRange(whichOne, numberOfBits));
      }
      if Test(whichOne) == Ok(true) {
        r := Reset(whichOne);
      } else {
        r := Set(whichOne);
      }
    }

    /** reset(): every bit of the word is cleared. */
    method ResetAll()
      requires numberOfBits <= MAX_BITS
      modifies this
      ensures underlyingValue == ZeroWord()
      ensures Bits() == seq(numberOfBits, _ => false)
    {
      underlyingValue := ZeroWord();
      BitsOfZero(numberOfBits, endian);
    }

    /** set(): every index becomes true; the unused bits keep theirs. */
    method SetAll()
      requires numberOfBits <= MAX_BITS
      modifies this
      ensures Bits() == seq(numberOfBits, _ => true)
      ensures SameAbove(underlyingValue, old(underlyingValue), numberOfBits)
    {
      var i := 0;
      while i < numberOfBits
        invariant 0 <= i <= numberOfBits
        invariant Bits() == seq(numberOfBits, j requires 0 <= j < numberOfBits => j < i || old(Bits())[j])
        invariant SameAbove(underlyingValue, old(underlyingValue), numberOfBits)
      {
        var _ := Set(i);
        i := i + 1;
      }
    }

    /** flip(): every index is negated; the unused bits keep theirs. */
    method FlipAll()
      requires numberOfBits <= MAX_BITS
      modifies this
      ensures Bits() == seq(numberOfBits, j requires 0 <= j < numberOfBits => !old(Bits())[j])
      ensures SameAbove(underlyingValue, old(underlyingValue), numberOfBits)
    {
      var i := 0;
      while i < numberOfBits
        invariant 0 <= i <= numberOfBits
        invariant Bits() == seq(numberOfBits, j requires 0 <= j < numberOfBits => if j < i then !old(Bits())[j] else old(Bits())[j])
        invariant SameAbove(underlyingValue, old(underlyingValue), numberOfBits)
      {
        if Test(i) == Ok(true) {
          var _ := Reset(i);
        } else {
          var _ := Set(i);
        }
        i := i + 1;
      }
    }

    /** setMultiple: index i takes bit i of the argument, for every index. */
    method SetMultiple(whatByte: Word)
      requires numberOfBits <= MAX_BITS
      modifies this
      ensures Bits() == whatByte[..numberOfBits]
      ensures SameAbove(underlyingValue, old(underlyingValue), numberOfBits)
    {
      var i := 0;
      while i < numberOfBits
        invariant 0 <= i <= numberOfBits
        invariant Bits() == seq(numberOfBits, j requires 0 <= j < numberOfBits => if j < i then whatByte[j] else old(Bits())[j])
        invariant SameAbove(underlyingValue, old(underlyingValue), numberOfBits)
      {
        if whatByte[i] {
          var _ := Set(i);
        } else {
          var _ := Reset(i);
        }
        i := i + 1;
      }
    }

    /**
     * setFromString: after an optional leading "0b" the text must have exactly
     * N characters; index i is then false for '0' and true for anything else.
     */
    method SetFromString(str: string) returns (r: Result<(), BitsetError>)
      requires numberOfBits <= MAX_BITS
      modifies this
      ensures var digits := if StartsWith(str, "0b") then str[2..] else str;
        && (r.Err? <==> |digits| != numberOfBits)
        && (r.Err? ==> r.error == LengthMismatch(|digits|, numberOfBits) && underlyingValue == old(underlyingValue))
        && (r.Ok? ==> Bits() == seq(numberOfBits, i requires 0 <= i < numberOfBits => digits[i] != '0'))
      ensures SameAbove(underlyingValue, old(underlyingValue), numberOfBits)
    {
      var temp := str;
      if StartsWith(temp, "0b") {
        temp := temp[2..];
      }
      if |temp| != numberOfBits {
        return Err(LengthMismatch(|temp|, numberOfBits));
      }
      var i := 0;
      while i < |temp|
        invariant 0 <= i <= |temp|
        invariant Bits() == seq(numberOfBits, j requires 0 <= j < numberOfBits => if j < i then temp[j] != '0' else old(Bits())[j])
        invariant SameAbove(underlyingValue, old(underlyingValue), numberOfBits)
      {
        if temp[i] == '0' {
          var _ := Reset(i);
        } else {
          var _ := Set(i);
        }
        i := i + 1;
      }
      return Ok(());
    }

    /** any: some index is set. */
    method AnySet() returns (b: bool)
      requires numberOfBits <= MAX_BITS
      ensures b <==> true in Bits()
    {
      var i := 0;
      while i < numberOfBits
        invariant 0 <= i <= numberOfBits
        invariant true !in Bits()[..i]
      {
        if Test(i) == Ok(true) {
          assert Bits()[i];
          return true;
        }
        i := i + 1;
      }
      assert Bits()[..i] == Bits();
      return false;
    }

    /** none: no index is set. */
    method NoneSet() returns (b: bool)
      requires numberOfBits <= MAX_BITS
      ensures b <==> true !in Bits()
    {
      var i := 0;
      while i < numberOfBits
        invariant 0 <= i <= numberOfBits
        invariant true !in Bits()[..i]
      {
        if Test(i) == Ok(true) {
          assert Bits()[i];
          return false;
        }
        i := i + 1;
      }
      assert Bits()[..i] == Bits();
      return true;
    }

    /** all: every index is set. */
    method AllSet() returns (b: bool)
      requires numberOfBits <= MAX_BITS
      ensures b <==> false !in Bits()
    {
      var i := 0;
      while i < numberOfBits
        invariant 0 <= i <= numberOfBits
        invariant false !in Bits()[..i]
      {
        if Test(i) != Ok(true) {
          assert !Bits()[i];
          return false;
        }
        i := i + 1;
      }
      assert Bits()[..i] == Bits();
      return true;
    }

    /** count: the number of set indexes. */
    method Count() returns (returnCount: nat)
      requires numberOfBits <= MAX_BITS
      ensures returnCount == CountTrue(Bits())
      ensures returnCount <= numberOfBits
    {
      returnCount := 0;
      var i := 0;
      while i < numberOfBits
        invariant 0 <= i <= numberOfBits
        invariant returnCount == CountTrue(Bits()[..i])
      {
        assert Bits()[..i + 1][..i] == Bits()[..i];
        if Test(i) == Ok(true) {
          returnCount := returnCount + 1;
        }
        i := i + 1;
      }
      assert Bits()[..i] == Bits();
      CountTrueBounds(Bits());
    }
  }

  /**
   * fromString constructor: the bitset of N bits read from the text, or the
   * length error setFromString raises.
   */
  method FromString(n: nat, str: string, e: Endian) returns (r: Result<Bitset, BitsetError>)
    requires n <= MAX_BITS
    ensures var digits := if StartsWith(str, "0b") then str[2..] else str;
      && (r.Err? <==> |digits| != n)
      && (r.Err? ==> r.error == LengthMismatch(|digits|, n))
      && (r.Ok? ==> fresh(r.value) && r.value.numberOfBits == n && r.value.endian == e)
      && (r.Ok? ==> r.value.Bits() == seq(n, i requires 0 <= i < n => digits[i] != '0'))
  {
    var b := new Bitset(n, e);
    var outcome := b.SetFromString(str);
    if outcome.Err? {
      return Err(outcome.error);
    }
    return Ok(b);
  }
}
