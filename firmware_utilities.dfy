/**
 * The FirmwareUtilities namespace of the Arduino firmware: divisibility and
 * parity, the suffix test, splitting on a delimiter, integer powers, and the
 * absolute difference, maximum and minimum of two ints.
 */
module FirmwareUtilities {
  import opened Wrappers
  import opened CppInt
  import opened StdString
  import GeneralTemplates
  import GeneralUtilities

  // ---------------------------------------------------------------- divisibility and parity

  /**
   * isEvenlyDivisibleBy: false whenever either argument is 0, otherwise
   * whether the divisor divides the number. The sign of either argument
   * plays no part, as with `%` in C++.
   */
  function IsEvenlyDivisibleBy(numberToCheck: int, divisor: int): (r: bool)
    ensures r <==> numberToCheck != 0 && divisor != 0 && Abs(numberToCheck) % Abs(divisor) == 0
  {
    if numberToCheck == 0 || divisor == 0 then false
    else TruncRem(numberToCheck, Abs(divisor)) == 0
  }

  /** Neither sign matters. */
  lemma DivisibilityIgnoresSign(numberToCheck: int, divisor: int)
    ensures IsEvenlyDivisibleBy(numberToCheck, divisor) == IsEvenlyDivisibleBy(-numberToCheck, divisor)
    ensures IsEvenlyDivisibleBy(numberToCheck, divisor) == IsEvenlyDivisibleBy(numberToCheck, -divisor)
  {
  }

  /** isEven as written: divisible by 2, which 0 is not. */
  function IsEven(numberToCheck: int): (r: bool)
    ensures r <==> numberToCheck != 0 && numberToCheck % 2 == 0
  {
    IsEvenlyDivisibleBy(numberToCheck, 2)
  }

  /** isOdd as written: not isEven, so 0 counts as odd. */
  function IsOdd(numberToCheck: int): (r: bool)
    ensures r <==> numberToCheck == 0 || numberToCheck % 2 == 1
  {
    !IsEven(numberToCheck)
  }

  /** The zero guard makes 0 odd, so 0 and 1 have the same parity. */
  lemma ZeroIsOddAsWritten()
    ensures IsOdd(0) && !IsEven(0)
    ensures IsOdd(0) == IsOdd(1)
  {
  }

  /** isEven as intended: the written test, with 0 counted as even. */
  function IsEvenIntended(numberToCheck: int): (r: bool)
    ensures r <==> numberToCheck == 0 || IsEven(numberToCheck)
  {
    numberToCheck % 2 == 0
  }

  /** isOdd as intended: the written test, with 0 no longer odd. */
  function IsOddIntended(numberToCheck: int): (r: bool)
    ensures r <==> numberToCheck != 0 && IsOdd(numberToCheck)
  {
    !IsEvenIntended(numberToCheck)
  }

  /** The intended parity alternates from each number to the next and ignores sign. */
  lemma ParityAsIntended(n: int)
    ensures IsEvenIntended(n) != IsOddIntended(n)
    ensures IsEvenIntended(n) != IsEvenIntended(n + 1)
    ensures IsEvenIntended(n) <==> IsEvenIntended(-n)
  {
  }

  // ---------------------------------------------------------------- endsWith

  /**
   * endsWith as written: finds the FIRST occurrence of `compare` and asks
   * whether the rest of `str` from there is exactly `compare`.
   */
  function EndsWithAsWritten(str: string, compare: string): (r: bool)
    ensures r ==> GeneralUtilities.EndsWith(str, compare)
  {
    if |str| < |compare| then false
    else match Find(str, compare)
      case None => false
      case Some(p) => str[p..] == compare
  }

  /** A suffix that also occurs earlier is missed: "abab" does end with "ab". */
  lemma EndsWithAsWrittenMissesRepeat()
    ensures GeneralUtilities.EndsWith("abab", "ab")
    ensures !EndsWithAsWritten("abab", "ab")
  {
    assert OccursAt("abab", "ab", 0);
    assert "abab"[0..] != "ab";
  }

  /**
   * endsWith as intended agrees with the written test exactly when `compare`
   * occurs in `str` only as its suffix.
   */
  lemma EndsWithAsIntended(str: string, compare: string)
    requires GeneralUtilities.EndsWith(str, compare)
    requires forall j :: 0 <= j < |str| - |compare| ==> !OccursAt(str, compare, j)
    ensures EndsWithAsWritten(str, compare)
  {
    var p := |str| - |compare|;
    assert str[p..] == compare;
    assert OccursAt(str, compare, p);
  }

  // ---------------------------------------------------------------- parseToVector

  /** What the firmware's parseToVector returns: one leading delimiter dropped, then the pieces. */
  function Pieces(thingToParse: string, delimiter: char): seq<string>
  {
    GeneralTemplates.SplitPieces(GeneralTemplates.DropLeadingDelimiter(thingToParse, delimiter), delimiter)
  }

  /**
   * parseToVector: unlike the GeneralUtilities template it has no shortcut for
   * text without the delimiter, and goes straight into the splitting loop.
   */
  method ParseToVector(thingToParse: string, delimiter: char) returns (parts: seq<string>)
    ensures parts == Pieces(thingToParse, delimiter)
  {
    var copyThing := thingToParse;
    if |copyThing| > 0 && copyThing[0] == delimiter {
      copyThing := copyThing[1..];
    }
    parts := GeneralTemplates.SplitLoop(copyThing, delimiter);
  }

  /** The empty text, or the delimiter alone, gives an empty vector. */
  lemma PiecesOfNothing(delimiter: char)
    ensures Pieces("", delimiter) == []
    ensures Pieces([delimiter], delimiter) == []
  {
    assert [delimiter][1..] == "";
  }

  /** Otherwise the firmware and the template versions give the same pieces. */
  lemma PiecesAgreeWithTemplate(thingToParse: string, delimiter: char)
    requires thingToParse != "" && thingToParse != [delimiter]
    ensures Pieces(thingToParse, delimiter) == GeneralTemplates.ParseToVectorSpec(thingToParse, delimiter)
  {
    var c := GeneralTemplates.DropLeadingDelimiter(thingToParse, delimiter);
    assert c != [];
    if delimiter !in c {
      assert IndexOf(c, delimiter).None?;
    }
  }

  /** Text that neither starts nor ends with the delimiter is its pieces joined by the delimiter. */
  lemma JoinPieces(thingToParse: string, delimiter: char)
    requires thingToParse == [] || (thingToParse[0] != delimiter && thingToParse[|thingToParse| - 1] != delimiter)
    ensures GeneralTemplates.Join(Pieces(thingToParse, delimiter), delimiter) == thingToParse
  {
    GeneralTemplates.JoinSplitPieces(thingToParse, delimiter);
  }

  // ---------------------------------------------------------------- intExp

  /** base raised to a natural power. */
  function Power(base: int, exponent: nat): int
  {
    if exponent == 0 then 1 else base * Power(base, exponent - 1)
  }

  /** Powers multiply when their exponents add. */
  lemma {:induction false} PowerAdd(base: int, m: nat, n: nat)
    ensures Power(base, m + n) == Power(base, m) * Power(base, n)
  {
    if m > 0 {
      PowerAdd(base, m - 1, n);
      assert Power(base, m + n) == base * Power(base, m - 1 + n);
    }
  }

  /**
   * intExp: 1 for the exponent 0, `base` for a negative exponent (the loop
   * never runs), otherwise base to that power. The overflow of a 16-bit AVR
   * `int` is not modelled.
   */
  method IntExp(base: int, super: int) returns (total: int)
    ensures super == 0 ==> total == 1
    ensures super < 0 ==> total == base
    ensures super > 0 ==> total == Power(base, super)
  {
    if super == 0 {
      return 1;
    }
    total := base;
    var i := 1;
    while i < super
      invariant super > 0 ==> 1 <= i <= super && total == Power(base, i)
      invariant super < 0 ==> total == base
    {
      total := total * base;
      i := i + 1;
    }
  }

  // ---------------------------------------------------------------- tAbs, tMax, tMin

  /** tAbs: the distance between the two values. */
  function TAbs(lhs: int, rhs: int): (r: int)
    ensures r >= 0 && (r == lhs - rhs || r == rhs - lhs)
  {
    if lhs - rhs >= 0 then lhs - rhs else -1 * (lhs - rhs)
  }

  /** tMax: the larger value. */
  function TMax(lhs: int, rhs: int): (r: int)
    ensures r >= lhs && r >= rhs && (r == lhs || r == rhs)
  {
    if lhs >= rhs then lhs else rhs
  }

  /** tMin: the smaller value. */
  function TMin(lhs: int, rhs: int): (r: int)
    ensures r <= lhs && r <= rhs && (r == lhs || r == rhs)
  {
    if lhs <= rhs then lhs else rhs
  }

  /** The distance is the maximum less the minimum, and is symmetric. */
  lemma DistanceIsMaxLessMin(lhs: int, rhs: int)
    ensures TAbs(lhs, rhs) == TMax(lhs, rhs) - TMin(lhs, rhs)
    ensures TAbs(lhs, rhs) == TAbs(rhs, lhs)
    ensures TMax(lhs, rhs) + TMin(lhs, rhs) == lhs + rhs
  {
  }
}
