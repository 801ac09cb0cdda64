/**
 * The string helpers of the GeneralUtilities namespace: trimming, stripping,
 * prefix and suffix tests, zero padding, decimal-digit and hexadecimal
 * conversions and file-name splitting. Helpers whose source is a loop over a
 * local string are methods proved against a specification function or a
 * direct statement of their result.
 */
module GeneralUtilities {
  import opened Wrappers
  import opened CppInt
  import opened StdString

  /** ASCII_WHITESPACE_MAXIMUM_VALUE: every character code up to this counts as whitespace. */
  const ASCII_WHITESPACE_MAXIMUM_VALUE: int := 32

  // ---------------------------------------------------------------- trimming

  /** trimWhitespaceFromBeginning: the suffix left once the leading spaces are removed. */
  method TrimWhitespaceFromBeginning(str: string) returns (r: string)
    ensures |r| <= |str| && r == str[|str| - |r|..]
    ensures r == [] || r[0] != ' '
    ensures forall i :: 0 <= i < |str| - |r| ==> str[i] == ' '
  {
    if |str| == 0 {
      return str;
    }
    r := str;
    while |r| != 0 && r[0] == ' '
      invariant |r| <= |str| && r == str[|str| - |r|..]
      invariant forall i :: 0 <= i < |str| - |r| ==> str[i] == ' '
    {
      r := r[1..];
    }
  }

  /** trimWhitespaceFromEnd: the prefix left once the trailing spaces are removed. */
  method TrimWhitespaceFromEnd(str: string) returns (r: string)
    ensures |r| <= |str| && r == str[..|r|]
    ensures r == [] || r[|r| - 1] != ' '
    ensures forall i :: |r| <= i < |str| ==> str[i] == ' '
  {
    if |str| == 0 {
      return str;
    }
    r := str;
    while |r| != 0 && r[|r| - 1] == ' '
      invariant |r| <= |str| && r == str[..|r|]
      invariant forall i :: |r| <= i < |str| ==> str[i] == ' '
    {
      r := r[..|r| - 1];
    }
  }

  /** trimWhitespace: the middle part of `str` between its leading and trailing spaces. */
  method TrimWhitespace(str: string) returns (r: string, ghost start: nat)
    ensures start + |r| <= |str| && r == str[start..start + |r|]
    ensures r == [] || (r[0] != ' ' && r[|r| - 1] != ' ')
    ensures forall i :: 0 <= i < start ==> str[i] == ' '
    ensures forall i :: start + |r| <= i < |str| ==> str[i] == ' '
  {
    if |str| == 0 {
      return str, 0;
    }
    var front := TrimWhitespaceFromBeginning(str);
    start := |str| - |front|;
    r := TrimWhitespaceFromEnd(front);
    assert r == front[..|r|];
    assert forall i :: start + |r| <= i < |str| ==> str[i] == front[i - start];
  }

  /** isWhitespace: every character is at most ASCII_WHITESPACE_MAXIMUM_VALUE. */
  method IsWhitespace(stringToCheck: string) returns (b: bool)
    ensures b <==> forall i :: 0 <= i < |stringToCheck| ==> stringToCheck[i] as int <= ASCII_WHITESPACE_MAXIMUM_VALUE
  {
    var i := 0;
    while i < |stringToCheck|
      invariant 0 <= i <= |stringToCheck|
      invariant forall j :: 0 <= j < i ==> stringToCheck[j] as int <= ASCII_WHITESPACE_MAXIMUM_VALUE
    {
      if stringToCheck[i] as int > ASCII_WHITESPACE_MAXIMUM_VALUE {
        return false;
      }
      i := i + 1;
    }
    return true;
  }

  /** tWhitespace: `howMuch` spaces. */
  method TWhitespace(howMuch: nat) returns (r: string)
    ensures |r| == howMuch && forall i :: 0 <= i < |r| ==> r[i] == ' '
  {
    r := "";
    var i := 0;
    while i < howMuch
      invariant 0 <= i <= howMuch
      invariant |r| == i && forall j :: 0 <= j < |r| ==> r[j] == ' '
    {
      r := r + " ";
      i := i + 1;
    }
  }

  // ---------------------------------------------------------------- stripping

  /** stripFromString: removes the first occurrence of `whatToStrip`, if there is one. */
  function StripFromString(stringToStrip: string, whatToStrip: string): (r: string)
    ensures Find(stringToStrip, whatToStrip).None? ==> r == stringToStrip
    ensures Find(stringToStrip, whatToStrip).Some? ==>
      var p := Find(stringToStrip, whatToStrip).value;
      |r| == |stringToStrip| - |whatToStrip| &&
      r == stringToStrip[..p] + stringToStrip[p + |whatToStrip|..]
  {
    match Find(stringToStrip, whatToStrip)
    case None => stringToStrip
    case Some(foundPosition) =>
      if foundPosition == 0 then
        stringToStrip[|whatToStrip|..]
      else if foundPosition == |stringToStrip| - |whatToStrip| then
        stringToStrip[..foundPosition]
      else
        stringToStrip[..foundPosition] + stringToStrip[foundPosition + |whatToStrip|..]
  }

  /** Repeated stripping of the first occurrence until none is left. */
  function StripAll(s: string, w: string): (r: string)
    requires |w| > 0
    ensures !Contains(r, w)
    ensures |r| <= |s|
    decreases |s|
  {
    if Find(s, w).None? then s else StripAll(StripFromString(s, w), w)
  }

  /** stripAllFromString: strips `whatToStrip` until it no longer occurs. */
  method StripAllFromString(stringToStrip: string, whatToStrip: string) returns (r: string)
    requires |whatToStrip| > 0
    ensures r == StripAll(stringToStrip, whatToStrip)
    ensures !Contains(r, whatToStrip)
  {
    r := stringToStrip;
    if Find(r, whatToStrip).None? {
      return r;
    }
    while Find(r, whatToStrip).Some?
      invariant StripAll(r, whatToStrip) == StripAll(stringToStrip, whatToStrip)
      decreases |r|
    {
      r := StripFromString(r, whatToStrip);
    }
  }

  /** Stripping all occurrences leaves text without the pattern unchanged, so it is idempotent. */
  lemma StripAllIdempotent(s: string, w: string)
    requires |w| > 0
    ensures !Contains(s, w) ==> StripAll(s, w) == s
    ensures StripAll(StripAll(s, w), w) == StripAll(s, w)
  {
  }

  /**
   * The empty pattern is found at position 0 of every string and stripping it
   * changes nothing, so the loop of stripAllFromString makes no progress on
   * it; StripAll and StripAllFromString require a non-empty pattern.
   */
  lemma EmptyPatternMakesNoProgress(s: string)
    ensures Find(s, "") == Some(0)
    ensures StripFromString(s, "") == s
  {
    assert s[0..0] == "";
  }

  // ---------------------------------------------------------------- prefix and suffix

  /** startsWith: `substr(0, match.length()) == match`. */
  function StartsWith(stringToCheck: string, matchString: string): (r: bool)
    ensures r <==> matchString <= stringToCheck
  {
    var n := if |matchString| < |stringToCheck| then |matchString| else |stringToCheck|;
    stringToCheck[..n] == matchString
  }

  /** endsWith: compares the tail of the same length as the match string. */
  function EndsWith(stringToCheck: string, matchString: string): (r: bool)
    ensures r <==> (|matchString| <= |stringToCheck| &&
      forall i :: 0 <= i < |matchString| ==> stringToCheck[|stringToCheck| - |matchString| + i] == matchString[i])
  {
    if |stringToCheck| < |matchString| then false
    else
      var startPosition := |stringToCheck| - |matchString|;
      assert forall i :: 0 <= i < |matchString| ==> stringToCheck[startPosition..][i] == stringToCheck[startPosition + i];
      stringToCheck[startPosition..] == matchString
  }

  /** A string ends with anything appended to it and starts with anything it was appended to. */
  lemma AffixesOfConcatenation(front: string, back: string)
    ensures StartsWith(front + back, front)
    ensures EndsWith(front + back, back)
  {
    assert forall i :: 0 <= i < |back| ==> (front + back)[|front| + i] == back[i];
  }

  // ---------------------------------------------------------------- fixed width

  function Zeros(n: nat): (r: string)
    ensures |r| == n && forall i :: 0 <= i < n ==> r[i] == '0'
  {
    if n == 0 then "" else "0" + Zeros(n - 1)
  }

  /** The zero-padded form toFixedWidth produces. */
  function ZeroPadded(inputString: string, fixedWidth: nat): (r: string)
    ensures |r| == if |inputString| < fixedWidth then fixedWidth else |inputString|
    ensures r[|r| - |inputString|..] == inputString
    ensures forall i :: 0 <= i < |r| - |inputString| ==> r[i] == '0'
  {
    if |inputString| < fixedWidth then Zeros(fixedWidth - |inputString|) + inputString else inputString
  }

  /** toFixedWidth: prepends '0' until the string is `fixedWidth` long. */
  method ToFixedWidth(inputString: string, fixedWidth: nat) returns (r: string)
    ensures r == ZeroPadded(inputString, fixedWidth)
  {
    r := inputString;
    var copyLength := |r|;
    if copyLength < fixedWidth {
      copyLength := fixedWidth - copyLength;
      ghost var added: nat := 0;
      while copyLength > 0
        invariant 0 <= copyLength && added + copyLength + |inputString| == fixedWidth
        invariant r == Zeros(added) + inputString
      {
        assert "0" + (Zeros(added) + inputString) == Zeros(added + 1) + inputString;
        r := "0" + r;
        copyLength := copyLength - 1;
        added := added + 1;
      }
      assert added == fixedWidth - |inputString|;
    }
  }

  // ---------------------------------------------------------------- decimal digits

  function IsDigit(c: char): (r: bool)
    ensures r <==> '0' <= c <= '9'
  {
    c == '0' || c == '1' || c == '2' || c == '3' || c == '4' ||
    c == '5' || c == '6' || c == '7' || c == '8' || c == '9'
  }

  /** charToInt: the digit's value; any other character maps to 0. */
  function CharToInt(charToConvert: char): (r: int)
    ensures IsDigit(charToConvert) ==> r == charToConvert as int - '0' as int
    ensures !IsDigit(charToConvert) ==> r == 0
  {
    match charToConvert
    case '0' => 0 case '1' => 1 case '2' => 2 case '3' => 3 case '4' => 4
    case '5' => 5 case '6' => 6 case '7' => 7 case '8' => 8 case '9' => 9
    case _ => 0
  }

  /** intToChar: the digit for 0..9; any other value maps to '0'. */
  function IntToChar(intToConvert: int): (r: char)
    ensures 0 <= intToConvert <= 9 ==> r as int == '0' as int + intToConvert
    ensures !(0 <= intToConvert <= 9) ==> r == '0'
  {
    match intToConvert
    case 0 => '0' case 1 => '1' case 2 => '2' case 3 => '3' case 4 => '4'
    case 5 => '5' case 6 => '6' case 7 => '7' case 8 => '8' case 9 => '9'
    case _ => '0'
  }

  /** The digit conversions are inverse to each other on 0..9 and on '0'..'9'. */
  lemma DigitRoundTrip(n: int, c: char)
    ensures 0 <= n <= 9 ==> CharToInt(IntToChar(n)) == n
    ensures IsDigit(c) ==> IntToChar(CharToInt(c)) == c
  {
  }

  // ---------------------------------------------------------------- file names

  predicate IsPathSeparator(c: char)
  {
    c == '/' || c == '\\'
  }

  /** splitFileName: directory and file name around the last '/' or '\\'; ("", "") when there is none. */
  function SplitFileName(fullPath: string): (r: (string, string))
    ensures (forall i :: 0 <= i < |fullPath| ==> !IsPathSeparator(fullPath[i])) ==> r == ("", "")
    ensures (exists i :: 0 <= i < |fullPath| && IsPathSeparator(fullPath[i])) ==>
      |r.0| < |fullPath| && IsPathSeparator(fullPath[|r.0|]) &&
      fullPath == r.0 + [fullPath[|r.0|]] + r.1 &&
      forall i :: 0 <= i < |r.1| ==> !IsPathSeparator(r.1[i])
  {
    match FindLastOf(fullPath, {'/', '\\'})
    case None => ("", "")
    case Some(lastFoundSlash) =>
      var filePath, fileName := fullPath[..lastFoundSlash], fullPath[lastFoundSlash + 1..];
      assert fullPath == filePath + [fullPath[lastFoundSlash]] + fileName;
      assert forall i :: 0 <= i < |fileName| ==> fileName[i] == fullPath[lastFoundSlash + 1 + i];
      (filePath, fileName)
  }

  // ---------------------------------------------------------------- hexadecimal

  function HexChar(d: nat): (c: char)
    requires d < 16
    ensures IsHexDigit(c) && HexDigitValue(c) == d && !('A' <= c <= 'Z')
  {
    "0123456789abcdef"[d]
  }

  predicate IsHexDigit(c: char)
  {
    '0' <= c <= '9' || 'a' <= c <= 'f' || 'A' <= c <= 'F'
  }

  function HexDigitValue(c: char): (v: nat)
    requires IsHexDigit(c)
    ensures v < 16
  {
    if '0' <= c <= '9' then c as nat - '0' as nat
    else if 'a' <= c <= 'f' then c as nat - 'a' as nat + 10
    else c as nat - 'A' as nat + 10
  }

  /** The lower-case base-16 digits of `m`, most significant first, without leading zeros. */
  function HexDigits(m: nat): (r: string)
    ensures forall i :: 0 <= i < |r| ==> IsHexDigit(r[i]) && !('A' <= r[i] <= 'Z')
    ensures m == 0 <==> r == []
    ensures m > 0 ==> r[0] != '0'
  {
    if m == 0 then "" else HexDigits(m / 16) + [HexChar(m % 16)]
  }

  /** What toHexString returns: "0" for zero, otherwise the digits of the magnitude. */
  function HexString(n: int): (r: string)
    ensures |r| > 0
    ensures forall i :: 0 <= i < |r| ==> IsHexDigit(r[i]) && !('A' <= r[i] <= 'Z')
    ensures r[0] == '0' ==> r == "0"
  {
    if n == 0 then "0" else HexDigits(Abs(n))
  }

  /** The value of a string of hexadecimal digits, most significant first. */
  function HexValue(digits: string): nat
    requires forall i :: 0 <= i < |digits| ==> IsHexDigit(digits[i])
  {
    if |digits| == 0 then 0
    else HexValue(digits[..|digits| - 1]) * 16 + HexDigitValue(digits[|digits| - 1])
  }

  /** HexDigits writes exactly the value it was given. */
  lemma {:induction false} HexValueOfHexDigits(m: nat)
    ensures HexValue(HexDigits(m)) == m
  {
    if m > 0 {
      var r := HexDigits(m);
      assert r[..|r| - 1] == HexDigits(m / 16);
      HexValueOfHexDigits(m / 16);
    }
  }

  /** Leading zeros do not change a hexadecimal value. */
  lemma {:induction false} HexValueLeadingZeros(n: nat, digits: string)
    requires forall i :: 0 <= i < |digits| ==> IsHexDigit(digits[i])
    ensures forall i :: 0 <= i < |Zeros(n) + digits| ==> IsHexDigit((Zeros(n) + digits)[i])
    ensures HexValue(Zeros(n) + digits) == HexValue(digits)
    decreases n, |digits|
  {
    var s := Zeros(n) + digits;
    if |digits| > 0 {
      var init := digits[..|digits| - 1];
      assert s[..|s| - 1] == Zeros(n) + init;
      HexValueLeadingZeros(n, init);
    } else if n > 0 {
      assert s == "0" + Zeros(n - 1);
      assert s[..|s| - 1] == Zeros(n - 1);
      HexValueLeadingZeros(n - 1, digits);
      assert Zeros(n - 1) + digits == Zeros(n - 1);
    }
  }

  /**
   * The `if (copy % 15 == 0) … else if (copy % 1 == 0)` chain of toHexString:
   * the largest m <= `m` that divides `copy` under C++'s remainder.
   */
  function LargestDivisorUpTo(copy: int, m: nat): (r: nat)
    requires 1 <= m
    ensures 1 <= r <= m
  {
    if m == 1 || TruncRem(copy, m) == 0 then m else LargestDivisorUpTo(copy, m - 1)
  }

  /** The character toHexString inserts for one truncated remainder `copy` (|copy| < 16). */
  function DigitChain(copy: int): char
    requires -16 < copy < 16
  {
    if copy == 0 then '0' else HexChar(LargestDivisorUpTo(copy, 15))
  }

  lemma ModOfSmaller(a: nat, m: nat)
    requires a < m
    ensures a % m == a
  {
  }

  lemma {:induction false} LargestDivisorIsMagnitude(copy: int, m: nat)
    requires 1 <= Abs(copy) <= m <= 15
    ensures LargestDivisorUpTo(copy, m) == Abs(copy)
    decreases m
  {
    if m == Abs(copy) {
      assert Abs(copy) % m == 0;
    } else {
      ModOfSmaller(Abs(copy), m);
      LargestDivisorIsMagnitude(copy, m - 1);
    }
  }

  /** The remainder chain picks the digit of the remainder's magnitude, so negative input is handled digit by digit. */
  lemma DigitChainIsHexChar(copy: int)
    requires -16 < copy < 16
    ensures DigitChain(copy) == HexChar(Abs(copy))
  {
    if copy != 0 {
      LargestDivisorIsMagnitude(copy, 15);
    }
  }

  /** One truncating division by 16 drops the last digit of the magnitude, which is the remainder's. */
  lemma HexDigitsStep(n: int)
    requires n != 0
    ensures HexDigits(Abs(n)) == HexDigits(Abs(TruncDiv(n, 16))) + [HexChar(Abs(TruncRem(n, 16)))]
  {
  }

  /** One turn of toHexString's digit loop: the digit of the remainder goes in front. */
  lemma DigitLoopStep(number: int, n: int, r: string)
    requires n != 0 && HexDigits(Abs(number)) == HexDigits(Abs(n)) + r
    ensures HexDigits(Abs(number)) == HexDigits(Abs(TruncDiv(n, 16))) + ([DigitChain(TruncRem(n, 16))] + r)
    ensures |HexDigits(Abs(TruncDiv(n, 16)))| + 1 == |HexDigits(Abs(n))|
  {
    DigitChainIsHexChar(TruncRem(n, 16));
    HexDigitsStep(n);
    var rest := HexDigits(Abs(TruncDiv(n, 16)));
    assert rest + [DigitChain(TruncRem(n, 16))] + r == rest + ([DigitChain(TruncRem(n, 16))] + r);
  }

  /** toHexString: counts the digits, then inserts one digit per truncating division by 16. */
  method ToHexString(number: int) returns (r: string)
    ensures r == HexString(number)
  {
    if number == 0 {
      return "0";
    }
    var digitCount := 1;
    var copy := TruncDiv(number, 16);
    HexDigitsStep(number);
    while copy != 0
      invariant digitCount + |HexDigits(Abs(copy))| == |HexDigits(Abs(number))|
      decreases Abs(copy)
    {
      HexDigitsStep(copy);
      digitCount := digitCount + 1;
      copy := TruncDiv(copy, 16);
    }
    r := "";
    var n := number;
    var i := 0;
    while i < digitCount
      invariant 0 <= i <= digitCount
      invariant HexDigits(Abs(number)) == HexDigits(Abs(n)) + r
      invariant digitCount - i == |HexDigits(Abs(n))|
    {
      var remainder := TruncRem(n, 16);
      DigitLoopStep(number, n, r);
      r := [DigitChain(remainder)] + r;
      n := TruncDiv(n, 16);
      i := i + 1;
    }
  }

  /** Reading back what toHexString writes gives the magnitude of the number. */
  lemma HexValueOfHexString(n: int)
    ensures HexValue(HexString(n)) == Abs(n)
  {
    if n != 0 {
      HexValueOfHexDigits(Abs(n));
    }
  }

  // ---------------------------------------------------------------- hexStringToUInt

  /** Length of the run of hexadecimal digits at the start of `s`. */
  function LeadingHexRun(s: string): (n: nat)
    ensures n <= |s|
    ensures forall i :: 0 <= i < n ==> IsHexDigit(s[i])
    ensures n < |s| ==> !IsHexDigit(s[n])
  {
    if |s| == 0 || !IsHexDigit(s[0]) then 0 else 1 + LeadingHexRun(s[1..])
  }

  /**
   * hexStringToUInt: reads the leading hexadecimal digits after an optional
   * "0x"; no digits read as 0 and a value beyond 32 bits saturates at the
   * largest `unsigned int`.
   */
  function HexStringToUInt(str: string): (r: uint32)
    ensures (forall i :: 0 <= i < |str| ==> IsHexDigit(str[i])) && HexValue(str) < UINT32_LIMIT ==>
      r == HexValue(str)
    ensures (forall i :: 2 <= i < |str| ==> IsHexDigit(str[i])) && StartsWith(str, "0x") && HexValue(str[2..]) < UINT32_LIMIT ==>
      r == HexValue(str[2..])
  {
    assert StartsWith(str, "0x") ==> str[1] == 'x';
    var copy := if StartsWith(str, "0x") then str[2..] else str;
    var digits := copy[..LeadingHexRun(copy)];
    var value := HexValue(digits);
    assert (forall i :: 0 <= i < |copy| ==> IsHexDigit(copy[i])) ==> digits == copy;
    if value < UINT32_LIMIT then value else UINT32_LIMIT - 1
  }

  /** hexStringToUChar: the same extraction, narrowed to an unsigned char. */
  function HexStringToUChar(str: string): (r: byte)
    ensures r as int == HexStringToUInt(str) % 256
  {
    ToByte(HexStringToUInt(str))
  }

  /** "0x" followed by hexadecimal digits of a 32-bit value reads back as that value. */
  lemma HexStringToUIntOfPrefixed(digits: string)
    requires forall i :: 0 <= i < |digits| ==> IsHexDigit(digits[i])
    requires HexValue(digits) < UINT32_LIMIT
    ensures HexStringToUInt("0x" + digits) == HexValue(digits)
  {
    var str := "0x" + digits;
    assert str[2..] == digits;
    assert StartsWith(str, "0x");
    forall i | 2 <= i < |str|
      ensures IsHexDigit(str[i])
    {
      assert str[i] == digits[i - 2];
    }
  }

  /** "0x" followed by the zero-padded hexadecimal form of `v` reads back as `v`. */
  lemma HexStringToUIntOfPadded(v: uint32, width: nat)
    ensures HexStringToUInt("0x" + ZeroPadded(HexString(v), width)) == v
  {
    var digits := HexString(v);
    var zeros := if |digits| < width then width - |digits| else 0;
    var padded := ZeroPadded(digits, width);
    assert padded == Zeros(zeros) + digits;
    HexValueLeadingZeros(zeros, digits);
    HexValueOfHexString(v);
    HexStringToUIntOfPrefixed(padded);
  }
}
