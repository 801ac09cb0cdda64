/**
 * The DateTime namespace: conversion between month numbers and month names.
 * The functions that read the wall clock are not part of this model.
 */
module DateTime {
  import opened Wrappers
  import opened StdString

  /** What monthName and monthIndex throw std::invalid_argument for. */
  datatype DateError =
    | InvalidMonthNumber(monthIndex: int)
    | InvalidMonthName(lowered: string)

  /** The lower-case month names monthIndex compares against, January first. */
  const MONTH_KEYS: seq<string> := [
    "january", "february", "march", "april", "may", "june",
    "july", "august", "september", "october", "november", "december"
  ]

  /** An English month name as monthName spells it: a capital, then lower-case letters. */
  predicate IsCapitalized(s: string)
  {
    |s| > 0 && 'A' <= s[0] <= 'Z' && forall i :: 1 <= i < |s| ==> 'a' <= s[i] <= 'z'
  }

  /** monthName: the name of month 1 to 12; anything else throws. */
  function MonthName(monthIndex: int): (r: Result<string, DateError>)
    ensures r.Ok? <==> 1 <= monthIndex <= 12
    ensures r.Err? ==> r.error == InvalidMonthNumber(monthIndex)
    ensures r.Ok? ==> IsCapitalized(r.value)
  {
    match monthIndex
    case 1 => Ok("January")
    case 2 => Ok("February")
    case 3 => Ok("March")
    case 4 => Ok("April")
    case 5 => Ok("May")
    case 6 => Ok("June")
    case 7 => Ok("July")
    case 8 => Ok("August")
    case 9 => Ok("September")
    case 10 => Ok("October")
    case 11 => Ok("November")
    case 12 => Ok("December")
    case _ => Err(InvalidMonthNumber(monthIndex))
  }

  /** The comparison chain of monthIndex, applied to the lower-cased name. */
  function MonthIndexOfKey(key: string): (r: Result<int, DateError>)
    ensures r.Ok? ==> 0 <= r.value < 12 && key == MONTH_KEYS[r.value]
    ensures r.Err? ==> key !in MONTH_KEYS && r.error == InvalidMonthName(key)
  {
    if key == "january" then Ok(0)
    else if key == "february" then Ok(1)
    else if key == "march" then Ok(2)
    else if key == "april" then Ok(3)
    else if key == "may" then Ok(4)
    else if key == "june" then Ok(5)
    else if key == "july" then Ok(6)
    else if key == "august" then Ok(7)
    else if key == "september" then Ok(8)
    else if key == "october" then Ok(9)
    else if key == "november" then Ok(10)
    else if key == "december" then Ok(11)
    else Err(InvalidMonthName(key))
  }

  /**
   * monthIndex: the zero-based index of a month name in any letter case;
   * an unknown name throws, reporting the lower-cased text.
   */
  function MonthIndex(monthName: string): (r: Result<int, DateError>)
    ensures r.Ok? <==> ToLower(monthName) in MONTH_KEYS
    ensures r.Ok? ==> 0 <= r.value < 12 && ToLower(monthName) == MONTH_KEYS[r.value]
    ensures r.Err? ==> r.error == InvalidMonthName(ToLower(monthName))
  {
    MonthIndexOfKey(ToLower(monthName))
  }

  /** No two months share a key, so every key finds its own index. */
  lemma KeysAreDistinct(i: int)
    requires 0 <= i < 12
    ensures MonthIndexOfKey(MONTH_KEYS[i]) == Ok(i)
  {
    // keys of equal length differ at some position
    assert "january"[0] != "october"[0];
    assert "february"[0] != "november"[0] && "february"[0] != "december"[0];
    assert "november"[0] != "december"[0];
    assert "march"[0] != "april"[0];
    assert "june"[2] != "july"[2];
  }

  /** Lower-casing a capitalized word changes its first letter only. */
  lemma ToLowerOfCapitalized(s: string)
    requires IsCapitalized(s)
    ensures ToLower(s) == [(s[0] as int + 32) as char] + s[1..]
  {
    var t := [(s[0] as int + 32) as char] + s[1..];
    assert forall i :: 0 <= i < |s| ==> ToLower(s)[i] == t[i];
  }

  /** The lower-case form of each month name is that month's key. */
  lemma LowerMonthName(monthIndex: int)
    requires 1 <= monthIndex <= 12
    ensures ToLower(MonthName(monthIndex).value) == MONTH_KEYS[monthIndex - 1]
  {
    match monthIndex
    case 1 => LowerMonth(1, "January", "january");
    case 2 => LowerMonth(2, "February", "february");
    case 3 => LowerMonth(3, "March", "march");
    case 4 => LowerMonth(4, "April", "april");
    case 5 => LowerMonth(5, "May", "may");
    case 6 => LowerMonth(6, "June", "june");
    case 7 => LowerMonth(7, "July", "july");
    case 8 => LowerMonth(8, "August", "august");
    case 9 => LowerMonth(9, "September", "september");
    case 10 => LowerMonth(10, "October", "october");
    case 11 => LowerMonth(11, "November", "november");
    case 12 => LowerMonth(12, "December", "december");
  }

  lemma LowerMonth(monthIndex: int, name: string, key: string)
    requires 1 <= monthIndex <= 12 && MonthName(monthIndex) == Ok(name) && MONTH_KEYS[monthIndex - 1] == key
    requires |key| == |name| && key[0] == ToLowerChar(name[0]) && key[1..] == name[1..]
    ensures ToLower(MonthName(monthIndex).value) == MONTH_KEYS[monthIndex - 1]
  {
    LowerName(name, key);
  }

  lemma LowerName(name: string, key: string)
    requires IsCapitalized(name) && |key| == |name|
    requires key[0] == ToLowerChar(name[0]) && key[1..] == name[1..]
    ensures ToLower(name) == key
  {
    ToLowerOfCapitalized(name);
  }

  /** Each month name maps back to one less than its number. */
  lemma MonthRoundTrip(monthIndex: int)
    requires 1 <= monthIndex <= 12
    ensures MonthName(monthIndex).Ok?
    ensures MonthIndex(MonthName(monthIndex).value) == Ok(monthIndex - 1)
  {
    LowerMonthName(monthIndex);
    KeysAreDistinct(monthIndex - 1);
  }

  /** Every accepted name is, up to letter case, the name of the month one past its index. */
  lemma MonthIndexInverse(monthName: string)
    requires MonthIndex(monthName).Ok?
    ensures MonthName(MonthIndex(monthName).value + 1).Ok?
    ensures ToLower(MonthName(MonthIndex(monthName).value + 1).value) == ToLower(monthName)
  {
    LowerMonthName(MonthIndex(monthName).value + 1);
  }

  /** Letter case plays no part: a name and its lower-case form get the same answer. */
  lemma MonthIndexIgnoresCase(monthName: string)
    ensures MonthIndex(ToLower(monthName)) == MonthIndex(monthName)
  {
    ToLowerIdempotent(monthName);
  }
}
