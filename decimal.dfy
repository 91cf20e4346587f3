/**
 * Python's str(n) and int(s) on integers written in ASCII decimal, used to build
 * numeric commands ("G8", "W21=40", "CH2") and to read numeric replies.
 */
module Decimal {
  import opened Common

  predicate IsDigit(c: char) {
    '0' <= c <= '9'
  }

  predicate AllDigits(s: string) {
    forall i :: 0 <= i < |s| ==> IsDigit(s[i])
  }

  function DigitChar(d: nat): char
    requires d < 10
  {
    (d + '0' as int) as char
  }

  /** The number a string of decimal digits denotes (most significant first); None if any character is not a digit. */
  function DigitsValue(s: string): (r: Option<nat>)
    decreases |s|
  {
    if s == [] then Some(0)
    else match DigitsValue(s[..|s| - 1])
      case None => None
      case Some(v) => if IsDigit(s[|s| - 1]) then Some(10 * v + (s[|s| - 1] as int - '0' as int)) else None
  }

  /** DigitsValue accepts exactly the strings of digits. */
  lemma {:induction false} DigitsValueDefined(s: string)
    ensures DigitsValue(s).Some? <==> AllDigits(s)
  {
    if s != [] {
      DigitsValueDefined(s[..|s| - 1]);
      assert forall i :: 0 <= i < |s| - 1 ==> s[..|s| - 1][i] == s[i];
    }
  }

  /** str(n) for n >= 0: shortest decimal form, no leading zeros. */
  function ShowNat(n: nat): (s: string)
    ensures s != [] && AllDigits(s)
    ensures |s| > 1 ==> s[0] != '0'
  {
    if n < 10 then [DigitChar(n)] else ShowNat(n / 10) + [DigitChar(n % 10)]
  }

  /** str(n) */
  function ShowInt(n: int): (s: string)
    ensures s != []
    ensures n < 0 <==> s[0] == '-'
    ensures forall i :: 0 < i < |s| ==> IsDigit(s[i])
  {
    if n < 0 then "-" + ShowNat(-n) else ShowNat(n)
  }

  /**
   * int(s) on a string without surrounding whitespace: an optional sign followed by
   * one or more ASCII digits; None where Python raises ValueError.
   */
  function ParseInt(s: string): (r: Option<int>)
    ensures r.Some? ==> s != [] && (s[0] == '-' || s[0] == '+' || IsDigit(s[0]))
    ensures r.Some? && s[0] != '-' ==> r.value >= 0
    ensures r.Some? && s[0] == '-' ==> DigitsValue(s[1..]).Some? && r.value == 0 - DigitsValue(s[1..]).value
    ensures r.Some? && s[0] == '+' ==> DigitsValue(s[1..]).Some? && r.value == DigitsValue(s[1..]).value
    ensures r.Some? && IsDigit(s[0]) ==> DigitsValue(s).Some? && r.value == DigitsValue(s).value
  {
    if |s| >= 2 && s[0] == '-' then
      (match DigitsValue(s[1..]) case Some(v) => Some(0 - v) case None => None)
    else if |s| >= 2 && s[0] == '+' then
      (match DigitsValue(s[1..]) case Some(v) => Some(v) case None => None)
    else if s != [] && IsDigit(s[0]) then
      (match DigitsValue(s) case Some(v) => Some(v) case None => None)
    else None
  }

  /** The strings int() accepts: an optional sign and then one or more ASCII digits. */
  lemma ParseIntAccepts(s: string)
    ensures ParseInt(s).Some? <==>
      || (|s| >= 2 && (s[0] == '-' || s[0] == '+') && AllDigits(s[1..]))
      || (s != [] && AllDigits(s))
  {
    if s != [] {
      DigitsValueDefined(s);
      DigitsValueDefined(s[1..]);
    }
  }

  lemma {:induction false} ValueOfShowNat(n: nat)
    ensures DigitsValue(ShowNat(n)) == Some(n)
  {
    if n >= 10 {
      var s := ShowNat(n);
      assert s[..|s| - 1] == ShowNat(n / 10);
      ValueOfShowNat(n / 10);
    }
  }

  /** int(str(n)) == n */
  lemma ParseShowInt(n: int)
    ensures ParseInt(ShowInt(n)) == Some(n)
  {
    if n < 0 {
      assert ShowInt(n)[1..] == ShowNat(-n);
      ValueOfShowNat(-n);
    } else {
      ValueOfShowNat(n);
    }
  }

  /** Different numbers are written differently. */
  lemma ShowIntInjective(m: int, n: int)
    requires ShowInt(m) == ShowInt(n)
    ensures m == n
  {
    ParseShowInt(m);
    ParseShowInt(n);
  }
}
