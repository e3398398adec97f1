/**
 * `Number.parseInt` on the text of a number field, as the profile form uses
 * it for the age: an optional sign, then the longest run of decimal digits;
 * no digits at all gives NaN, written `None` here.
 */
module Numbers {
  import opened Types

  predicate IsDigit(c: char)
  {
    '0' <= c <= '9'
  }

  ghost predicate AllDigits(s: string)
  {
    forall i :: 0 <= i < |s| ==> IsDigit(s[i])
  }

  function DigitValue(c: char): nat
    requires IsDigit(c)
  {
    (c as int) - ('0' as int)
  }

  function DigitChar(d: nat): (c: char)
    requires d < 10
    ensures IsDigit(c) && DigitValue(c) == d
  {
    (('0' as int) + d) as char
  }

  /** The length of the run of digits that starts `s`. */
  function LeadingDigits(s: string): (n: nat)
    ensures n <= |s|
    ensures forall i :: 0 <= i < n ==> IsDigit(s[i])
    ensures n < |s| ==> !IsDigit(s[n])
  {
    if s == [] || !IsDigit(s[0]) then 0 else 1 + LeadingDigits(s[1..])
  }

  /** The value of a run of digits, most significant first. */
  function DigitsValue(ds: string): nat
    requires AllDigits(ds)
  {
    if ds == [] then 0 else DigitsValue(ds[..|ds| - 1]) * 10 + DigitValue(ds[|ds| - 1])
  }

  /** The value of the run of digits that starts `s`, if there is one. */
  function ParseDigits(s: string): (r: Option<nat>)
    ensures r.Some? <==> |s| > 0 && IsDigit(s[0])
  {
    var n := LeadingDigits(s);
    if n == 0 then None else Some(DigitsValue(s[..n]))
  }

  /** The length of the optional sign that starts `s`. */
  function SignLength(s: string): nat
  {
    if |s| > 0 && (s[0] == '-' || s[0] == '+') then 1 else 0
  }

  /** `Number.parseInt(s)` on text without leading whitespace: a number
      exactly when a digit follows the optional sign, negative only after a
      minus sign. The value is the exact integer; JavaScript rounds it to the
      nearest double, which is the same integer whenever its magnitude is at
      most `MaxSafeInteger`. */
  function ParseInt(s: string): (r: Option<int>)
    ensures r.Some? <==> SignLength(s) < |s| && IsDigit(s[SignLength(s)])
    ensures r.Some? && |s| > 0 && s[0] == '-' ==> r.value <= 0
    ensures r.Some? && !(|s| > 0 && s[0] == '-') ==> r.value >= 0
  {
    if |s| > 0 && s[0] == '-' then
      match ParseDigits(s[1..])
      case None => None
      case Some(m) => Some(-(m as int))
    else if |s| > 0 && s[0] == '+' then
      match ParseDigits(s[1..])
      case None => None
      case Some(m) => Some(m as int)
    else
      match ParseDigits(s)
      case None => None
      case Some(m) => Some(m as int)
  }

  /** The decimal digits of `n`, without leading zeros. */
  function Digits(n: nat): (ds: string)
    ensures |ds| >= 1 && AllDigits(ds)
    ensures DigitsValue(ds) == n
  {
    if n < 10 then
      [DigitChar(n)]
    else
      var prefix := Digits(n / 10);
      var ds := prefix + [DigitChar(n % 10)];
      assert ds[..|ds| - 1] == prefix;
      ds
  }

  /** The text a number field holds for an integer. */
  function IntToString(i: int): string
  {
    if i < 0 then "-" + Digits(-i) else Digits(i)
  }

  /** A run of digits followed by nothing or by a non-digit is read whole. */
  lemma {:induction false} LeadingDigitsOfRun(ds: string, rest: string)
    requires AllDigits(ds)
    requires rest == [] || !IsDigit(rest[0])
    ensures LeadingDigits(ds + rest) == |ds|
  {
    if ds != [] {
      assert (ds + rest)[1..] == ds[1..] + rest;
      LeadingDigitsOfRun(ds[1..], rest);
    } else {
      assert ds + rest == rest;
    }
  }

  /** A run of digits, followed by nothing or a non-digit, reads as its
      value. */
  lemma ParseDigitsOfRun(ds: string, rest: string)
    requires |ds| >= 1 && AllDigits(ds)
    requires rest == [] || !IsDigit(rest[0])
    ensures ParseDigits(ds + rest) == Some(DigitsValue(ds))
  {
    LeadingDigitsOfRun(ds, rest);
    assert (ds + rest)[..|ds|] == ds;
  }

  /** A natural number's digits, then nothing or a non-digit, read back as it. */
  lemma ReadsNatural(n: nat, rest: string)
    requires rest == [] || !IsDigit(rest[0])
    ensures ParseInt(Digits(n) + rest) == Some(n)
  {
    var ds := Digits(n);
    ParseDigitsOfRun(ds, rest);
    assert (ds + rest)[0] == ds[0];
  }

  /** The same after a minus sign reads back negated. */
  lemma ReadsNegated(n: nat, rest: string)
    requires rest == [] || !IsDigit(rest[0])
    ensures ParseInt("-" + (Digits(n) + rest)) == Some(-(n as int))
  {
    var t := Digits(n) + rest;
    ParseDigitsOfRun(Digits(n), rest);
    assert ("-" + t)[1..] == t;
  }

  /** `Number.MAX_SAFE_INTEGER`: up to this magnitude every integer is a
      double, so `parseInt` returns it exactly. */
  const MaxSafeInteger: int := 0x1F_FFFF_FFFF_FFFF

  /** Parsing gives back the integer that was written, as long as it is one
      JavaScript represents exactly, and parsing stops at the first character
      that is not a digit, so "15.7" and "1e3" give 15 and 1. */
  lemma ParseIntReadsWrittenInteger(i: int, rest: string)
    requires -MaxSafeInteger <= i <= MaxSafeInteger
    requires rest == [] || !IsDigit(rest[0])
    ensures ParseInt(IntToString(i) + rest) == Some(i)
  {
    if i < 0 {
      ReadsNegated(-i, rest);
      assert IntToString(i) + rest == "-" + (Digits(-i) + rest);
    } else {
      ReadsNatural(i, rest);
    }
  }
}
