/** Decimal text of integers: Go's %d formatting (fmt) and strconv.Atoi on a 64-bit platform. */
module Decimal {

  import opened Wrappers

  const MinInt64: int := -0x8000_0000_0000_0000
  const MaxInt64: int := 0x7fff_ffff_ffff_ffff

  predicate IsDigit(c: char) {
    '0' <= c <= '9'
  }

  predicate AllDigits(s: string) {
    forall i :: 0 <= i < |s| ==> IsDigit(s[i])
  }

  function DigitChar(d: nat): (c: char)
    requires d < 10
    ensures IsDigit(c) && c as int - '0' as int == d
  {
    ('0' as int + d) as char
  }

  /** The value of a non-empty run of decimal digits, most significant first. */
  function DigitsValue(s: string): nat
    requires AllDigits(s)
  {
    if s == [] then 0 else DigitsValue(s[..|s| - 1]) * 10 + (s[|s| - 1] as int - '0' as int)
  }

  /** The shortest decimal digits of `n`. */
  function NatToString(n: nat): (s: string)
    ensures |s| > 0 && AllDigits(s)
  {
    if n < 10 then [DigitChar(n)] else NatToString(n / 10) + [DigitChar(n % 10)]
  }

  /** fmt's %d: a minus sign for negative numbers, then the digits. */
  function IntToString(i: int): (s: string)
    ensures |s| > 0
  {
    if i < 0 then "-" + NatToString(-i) else NatToString(i)
  }

  /** strconv.Atoi: an optional sign followed by at least one digit, and a value that fits
      in 64 bits; anything else is a syntax or range error. */
  function Atoi(s: string): (r: Option<int>)
    ensures r.Some? ==> MinInt64 <= r.value <= MaxInt64
    ensures r.Some? ==> |s| > 0
    ensures r.Some? ==>
      var d := if s[0] == '-' || s[0] == '+' then s[1..] else s;
      && |d| > 0 && AllDigits(d)
      && r.value == (if s[0] == '-' then -(DigitsValue(d) as int) else DigitsValue(d))
    ensures r.None? ==>
      var d := if |s| > 0 && (s[0] == '-' || s[0] == '+') then s[1..] else s;
      || |d| == 0 || !AllDigits(d)
      || (|s| > 0 && s[0] == '-' && -(DigitsValue(d) as int) < MinInt64)
      || (!(|s| > 0 && s[0] == '-') && DigitsValue(d) > MaxInt64)
  {
    var signed := |s| > 0 && (s[0] == '-' || s[0] == '+');
    var digits := if signed then s[1..] else s;
    if |digits| == 0 || !AllDigits(digits) then None
    else
      var magnitude: int := DigitsValue(digits);
      var v: int := if signed && s[0] == '-' then -magnitude else magnitude;
      if MinInt64 <= v <= MaxInt64 then Some(v) else None
  }

  lemma {:induction false} DigitsOfNatToString(n: nat)
    ensures DigitsValue(NatToString(n)) == n
  {
    var s := NatToString(n);
    if n >= 10 {
      DigitsOfNatToString(n / 10);
      assert s[..|s| - 1] == NatToString(n / 10);
    }
  }

  /** Reading back what %d printed gives the number again, for every 64-bit value. */
  lemma AtoiInvertsIntToString(i: int)
    requires MinInt64 <= i <= MaxInt64
    ensures Atoi(IntToString(i)) == Some(i)
  {
    var s := IntToString(i);
    if i < 0 {
      assert s[1..] == NatToString(-i);
      DigitsOfNatToString(-i);
    } else {
      DigitsOfNatToString(i);
      assert IsDigit(s[0]);
    }
  }
}
