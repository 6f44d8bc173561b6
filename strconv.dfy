/**
  Decimal conversions of Go's strconv package, as the session store uses them:
  user ids are written with Itoa and read back with Atoi, and the handlers
  parse the `user_id` claim with ParseInt or ParseUint. Go's `int` is 64 bits
  wide on the platforms the server targets.
*/
module Strconv {
  import opened Wrappers

  const MinInt64: int := -0x8000_0000_0000_0000
  const MaxInt64: int := 0x7fff_ffff_ffff_ffff
  const MaxUint64: int := 0xffff_ffff_ffff_ffff

  /** Go's `int` and `int64`. */
  type Int64 = n: int | MinInt64 <= n <= MaxInt64

  predicate IsDigit(c: char) {
    '0' <= c <= '9'
  }

  predicate AllDigits(s: string) {
    forall i :: 0 <= i < |s| ==> IsDigit(s[i])
  }

  function DigitChar(d: nat): (c: char)
    requires d < 10
    ensures IsDigit(c) && c as int - '0' as int == d
  {
    ('0' as int + d) as char
  }

  function DigitValue(c: char): nat
    requires IsDigit(c)
  {
    c as int - '0' as int
  }

  /** Decimal digits of `n`, most significant first, with no leading zero. */
  function FormatNat(n: nat): (s: string)
    ensures |s| > 0 && AllDigits(s)
  {
    if n < 10 then [DigitChar(n)] else FormatNat(n / 10) + [DigitChar(n % 10)]
  }

  /** strconv.Itoa: a minus sign for negative numbers, then the digits. */
  function Itoa(n: int): (s: string)
    ensures |s| > 0
    ensures s[0] == '-' <==> n < 0
  {
    if n < 0 then "-" + FormatNat(-n) else FormatNat(n)
  }

  /** The value of a run of decimal digits. */
  function DigitsValue(s: string): nat
    requires AllDigits(s)
  {
    if |s| == 0 then 0 else 10 * DigitsValue(s[..|s| - 1]) + DigitValue(s[|s| - 1])
  }

  /** strconv.ParseUint(s, 10, 64): one or more digits, no sign, at most 2^64 - 1. */
  function ParseUint64(s: string): (r: Option<nat>)
    ensures r.Some? <==> |s| > 0 && AllDigits(s) && DigitsValue(s) <= MaxUint64
    ensures r.Some? ==> r.value <= MaxUint64 && r.value == DigitsValue(s)
  {
    if |s| == 0 || !AllDigits(s) then None
    else if DigitsValue(s) <= MaxUint64 then Some(DigitsValue(s))
    else None
  }

  /**
    strconv.ParseInt(s, 10, 64), and so also strconv.Atoi: an optional sign,
    one or more digits, and a value within int64.
  */
  function Atoi(s: string): (r: Option<Int64>)
    ensures r.Some? ==> |s| > 0 && (r.value < 0 ==> s[0] == '-')
    ensures r.Some? && s[0] != '-' && s[0] != '+' ==> AllDigits(s) && r.value == DigitsValue(s)
  {
    var signed := |s| > 0 && (s[0] == '-' || s[0] == '+');
    var magnitude := if signed then s[1..] else s;
    if |magnitude| == 0 || !AllDigits(magnitude) then None
    else
      var v: int := if signed && s[0] == '-' then -(DigitsValue(magnitude) as int) else DigitsValue(magnitude);
      if MinInt64 <= v <= MaxInt64 then Some(v) else None
  }

  lemma DigitsValueSnoc(s: string, c: char)
    requires AllDigits(s) && IsDigit(c)
    ensures AllDigits(s + [c])
    ensures DigitsValue(s + [c]) == 10 * DigitsValue(s) + DigitValue(c)
  {
    assert (s + [c])[..|s|] == s;
  }

  /** The digits FormatNat writes denote the number they were written for. */
  lemma {:induction false} FormatNatValue(n: nat)
    ensures DigitsValue(FormatNat(n)) == n
  {
    if n >= 10 {
      FormatNatValue(n / 10);
      DigitsValueSnoc(FormatNat(n / 10), DigitChar(n % 10));
    }
  }

  /** Parsing what Itoa wrote gives the number back, exactly when it fits in int64. */
  lemma AtoiItoa(n: int)
    ensures Atoi(Itoa(n)) == if MinInt64 <= n <= MaxInt64 then Some(n) else None
  {
    var s := Itoa(n);
    if n < 0 {
      assert s[1..] == FormatNat(-n);
      FormatNatValue(-n);
    } else {
      assert IsDigit(s[0]);
      FormatNatValue(n);
    }
  }

  /** ParseUint accepts what Itoa wrote exactly for the numbers 0 .. 2^64 - 1. */
  lemma ParseUintItoa(n: int)
    ensures ParseUint64(Itoa(n)) == if 0 <= n <= MaxUint64 then Some(n) else None
  {
    if n < 0 {
      assert !IsDigit(Itoa(n)[0]);
    } else {
      FormatNatValue(n);
    }
  }

  /** Distinct numbers have distinct decimal spellings. */
  lemma ItoaInjective(a: int, b: int)
    requires Itoa(a) == Itoa(b)
    ensures a == b
  {
    if a < 0 {
      assert Itoa(a)[1..] == FormatNat(-a);
      assert Itoa(b)[1..] == FormatNat(-b);
      FormatNatValue(-a);
      FormatNatValue(-b);
    } else {
      FormatNatValue(a);
      FormatNatValue(b);
    }
  }
}
