/**
 * Numeric conventions of the Python runtime, stated on exact rationals:
 * `round` and pandas' `Series.round` both round half to even.
 */
module Numbers {

  import opened Wrappers

  /** Python's `round(x)`: the nearest integer, ties going to the even neighbour. */
  function RoundHalfEven(x: real): (n: int)
    ensures -0.5 <= n as real - x <= 0.5
    ensures (n as real - x == 0.5 || x - n as real == 0.5) ==> n % 2 == 0
  {
    var f := x.Floor;
    var d := x - f as real;
    if d < 0.5 then f
    else if d > 0.5 then f + 1
    else if f % 2 == 0 then f
    else f + 1
  }

  /** Rounding is exact on integers. */
  lemma RoundHalfEvenOfInteger(k: int)
    ensures RoundHalfEven(k as real) == k
  {
  }

  /** Rounding never leaves an interval whose ends are integers. */
  lemma {:induction false} RoundHalfEvenWithin(x: real, lo: int, hi: int)
    requires lo as real <= x <= hi as real
    ensures lo <= RoundHalfEven(x) <= hi
  {
    var n := RoundHalfEven(x);
    assert n as real >= x - 0.5 > lo as real - 1.0;
    assert n as real <= x + 0.5 < hi as real + 1.0;
  }

  /** True for a non-empty string of the characters '0' through '9'. */
  predicate AllDigits(s: string) {
    |s| > 0 && forall i :: 0 <= i < |s| ==> '0' <= s[i] <= '9'
  }

  /** The value of a string of decimal digits, most significant first. */
  function DigitsValue(s: string): (v: nat)
    requires forall i :: 0 <= i < |s| ==> '0' <= s[i] <= '9'
    decreases |s|
  {
    if s == [] then 0
    else DigitsValue(s[..|s| - 1]) * 10 + (s[|s| - 1] as int - '0' as int)
  }

  /**
   * A decimal integer literal: an optional '-' followed by at least one digit.
   * This is the part of pandas' numeric coercion the model keeps.
   */
  function ParseInteger(s: string): (r: Option<int>)
    ensures r.Some? <==> AllDigits(s) || (|s| > 1 && s[0] == '-' && AllDigits(s[1..]))
    ensures r.Some? && s[0] != '-' ==> r.value >= 0 && r.value == DigitsValue(s)
    ensures r.Some? && s[0] == '-' ==> r.value <= 0 && r.value == -(DigitsValue(s[1..]) as int)
  {
    if AllDigits(s) then Some(DigitsValue(s) as int)
    else if |s| > 1 && s[0] == '-' && AllDigits(s[1..]) then Some(-(DigitsValue(s[1..]) as int))
    else None
  }

  /** Ten to the power k. */
  function Pow10(k: nat): (p: nat)
    ensures p >= 1
  {
    if k == 0 then 1 else 10 * Pow10(k - 1)
  }

  /** The digit character for 0 through 9. */
  function DigitChar(d: nat): (c: char)
    requires d < 10
    ensures '0' <= c <= '9' && c as int - '0' as int == d
  {
    ('0' as int + d) as char
  }

  /** The decimal rendering of a natural number, without leading zeros; `str(n)` in Python. */
  function Decimal(n: nat): (s: string)
    ensures AllDigits(s)
    ensures |s| > 1 ==> s[0] != '0'
    decreases n
  {
    if n < 10 then [DigitChar(n)] else Decimal(n / 10) + [DigitChar(n % 10)]
  }

  /** Positional notation: the digits of `a` are worth `10^|b|` times more than those of `b`. */
  lemma {:induction false} DigitsValueAppend(a: string, b: string)
    requires forall i :: 0 <= i < |a| ==> '0' <= a[i] <= '9'
    requires forall i :: 0 <= i < |b| ==> '0' <= b[i] <= '9'
    ensures DigitsValue(a + b) == DigitsValue(a) * Pow10(|b|) + DigitsValue(b)
    decreases |b|
  {
    if b == [] {
      assert a + b == a;
    } else {
      var b' := b[..|b| - 1];
      assert (a + b)[..|a + b| - 1] == a + b';
      assert (a + b)[|a + b| - 1] == b[|b| - 1];
      DigitsValueAppend(a, b');
      assert DigitsValue(a + b) == DigitsValue(a + b') * 10 + (b[|b| - 1] as int - '0' as int);
      assert DigitsValue(b) == DigitsValue(b') * 10 + (b[|b| - 1] as int - '0' as int);
      ShiftDigit(DigitsValue(a), Pow10(|b'|), DigitsValue(b'), b[|b| - 1] as int - '0' as int);
    }
  }

  /** One more low digit multiplies the high part's weight by ten. */
  lemma ShiftDigit(x: int, p: int, y: int, d: int)
    ensures (x * p + y) * 10 + d == x * (p * 10) + (y * 10 + d)
  {
    assert (x * p + y) * 10 == (x * p) * 10 + y * 10;
    assert (x * p) * 10 == x * (p * 10);
  }

  /** A string of zeros is worth nothing. */
  lemma {:induction false} ZerosValue(z: string)
    requires forall i :: 0 <= i < |z| ==> z[i] == '0'
    ensures DigitsValue(z) == 0
    decreases |z|
  {
    if z != [] {
      ZerosValue(z[..|z| - 1]);
    }
  }

  /** A k-digit string is worth less than 10^k. */
  lemma {:induction false} DigitsValueBound(s: string)
    requires forall i :: 0 <= i < |s| ==> '0' <= s[i] <= '9'
    ensures DigitsValue(s) < Pow10(|s|)
    decreases |s|
  {
    if s != [] {
      DigitsValueBound(s[..|s| - 1]);
    }
  }

  /** Leading zeros do not change what `int()` returns, for every digit string. */
  lemma LeadingZerosKeepValue(z: string, s: string)
    requires forall i :: 0 <= i < |z| ==> z[i] == '0'
    requires AllDigits(s)
    ensures ParseInteger(z + s) == ParseInteger(s)
  {
    assert AllDigits(z + s) by {
      forall i | 0 <= i < |z + s| ensures '0' <= (z + s)[i] <= '9' {
        if i >= |z| { assert (z + s)[i] == s[i - |z|]; }
      }
    }
    DigitsValueAppend(z, s);
    ZerosValue(z);
  }

  /** `int(str(n)) == n`: the decimal rendering parses back to the number. */
  lemma {:induction false} DecimalRoundTrip(n: int)
    ensures ParseInteger(if n < 0 then "-" + Decimal(-n) else Decimal(n)) == Some(n)
  {
    if n < 0 {
      var s := "-" + Decimal(-n);
      assert s[1..] == Decimal(-n);
      assert !AllDigits(s) by { assert s[0] == '-'; }
      DecimalValue(-n);
    } else {
      DecimalValue(n);
    }
  }

  /** The value of a rendering is the number rendered. */
  lemma {:induction false} DecimalValue(n: nat)
    ensures DigitsValue(Decimal(n)) == n
    decreases n
  {
    var s := Decimal(n);
    if n < 10 {
      assert s[..0] == [];
    } else {
      assert s[..|s| - 1] == Decimal(n / 10);
      DecimalValue(n / 10);
    }
  }

  /** Leading zeros do not change the value: "0900" is 900. */
  lemma DigitsValueExamples()
    ensures ParseInteger("0900") == Some(900)
    ensures ParseInteger("-12") == Some(-12)
    ensures ParseInteger("") == None && ParseInteger("9a") == None
  {
    assert DigitsValue("0900") == DigitsValue("090") * 10 by { assert "0900"[..3] == "090"; }
    assert DigitsValue("090") == DigitsValue("09") * 10 by { assert "090"[..2] == "09"; }
    assert DigitsValue("09") == 9 by { assert "09"[..1] == "0"; assert "0"[..0] == ""; }
    assert DigitsValue("12") == 12 by { assert "12"[..1] == "1"; assert "1"[..0] == ""; }
    assert "-12"[1..] == "12";
    assert !AllDigits("9a") by { assert "9a"[1] == 'a'; }
  }
}
