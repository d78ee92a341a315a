/**
 * The parts of Go's `strconv` and 64-bit `int` arithmetic that the listing handler
 * relies on: `strconv.Atoi` on a query parameter, and multiplication that wraps modulo
 * 2^64.
 */
module Strconv {
  import opened Wrappers

  const MinInt64: int := -0x8000_0000_0000_0000
  const MaxInt64: int := 0x7fff_ffff_ffff_ffff
  const Modulus64: int := 0x1_0000_0000_0000_0000

  predicate IsDigit(c: char) { '0' <= c <= '9' }

  predicate AllDigits(s: string) { forall k :: 0 <= k < |s| ==> IsDigit(s[k]) }

  /** The value of a string of decimal digits, most significant first. */
  function DigitsValue(s: string): nat
    requires AllDigits(s)
  {
    if s == [] then 0 else DigitsValue(s[..|s| - 1]) * 10 + (s[|s| - 1] as int - '0' as int)
  }

  /**
   * `strconv.Atoi(s)` on a 64-bit platform: one optional sign, then at least one decimal
   * digit (no spaces, no underscores, leading zeros allowed); a value outside the int64
   * range is an error. `None` stands for the non-nil error.
   */
  function Atoi(s: string): (r: Option<int>)
    ensures r.Some? ==> MinInt64 <= r.value <= MaxInt64
    ensures s == [] ==> r == None
    // No sign: accepted iff all digits and at most MaxInt64, with that value.
    ensures |s| > 0 && s[0] != '+' && s[0] != '-' ==>
      && (r.Some? <==> AllDigits(s) && DigitsValue(s) <= MaxInt64)
      && (r.Some? ==> r.value == DigitsValue(s))
    // A plus sign: the digits after it, up to MaxInt64.
    ensures |s| > 0 && s[0] == '+' ==>
      && (r.Some? <==> |s| > 1 && AllDigits(s[1..]) && DigitsValue(s[1..]) <= MaxInt64)
      && (r.Some? ==> r.value == DigitsValue(s[1..]))
    // A minus sign: the negated digits after it, down to MinInt64.
    ensures |s| > 0 && s[0] == '-' ==>
      && (r.Some? <==> |s| > 1 && AllDigits(s[1..]) && DigitsValue(s[1..]) <= -MinInt64)
      && (r.Some? ==> r.value == 0 - DigitsValue(s[1..]) as int)
  {
    var signed := |s| > 0 && (s[0] == '+' || s[0] == '-');
    var digits := if signed then s[1..] else s;
    if digits == [] || !AllDigits(digits) then None
    else
      var v := if signed && s[0] == '-' then 0 - DigitsValue(digits) as int else DigitsValue(digits) as int;
      if MinInt64 <= v <= MaxInt64 then Some(v) else None
  }

  /** Canonical decimal rendering of a natural number (`strconv.Itoa` for n >= 0). */
  function Decimal(n: nat): (s: string)
    ensures |s| >= 1 && AllDigits(s)
  {
    var d := ['0' + (n % 10) as char];
    if n < 10 then d else Decimal(n / 10) + d
  }

  lemma {:induction false} DigitsValueOfDecimal(n: nat)
    ensures DigitsValue(Decimal(n)) == n
  {
    var s := Decimal(n);
    if n >= 10 {
      DigitsValueOfDecimal(n / 10);
      assert s[..|s| - 1] == Decimal(n / 10);
    }
  }

  /** `Atoi` reads back every non-negative int64 that `Itoa` writes. */
  lemma AtoiOfDecimal(n: nat)
    requires n <= MaxInt64
    ensures Atoi(Decimal(n)) == Some(n)
  {
    DigitsValueOfDecimal(n);
  }

  /** ... and every negative one written with a leading minus sign. */
  lemma AtoiOfNegative(n: nat)
    requires 0 < n <= -MinInt64
    ensures Atoi("-" + Decimal(n)) == Some(0 - n as int)
  {
    DigitsValueOfDecimal(n);
    assert ("-" + Decimal(n))[1..] == Decimal(n);
  }

  /** Anything that is not a decimal number is an error. */
  lemma AtoiRejectsNonDigit(s: string, k: nat)
    requires 0 < k < |s| && !IsDigit(s[k])
    ensures Atoi(s) == None
  {
    if |s| > 0 && (s[0] == '+' || s[0] == '-') {
      assert !IsDigit(s[1..][k - 1]);
    }
  }

  /** Two's-complement wrap of an unbounded integer into int64, as Go's `*` on `int` does. */
  function Wrap64(x: int): (r: int)
    ensures MinInt64 <= r <= MaxInt64
    ensures (x - r) % Modulus64 == 0
    ensures MinInt64 <= x <= MaxInt64 ==> r == x
  {
    var m := (x - MinInt64) % Modulus64;
    m + MinInt64
  }
}
