/**
 * Python numeric and text semantics the metric code relies on, stated over Dafny's exact `real`:
 * `int()` of a float (truncation toward zero), `round(x, n)`, and the decimal rendering of an int used by f-strings (`{n}` and `{n:02d}`).
 */
module PyNum {
  import opened Wrappers

  /** 10^places, as a real. */
  function Scale(places: nat): (p: real)
    ensures p >= 1.0
  {
    if places == 0 then 1.0 else 10.0 * Scale(places - 1)
  }

  /** `int(x)` for a float: drops the fractional part, rounding toward zero. */
  function Trunc(x: real): (r: int)
    ensures 0.0 <= x ==> 0 <= r && r as real <= x < r as real + 1.0
    ensures x < 0.0 ==> r <= 0 && r as real - 1.0 < x <= r as real
  {
    if x >= 0.0 then x.Floor else -((-x).Floor)
  }

  lemma TruncMonotone(x: real, y: real)
    requires x <= y
    ensures Trunc(x) <= Trunc(y)
  {
  }

  lemma TruncOfInt(k: int)
    ensures Trunc(k as real) == k
  {
  }

  /**
   * `round(x, places)`: the nearest multiple of 10^-places. Ties are resolved upward here
   * (Python resolves them to the even neighbour of the binary value).
   */
  function Round(x: real, places: nat): real {
    RoundAt(x, Scale(places))
  }

  /** The nearest multiple of 1/p, ties upward. */
  function RoundAt(x: real, p: real): real
    requires p > 0.0
  {
    (x * p + 0.5).Floor as real / p
  }

  lemma RoundMonotone(x: real, y: real, places: nat)
    requires x <= y
    ensures Round(x, places) <= Round(y, places)
  {
    RoundAtMonotone(x, y, Scale(places));
  }

  lemma RoundAtMonotone(x: real, y: real, p: real)
    requires x <= y && p > 0.0
    ensures RoundAt(x, p) <= RoundAt(y, p)
  {
    MulLe(x, y, p);
    var u := x * p + 0.5;
    var v := y * p + 0.5;
    FloorMonotone(u, v);
    DivMonotone(u.Floor as real, v.Floor as real, p);
  }

  lemma MulLe(x: real, y: real, p: real)
    requires x <= y && p >= 0.0
    ensures x * p <= y * p
  {
  }

  lemma FloorMonotone(u: real, v: real)
    requires u <= v
    ensures u.Floor <= v.Floor
  {
  }

  lemma DivMonotone(a: real, b: real, p: real)
    requires a <= b && p > 0.0
    ensures a / p <= b / p
  {
  }

  /**
   * Rounding a value of [lo, hi] stays in [lo, hi] when rounding leaves both ends alone
   * (as it does for 0 and 100 at one decimal, see RoundPercentEnds).
   */
  lemma RoundWithin(x: real, lo: real, hi: real, places: nat)
    requires lo <= x <= hi
    requires Round(lo, places) == lo && Round(hi, places) == hi
    ensures lo <= Round(x, places) <= hi
  {
    RoundMonotone(lo, x, places);
    RoundMonotone(x, hi, places);
  }

  lemma RoundPercentEnds()
    ensures Round(0.0, 1) == 0.0 && Round(100.0, 1) == 100.0
  {
    assert Scale(1) == 10.0;
    assert (0.0 * 10.0 + 0.5).Floor == 0;
    assert (100.0 * 10.0 + 0.5).Floor == 1000;
  }

  /** A percentage of a count, rounded to one decimal, is within [0, 100] when the part is in [0, total]. */
  lemma PercentWithin(part: int, total: int)
    requires 0 <= part <= total && total > 0
    ensures 0.0 <= Round(part as real / total as real * 100.0, 1) <= 100.0
  {
    var q := part as real / total as real;
    assert 0.0 <= q <= 1.0;
    RoundPercentEnds();
    RoundWithin(q * 100.0, 0.0, 100.0, 1);
  }

  /** Rounding to one decimal moves a value by at most half a tenth. */
  lemma RoundTenthClose(x: real)
    ensures x - 0.05 < Round(x, 1) <= x + 0.05
  {
    assert Scale(1) == 10.0;
    var f := (x * 10.0 + 0.5).Floor;
    assert x * 10.0 - 0.5 < f as real <= x * 10.0 + 0.5;
  }

  // ---- decimal text of integers, as `str(n)` and `f"{n:02d}"` render them ----

  function DigitChar(d: nat): (c: char)
    requires d < 10
    ensures '0' <= c <= '9'
  {
    ('0' as int + d) as char
  }

  predicate IsDigit(c: char) {
    '0' <= c <= '9'
  }

  function DigitValue(c: char): (d: nat)
    requires IsDigit(c)
    ensures d < 10
  {
    c as int - '0' as int
  }

  /** `str(n)` for a natural number: no leading zeros, "0" for zero. */
  function NatText(n: nat): (s: string)
    decreases n
  {
    if n < 10 then [DigitChar(n)] else NatText(n / 10) + [DigitChar(n % 10)]
  }

  /** `str(i)` for any int: a minus sign before the digits of a negative number. */
  function IntText(i: int): string {
    if i < 0 then "-" + NatText(-i) else NatText(i)
  }

  /** `f"{n:02d}"` for a natural number: at least two digits, zero-padded. */
  function TwoDigitText(n: nat): string {
    if n < 10 then "0" + NatText(n) else NatText(n)
  }

  predicate AllDigits(s: string) {
    forall k :: 0 <= k < |s| ==> IsDigit(s[k])
  }

  /** The value of a string of decimal digits, read most significant first. */
  function DigitsValue(s: string): nat
    requires AllDigits(s)
  {
    if s == [] then 0 else 10 * DigitsValue(s[..|s| - 1]) + DigitValue(s[|s| - 1])
  }

  /** Reads back what `IntText` writes: an optional minus sign and at least one digit. */
  function ParseInt(s: string): Option<int> {
    if |s| > 0 && s[0] == '-' then
      (if |s| > 1 && AllDigits(s[1..]) then Some(-(DigitsValue(s[1..]) as int)) else None)
    else if |s| > 0 && AllDigits(s) then Some(DigitsValue(s) as int)
    else None
  }

  lemma {:induction false} NatTextDigits(n: nat)
    ensures |NatText(n)| >= 1 && AllDigits(NatText(n))
    ensures DigitsValue(NatText(n)) == n
    decreases n
  {
    if n >= 10 {
      NatTextDigits(n / 10);
      var s := NatText(n);
      assert s[..|s| - 1] == NatText(n / 10);
    }
  }

  /** Parsing the decimal text of an int gives the int back. */
  lemma IntTextRoundTrip(i: int)
    ensures ParseInt(IntText(i)) == Some(i)
  {
    if i < 0 {
      NatTextDigits(-i);
      assert IntText(i)[1..] == NatText(-i);
    } else {
      NatTextDigits(i);
    }
  }

  lemma TwoDigitTextShape(n: nat)
    requires n < 100
    ensures |TwoDigitText(n)| == 2 && AllDigits(TwoDigitText(n))
    ensures DigitsValue(TwoDigitText(n)) == n
  {
    NatTextDigits(n);
    if n < 10 {
      var s := TwoDigitText(n);
      assert s[..1] == "0";
    } else {
      assert NatText(n) == NatText(n / 10) + [DigitChar(n % 10)];
      NatTextDigits(n / 10);
    }
  }
}
