/**
 The exchange-rate decimals: an unsigned 128-bit mantissa and a count of fraction digits, with
 checked scaling that gives nothing instead of wrapping.
 */
module Decimals {
  import opened Options

  const U128_MAX: int := 0xFFFF_FFFF_FFFF_FFFF_FFFF_FFFF_FFFF_FFFF
  const MAX_FRACTION: nat := 8
  const MAX_WHOLE: nat := 38

  type U128 = n: int | 0 <= n <= U128_MAX

  datatype Decimal = Decimal(mantissa: U128, scale: nat)

  function Pow10(n: nat): (p: int)
    ensures p >= 1
  {
    if n == 0 then 1 else 10 * Pow10(n - 1)
  }

  function CheckedPow10(n: nat): Option<U128> {
    if Pow10(n) <= U128_MAX then Some(Pow10(n)) else None
  }

  function CheckedMul(a: U128, b: U128): Option<U128> {
    if 0 <= a * b <= U128_MAX then Some(a * b) else None
  }

  function CheckedAdd(a: U128, b: U128): Option<U128> {
    if a + b <= U128_MAX then Some(a + b) else None
  }

  // The mantissa at a wider scale, if it fits.
  function Widened(d: Decimal, scale: nat): Option<U128> {
    if scale < d.scale then None
    else
      var factor := CheckedPow10(scale - d.scale);
      if factor.None? then None else CheckedMul(d.mantissa, factor.value)
  }

  datatype Order = Less | Equal | Greater

  function Compare(a: Decimal, b: Decimal): Option<Order> {
    var scale := if a.scale >= b.scale then a.scale else b.scale;
    var left, right := Widened(a, scale), Widened(b, scale);
    if left.None? || right.None? then None
    else if left.value < right.value then Some(Less)
    else if left.value == right.value then Some(Equal)
    else Some(Greater)
  }

  // -------------------------------------------------------------------------
  // Values
  // -------------------------------------------------------------------------

  // Order by the numbers written, without any limit on width.
  predicate AtMost(a: Decimal, b: Decimal) {
    a.mantissa * Pow10(b.scale) <= b.mantissa * Pow10(a.scale)
  }

  predicate SameValue(a: Decimal, b: Decimal) {
    AtMost(a, b) && AtMost(b, a)
  }

  // The number written, at a scale no narrower than its own.
  function AtScale(d: Decimal, scale: nat): int
    requires d.scale <= scale
  {
    d.mantissa * Pow10(scale - d.scale)
  }

  lemma {:induction false} PowAdds(a: nat, b: nat)
    ensures Pow10(a + b) == Pow10(a) * Pow10(b)
    decreases a
  {
    if a > 0 {
      PowAdds(a - 1, b);
    }
  }

  lemma {:induction false} PowGrows(a: nat, b: nat)
    requires a <= b
    ensures Pow10(a) <= Pow10(b)
    decreases b
  {
    if a < b {
      PowGrows(a, b - 1);
    }
  }

  lemma CancelLeft(x: int, y: int, k: int)
    requires k > 0
    ensures x * k <= y * k <==> x <= y
  {
    if x <= y {
      assert (y - x) * k >= 0;
    } else {
      assert (x - y) * k > 0;
    }
  }

  // m / 10^s is at most n / 10^t exactly if it is so written at a common scale.
  lemma CrossOrder(m: int, s: nat, n: int, t: nat, scale: nat)
    requires s <= scale && t <= scale
    ensures m * Pow10(t) <= n * Pow10(s) <==> m * Pow10(scale - s) <= n * Pow10(scale - t)
  {
    var x, y := m * Pow10(scale - s), n * Pow10(scale - t);
    PowAdds(scale - s, s);
    PowAdds(scale - t, t);
    var ps, pt, k := Pow10(s), Pow10(t), Pow10(scale);
    Shift(m, Pow10(scale - s), ps, pt);
    Shift(n, Pow10(scale - t), pt, ps);
    assert x * (ps * pt) == m * pt * k;
    assert y * (ps * pt) == n * ps * k;
    CancelLeft(x, y, ps * pt);
    CancelLeft(m * pt, n * ps, k);
  }

  // At any common scale the order is that of the integers.
  lemma OrderAtScale(a: Decimal, b: Decimal, scale: nat)
    requires a.scale <= scale && b.scale <= scale
    ensures AtMost(a, b) <==> AtScale(a, scale) <= AtScale(b, scale)
  {
    CrossOrder(a.mantissa, a.scale, b.mantissa, b.scale, scale);
  }

  lemma Shift(m: int, w: int, p: int, q: int)
    ensures m * w * (p * q) == m * q * (w * p)
    ensures m * w * (q * p) == m * q * (w * p)
  {
    assert m * w * (p * q) == m * (w * (p * q));
    assert w * (p * q) == (w * p) * q;
    assert m * ((w * p) * q) == m * q * (w * p);
  }

  lemma AtMostTransitive(a: Decimal, b: Decimal, c: Decimal)
    requires AtMost(a, b) && AtMost(b, c)
    ensures AtMost(a, c)
  {
    var scale := a.scale + b.scale + c.scale;
    OrderAtScale(a, b, scale);
    OrderAtScale(b, c, scale);
    OrderAtScale(a, c, scale);
  }

  // A value that widens to a scale widens to any in between.
  lemma WidensBetween(d: Decimal, mid: nat, scale: nat)
    requires d.scale <= mid <= scale && Widened(d, scale).Some?
    ensures Widened(d, mid).Some?
  {
    PowGrows(mid - d.scale, scale - d.scale);
    TimesSmaller(d.mantissa, Pow10(mid - d.scale), Pow10(scale - d.scale));
  }

  lemma TimesSmaller(m: int, p: int, q: int)
    requires 0 <= m && 0 <= p <= q
    ensures 0 <= m * p <= m * q
  {
    assert m * (q - p) >= 0;
  }

  // A comparison, when there is one, is by value; it is missing only when a side does not widen.
  lemma CompareIsByValue(a: Decimal, b: Decimal)
    ensures var scale := if a.scale >= b.scale then a.scale else b.scale;
            Compare(a, b).Some? <==> Widened(a, scale).Some? && Widened(b, scale).Some?
    ensures Compare(a, b).Some? ==>
              && (Compare(a, b).value == Greater <==> !AtMost(a, b))
              && (Compare(a, b).value == Less <==> !AtMost(b, a))
  {
    var scale := if a.scale >= b.scale then a.scale else b.scale;
    OrderAtScale(a, b, scale);
    OrderAtScale(b, a, scale);
  }

  // -------------------------------------------------------------------------
  // Bounds
  // -------------------------------------------------------------------------

  const RATE_MIN := Decimal(10_000, 0)
  const RATE_MAX := Decimal(1_000_000, 0)

  predicate InBounds(d: Decimal) {
    var low, high := Compare(d, RATE_MIN), Compare(d, RATE_MAX);
    low.Some? && high.Some? && low.value != Less && high.value != Greater
  }

  // In bounds is exactly between the two limits, unless the limits do not fit at the rate's scale.
  lemma InBoundsExactly(d: Decimal)
    ensures InBounds(d) <==> AtMost(RATE_MIN, d) && AtMost(d, RATE_MAX) && 1_000_000 * Pow10(d.scale) <= U128_MAX
  {
    CompareIsByValue(d, RATE_MIN);
    CompareIsByValue(d, RATE_MAX);
    assert Pow10(0) == 1;
    assert Widened(d, d.scale) == Some(d.mantissa) by {
      assert Pow10(d.scale - d.scale) == 1;
    }
  }

  // -------------------------------------------------------------------------
  // Text
  // -------------------------------------------------------------------------

  predicate IsDigit(c: char) { '0' <= c <= '9' }

  predicate AllDigits(s: string) {
    forall i :: 0 <= i < |s| ==> IsDigit(s[i])
  }

  function NumberOf(s: string): int
    requires AllDigits(s)
    decreases |s|
  {
    if s == [] then 0 else 10 * NumberOf(s[..|s| - 1]) + (s[|s| - 1] as int - '0' as int)
  }

  function FindDot(s: string, from: nat): (i: nat)
    requires from <= |s|
    ensures from <= i <= |s| && (i < |s| ==> s[i] == '.') && forall j :: from <= j < i ==> s[j] != '.'
    decreases |s| - from
  {
    if from == |s| || s[from] == '.' then from else FindDot(s, from + 1)
  }

  function Parse(s: string): (d: Option<Decimal>)
    ensures d.Some? ==> d.value.scale <= MAX_FRACTION
  {
    var dot := FindDot(s, 0);
    ParseParts(s[..dot], if dot < |s| then s[dot + 1..] else "")
  }

  function ParseParts(whole: string, fraction: string): (d: Option<Decimal>)
    ensures d.Some? ==> d.value.scale <= MAX_FRACTION
  {
    if |fraction| > MAX_FRACTION || |whole| > MAX_WHOLE then None
    else if whole == "" || !AllDigits(whole) || !AllDigits(fraction) then None
    else
      var n := NumberOf(whole + fraction);
      if 0 <= n <= U128_MAX then Some(Decimal(n, |fraction|)) else None
  }

  function Digits(n: nat): string
    decreases n
  {
    if n < 10 then [(n + '0' as int) as char] else Digits(n / 10) + [(n % 10 + '0' as int) as char]
  }

  function Zeros(n: nat): string {
    seq(n, i => '0')
  }

  function Padded(n: nat, width: nat): string {
    var d := Digits(n);
    if |d| >= width then d else Zeros(width - |d|) + d
  }

  function Print(d: Decimal): string {
    if d.scale == 0 then Digits(d.mantissa)
    else
      var digits := Padded(d.mantissa, d.scale + 1);
      var split := |digits| - d.scale;
      Pointed(digits[..split], digits[split..])
  }

  function Pointed(whole: string, fraction: string): string {
    whole + "." + fraction
  }

  lemma {:induction false} DigitsAre(n: nat)
    ensures AllDigits(Digits(n)) && NumberOf(Digits(n)) == n && |Digits(n)| >= 1
    decreases n
  {
    if n >= 10 {
      DigitsAre(n / 10);
      var front := Digits(n / 10);
      assert Digits(n)[..|front|] == front;
    }
  }

  lemma {:induction false} DigitsLength(n: nat, k: nat)
    requires k >= 1
    ensures |Digits(n)| <= k <==> n < Pow10(k)
    decreases k
  {
    DigitsAre(n);
    if k == 1 {
      assert Pow10(1) == 10 * Pow10(0);
      if n >= 10 {
        DigitsAre(n / 10);
      }
    } else if n < 10 {
      PowGrows(1, k);
      assert Pow10(1) == 10 * Pow10(0);
    } else {
      DigitsLength(n / 10, k - 1);
      assert Pow10(k) == 10 * Pow10(k - 1);
    }
  }

  lemma {:induction false} ZerosAddNothing(n: nat, s: string)
    requires AllDigits(s)
    ensures AllDigits(Zeros(n) + s) && NumberOf(Zeros(n) + s) == NumberOf(s)
    decreases |s|, n
  {
    if s != [] {
      var front := s[..|s| - 1];
      ZerosAddNothing(n, front);
      assert (Zeros(n) + s)[..|Zeros(n) + s| - 1] == Zeros(n) + front;
    } else if n > 0 {
      ZerosAddNothing(n - 1, s);
      assert (Zeros(n) + s)[..n - 1] == Zeros(n - 1) + s;
    } else {
      assert Zeros(n) + s == s;
    }
  }

  lemma PaddedIs(n: nat, width: nat)
    ensures var p := Padded(n, width);
            && AllDigits(p) && NumberOf(p) == n
            && |p| == if |Digits(n)| >= width then |Digits(n)| else width
  {
    DigitsAre(n);
    if |Digits(n)| < width {
      ZerosAddNothing(width - |Digits(n)|, Digits(n));
    }
  }

  lemma NoDot(s: string, from: nat)
    requires from <= |s| && forall i :: from <= i < |s| ==> s[i] != '.'
    ensures FindDot(s, from) == |s|
  {
  }

  lemma FirstDot(whole: string, rest: string, from: nat)
    requires AllDigits(whole) && from <= |whole|
    ensures FindDot(Pointed(whole, rest), from) == |whole|
  {
    var s := Pointed(whole, rest);
    var i := FindDot(s, from);
    assert s[|whole|] == '.';
    assert forall j :: 0 <= j < |whole| ==> s[j] == whole[j];
  }

  // What is printed reads back, exactly for values with at most eight fraction digits and, if they
  // are whole, at most 38 digits.
  lemma ParsePrint(d: Decimal)
    ensures Parse(Print(d)) == Some(d) <==> d.scale <= MAX_FRACTION && (d.scale == 0 ==> d.mantissa < Pow10(MAX_WHOLE))
  {
    if d.scale == 0 {
      PrintedWhole(d);
    } else {
      PrintedFraction(d);
    }
  }

  lemma PrintedWhole(d: Decimal)
    requires d.scale == 0
    ensures Parse(Print(d)) == Some(d) <==> d.mantissa < Pow10(MAX_WHOLE)
  {
    DigitsAre(d.mantissa);
    DigitsLength(d.mantissa, MAX_WHOLE);
    ParseWhole(Digits(d.mantissa));
  }

  lemma ParseWhole(s: string)
    requires AllDigits(s)
    ensures Parse(s) == ParseParts(s, "") && s + "" == s
  {
    NoDot(s, 0);
    assert s[..|s|] == s;
  }

  lemma PrintedFraction(d: Decimal)
    requires d.scale > 0
    ensures Parse(Print(d)) == Some(d) <==> d.scale <= MAX_FRACTION
  {
    var digits, split, whole, fraction := PrintIs(d);
    ReadsBack(d, digits, split, whole, fraction);
  }

  lemma PrintIs(d: Decimal) returns (digits: string, split: nat, whole: string, fraction: string)
    requires d.scale > 0
    ensures AllDigits(digits) && 1 <= split <= |digits| && split <= MAX_WHOLE && NumberOf(digits) == d.mantissa
    ensures whole == digits[..split] && fraction == digits[split..] && d.scale == |fraction|
    ensures Print(d) == Pointed(whole, fraction)
  {
    digits := Padded(d.mantissa, d.scale + 1);
    PaddedIs(d.mantissa, d.scale + 1);
    U128Digits(d.mantissa);
    split := |digits| - d.scale;
    whole, fraction := digits[..split], digits[split..];
  }

  lemma ReadsBack(d: Decimal, digits: string, split: nat, whole: string, fraction: string)
    requires AllDigits(digits) && 1 <= split <= |digits| && split <= MAX_WHOLE && NumberOf(digits) == d.mantissa
    requires whole == digits[..split] && fraction == digits[split..] && d.scale == |fraction|
    ensures Parse(Pointed(whole, fraction)) == Some(d) <==> d.scale <= MAX_FRACTION
  {
    ParsePair(whole, fraction);
    PartsOfDigits(digits, split, whole, fraction);
  }

  lemma PartsOfDigits(digits: string, split: nat, whole: string, fraction: string)
    requires AllDigits(digits) && 1 <= split <= |digits| && split <= MAX_WHOLE && 0 <= NumberOf(digits) <= U128_MAX
    requires whole == digits[..split] && fraction == digits[split..]
    ensures ParseParts(whole, fraction)
            == if |fraction| <= MAX_FRACTION then Some(Decimal(NumberOf(digits), |fraction|)) else None
  {
    assert whole + fraction == digits;
  }

  lemma ParsePair(whole: string, fraction: string)
    requires AllDigits(whole)
    ensures Parse(Pointed(whole, fraction)) == ParseParts(whole, fraction)
  {
    var s := Pointed(whole, fraction);
    FirstDot(whole, fraction, 0);
    assert s[..|whole|] == whole && s[|whole| + 1..] == fraction;
  }

  lemma U128Digits(n: U128)
    ensures |Digits(n)| <= MAX_WHOLE + 1
  {
    DigitsLength(n, MAX_WHOLE + 1);
    PowMillions();
  }

  lemma PowMillions()
    ensures Pow10(8) == 100_000_000
    ensures Pow10(18) == 1_000_000_000_000_000_000
    ensures Pow10(39) == 1_000_000_000_000_000_000_000_000_000_000_000_000_000
  {
    assert Pow10(4) == 10_000;
    PowAdds(4, 4);
    PowAdds(8, 8);
    PowAdds(16, 2);
    assert Pow10(2) == 100;
    PowAdds(16, 16);
    PowAdds(32, 4);
    assert Pow10(3) == 1000;
    PowAdds(36, 3);
  }
}
