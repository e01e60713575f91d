/**
 Fiat totals into satoshis: checked 128-bit arithmetic, a deviation gate against the reference,
 and the gates of a dollar quote in their order.
 */
module Quotes {
  import opened Options
  import opened Decimals
  import opened ReferenceRate

  const I64_MAX: int := 0x7FFF_FFFF_FFFF_FFFF
  const SATS_PER_BTC: int := 100_000_000
  const MIN_SATS: int := 1_000
  const MAX_SATS: int := 100_000_000
  const MAX_AGE_MS: int := 300_000
  const MAX_SKEW_MS: int := 60_000

  datatype FxError =
    Malformed | MissingReference | Stale | Future | OutOfBounds | DeviationExceeded | Overflow | BelowMinimum | CapExceeded

  datatype Result<+T> = Ok(value: T) | Err(error: FxError)

  // -------------------------------------------------------------------------
  // The conversion
  // -------------------------------------------------------------------------

  function QuoteSats(total: int, exponent: int, rate: Decimal): Result<int> {
    if !(0 <= total <= U128_MAX) || exponent < 0 then Err(Overflow)
    else
      var fiatScale, rateScale := CheckedPow10(exponent), CheckedPow10(rate.scale);
      if fiatScale.None? || rateScale.None? then Err(Overflow)
      else Converted(total, fiatScale.value, rateScale.value, rate.mantissa)
  }

  // The checked ceiling of total * 10^8 * rateScale over fiatScale * mantissa, and its limits.
  function Converted(total: U128, fiatScale: U128, rateScale: U128, mantissa: U128): Result<int> {
    var scaled := CheckedMul(total, SATS_PER_BTC);
    if scaled.None? then Err(Overflow)
    else
      var numerator, denominator := CheckedMul(scaled.value, rateScale), CheckedMul(fiatScale, mantissa);
      if numerator.None? || denominator.None? || denominator.value == 0 then Err(Overflow)
      else
        var sum := CheckedAdd(numerator.value, denominator.value - 1);
        if sum.None? then Err(Overflow) else Limited(sum.value / denominator.value)
  }

  // What the limits make of an amount.
  function Limited(sats: int): Result<int> {
    if sats < MIN_SATS then Err(BelowMinimum) else if sats > MAX_SATS then Err(CapExceeded) else Ok(sats)
  }

  // -------------------------------------------------------------------------
  // What it means: the least whole number of satoshis covering the total
  // -------------------------------------------------------------------------

  // `sats` at m / 10^s dollars a bitcoin are worth at least total / 10^exponent dollars.
  predicate Covers(sats: int, total: int, exponent: nat, m: int, s: nat) {
    sats * (Pow10(exponent) * m) >= total * SATS_PER_BTC * Pow10(s)
  }

  function Ceiling(n: int, d: int): int
    requires d > 0
  {
    (n + d - 1) / d
  }

  function Sats(total: int, exponent: nat, m: int, s: nat): int
    requires m > 0
  {
    PositiveProduct(Pow10(exponent), m);
    Ceiling(total * SATS_PER_BTC * Pow10(s), Pow10(exponent) * m)
  }

  lemma PositiveProduct(a: int, b: int)
    requires a > 0 && b > 0
    ensures a * b > 0
  {
  }

  lemma CeilingIsLeast(n: int, d: int, t: int)
    requires d > 0
    ensures t * d >= n <==> t >= Ceiling(n, d)
  {
    var c, r := Ceiling(n, d), (n + d - 1) % d;
    DivisionOf(n + d - 1, d);
    assert n + d - 1 == c * d + r;
    if t >= c {
      TimesOrder(c, t, d);
    } else {
      TimesOrder(t, c - 1, d);
      assert (c - 1) * d == c * d - d;
    }
  }

  lemma DivisionOf(n: int, d: int)
    requires d > 0
    ensures n == n / d * d + n % d && 0 <= n % d < d
  {
  }

  // A number of satoshis covers the total exactly from the ceiling on.
  lemma SatsIsLeast(total: int, exponent: nat, m: int, s: nat, t: int)
    requires m > 0
    ensures Covers(t, total, exponent, m, s) <==> t >= Sats(total, exponent, m, s)
  {
    PositiveProduct(Pow10(exponent), m);
    CeilingIsLeast(total * SATS_PER_BTC * Pow10(s), Pow10(exponent) * m, t);
  }

  // An accepted quote is the least amount that covers the total, within the limits.
  lemma QuoteCovers(total: int, exponent: int, rate: Decimal, t: int)
    requires QuoteSats(total, exponent, rate).Ok?
    ensures total >= 0 && exponent >= 0 && rate.mantissa > 0
    ensures var sats := QuoteSats(total, exponent, rate).value;
            && MIN_SATS <= sats <= MAX_SATS
            && sats == Sats(total, exponent, rate.mantissa, rate.scale)
            && (Covers(t, total, exponent, rate.mantissa, rate.scale) <==> t >= sats)
  {
    assert rate.mantissa == 0 ==> Pow10(exponent) * rate.mantissa == 0;
    SatsIsLeast(total, exponent, rate.mantissa, rate.scale, t);
  }

  predicate Quotable(total: int, exponent: int, rate: Decimal) {
    0 <= total <= I64_MAX && 0 <= exponent <= 18 && InBounds(rate) && rate.scale <= MAX_FRACTION
  }

  lemma Times(a: int, b: int, amax: int, bmax: int)
    requires 0 <= a <= amax && 0 <= b <= bmax
    ensures 0 <= a * b <= amax * bmax
  {
    assert a * (bmax - b) >= 0;
    assert (amax - a) * bmax >= 0;
    assert a * b >= 0;
  }

  lemma RateIsNarrow(rate: Decimal)
    requires InBounds(rate) && rate.scale <= MAX_FRACTION
    ensures 0 < rate.mantissa <= 100_000_000_000_000
    ensures 1 <= Pow10(rate.scale) <= 100_000_000
  {
    InBoundsExactly(rate);
    PowGrows(rate.scale, 8);
    PowMillions();
    assert Pow10(0) == 1;
  }

  // No step of a reasonable quote overflows: the answer is decided by the exact ceiling alone.
  lemma NoOverflow(total: int, exponent: int, rate: Decimal)
    requires Quotable(total, exponent, rate)
    ensures rate.mantissa > 0
    ensures QuoteSats(total, exponent, rate) == Limited(Sats(total, exponent, rate.mantissa, rate.scale))
  {
    RateIsNarrow(rate);
    PowGrows(exponent, 18);
    PowMillions();
    ConvertedFits(total, Pow10(exponent), Pow10(rate.scale), rate.mantissa);
  }

  lemma ConvertedFits(total: int, e: int, p: int, m: int)
    requires 0 <= total <= I64_MAX && 1 <= e <= 1_000_000_000_000_000_000
    requires 1 <= p <= 100_000_000 && 1 <= m <= 100_000_000_000_000
    ensures e * m > 0 && Converted(total, e, p, m) == Limited(Ceiling(total * SATS_PER_BTC * p, e * m))
  {
    NumbersFit(total, e, p, m);
    ConvertedIs(total, e, p, m, total * SATS_PER_BTC, total * SATS_PER_BTC * p, e * m);
  }

  lemma ConvertedIs(total: U128, e: U128, p: U128, m: U128, scaled: U128, n: U128, d: U128)
    requires CheckedMul(total, SATS_PER_BTC) == Some(scaled) && CheckedMul(scaled, p) == Some(n)
    requires CheckedMul(e, m) == Some(d) && d > 0 && n + d - 1 <= U128_MAX
    ensures Converted(total, e, p, m) == Limited(Ceiling(n, d))
  {
  }

  lemma NumbersFit(total: int, e: int, p: int, m: int)
    requires 0 <= total <= I64_MAX && 1 <= e <= 1_000_000_000_000_000_000
    requires 1 <= p <= 100_000_000 && 1 <= m <= 100_000_000_000_000
    ensures 0 <= total * SATS_PER_BTC <= U128_MAX
    ensures 0 <= total * SATS_PER_BTC * p <= U128_MAX && 0 < e * m <= U128_MAX
    ensures total * SATS_PER_BTC * p + e * m - 1 <= U128_MAX
  {
    Times(total * SATS_PER_BTC, p, I64_MAX * SATS_PER_BTC, 100_000_000);
    Times(e, m, 1_000_000_000_000_000_000, 100_000_000_000_000);
    PositiveProduct(e, m);
  }

  // -------------------------------------------------------------------------
  // Order
  // -------------------------------------------------------------------------

  // m / 10^s is at most n / 10^t.
  predicate RateAtMost(m: int, s: nat, n: int, t: nat) {
    m * Pow10(t) <= n * Pow10(s)
  }

  lemma CoversAtHigherRate(sats: int, total: int, exponent: nat, m: int, s: nat, n: int, t: nat)
    requires sats >= 0 && RateAtMost(m, s, n, t) && Covers(sats, total, exponent, m, s)
    ensures Covers(sats, total, exponent, n, t)
  {
    Regroup(sats, Pow10(exponent), m);
    Regroup(sats, Pow10(exponent), n);
    Cross(sats * Pow10(exponent), m, n, total * SATS_PER_BTC, Pow10(s), Pow10(t));
  }

  lemma Cross(w: int, m: int, n: int, need: int, ps: int, pt: int)
    requires w >= 0 && ps > 0 && pt > 0 && m * pt <= n * ps && w * m >= need * ps
    ensures w * n >= need * pt
  {
    CancelLeft(need * ps, w * m, pt);
    TimesOrder(m * pt, n * ps, w);
    assert need * ps * pt == (need * pt) * ps;
    assert w * m * pt == (m * pt) * w;
    assert (w * n) * ps == (n * ps) * w;
    CancelLeft(need * pt, w * n, ps);
  }

  lemma Regroup(a: int, b: int, c: int)
    ensures a * (b * c) == (a * b) * c
  {
  }

  lemma TimesOrder(x: int, y: int, w: int)
    requires x <= y && w >= 0
    ensures x * w <= y * w
  {
    assert (y - x) * w >= 0;
  }

  lemma SatsNonNegative(total: int, exponent: nat, m: int, s: nat)
    requires m > 0 && total >= 0
    ensures Sats(total, exponent, m, s) >= 0
  {
    PositiveProduct(Pow10(exponent), m);
    var n := total * SATS_PER_BTC * Pow10(s);
    assert n >= 0;
    CeilingIsLeast(n, Pow10(exponent) * m, -1);
    assert (-1) * (Pow10(exponent) * m) < 0;
  }

  // A higher rate never takes more satoshis.
  lemma AntitoneInRate(total: int, exponent: nat, m: int, s: nat, n: int, t: nat)
    requires total >= 0 && m > 0 && n > 0 && RateAtMost(m, s, n, t)
    ensures Sats(total, exponent, n, t) <= Sats(total, exponent, m, s)
  {
    var sats := Sats(total, exponent, m, s);
    SatsNonNegative(total, exponent, m, s);
    SatsIsLeast(total, exponent, m, s, sats);
    CoversAtHigherRate(sats, total, exponent, m, s, n, t);
    SatsIsLeast(total, exponent, n, t, sats);
  }

  // A larger total never takes fewer.
  lemma MonotoneInTotal(total: int, larger: int, exponent: nat, m: int, s: nat)
    requires total <= larger && m > 0
    ensures Sats(total, exponent, m, s) <= Sats(larger, exponent, m, s)
  {
    var sats := Sats(larger, exponent, m, s);
    SatsIsLeast(larger, exponent, m, s, sats);
    TimesOrder(total * SATS_PER_BTC, larger * SATS_PER_BTC, Pow10(s));
    SatsIsLeast(total, exponent, m, s, sats);
  }

  // Writing the same rate with more digits does not change the answer.
  lemma DependsOnValueOnly(total: int, exponent: int, rate: Decimal, again: Decimal)
    requires Quotable(total, exponent, rate) && Quotable(total, exponent, again) && SameValue(rate, again)
    ensures QuoteSats(total, exponent, rate) == QuoteSats(total, exponent, again)
  {
    NoOverflow(total, exponent, rate);
    NoOverflow(total, exponent, again);
    SameSats(total, exponent, rate.mantissa, rate.scale, again.mantissa, again.scale);
  }

  lemma SameSats(total: int, exponent: nat, m: int, s: nat, n: int, t: nat)
    requires total >= 0 && m > 0 && n > 0 && m * Pow10(t) == n * Pow10(s)
    ensures Sats(total, exponent, m, s) == Sats(total, exponent, n, t)
  {
    AntitoneInRate(total, exponent, m, s, n, t);
    AntitoneInRate(total, exponent, n, t, m, s);
  }

  // -------------------------------------------------------------------------
  // The deviation gate
  // -------------------------------------------------------------------------

  predicate WithinDeviation(rate: Decimal, reference: Decimal) {
    var scale := if rate.scale >= reference.scale then rate.scale else reference.scale;
    var r, f := Widened(rate, scale), Widened(reference, scale);
    r.Some? && f.Some?
    && var difference := if r.value >= f.value then r.value - f.value else f.value - r.value;
       var scaled, bound := CheckedMul(difference, 10_000), CheckedMul(f.value, 500);
       scaled.Some? && bound.Some? && scaled.value <= bound.value
  }

  // The values fit the gate's arithmetic at their common scale.
  predicate GateFits(rate: Decimal, reference: Decimal) {
    var scale := if rate.scale >= reference.scale then rate.scale else reference.scale;
    Widened(rate, scale).Some? && Widened(reference, scale).Some? && 500 * AtScale(reference, scale) <= U128_MAX
  }

  // The gate passes exactly the rates between 0.95 and 1.05 times the reference, both included,
  // among those it can compute with.
  lemma WithinFivePercent(rate: Decimal, reference: Decimal)
    ensures WithinDeviation(rate, reference)
            <==> && GateFits(rate, reference)
                 && RateAtMost(95 * reference.mantissa, reference.scale + 2, rate.mantissa, rate.scale)
                 && RateAtMost(rate.mantissa, rate.scale, 105 * reference.mantissa, reference.scale + 2)
  {
    var scale := if rate.scale >= reference.scale then rate.scale else reference.scale;
    Unscale(rate, reference, scale);
    if Widened(rate, scale).Some? && Widened(reference, scale).Some? {
      var r, f := AtScale(rate, scale), AtScale(reference, scale);
      assert Widened(rate, scale) == Some(r) && Widened(reference, scale) == Some(f);
      GateArithmetic(r, f);
    }
  }

  lemma GateArithmetic(r: U128, f: U128)
    ensures var difference := if r >= f then r - f else f - r;
            10_000 * difference <= 500 * f <==> 95 * f <= 100 * r <= 105 * f
  {
  }

  // Cross-multiplied, the two values at their common scale.
  lemma Unscale(rate: Decimal, reference: Decimal, scale: nat)
    requires rate.scale <= scale && reference.scale <= scale
    ensures 95 * AtScale(reference, scale) <= 100 * AtScale(rate, scale)
            <==> RateAtMost(95 * reference.mantissa, reference.scale + 2, rate.mantissa, rate.scale)
    ensures 100 * AtScale(rate, scale) <= 105 * AtScale(reference, scale)
            <==> RateAtMost(rate.mantissa, rate.scale, 105 * reference.mantissa, reference.scale + 2)
  {
    var m: int, f: int, p: int := rate.mantissa, reference.mantissa, Pow10(scale - rate.scale);
    CrossOrder(95 * f, reference.scale + 2, m, rate.scale, scale + 2);
    CrossOrder(m, rate.scale, 105 * f, reference.scale + 2, scale + 2);
    PowAdds(2, scale - rate.scale);
    assert Pow10(2) == 100;
    assert m * Pow10(scale + 2 - rate.scale) == 100 * (m * p);
    Regroup(95, f, Pow10(scale - reference.scale));
    Regroup(105, f, Pow10(scale - reference.scale));
  }

  // -------------------------------------------------------------------------
  // A dollar quote
  // -------------------------------------------------------------------------

  // A feed entry; its time is absent when it is not a representable instant.
  datatype Ticker = Ticker(symbol: string, price: string, base: string, quote: string, updated: Option<int>)

  datatype Feed = Unreachable | Tickers(tickers: seq<Ticker>)

  predicate IsBtcUsd(t: Ticker) {
    t.symbol == "BTCUSD" && t.base == "BTC" && t.quote == "USD"
  }

  function BtcUsd(tickers: seq<Ticker>): seq<Ticker> {
    if tickers == [] then []
    else BtcUsd(tickers[..|tickers| - 1]) + if IsBtcUsd(tickers[|tickers| - 1]) then [tickers[|tickers| - 1]] else []
  }

  function FetchCurrent(feed: Feed, now: int): Result<Decimal> {
    if feed.Unreachable? then Err(Malformed)
    else
      var found := BtcUsd(feed.tickers);
      if |found| != 1 || found[0].updated.None? then Err(Malformed)
      else if now - found[0].updated.value > MAX_AGE_MS then Err(Stale)
      else if now - found[0].updated.value < -MAX_SKEW_MS then Err(Future)
      else
        var rate := Parse(found[0].price);
        if rate.None? then Err(Malformed)
        else if !InBounds(rate.value) then Err(OutOfBounds)
        else Ok(rate.value)
  }

  // The samples that read as decimals.
  function Samples(texts: seq<string>): seq<Decimal> {
    if texts == [] then []
    else
      var last := Parse(texts[|texts| - 1]);
      Samples(texts[..|texts| - 1]) + if last.Some? then [last.value] else []
  }

  function QuoteUsd(texts: seq<string>, feed: Feed, total: int, exponent: int, now: int): Result<(Decimal, int)> {
    var reference := Median(Samples(texts));
    if reference.None? then Err(MissingReference)
    else
      var current := FetchCurrent(feed, now);
      if current.Err? then Err(current.error)
      else if !WithinDeviation(current.value, reference.value) then Err(DeviationExceeded)
      else
        var sats := QuoteSats(total, exponent, current.value);
        if sats.Err? then Err(sats.error) else Ok((current.value, sats.value))
  }

  // What an accepted quote went through.
  lemma GatesPassed(texts: seq<string>, feed: Feed, total: int, exponent: int, now: int, rate: Decimal, sats: int)
    requires QuoteUsd(texts, feed, total, exponent, now) == Ok((rate, sats))
    ensures Median(Samples(texts)).Some? && WithinDeviation(rate, Median(Samples(texts)).value)
    ensures InBounds(rate) && rate.scale <= MAX_FRACTION && QuoteSats(total, exponent, rate) == Ok(sats)
  {
  }

  // An accepted quote is the exact ceiling at a rate in bounds, and lies between the ceilings at
  // 1.05 and 0.95 times the reference.
  lemma AcceptedQuote(texts: seq<string>, feed: Feed, total: int, exponent: int, now: int,
                      reference: Decimal, rate: Decimal, sats: int)
    requires Median(Samples(texts)) == Some(reference)
    requires QuoteUsd(texts, feed, total, exponent, now) == Ok((rate, sats))
    ensures total >= 0 && exponent >= 0 && InBounds(rate) && rate.mantissa > 0 && reference.mantissa > 0
    ensures sats == Sats(total, exponent, rate.mantissa, rate.scale) && MIN_SATS <= sats <= MAX_SATS
    ensures Sats(total, exponent, 105 * reference.mantissa, reference.scale + 2) <= sats
    ensures sats <= Sats(total, exponent, 95 * reference.mantissa, reference.scale + 2)
  {
    GatesPassed(texts, feed, total, exponent, now, rate, sats);
    QuoteCovers(total, exponent, rate, sats);
    DeviationBoundsSats(total, exponent, rate, reference);
  }

  lemma DeviationBoundsSats(total: int, exponent: nat, rate: Decimal, reference: Decimal)
    requires total >= 0 && rate.mantissa > 0 && WithinDeviation(rate, reference)
    ensures reference.mantissa > 0
    ensures Sats(total, exponent, 105 * reference.mantissa, reference.scale + 2)
            <= Sats(total, exponent, rate.mantissa, rate.scale)
            <= Sats(total, exponent, 95 * reference.mantissa, reference.scale + 2)
  {
    WithinFivePercent(rate, reference);
    var m: int, f: int, s := rate.mantissa, reference.mantissa, reference.scale + 2;
    ReferenceIsPositive(rate, reference);
    AntitoneInRate(total, exponent, m, rate.scale, 105 * f, s);
    AntitoneInRate(total, exponent, 95 * f, s, m, rate.scale);
  }

  lemma ReferenceIsPositive(rate: Decimal, reference: Decimal)
    requires rate.mantissa > 0 && RateAtMost(rate.mantissa, rate.scale, 105 * reference.mantissa, reference.scale + 2)
    ensures reference.mantissa > 0
  {
    PositiveProduct(rate.mantissa, Pow10(reference.scale + 2));
    assert reference.mantissa == 0 ==> 105 * reference.mantissa * Pow10(rate.scale) == 0;
  }

  // A quote of a nonnegative total with up to 18 decimals never fails for want of width.
  lemma QuoteUsdNeverOverflows(texts: seq<string>, feed: Feed, total: int, exponent: int, now: int)
    requires 0 <= total <= I64_MAX && 0 <= exponent <= 18
    ensures QuoteUsd(texts, feed, total, exponent, now) != Err(Overflow)
  {
    if QuoteUsd(texts, feed, total, exponent, now) == Err(Overflow) {
      OnlySatsOverflow(texts, feed, total, exponent, now);
      NoOverflow(total, exponent, FetchCurrent(feed, now).value);
    }
  }

  lemma OnlySatsOverflow(texts: seq<string>, feed: Feed, total: int, exponent: int, now: int)
    requires QuoteUsd(texts, feed, total, exponent, now) == Err(Overflow)
    ensures FetchCurrent(feed, now).Ok?
    ensures var rate := FetchCurrent(feed, now).value;
            InBounds(rate) && rate.scale <= MAX_FRACTION && QuoteSats(total, exponent, rate) == Err(Overflow)
  {
  }

  // While most samples lie in [lo, hi], an accepted quote lies between the ceilings at 1.05 hi and
  // 0.95 lo, whatever the others say.
  lemma MajorityBoundsQuote(texts: seq<string>, feed: Feed, total: int, exponent: int, now: int,
                            lo: Decimal, hi: Decimal, rate: Decimal, sats: int)
    requires QuoteUsd(texts, feed, total, exponent, now) == Ok((rate, sats)) && lo.mantissa > 0 && hi.mantissa > 0
    requires 2 * CountIf(Samples(texts), Within(lo, hi)) > |Samples(texts)|
    ensures total >= 0 && exponent >= 0
    ensures Sats(total, exponent, 105 * hi.mantissa, hi.scale + 2) <= sats
    ensures sats <= Sats(total, exponent, 95 * lo.mantissa, lo.scale + 2)
  {
    GatesPassed(texts, feed, total, exponent, now, rate, sats);
    var reference := Median(Samples(texts)).value;
    AcceptedQuote(texts, feed, total, exponent, now, reference, rate, sats);
    MajorityBoundsMedian(Samples(texts), lo, hi);
    ScaledSats(total, exponent, reference, hi, 105);
    ScaledSats(total, exponent, lo, reference, 95);
  }

  lemma ScaledSats(total: int, exponent: nat, a: Decimal, b: Decimal, percent: nat)
    requires total >= 0 && percent > 0 && a.mantissa > 0 && b.mantissa > 0 && AtMost(a, b)
    ensures Positive(percent, b.mantissa) && Positive(percent, a.mantissa)
    ensures Sats(total, exponent, percent * b.mantissa, b.scale + 2) <= Sats(total, exponent, percent * a.mantissa, a.scale + 2)
  {
    PositiveProduct(percent, a.mantissa);
    PositiveProduct(percent, b.mantissa);
    ScaledOrder(a, b, percent);
    AntitoneInRate(total, exponent, percent * a.mantissa, a.scale + 2, percent * b.mantissa, b.scale + 2);
  }

  predicate Positive(a: int, b: int) { a * b > 0 }

  lemma ScaledOrder(a: Decimal, b: Decimal, percent: nat)
    requires AtMost(a, b)
    ensures RateAtMost(percent * a.mantissa, a.scale + 2, percent * b.mantissa, b.scale + 2)
  {
    HundredTimes(a.scale);
    HundredTimes(b.scale);
    TimesOrder(a.mantissa * Pow10(b.scale), b.mantissa * Pow10(a.scale), percent * 100);
    Spread(percent, a.mantissa, Pow10(b.scale));
    Spread(percent, b.mantissa, Pow10(a.scale));
  }

  lemma HundredTimes(s: nat)
    ensures Pow10(s + 2) == 100 * Pow10(s)
  {
    PowAdds(2, s);
    assert Pow10(2) == 100;
  }

  lemma Spread(p: int, m: int, w: int)
    ensures p * m * (100 * w) == m * w * (p * 100)
  {
    assert p * m * (100 * w) == (m * w) * (100 * p);
  }
}
