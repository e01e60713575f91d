/**
 The bitcoin reference rate: the median of recent samples.
 */
module ReferenceRate {
  import opened Options
  import opened Decimals

  const MIN_SAMPLES: nat := 3

  function MaxScale(rates: seq<Decimal>): (s: nat)
    ensures forall i :: 0 <= i < |rates| ==> rates[i].scale <= s
  {
    if rates == [] then 0
    else
      var rest, last := MaxScale(rates[..|rates| - 1]), rates[|rates| - 1].scale;
      if last > rest then last else rest
  }

  predicate AllWiden(rates: seq<Decimal>, scale: nat) {
    forall i :: 0 <= i < |rates| ==> Widened(rates[i], scale).Some?
  }

  // The comparison the sort uses: an impossible one counts as equal.
  function OrderOf(a: Decimal, b: Decimal): Order {
    if Compare(a, b).Some? then Compare(a, b).value else Equal
  }

  // Puts a rate after every one that is not greater.
  function Insert(q: seq<Decimal>, d: Decimal): seq<Decimal>
    decreases |q|
  {
    if q == [] || OrderOf(q[|q| - 1], d) != Greater then q + [d]
    else Insert(q[..|q| - 1], d) + [q[|q| - 1]]
  }

  // The stable sort.
  function Sorted(rates: seq<Decimal>): seq<Decimal>
    decreases |rates|
  {
    if rates == [] then [] else Insert(Sorted(rates[..|rates| - 1]), rates[|rates| - 1])
  }

  function Median(rates: seq<Decimal>): Option<Decimal> {
    if |rates| < MIN_SAMPLES || !AllWiden(rates, MaxScale(rates)) then None
    else
      var q := Sorted(rates);
      if |rates| / 2 < |q| then Some(q[|rates| / 2]) else None
  }

  // -------------------------------------------------------------------------
  // The order is total
  // -------------------------------------------------------------------------

  predicate Fits(d: Decimal, scale: nat) {
    d.scale <= scale && Widened(d, scale).Some?
  }

  predicate AllFit(q: seq<Decimal>, scale: nat) {
    forall i :: 0 <= i < |q| ==> Fits(q[i], scale)
  }

  // Between values that widen to a common scale the comparison always exists and is by value: the
  // fallback is never taken.
  lemma FallbackIsNeverTaken(a: Decimal, b: Decimal, scale: nat)
    requires Fits(a, scale) && Fits(b, scale)
    ensures Compare(a, b).Some? && Compare(b, a).Some?
    ensures OrderOf(a, b) == Greater <==> !AtMost(a, b)
    ensures AtMost(a, b) <==> AtScale(a, scale) <= AtScale(b, scale)
  {
    var mid := if a.scale >= b.scale then a.scale else b.scale;
    WidensBetween(a, mid, scale);
    WidensBetween(b, mid, scale);
    CompareIsByValue(a, b);
    CompareIsByValue(b, a);
    OrderAtScale(a, b, scale);
  }

  predicate Ascending(q: seq<Decimal>) {
    forall i, j :: 0 <= i < j < |q| ==> AtMost(q[i], q[j])
  }

  lemma {:induction false} InsertAdds(q: seq<Decimal>, d: Decimal)
    ensures var r := Insert(q, d);
            && |r| == |q| + 1 && multiset(r) == multiset(q) + multiset{d}
            && forall x :: x in r <==> x in q || x == d
    decreases |q|
  {
    if q != [] {
      assert q == q[..|q| - 1] + [q[|q| - 1]];
      InsertAdds(q[..|q| - 1], d);
    }
  }

  lemma {:induction false} InsertSorts(q: seq<Decimal>, d: Decimal, scale: nat)
    requires AllFit(q, scale) && Fits(d, scale) && Ascending(q)
    ensures AllFit(Insert(q, d), scale) && Ascending(Insert(q, d))
    decreases |q|
  {
    InsertAdds(q, d);
    if q != [] {
      var front, last := q[..|q| - 1], q[|q| - 1];
      FallbackIsNeverTaken(last, d, scale);
      if OrderOf(last, d) == Greater {
        InsertSorts(front, d, scale);
        InsertAdds(front, d);
        var r := Insert(front, d);
        forall i | 0 <= i < |r| ensures AtMost(r[i], last) {
          assert r[i] in r;
          if r[i] != d {
            assert r[i] in front;
          } else {
            FallbackIsNeverTaken(d, last, scale);
          }
        }
      } else {
        forall i | 0 <= i < |q| ensures AtMost(q[i], d) {
          if i < |q| - 1 {
            AtMostTransitive(q[i], last, d);
          }
        }
      }
    }
  }

  lemma {:induction false} SortedIs(rates: seq<Decimal>, scale: nat)
    requires AllFit(rates, scale)
    ensures var q := Sorted(rates);
            AllFit(q, scale) && Ascending(q) && |q| == |rates| && multiset(q) == multiset(rates)
    decreases |rates|
  {
    if rates != [] {
      var front, last := rates[..|rates| - 1], rates[|rates| - 1];
      assert rates == front + [last];
      SortedIs(front, scale);
      InsertSorts(Sorted(front), last, scale);
      InsertAdds(Sorted(front), last);
    }
  }

  // -------------------------------------------------------------------------
  // Ranks by counting
  // -------------------------------------------------------------------------

  function CountIf(s: seq<Decimal>, p: Decimal -> bool): nat
    decreases |s|
  {
    if s == [] then 0 else CountIf(s[..|s| - 1], p) + if p(s[|s| - 1]) then 1 else 0
  }

  lemma {:induction false} CountSplits(s: seq<Decimal>, t: seq<Decimal>, p: Decimal -> bool)
    ensures CountIf(s + t, p) == CountIf(s, p) + CountIf(t, p)
    decreases |t|
  {
    if t == [] {
      assert s + t == s;
    } else {
      assert (s + t)[..|s + t| - 1] == s + t[..|t| - 1];
      CountSplits(s, t[..|t| - 1], p);
    }
  }

  lemma {:induction false} CountAtMostLength(s: seq<Decimal>, p: Decimal -> bool)
    ensures CountIf(s, p) <= |s|
    ensures (forall i :: 0 <= i < |s| ==> !p(s[i])) ==> CountIf(s, p) == 0
    ensures (forall i :: 0 <= i < |s| ==> p(s[i])) ==> CountIf(s, p) == |s|
    decreases |s|
  {
    if s != [] {
      CountAtMostLength(s[..|s| - 1], p);
    }
  }

  lemma {:induction false} CountOfPermutation(s: seq<Decimal>, t: seq<Decimal>, p: Decimal -> bool)
    requires multiset(s) == multiset(t)
    ensures CountIf(s, p) == CountIf(t, p)
    decreases |s|
  {
    if s == [] {
      assert |multiset(t)| == |t|;
    } else {
      var x := s[|s| - 1];
      assert s == s[..|s| - 1] + [x];
      assert x in multiset(t);
      var i: nat :| i < |t| && t[i] == x;
      Around(t, i);
      CountMiddle(t, t[..i], x, t[i + 1..], p);
      BagMiddle(t, t[..i], x, t[i + 1..]);
      assert multiset(s[..|s| - 1]) == multiset(s) - multiset{x};
      CountOfPermutation(s[..|s| - 1], t[..i] + t[i + 1..], p);
    }
  }

  lemma Around(t: seq<Decimal>, i: nat)
    requires i < |t|
    ensures t == t[..i] + [t[i]] + t[i + 1..]
  {
  }

  lemma CountMiddle(t: seq<Decimal>, before: seq<Decimal>, x: Decimal, after: seq<Decimal>, p: Decimal -> bool)
    requires t == before + [x] + after
    ensures CountIf(t, p) == CountIf(before + after, p) + if p(x) then 1 else 0
  {
    CountSplits(before + [x], after, p);
    CountSplits(before, [x], p);
    CountSplits(before, after, p);
    CountOne(x, p);
  }

  lemma CountOne(x: Decimal, p: Decimal -> bool)
    ensures CountIf([x], p) == if p(x) then 1 else 0
  {
    assert [x][..0] == [];
  }

  lemma BagMiddle(t: seq<Decimal>, before: seq<Decimal>, x: Decimal, after: seq<Decimal>)
    requires t == before + [x] + after
    ensures multiset(before + after) == multiset(t) - multiset{x}
  {
  }

  // If nothing up to k has the property, at most the rest do; and the other way round.
  lemma CountOutside(s: seq<Decimal>, k: nat, p: Decimal -> bool)
    requires k <= |s|
    ensures (forall i :: 0 <= i < k ==> !p(s[i])) ==> CountIf(s, p) <= |s| - k
    ensures (forall i :: k <= i < |s| ==> !p(s[i])) ==> CountIf(s, p) <= k
    ensures (forall i :: 0 <= i < k ==> p(s[i])) ==> CountIf(s, p) >= k
  {
    assert s == s[..k] + s[k..];
    CountSplits(s[..k], s[k..], p);
    CountAtMostLength(s[..k], p);
    CountAtMostLength(s[k..], p);
  }

  // In an ascending sequence, an element is at most x exactly when more than its index are.
  lemma RankByCount(q: seq<Decimal>, k: nat, x: Decimal)
    requires Ascending(q) && k < |q|
    ensures AtMost(q[k], x) <==> CountIf(q, d => AtMost(d, x)) > k
  {
    var p := d => AtMost(d, x);
    CountOutside(q, k + 1, p);
    CountOutside(q, k, p);
    if AtMost(q[k], x) {
      forall i | 0 <= i < k + 1 ensures p(q[i]) {
        if i < k {
          AtMostTransitive(q[i], q[k], x);
        }
      }
    } else {
      forall i | k <= i < |q| ensures !p(q[i]) {
        if AtMost(q[i], x) {
          if i > k {
            AtMostTransitive(q[k], q[i], x);
          }
        }
      }
    }
  }

  // -------------------------------------------------------------------------
  // The theorems
  // -------------------------------------------------------------------------

  lemma MedianIsMiddle(rates: seq<Decimal>)
    requires Median(rates).Some?
    ensures var q := Sorted(rates);
            && |rates| >= MIN_SAMPLES && Ascending(q) && |q| == |rates| && multiset(q) == multiset(rates)
            && Median(rates) == Some(q[|rates| / 2])
  {
    SortedIs(rates, MaxScale(rates));
  }

  // There is a median exactly when there are three samples and all widen to the widest scale.
  lemma MedianExists(rates: seq<Decimal>)
    ensures Median(rates).Some? <==> |rates| >= MIN_SAMPLES && AllFit(rates, MaxScale(rates))
  {
    if |rates| >= MIN_SAMPLES && AllFit(rates, MaxScale(rates)) {
      SortedIs(rates, MaxScale(rates));
    }
  }

  // The order of the samples does not matter to whether there is a median or to its value.
  lemma MedianOfPermutation(p: seq<Decimal>, q: seq<Decimal>)
    requires multiset(p) == multiset(q)
    ensures Median(p).Some? <==> Median(q).Some?
    ensures Median(p).Some? ==> SameValue(Median(p).value, Median(q).value)
  {
    MedianExists(p);
    MedianExists(q);
    ScaleOfPermutation(p, q);
    ScaleOfPermutation(q, p);
    if Median(p).Some? {
      MedianIsMiddle(p);
      MedianIsMiddle(q);
      SameMiddle(Sorted(p), Sorted(q), |p| / 2);
      SameMiddle(Sorted(q), Sorted(p), |q| / 2);
    }
  }

  lemma ScaleOfPermutation(p: seq<Decimal>, q: seq<Decimal>)
    requires multiset(p) == multiset(q)
    ensures |p| == |q| && MaxScale(p) <= MaxScale(q)
    ensures AllFit(q, MaxScale(q)) ==> AllFit(p, MaxScale(q))
  {
    assert |p| == |multiset(p)| == |multiset(q)| == |q|;
    forall i | 0 <= i < |p| ensures p[i] in q {
      assert p[i] in multiset(p);
    }
    MaxScaleIsLeast(p, MaxScale(q));
  }

  lemma {:induction false} MaxScaleIsLeast(p: seq<Decimal>, bound: nat)
    requires forall i :: 0 <= i < |p| ==> p[i].scale <= bound
    ensures MaxScale(p) <= bound
    decreases |p|
  {
    if p != [] {
      MaxScaleIsLeast(p[..|p| - 1], bound);
    }
  }

  lemma SameMiddle(p: seq<Decimal>, q: seq<Decimal>, k: nat)
    requires Ascending(p) && Ascending(q) && multiset(p) == multiset(q) && k < |p| == |q|
    ensures AtMost(p[k], q[k])
  {
    RankByCount(p, k, q[k]);
    RankByCount(q, k, q[k]);
    CountOfPermutation(p, q, d => AtMost(d, q[k]));
  }

  function Within(lo: Decimal, hi: Decimal): Decimal -> bool {
    d => AtMost(lo, d) && AtMost(d, hi)
  }

  lemma MiddleIsNotBelow(q: seq<Decimal>, lo: Decimal, hi: Decimal)
    requires Ascending(q) && 2 * CountIf(q, Within(lo, hi)) > |q|
    ensures |q| > 0 && AtMost(lo, q[|q| / 2])
  {
    CountAtMostLength(q, Within(lo, hi));
    var k := |q| / 2;
    CountOutside(q, k + 1, Within(lo, hi));
    if !AtMost(lo, q[k]) {
      forall i | 0 <= i < k + 1 ensures !Within(lo, hi)(q[i]) {
        if AtMost(lo, q[i]) && i < k {
          AtMostTransitive(lo, q[i], q[k]);
        }
      }
    }
  }

  lemma MiddleIsNotAbove(q: seq<Decimal>, lo: Decimal, hi: Decimal)
    requires Ascending(q) && 2 * CountIf(q, Within(lo, hi)) > |q|
    ensures |q| > 0 && AtMost(q[|q| / 2], hi)
  {
    CountAtMostLength(q, Within(lo, hi));
    var k := |q| / 2;
    CountOutside(q, k, Within(lo, hi));
    if !AtMost(q[k], hi) {
      forall i | k <= i < |q| ensures !Within(lo, hi)(q[i]) {
        if AtMost(q[i], hi) && i > k {
          AtMostTransitive(q[k], q[i], hi);
        }
      }
    }
  }

  // If a strict majority of the samples lies in [lo, hi], so does the reference.
  lemma MajorityBoundsMedian(rates: seq<Decimal>, lo: Decimal, hi: Decimal)
    requires Median(rates).Some? && 2 * CountIf(rates, Within(lo, hi)) > |rates|
    ensures AtMost(lo, Median(rates).value) && AtMost(Median(rates).value, hi)
  {
    MedianIsMiddle(rates);
    CountOfPermutation(rates, Sorted(rates), Within(lo, hi));
    MiddleIsNotBelow(Sorted(rates), lo, hi);
    MiddleIsNotAbove(Sorted(rates), lo, hi);
  }

  // One insertion, from the back.
  method InsertRate(sorted: seq<Decimal>, d: Decimal) returns (r: seq<Decimal>)
    ensures r == Insert(sorted, d)
  {
    var at := |sorted|;
    assert sorted[..at] == sorted && sorted + [] == sorted;
    while at > 0 && OrderOf(sorted[at - 1], d) == Greater
      invariant 0 <= at <= |sorted|
      invariant Insert(sorted, d) == Insert(sorted[..at], d) + sorted[at..]
    {
      InsertFurtherDown(sorted, at, d);
      at := at - 1;
    }
    r := sorted[..at] + [d] + sorted[at..];
  }

  lemma InsertFurtherDown(sorted: seq<Decimal>, at: nat, d: Decimal)
    requires 0 < at <= |sorted| && OrderOf(sorted[at - 1], d) == Greater
    ensures Insert(sorted[..at], d) + sorted[at..] == Insert(sorted[..at - 1], d) + sorted[at - 1..]
  {
    assert sorted[..at][..at - 1] == sorted[..at - 1];
    assert sorted[at - 1..] == [sorted[at - 1]] + sorted[at..];
  }

  // The sort and the pick, step by step.
  method ComputeMedian(rates: seq<Decimal>) returns (r: Option<Decimal>)
    ensures r == Median(rates)
  {
    if |rates| < MIN_SAMPLES {
      return None;
    }
    var scale := MaxScale(rates);
    for i := 0 to |rates|
      invariant forall j :: 0 <= j < i ==> Widened(rates[j], scale).Some?
    {
      if Widened(rates[i], scale).None? {
        return None;
      }
    }
    var sorted: seq<Decimal> := [];
    for i := 0 to |rates|
      invariant sorted == Sorted(rates[..i])
    {
      assert rates[..i + 1][..i] == rates[..i];
      sorted := InsertRate(sorted, rates[i]);
    }
    assert rates[..|rates|] == rates;
    SortedIs(rates, scale);
    r := Some(sorted[|rates| / 2]);
  }
}
