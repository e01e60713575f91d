/**
 What each inventory effect does to the books: the reserved column of every listing against what
 orders and reservations hold of it, and the units a drop has given out against what they hold of
 the drop.  The difference is the book's gap, and every effect moves it by a stated amount.
 */
module ReviewAccounting {
  import opened Options
  import opened StateMachines
  import opened Ledger
  import opened BitcoinReview

  // Lines name existing listings; an auction order is one line of its listing and no drop's; a
  // drop order is for one unit.
  ghost predicate OrderShaped(s: Stock, t: Terms) {
    && t.lines != []
    && (forall n :: 0 <= n < |t.lines| ==> t.lines[n].quantity > 0 && t.lines[n].listing in s.listings)
    && (t.auction.Some? ==> |t.lines| == 1 && t.lines[0].listing == t.auction.value && t.drop.None?)
    && (t.drop.Some? ==> Units(t.lines) == 1)
  }

  // What a transaction for order `k` may touch: that order, and the reservations of its buyer on
  // the listing it won.
  ghost predicate Touches(s: Stock, s': Stock, k: OrderId) {
    && k < |s.orders| == |s'.orders|
    && (forall j :: 0 <= j < |s.orders| && j != k ==> s'.orders[j] == s.orders[j])
    && s'.orders[k].terms == s.orders[k].terms
    && SameSellers(s.listings, s'.listings)
    && |s'.reservations| == |s.reservations|
    && (forall i :: 0 <= i < |s.reservations| ==>
          s'.reservations[i].claim == s.reservations[i].claim
          && (WonBy(s.orders[k].terms, s.reservations[i].claim) || s'.reservations[i] == s.reservations[i]))
  }

  // -------------------------------------------------------------------------
  // Gaps
  // -------------------------------------------------------------------------

  predicate Open(s: Stock, b: Book) {
    match b
    case ListingBook(l) => l in s.listings
    case DropBook(d) => d in s.drops
  }

  // What the book's own columns say is held.
  function Column(s: Stock, b: Book): int
    requires Open(s, b)
  {
    match b
    case ListingBook(l) => s.listings[l].reserved
    case DropBook(d) => s.drops[d].total - s.drops[d].remaining - s.drops[d].paid
  }

  function Gap(s: Stock, b: Book): int
    requires Open(s, b)
  {
    Column(s, b) - Held(s, b)
  }

  // The checks of the two tables: columns balance and no quantity is negative.
  ghost predicate Balanced(s: Stock) {
    && (forall l :: l in s.listings ==>
          var x := s.listings[l];
          x.available >= 0 && x.reserved >= 0 && x.sold >= 0 && x.available + x.reserved + x.sold == x.total)
    && (forall d :: d in s.drops ==> s.drops[d].remaining >= 0 && s.drops[d].paid >= 0)
  }

  // The books are right exactly when no gap is open.
  lemma AccountedByGaps(s: Stock)
    requires Balanced(s)
    ensures Accounted(s) <==> forall l :: l in s.listings ==> Gap(s, ListingBook(l)) == 0
    ensures DropsAccounted(s) <==> forall d :: d in s.drops ==> Gap(s, DropBook(d)) == 0
  {
    if Accounted(s) {
      forall l | l in s.listings ensures Gap(s, ListingBook(l)) == 0 {
        assert ListingAccounted(s, l);
      }
    }
    if DropsAccounted(s) {
      forall d | d in s.drops ensures Gap(s, DropBook(d)) == 0 {
        assert DropAccounted(s, d);
      }
    }
  }

  // The same books are open, and still balance if they did.
  ghost predicate KeepsTables(s: Stock, s': Stock) {
    s'.listings.Keys == s.listings.Keys && s'.drops.Keys == s.drops.Keys && (Balanced(s) ==> Balanced(s'))
  }

  // Every book's column moves by the order's units: down for a hold that ends, up for one taken.
  ghost predicate ColumnsMove(s: Stock, s': Stock, t: Terms, out: int) {
    && KeepsTables(s, s')
    && forall b :: Open(s, b) ==> Column(s', b) == Column(s, b) - out * InTerms(b, t)
  }

  // The units the rows matching an auction order claim.
  function ClaimedFor(s: Stock, t: Terms, from: set<ReservationStatus>, b: Book): nat {
    if t.auction.None? then 0 else Claimed(s.reservations, t.auction.value, t.buyer, from, b)
  }

  // A transaction of order `k` that reassigns its reservations changes what is held by its flag and
  // by the rows it moved.
  lemma HeldAfter(
    s: Stock, s': Stock, k: OrderId, from: set<ReservationStatus>, to: ReservationStatus,
    expiresAt: Option<int>, b: Book)
    requires k < |s.orders| == |s'.orders| && s'.orders == s.orders[k := s'.orders[k]]
    requires s'.reservations == Reassign(s.reservations, s.orders[k].terms, from, to, expiresAt)
    ensures var t := s.orders[k].terms;
            Held(s', b)
            == Held(s, b) - HeldByOrder(s.orders[k], b) + HeldByOrder(s'.orders[k], b)
               + (if to == Active then ClaimedFor(s, t, from - {Active}, b) else 0)
               - (if to == Active then 0 else ClaimedFor(s, t, from * {Active}, b))
  {
    var t := s.orders[k].terms;
    OrdersSplit(s.orders, k, s'.orders[k], b);
    if t.auction.Some? {
      UpdateHeld(s.reservations, t.auction.value, t.buyer, from, to, expiresAt, b);
    }
  }

  // Columns that are not part of any hold.
  lemma NothingMoves(s: Stock, s': Stock, k: OrderId)
    requires k < |s.orders| == |s'.orders|
    requires s'.orders == s.orders[k := s'.orders[k]] && s'.listings == s.listings
    requires s'.orders[k].terms == s.orders[k].terms && s'.orders[k].stockHeld == s.orders[k].stockHeld
    requires s'.reservations == s.reservations
    ensures Touches(s, s', k)
    ensures forall b :: Held(s', b) == Held(s, b)
  {
    forall b ensures Held(s', b) == Held(s, b) {
      OrdersSplit(s.orders, k, s'.orders[k], b);
    }
  }

  // -------------------------------------------------------------------------
  // Ending a hold, by sale or release
  // -------------------------------------------------------------------------

  // By how much a sale or release misses: an auction order gives up every active row of its buyer
  // on the listing, and moves its one line.
  function EndLeak(s: Stock, t: Terms, b: Book): int {
    if t.auction.None? then 0 else ClaimedFor(s, t, {Active}, b) - InTerms(b, t)
  }

  lemma SaleKeepsTables(s: Stock, k: OrderId, seenState: OrderState, seenHeld: bool, deliverable: bool, s': Stock)
    requires k < |s.orders| && ConfirmOrder(s, k, seenState, seenHeld, deliverable) == Ok(s')
    ensures KeepsTables(s, s')
  {
    SellLinesMoves(s.listings, s.orders[k].terms.lines);
  }

  lemma SaleColumns(s: Stock, k: OrderId, seenState: OrderState, seenHeld: bool, deliverable: bool, s': Stock)
    requires k < |s.orders| && OrderShaped(s, s.orders[k].terms)
    requires ConfirmOrder(s, k, seenState, seenHeld, deliverable) == Ok(s')
    ensures ColumnsMove(s, s', s.orders[k].terms, 1)
  {
    SaleKeepsTables(s, k, seenState, seenHeld, deliverable, s');
    SellLinesMoves(s.listings, s.orders[k].terms.lines);
  }

  lemma ReleaseColumns(s: Stock, o: Order, s': Stock)
    requires OrderShaped(s, o.terms) && HoldPresent(s, o) && ReleaseHold(s, o) == Ok(s')
    ensures ColumnsMove(s, s', o.terms, 1)
  {
    ReleaseLinesMoves(s.listings, o.terms.lines);
    assert o.terms.lines[..|o.terms.lines|] == o.terms.lines;
  }

  // A hold that ends leaves a gap of exactly the rows given up beyond the line.
  lemma EndedHold(s: Stock, s': Stock, k: OrderId, to: ReservationStatus, b: Book)
    requires k < |s.orders| == |s'.orders| && s'.orders == s.orders[k := s'.orders[k]] && Open(s, b)
    requires s.orders[k].stockHeld == s.orders[k].terms.auction.None? && !s'.orders[k].stockHeld
    requires to != Active && s'.reservations == Reassign(s.reservations, s.orders[k].terms, {Active}, to, None)
    requires ColumnsMove(s, s', s.orders[k].terms, 1)
    ensures Open(s', b) && Gap(s', b) == Gap(s, b) + EndLeak(s, s.orders[k].terms, b)
  {
    HeldAfter(s, s', k, {Active}, to, None, b);
    assert {Active} * {Active} == {Active};
  }

  // -------------------------------------------------------------------------
  // Taking stock again
  // -------------------------------------------------------------------------

  // The drop has the unit, exactly one lapsed or released row is there to claim, and every line fits.
  predicate TakeFits(s: Stock, t: Terms) {
    && DropCovers(s.drops, t)
    && (t.auction.Some? ==> Reserved(s.reservations, t, {Lapsed, Released}) == 1)
    && ReservedPrefix(s.listings, t.lines, t.createdAt) == |t.lines|
  }

  lemma TakeSucceeds(s: Stock, k: OrderId, now: int)
    requires k < |s.orders|
    ensures Reacquire(s, k, now).1 <==> TakeFits(s, s.orders[k].terms)
  {
    ReserveLinesMoves(s.listings, s.orders[k].terms.lines, s.orders[k].terms.createdAt);
  }

  lemma TakeColumns(s: Stock, k: OrderId, now: int, s': Stock)
    requires k < |s.orders| && OrderShaped(s, s.orders[k].terms)
    requires Reacquire(s, k, now) == (s', true)
    ensures ColumnsMove(s, s', s.orders[k].terms, -1)
  {
    var t := s.orders[k].terms;
    ReserveLinesMoves(s.listings, t.lines, t.createdAt);
    assert t.lines[..|t.lines|] == t.lines;
  }

  // Taken again: an order outside auctions holds what it took, an auction order what its rows claim.
  lemma TakenHold(s: Stock, k: OrderId, now: int, s': Stock, b: Book)
    requires k < |s.orders| && OrderShaped(s, s.orders[k].terms) && !s.orders[k].stockHeld && Open(s, b)
    requires Reacquire(s, k, now) == (s', true)
    ensures var t := s.orders[k].terms;
            && Open(s', b) && KeepsTables(s, s')
            && Gap(s', b) == Gap(s, b)
                 + (if t.auction.None? then 0 else InTerms(b, t) - ClaimedFor(s, t, {Lapsed, Released}, b))
            && ClaimedFor(s', t, {Active}, b)
                 == ClaimedFor(s, t, {Active}, b) + ClaimedFor(s, t, {Lapsed, Released}, b)
  {
    var t := s.orders[k].terms;
    var expiresAt := Some(now + REACQUIRED_RESERVATION_SECONDS);
    TakeColumns(s, k, now, s');
    HeldAfter(s, s', k, {Lapsed, Released}, Active, expiresAt, b);
    assert {Lapsed, Released} - {Active} == {Lapsed, Released};
    if t.auction.Some? {
      ReactivatedClaims(s.reservations, t.auction.value, t.buyer, expiresAt, b);
    }
  }

  // What a failed reacquisition leaves behind: the drop's unit and the lines before the first that
  // did not fit, or the reservations it reactivated.
  function FailedTakeLeak(s: Stock, t: Terms, b: Book): int {
    if !DropCovers(s.drops, t) then 0
    else if t.auction.Some? then 0 - ClaimedFor(s, t, {Lapsed, Released}, b)
    else
      match b
      case ListingBook(l) => UnitsOf(t.lines[..ReservedPrefix(s.listings, t.lines, t.createdAt)], l)
      case DropBook(_) => InTerms(b, t)
  }

  lemma FailedTake(s: Stock, k: OrderId, now: int, s': Stock, b: Book)
    requires k < |s.orders| && OrderShaped(s, s.orders[k].terms) && Open(s, b)
    requires Reacquire(s, k, now) == (s', false)
    ensures Open(s', b) && KeepsTables(s, s') && s'.orders == s.orders
    ensures Gap(s', b) == Gap(s, b) + FailedTakeLeak(s, s.orders[k].terms, b)
  {
    var t := s.orders[k].terms;
    FailedTakeColumns(s, k, now, s', b);
    if DropCovers(s.drops, t) {
      HeldAfter(s, s', k, {Lapsed, Released}, Active, Some(now + REACQUIRED_RESERVATION_SECONDS), b);
      assert {Lapsed, Released} - {Active} == {Lapsed, Released};
    }
  }

  lemma FailedTakeColumns(s: Stock, k: OrderId, now: int, s': Stock, b: Book)
    requires k < |s.orders| && OrderShaped(s, s.orders[k].terms) && Open(s, b)
    requires Reacquire(s, k, now) == (s', false)
    ensures Open(s', b) && KeepsTables(s, s')
    ensures Column(s', b)
            == Column(s, b)
               + if s.orders[k].terms.auction.Some? then 0 else FailedTakeLeak(s, s.orders[k].terms, b)
  {
    var t := s.orders[k].terms;
    ReserveLinesMoves(s.listings, t.lines, t.createdAt);
    assert t.lines[..0] == [];
  }

  // -------------------------------------------------------------------------
  // Holds are there to be released
  // -------------------------------------------------------------------------

  lemma HeldOrderReleases(s: Stock, k: OrderId)
    requires Accounted(s) && k < |s.orders| && OrderShaped(s, s.orders[k].terms)
    requires s.orders[k].stockHeld
    ensures ReleaseLines(s.listings, s.orders[k].terms.lines).1
  {
    forall l | l in s.listings ensures s.listings[l].reserved >= UnitsOf(s.orders[k].terms.lines, l) {
      assert ListingAccounted(s, l);
      OrdersSplit(s.orders, k, s.orders[k], ListingBook(l));
    }
    HeldLinesRelease(s.listings, s.orders[k].terms.lines);
  }

  lemma ExpiryKeepsTables(s: Stock, i: nat, s': Stock)
    requires i < |s.reservations| && ExpireReservation(s, i) == Ok(s')
    ensures KeepsTables(s, s')
  {
  }

  lemma ExpiredHold(s: Stock, i: nat, s': Stock, b: Book)
    requires i < |s.reservations| && ExpireReservation(s, i) == Ok(s') && Open(s, b)
    ensures KeepsTables(s, s') && Open(s', b) && Gap(s', b) == Gap(s, b)
  {
    var r := s.reservations[i];
    ExpiryKeepsTables(s, i, s');
    if r.status == Active {
      ReservationsSplit(s.reservations, i, r.(status := Lapsed), b);
    }
  }

  // Nor can the reservation sweep fail on the stock it releases.
  lemma ActiveReservationReleases(s: Stock, i: nat)
    requires Accounted(s) && i < |s.reservations|
    requires s.reservations[i].status == Active && s.reservations[i].claim.listing in s.listings
    ensures CanRelease(s.listings, Line(s.reservations[i].claim.listing, s.reservations[i].claim.quantity))
  {
    var r := s.reservations[i];
    assert ListingAccounted(s, r.claim.listing);
    ReservationsSplit(s.reservations, i, r, ListingBook(r.claim.listing));
  }
}
