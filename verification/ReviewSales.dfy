/**
 Conservation of sales and the outcome matrix: stock is sold exactly when an order becomes paid,
 and each resolution outcome leaves the order, payment and stock the design assigns to it.
 */
module ReviewSales {
  import opened Options
  import opened StateMachines
  import opened Ledger
  import opened BitcoinReview
  import opened ReviewInvariant
  import opened ReviewLate
  import opened ReviewTheorems

  predicate IsPaid(o: Order) {
    o.state in {Paid, Delivered}
  }

  // Units of the listing that paid orders took.
  function PaidUnits(orders: seq<Order>, l: ListingId): nat
    decreases |orders|
  {
    if orders == [] then 0
    else (if IsPaid(orders[0]) then UnitsOf(orders[0].terms.lines, l) else 0) + PaidUnits(orders[1..], l)
  }

  lemma {:induction false} PaidSplit(orders: seq<Order>, k: nat, o: Order, l: ListingId)
    requires k < |orders|
    ensures PaidUnits(orders[k := o], l)
            == PaidUnits(orders, l) - (if IsPaid(orders[k]) then UnitsOf(orders[k].terms.lines, l) else 0)
               + (if IsPaid(o) then UnitsOf(o.terms.lines, l) else 0)
    decreases |orders|
  {
    if k == 0 {
      assert orders[k := o][1..] == orders[1..];
    } else {
      PaidSplit(orders[1..], k - 1, o, l);
      assert orders[k := o][1..] == orders[1..][k - 1 := o];
    }
  }

  // The sold column moved by exactly what newly paid orders took.
  ghost predicate SalesMatch(s: Stock, s': Stock) {
    && s'.listings.Keys == s.listings.Keys
    && forall l :: l in s.listings ==>
         s'.listings[l].sold - PaidUnits(s'.orders, l) == s.listings[l].sold - PaidUnits(s.orders, l)
  }

  ghost predicate SameSold(ls: Listings, ls': Listings) {
    ls'.Keys == ls.Keys && forall l :: l in ls ==> ls'[l].sold == ls[l].sold
  }

  lemma {:induction false} ReleaseKeepsSold(ls: Listings, lines: seq<Line>)
    ensures SameSold(ls, ReleaseLines(ls, lines).0)
    decreases |lines|
  {
    if lines != [] && CanRelease(ls, lines[0]) {
      ReleaseKeepsSold(ReleaseLine(ls, lines[0]), lines[1..]);
    }
  }

  lemma ReserveKeepsSold(ls: Listings, lines: seq<Line>, createdAt: int)
    ensures SameSold(ls, ReserveLines(ls, lines, createdAt).0)
  {
  }

  lemma NothingSold(s: Stock, s': Stock, k: OrderId)
    requires k < |s.orders| == |s'.orders| && SameSold(s.listings, s'.listings)
    requires s'.orders == s.orders[k := s'.orders[k]]
    requires !IsPaid(s'.orders[k]) && !IsPaid(s.orders[k])
    ensures SalesMatch(s, s')
  {
    forall l | l in s.listings
      ensures s'.listings[l].sold - PaidUnits(s'.orders, l) == s.listings[l].sold - PaidUnits(s.orders, l)
    {
      PaidSplit(s.orders, k, s'.orders[k], l);
    }
  }

  lemma SaleSells(s: Stock, k: OrderId, seenState: OrderState, seenHeld: bool, deliverable: bool, s': Stock)
    requires k < |s.orders| && !IsPaid(s.orders[k])
    requires ConfirmOrder(s, k, seenState, seenHeld, deliverable) == Ok(s')
    ensures SalesMatch(s, s') && IsPaid(s'.orders[k])
    ensures forall l :: l in s.listings ==>
      l in s'.listings && s'.listings[l].sold == s.listings[l].sold + UnitsOf(s.orders[k].terms.lines, l)
  {
    SellLinesMoves(s.listings, s.orders[k].terms.lines);
    forall l | l in s.listings
      ensures s'.listings[l].sold - PaidUnits(s'.orders, l) == s.listings[l].sold - PaidUnits(s.orders, l)
    {
      PaidSplit(s.orders, k, s'.orders[k], l);
    }
  }

  lemma CancelSellsNothing(s: Stock, k: OrderId, s': Stock)
    requires k < |s.orders| && CancelHeld(s, k) == Ok(s')
    ensures SameSold(s.listings, s'.listings) && s'.orders == s.orders[k := s'.orders[k]]
    ensures !IsPaid(s.orders[k]) && !IsPaid(s'.orders[k])
  {
    ReleaseKeepsSold(s.listings, s.orders[k].terms.lines);
  }

  lemma TakeSellsNothing(s: Stock, k: OrderId, now: int)
    requires k < |s.orders|
    ensures var s' := Reacquire(s, k, now).0;
            SameSold(s.listings, s'.listings) && s'.orders == s.orders[k := s'.orders[k]]
            && s'.orders[k].state == s.orders[k].state && s'.orders[k].terms == s.orders[k].terms
  {
    ReserveKeepsSold(s.listings, s.orders[k].terms.lines, s.orders[k].terms.createdAt);
  }

  // -------------------------------------------------------------------------
  // The outcome matrix of a resolution
  // -------------------------------------------------------------------------

  // A paid resolution sells the order's lines; the other outcomes sell nothing, and the exit
  // states are those of the design.
  ghost predicate OutcomeMatrix(s: Stock, s': Stock, k: OrderId, outcome: Outcome, exit: PaymentState)
    requires k < |s.orders| == |s'.orders|
  {
    && s'.listings.Keys == s.listings.Keys
    && (forall l :: l in s.listings ==>
          s'.listings[l].sold
          == s.listings[l].sold + if outcome == OutcomePaid then UnitsOf(s.orders[k].terms.lines, l) else 0)
    && match outcome
       case OutcomePaid => exit == Confirmed && IsPaid(s'.orders[k])
       case OutcomeRefunded => exit == Confirmed && s'.orders[k].state == RefundedExternal
       case OutcomeAbandoned => exit == Expired && s'.orders[k].state == Cancelled
  }

  lemma PaidMatrix(s: Stock, k: OrderId, deliverable: bool, now: int, s': Stock)
    requires k < |s.orders| && PaidEffects(s, k, deliverable, now) == Ok(s')
    ensures OutcomeMatrix(s, s', k, OutcomePaid, Confirmed) && SalesMatch(s, s')
  {
    var o := s.orders[k];
    if o.state == PendingPayment && HoldPresent(s, o) {
      SaleSells(s, k, o.state, o.stockHeld, deliverable, s');
    } else {
      var taken := Reacquire(s, k, now).0;
      TakeSellsNothing(s, k, now);
      NothingSold(s, taken, k);
      SaleSells(taken, k, taken.orders[k].state, taken.orders[k].stockHeld, deliverable, s');
    }
  }

  lemma UnpaidMatrix(s: Stock, k: OrderId, outcome: Outcome, s': Stock)
    requires k < |s.orders| && outcome != OutcomePaid
    requires OutcomeEffects(s, k, outcome, false, 0) == Ok(s')
    ensures OutcomeMatrix(s, s', k, outcome, ExitState(outcome)) && SalesMatch(s, s')
  {
    if s.orders[k].state == PendingPayment {
      CancelSellsNothing(s, k, CancelHeld(s, k).value);
    }
    NothingSold(s, s', k);
  }

  // What a committed resolution records and what it did to the order, the payment and the stock.
  lemma ResolutionMatrix(
    db: Db, k: OrderId, res: Resolution, hash: string, deliverable: bool, now: int, db': Db)
    requires ApplyResolution(db, k, res, hash, deliverable, now) == Ok(db')
    ensures k in db'.payments && k < |db.stock.orders| == |db'.stock.orders|
    ensures OutcomeMatrix(db.stock, db'.stock, k, res.outcome, db'.payments[k].state)
    ensures SalesMatch(db.stock, db'.stock)
    ensures db'.resolutions == db.resolutions + [ResolutionRow(k, res, hash, now)]
    ensures |db'.outbox| == |db.outbox| + 1 && db'.outbox[|db.outbox|].outcome == res.outcome
    ensures Some(db'.outbox[|db.outbox|].stack) == db.stock.orders[k].terms.stack
    ensures db.payments[k].reviewReason == Some(RefundRequiredReason) ==> res.outcome != OutcomePaid
    ensures res.outcome == OutcomeRefunded ==> Refundable(db.stock.orders[k])
  {
    if res.outcome == OutcomePaid {
      PaidMatrix(db.stock, k, deliverable, now, db'.stock);
    } else {
      UnpaidMatrix(db.stock, k, res.outcome, db'.stock);
    }
  }

  // -------------------------------------------------------------------------
  // Conservation over runs
  // -------------------------------------------------------------------------

  lemma LateSells(s: Stock, k: OrderId, p: Payment, deliverable: bool, now: int, s': Stock, p': Payment)
    requires k < |s.orders| && !IsPaid(s.orders[k])
    requires ApplyLateMoney(s, k, p, deliverable, now) == Ok((s', p'))
    ensures SalesMatch(s, s')
  {
    var o := s.orders[k];
    ReleaseKeepsSold(s.listings, o.terms.lines);
    if deliverable && !(o.state == PendingPayment && o.stockHeld) {
      var (taken, ok) := Reacquire(s, k, now);
      TakeSellsNothing(s, k, now);
      ReleaseKeepsSold(taken.listings, o.terms.lines);
      if ok {
        NothingSold(s, taken, k);
        SaleSells(taken, k, taken.orders[k].state, taken.orders[k].stockHeld, true, s');
      } else {
        NothingSold(s, s', k);
      }
    } else {
      NothingSold(s, s', k);
    }
  }

  lemma {:induction false} SweepSellsNothing(s: Stock, ids: seq<nat>, s': Stock)
    requires forall i :: 0 <= i < |ids| ==> ids[i] < |s.reservations|
    requires ExpireReservations(s, ids) == Ok(s')
    ensures SameSold(s.listings, s'.listings) && s'.orders == s.orders
    decreases |ids|
  {
    if ids != [] {
      SweepSellsNothing(ExpireReservation(s, ids[0]).value, ids[1..], s');
    }
  }

  lemma LateStepSells(db: Db, k: OrderId, paykit: bool, observed: Observation, deliverable: bool, now: int, db': Db)
    requires Core(db) && LateMoney(db, k, paykit, observed, deliverable, now) == Ok(db')
    ensures SalesMatch(db.stock, db'.stock)
  {
    var o := db.stock.orders[k];
    var settled := SetOrder(db.stock, k, LateOrder(o, paykit, observed));
    LateCommits(db, k, paykit, observed, deliverable, now, db');
    if IsPaid(o) {
      PaidLateMoneyFails(settled, k, db.payments[k], deliverable, now);
    } else {
      NothingSold(db.stock, settled, k);
      LateSells(settled, k, db.payments[k], deliverable, now, db'.stock, db'.payments[k]);
    }
  }

  // A confirmed payment stops the fork.
  lemma PaidLateMoneyFails(s: Stock, k: OrderId, p: Payment, deliverable: bool, now: int)
    requires k < |s.orders| && p.state == Confirmed
    ensures ApplyLateMoney(s, k, p, deliverable, now).Fail?
  {
  }

  lemma ConfirmSells(
    db: Db, k: OrderId, actor: Pubky, seen: SeenRow, deliverable: bool, now: int, db': Db)
    requires Core(db) && ConfirmPayment(db, k, actor, seen, deliverable, now) == Ok(db')
    ensures SalesMatch(db.stock, db'.stock)
    ensures k in db'.payments && k < |db'.stock.orders| && IsPaid(db'.stock.orders[k])
    ensures |db'.outbox| == |db.outbox| + 1 && db'.outbox[|db.outbox|].outcome == OutcomePaid
    ensures Some(db'.outbox[|db.outbox|].stack) == db.stock.orders[k].terms.stack
  {
    var settled := SetOrder(db.stock, k, SettleRequest(db.stock.orders[k]));
    NothingSold(db.stock, settled, k);
    SaleSells(settled, k, seen.state, seen.held, deliverable, db'.stock);
  }

  lemma ExpirySellsNothing(db: Db, k: OrderId, now: int, db': Db)
    requires SweepPaymentWindow(db, k, now) == Ok(db')
    ensures SalesMatch(db.stock, db'.stock)
  {
    ReleaseKeepsSold(db.stock.listings, db.stock.orders[k].terms.lines);
    NothingSold(db.stock, db'.stock, k);
  }

  lemma QuietStepsSellNothing(db: Db, a: Action, now: int, db': Db)
    requires Core(db) && (a.Enter? || a.Route? || a.Alert?) && Attempt(db, a, now) == Ok(db')
    ensures SalesMatch(db.stock, db'.stock)
  {
    if a.Alert? {
      assert db'.stock == db.stock;
    } else {
      NothingSold(db.stock, db'.stock, a.k);
    }
  }

  lemma StepSells(db: Db, a: Action, now: int)
    requires Core(db)
    ensures SalesMatch(db.stock, Step(db, a, now).stock)
  {
    var db' := Step(db, a, now);
    if Attempt(db, a, now).Ok? && !a.Replay? {
      match a {
        case Confirm(k, actor, seen, deliverable) => ConfirmSells(db, k, actor, seen, deliverable, now, db');
        case Resolve(k, actor, key, outcome, hash, deliverable) =>
          ResolutionMatrix(db, k, Resolution(key, outcome, SellerAttestation), hash, deliverable, now, db');
        case Abandon(k, key) =>
          ResolutionMatrix(db, k, Resolution(key, OutcomeAbandoned, SellerUnresponsive), UNRESPONSIVE_HASH,
            false, now, db');
        case Late(k, paykit, observed, deliverable) =>
          LateStepSells(db, k, paykit, observed, deliverable, now, db');
        case SweepHolds(ids) => SweepSellsNothing(db.stock, ids, db'.stock);
        case SweepWindow(k) => ExpirySellsNothing(db, k, now, db');
        case _ => QuietStepsSellNothing(db, a, now, db');
      }
    }
  }

  // Over every run, stranding or not, a listing's sold column grows by exactly the units of the
  // orders that became paid.
  lemma {:induction false} SalesConserved(db: Db, run: seq<Event>, n: nat)
    requires Core(db) && n <= |run|
    ensures SalesMatch(db.stock, At(db, run, n).stock)
  {
    if n > 0 {
      SalesConserved(db, run, n - 1);
      CoreAlways(db, run, n - 1);
      AtStep(db, run, n - 1);
      StepSells(At(db, run, n - 1), run[n - 1].action, run[n - 1].now);
    }
  }

  // The fork lists `manual_review` among the states it completes, but the entry check refuses the
  // write: whoever calls it, it never confirms a payment that is under review.
  lemma ReviewIsNeverCompletedLate(
    s: Stock, k: OrderId, p: Payment, deliverable: bool, now: int, s': Stock, p': Payment)
    requires k < |s.orders| && p.state == ManualReview && EntryCheck(p)
    requires ApplyLateMoney(s, k, p, deliverable, now) == Ok((s', p'))
    ensures p'.state == ManualReview
  {
    assert CompleteLate(Reacquire(s, k, now).0, k, p).Fail?;
  }

  // A drop buyer who has used up the limit since: late money for the lapsed order is refused as a
  // whole, again and again, and leaves neither a sale nor a request for a refund.
  lemma OverLimitLateMoneyChangesNothing(
    db: Db, k: OrderId, paykit: bool, observed: Observation, now: int)
    requires k < |db.stock.orders| && OverLimit(db.stock.drops, db.stock.orders[k].terms)
    requires !(db.stock.orders[k].state == PendingPayment && db.stock.orders[k].stockHeld)
    ensures Step(db, Late(k, paykit, observed, true), now) == db
  {
  }
}
