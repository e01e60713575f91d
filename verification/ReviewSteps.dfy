/**
 Each transaction of the review protocol, proved to be one move along the declared machines that
 keeps the invariant.
 */
module ReviewSteps {
  import opened Options
  import opened StateMachines
  import opened Ledger
  import opened BitcoinReview
  import opened ReviewAccounting
  import opened ReviewInvariant

  lemma TouchesJoin(s: Stock, mid: Stock, s': Stock, k: OrderId)
    requires Touches(s, mid, k) && Touches(mid, s', k)
    ensures Touches(s, s', k)
  {
  }

  // The confirmation effects.
  lemma SaleMoves(s: Stock, k: OrderId, seenState: OrderState, seenHeld: bool, deliverable: bool, s': Stock)
    requires k < |s.orders|
    requires ConfirmOrder(s, k, seenState, seenHeld, deliverable) == Ok(s')
    ensures Touches(s, s', k)
    ensures s'.orders[k].state in {Paid, Delivered}
    ensures s'.orders[k] == s.orders[k].(state := s'.orders[k].state, stockHeld := false, holdExpires := None)
  {
    SellLinesMoves(s.listings, s.orders[k].terms.lines);
  }

  lemma TakeTouches(s: Stock, k: OrderId, now: int)
    requires k < |s.orders|
    ensures var s' := Reacquire(s, k, now).0;
            && SameSellers(s.listings, s'.listings) && |s'.reservations| == |s.reservations|
            && forall i :: 0 <= i < |s.reservations| ==>
                 s'.reservations[i].claim == s.reservations[i].claim
                 && (WonBy(s.orders[k].terms, s.reservations[i].claim) || s'.reservations[i] == s.reservations[i])
  {
    ReserveLinesMoves(s.listings, s.orders[k].terms.lines, s.orders[k].terms.createdAt);
  }

  lemma TakeMoves(s: Stock, k: OrderId, now: int)
    requires k < |s.orders|
    ensures var (s', ok) := Reacquire(s, k, now);
            && Touches(s, s', k)
            && s'.orders[k] == s.orders[k].(stockHeld := s'.orders[k].stockHeld)
            && (ok ==> s'.orders[k].stockHeld == (s.orders[k].terms.auction.None? || s.orders[k].stockHeld))
            && (!ok ==> s'.orders == s.orders)
  {
    TakeTouches(s, k, now);
  }

  lemma CancelMoves(s: Stock, k: OrderId, s': Stock)
    requires k < |s.orders| && CancelHeld(s, k) == Ok(s')
    ensures Touches(s, s', k)
    ensures s'.orders[k] == s.orders[k].(state := Cancelled, stockHeld := false, holdExpires := None)
  {
    ReleaseLinesMoves(s.listings, s.orders[k].terms.lines);
  }

  lemma PaidPath(from: OrderState, to: OrderState)
    requires from in {PendingPayment, Cancelled} && to in {Paid, Delivered}
    ensures Path(OrderEdges, from, to)
  {
    assert Walk(OrderEdges, Paid, [], to);
    assert Walk(OrderEdges, from, [Paid], to);
  }

  lemma RefundPath(from: OrderState)
    requires from in {PendingPayment, Cancelled}
    ensures Path(OrderEdges, from, RefundedExternal)
  {
    assert Walk(OrderEdges, Cancelled, [], RefundedExternal);
    assert Walk(OrderEdges, from, [Cancelled], RefundedExternal);
  }

  // The rows of a decision that commits for the first time.
  lemma FirstDecision(db: Db, db': Db, k: OrderId, confirmed: bool)
    requires RowsOk(db, k) && k in db.payments && k in db'.payments
    requires db.payments[k].state != Confirmed && db.payments[k].resolution.None?
    requires AppendsRows(db, db', k)
    requires |db'.outbox| == |db.outbox| + 1
    requires |db'.confirmations| == |db.confirmations| + (if confirmed then 1 else 0)
    requires |db'.resolutions| == |db.resolutions| + (if confirmed then 0 else 1)
    requires confirmed ==> db'.payments[k].state == Confirmed && db'.payments[k].resolution.None?
    requires !confirmed ==>
      db'.payments[k].resolution == Some(db'.resolutions[|db.resolutions|].resolution)
    ensures RowsOk(db', k)
    ensures ResolveRows(db', k) == ResolveRows(db, k) + 1 == 1
  {
  }

  // A move that writes no audit row leaves the row facts to the payment.
  lemma QuietRows(db: Db, db': Db, k: OrderId)
    requires RowsOk(db, k) && k in db.payments && k in db'.payments
    requires db'.confirmations == db.confirmations && db'.resolutions == db.resolutions
    requires db'.outbox == db.outbox
    requires db'.payments[k].resolution == db.payments[k].resolution
    requires db.payments[k].state == Confirmed ==> db'.payments[k].state == Confirmed
    ensures RowsOk(db', k)
    ensures ResolveRows(db', k) == ResolveRows(db, k)
  {
  }

  lemma {:induction false} SameMatchesSameCount(
    rs: seq<Reservation>, rs': seq<Reservation>, l: ListingId, buyer: Pubky, from: set<ReservationStatus>)
    requires |rs'| == |rs|
    requires forall i :: 0 <= i < |rs| ==> rs'[i].claim == rs[i].claim
    requires forall i :: 0 <= i < |rs| && Matches(rs[i], l, buyer) ==> rs'[i].status == rs[i].status
    ensures CountReservations(rs', l, buyer, from) == CountReservations(rs, l, buyer, from)
    decreases |rs|
  {
    if rs != [] {
      SameMatchesSameCount(rs[1..], rs'[1..], l, buyer, from);
    }
  }

  // Columns outside any hold, and the expiry of the order's own reservation.
  lemma HoldUntouched(s: Stock, s': Stock, k: OrderId)
    requires k < |s.orders| == |s'.orders| && s'.listings == s.listings
    requires s'.orders == s.orders[k := s'.orders[k]]
    requires s'.orders[k].terms == s.orders[k].terms && s'.orders[k].stockHeld == s.orders[k].stockHeld
    requires |s'.reservations| == |s.reservations|
    requires forall i :: 0 <= i < |s.reservations| ==>
      s'.reservations[i].claim == s.reservations[i].claim
      && s'.reservations[i].status == s.reservations[i].status
      && (WonBy(s.orders[k].terms, s.reservations[i].claim) || s'.reservations[i] == s.reservations[i])
    ensures Touches(s, s', k)
    ensures HoldPresent(s', s'.orders[k]) == HoldPresent(s, s.orders[k])
  {
    var t := s.orders[k].terms;
    if t.auction.Some? {
      SameMatchesSameCount(s.reservations, s'.reservations, t.auction.value, t.buyer, {Active});
    }
  }

  lemma EnterCommits(db: Db, k: OrderId, observed: Observation, now: int, db': Db)
    requires Core(db) && EnterSellerWindow(db, k, observed, now) == Ok(db')
    ensures Commits(db, db', k, false)
  {
    EdgeIsPath(OrderEdges, db.stock.orders[k].state, db.stock.orders[k].state);
    QuietRows(db, db', k);
    HoldUntouched(db.stock, db'.stock, k);
  }

  lemma ConfirmCommits(
    db: Db, k: OrderId, actor: Pubky, seen: SeenRow, deliverable: bool, now: int, db': Db)
    requires Core(db) && ConfirmPayment(db, k, actor, seen, deliverable, now) == Ok(db')
    ensures Commits(db, db', k, true)
  {
    var o := db.stock.orders[k];
    var settled := SetOrder(db.stock, k, SettleRequest(o));
    NothingMoves(db.stock, settled, k);
    SaleMoves(settled, k, seen.state, seen.held, deliverable, db'.stock);
    TouchesJoin(db.stock, settled, db'.stock, k);
    PaidPath(o.state, db'.stock.orders[k].state);
    FirstDecision(db, db', k, true);
  }

  lemma RouteCommits(db: Db, k: OrderId, now: int, db': Db)
    requires Core(db) && RouteSellerWindow(db, k, now) == Ok(db')
    ensures Commits(db, db', k, false)
  {
    EdgeIsPath(OrderEdges, db.stock.orders[k].state, db.stock.orders[k].state);
    QuietRows(db, db', k);
    HoldUntouched(db.stock, db'.stock, k);
  }

  lemma AlertCommits(db: Db, k: OrderId, now: int, db': Db)
    requires Core(db) && AlertSeller(db, k, now) == Ok(db')
    ensures Commits(db, db', k, false)
  {
    EdgeIsPath(OrderEdges, db.stock.orders[k].state, db.stock.orders[k].state);
    QuietRows(db, db', k);
    HoldUntouched(db.stock, db'.stock, k);
  }

  lemma PaidEffectsMove(s: Stock, k: OrderId, deliverable: bool, now: int, s': Stock)
    requires k < |s.orders| && HoldOk(s.orders[k])
    requires PaidEffects(s, k, deliverable, now) == Ok(s')
    ensures Touches(s, s', k)
    ensures HoldOk(s'.orders[k]) && s'.orders[k].request == s.orders[k].request
    ensures s.orders[k].state in {PendingPayment, Cancelled}
    ensures Path(OrderEdges, s.orders[k].state, s'.orders[k].state)
  {
    var o := s.orders[k];
    if o.state == PendingPayment && HoldPresent(s, o) {
      SaleMoves(s, k, o.state, o.stockHeld, deliverable, s');
    } else {
      var taken := Reacquire(s, k, now).0;
      TakeMoves(s, k, now);
      SaleMoves(taken, k, taken.orders[k].state, taken.orders[k].stockHeld, deliverable, s');
      TouchesJoin(s, taken, s', k);
    }
    PaidPath(o.state, s'.orders[k].state);
  }

  lemma RefundedEffectsMove(s: Stock, k: OrderId, s': Stock)
    requires k < |s.orders| && HoldOk(s.orders[k])
    requires RefundedEffects(s, k) == Ok(s')
    ensures Touches(s, s', k)
    ensures HoldOk(s'.orders[k]) && s'.orders[k].request == s.orders[k].request
    ensures s.orders[k].state in {PendingPayment, Cancelled}
    ensures Path(OrderEdges, s.orders[k].state, s'.orders[k].state)
  {
    RefundPath(s.orders[k].state);
    if s.orders[k].state == PendingPayment {
      var cancelled := CancelHeld(s, k).value;
      CancelMoves(s, k, cancelled);
      NothingMoves(cancelled, s', k);
      TouchesJoin(s, cancelled, s', k);
    } else {
      NothingMoves(s, s', k);
    }
  }

  lemma AbandonedEffectsMove(s: Stock, k: OrderId, s': Stock)
    requires k < |s.orders| && HoldOk(s.orders[k])
    requires AbandonedEffects(s, k) == Ok(s')
    ensures Touches(s, s', k)
    ensures HoldOk(s'.orders[k]) && s'.orders[k].request == s.orders[k].request
    ensures s.orders[k].state in {PendingPayment, Cancelled} && s'.orders[k].state == Cancelled
    ensures Path(OrderEdges, s.orders[k].state, s'.orders[k].state)
  {
    EdgeIsPath(OrderEdges, s.orders[k].state, Cancelled);
    if s.orders[k].state == PendingPayment {
      CancelMoves(s, k, s');
    }
  }

  lemma OutcomeMoves(s: Stock, k: OrderId, outcome: Outcome, deliverable: bool, now: int, s': Stock)
    requires k < |s.orders| && HoldOk(s.orders[k])
    requires OutcomeEffects(s, k, outcome, deliverable, now) == Ok(s')
    ensures Touches(s, s', k)
    ensures HoldOk(s'.orders[k]) && s'.orders[k].request == s.orders[k].request
    ensures s.orders[k].state in {PendingPayment, Cancelled}
    ensures outcome == OutcomeAbandoned ==> s'.orders[k].state == Cancelled
    ensures Path(OrderEdges, s.orders[k].state, s'.orders[k].state)
  {
    match outcome {
      case OutcomePaid => PaidEffectsMove(s, k, deliverable, now, s');
      case OutcomeRefunded => RefundedEffectsMove(s, k, s');
      case OutcomeAbandoned => AbandonedEffectsMove(s, k, s');
    }
  }

  lemma ResolutionCommits(
    db: Db, k: OrderId, res: Resolution, hash: string, deliverable: bool, now: int, db': Db)
    requires Core(db) && ApplyResolution(db, k, res, hash, deliverable, now) == Ok(db')
    ensures Commits(db, db', k, true)
    ensures db'.payments[k].resolution == Some(res)
  {
    OutcomeMoves(db.stock, k, res.outcome, deliverable, now, db'.stock);
    FirstDecision(db, db', k, false);
  }

  lemma WindowTouches(db: Db, k: OrderId, now: int, db': Db)
    requires SweepPaymentWindow(db, k, now) == Ok(db')
    ensures Touches(db.stock, db'.stock, k)
  {
    ReleaseLinesMoves(db.stock.listings, db.stock.orders[k].terms.lines);
  }

  lemma SweepWindowCommits(db: Db, k: OrderId, now: int, db': Db)
    requires Core(db) && SweepPaymentWindow(db, k, now) == Ok(db')
    ensures Commits(db, db', k, false)
  {
    EdgeIsPath(OrderEdges, db.stock.orders[k].state, Cancelled);
    QuietRows(db, db', k);
    WindowTouches(db, k, now, db');
  }
}
