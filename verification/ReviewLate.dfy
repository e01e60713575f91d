/**
 Late money as a move along the declared machines.  Its transaction goes on after a failed
 reacquisition.
 */
module ReviewLate {
  import opened Options
  import opened StateMachines
  import opened Ledger
  import opened BitcoinReview
  import opened ReviewAccounting
  import opened ReviewInvariant
  import opened ReviewSteps

  lemma RequireRefundMoves(s: Stock, k: OrderId, p: Payment, row: Order, now: int, s': Stock, p': Payment)
    requires k < |s.orders|
    requires row == s.orders[k] && HoldOk(row) && row.request != AwaitingSeller
    requires row.state in {PendingPayment, Cancelled} || p.state == Confirmed
    requires AlertCheck(p)
    requires RequireRefund(s, k, p, row, now) == Ok((s', p'))
    ensures Touches(s, s', k)
    ensures PairMoves(row, s'.orders[k], p, p') && p'.resolution == p.resolution
  {
    EdgeIsPath(OrderEdges, row.state, row.state);
    EdgeIsPath(OrderEdges, PendingPayment, Cancelled);
    ReleaseLinesMoves(s.listings, row.terms.lines);
  }

  lemma CompleteLateMoves(s: Stock, k: OrderId, p: Payment, s': Stock, p': Payment)
    requires k < |s.orders| && s.orders[k].request != AwaitingSeller
    requires s.orders[k].state in {PendingPayment, Cancelled} || p.state == Confirmed
    requires AlertCheck(p) && EntryCheck(p)
    requires CompleteLate(s, k, p) == Ok((s', p'))
    ensures Touches(s, s', k)
    ensures PairMoves(s.orders[k], s'.orders[k], p, p') && p'.resolution == p.resolution
  {
    SaleMoves(s, k, s.orders[k].state, s.orders[k].stockHeld, true, s');
    PaidPath(s.orders[k].state, s'.orders[k].state);
  }

  lemma LateForkMoves(s: Stock, k: OrderId, p: Payment, deliverable: bool, now: int, s': Stock, p': Payment)
    requires k < |s.orders| && HoldOk(s.orders[k])
    requires s.orders[k].state in {PendingPayment, Cancelled} || p.state == Confirmed
    requires AlertCheck(p) && EntryCheck(p)
    requires ApplyLateMoney(s, k, p, deliverable, now) == Ok((s', p'))
    ensures Touches(s, s', k)
    ensures PairMoves(s.orders[k], s'.orders[k], p, p') && p'.resolution == p.resolution
  {
    var o := s.orders[k];
    EdgeIsPath(OrderEdges, o.state, o.state);
    if !deliverable {
      RequireRefundMoves(s, k, p, o, now, s', p');
    } else if o.state == PendingPayment && o.stockHeld {
      NothingMoves(s, s', k);
    } else {
      var (taken, ok) := Reacquire(s, k, now);
      TakeMoves(s, k, now);
      if ok {
        CompleteLateMoves(taken, k, p, s', p');
      } else {
        RequireRefundMoves(taken, k, p, o, now, s', p');
      }
      TouchesJoin(s, taken, s', k);
    }
  }

  lemma LateMoves(
    db: Db, k: OrderId, paykit: bool, observed: Observation, deliverable: bool, now: int, db': Db)
    requires Core(db) && LateMoney(db, k, paykit, observed, deliverable, now) == Ok(db')
    ensures Touches(db.stock, db'.stock, k) && db'.payments == db.payments[k := db'.payments[k]]
    ensures PairMoves(db.stock.orders[k], db'.stock.orders[k], db.payments[k], db'.payments[k])
    ensures db'.payments[k].resolution == db.payments[k].resolution && !Engaged(db, k)
  {
    var o := db.stock.orders[k];
    var settled := SetOrder(db.stock, k, LateOrder(o, paykit, observed));
    NothingMoves(db.stock, settled, k);
    LateForkMoves(settled, k, db.payments[k], deliverable, now, db'.stock, db'.payments[k]);
    TouchesJoin(db.stock, settled, db'.stock, k);
  }

  lemma LateCommits(
    db: Db, k: OrderId, paykit: bool, observed: Observation, deliverable: bool, now: int, db': Db)
    requires Core(db) && LateMoney(db, k, paykit, observed, deliverable, now) == Ok(db')
    ensures Commits(db, db', k, false)
  {
    LateMoves(db, k, paykit, observed, deliverable, now, db');
    QuietRows(db, db', k);
  }
}
