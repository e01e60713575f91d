/**
 What every transaction keeps about each order, its payment and its audit and outbox rows.
 */
module ReviewInvariant {
  import opened Options
  import opened StateMachines
  import opened Ledger
  import opened BitcoinReview
  import opened ReviewAccounting

  function Count<T>(rows: seq<T>, order: T -> OrderId, k: OrderId): nat
    decreases |rows|
  {
    if rows == [] then 0
    else Count(rows[..|rows| - 1], order, k) + if order(rows[|rows| - 1]) == k then 1 else 0
  }

  function Confirmations(db: Db, k: OrderId): nat {
    Count(db.confirmations, (r: ConfirmationRow) => r.order, k)
  }

  function Resolutions(db: Db, k: OrderId): nat {
    Count(db.resolutions, (r: ResolutionRow) => r.order, k)
  }

  function ResolveRows(db: Db, k: OrderId): nat {
    Count(db.outbox, (r: OutboxRow) => r.order, k)
  }

  predicate HoldOk(o: Order) {
    o.stockHeld ==> o.state == PendingPayment && o.terms.auction.None?
  }

  // Only a payment under review is alerted, and a review ends by its resolution.
  predicate AlertCheck(p: Payment) {
    p.alertedAt.Some? ==> p.state == ManualReview || p.resolution.Some?
  }

  predicate PairOk(o: Order, p: Payment) {
    && (o.request == AwaitingSeller ==> p.adapter == Paykit && p.state == AwaitingEntitlement)
    && (p.state == AwaitingEntitlement && o.request in {Pending, Seen, AwaitingSeller} ==>
          o.state == PendingPayment && (o.terms.auction.None? ==> o.stockHeld))
    && (o.state in {PendingPayment, Cancelled} || p.state == Confirmed)
    && (p.resolution.Some? ==> p.state in {Confirmed, Expired})
    && EntryCheck(p) && AlertCheck(p)
  }

  // One seller decision at most, and one resolve row for it.
  ghost predicate RowsOk(db: Db, k: OrderId) {
    && Confirmations(db, k) + Resolutions(db, k) <= 1
    && ResolveRows(db, k) == Confirmations(db, k) + Resolutions(db, k)
    && (Resolutions(db, k) == 1 <==> k in db.payments && db.payments[k].resolution.Some?)
    && (Confirmations(db, k) == 1 ==>
          k in db.payments && db.payments[k].state == Confirmed && db.payments[k].resolution.None?)
    && (forall i :: 0 <= i < |db.resolutions| && db.resolutions[i].order == k ==>
          k in db.payments && db.payments[k].resolution == Some(db.resolutions[i].resolution))
  }

  // Rows as checkout and auction close created them.
  ghost predicate Shaped(db: Db) {
    && (forall k :: 0 <= k < |db.stock.orders| ==> OrderShaped(db.stock, db.stock.orders[k].terms))
    && (forall j, k :: 0 <= j < |db.stock.orders| && 0 <= k < |db.stock.orders| && j != k
          && db.stock.orders[j].terms.auction.Some?
          && db.stock.orders[j].terms.auction == db.stock.orders[k].terms.auction
          ==> db.stock.orders[j].terms.buyer != db.stock.orders[k].terms.buyer)
    && (forall k :: k in db.payments ==>
          k < |db.stock.orders| && (db.payments[k].adapter == Paykit ==> db.stock.orders[k].terms.bitcoin))
  }

  ghost predicate Core(db: Db) {
    && Shaped(db)
    && (forall k :: 0 <= k < |db.stock.orders| ==> HoldOk(db.stock.orders[k]))
    && (forall k :: k in db.payments ==> PairOk(db.stock.orders[k], db.payments[k]))
    && (forall k :: RowsOk(db, k))
  }

  predicate Appends<T(==)>(rows: seq<T>, rows': seq<T>, order: T -> OrderId, k: OrderId) {
    rows' == rows
    || (|rows'| == |rows| + 1 && rows'[..|rows|] == rows && order(rows'[|rows|]) == k)
  }

  predicate AppendsRows(db: Db, db': Db, k: OrderId) {
    && Appends(db.confirmations, db'.confirmations, (r: ConfirmationRow) => r.order, k)
    && Appends(db.resolutions, db'.resolutions, (r: ResolutionRow) => r.order, k)
    && Appends(db.outbox, db'.outbox, (r: OutboxRow) => r.order, k)
  }

  // One committed move of order `k`.
  ghost predicate Moves(db: Db, db': Db, k: OrderId) {
    && Touches(db.stock, db'.stock, k)
    && k in db.payments && k in db'.payments && db'.payments == db.payments[k := db'.payments[k]]
    && PairMoves(db.stock.orders[k], db'.stock.orders[k], db.payments[k], db'.payments[k])
    && AppendsRows(db, db', k) && RowsOk(db', k)
  }

  // The seller of this Paykit order still has a decision to make.
  predicate Engaged(db: Db, k: OrderId) {
    k in db.payments && k < |db.stock.orders| && db.payments[k].adapter == Paykit
    && Undecided(db.stock.orders[k], db.payments[k])
  }

  // The two state columns move along declared edges, a decided payment does not move, and a paid
  // order is not un-paid.
  ghost predicate PairMoves(o: Order, o': Order, p: Payment, p': Payment) {
    && p'.adapter == p.adapter
    && HoldOk(o') && PairOk(o', p')
    && CanTransition(PaymentEdges, p.state, p'.state)
    && (p.resolution.Some? ==> p' == p)
    && (p.alertedAt.Some? ==> p'.alertedAt == p.alertedAt)
    && Path(OrderEdges, o.state, o'.state)
    && (o.state !in {PendingPayment, Cancelled} ==> o'.state == o.state)
  }

  // What a committed transaction of order `k` does beyond moving it: a decision is made on an
  // engaged order and writes its one resolve row; under any other transaction an
  // engaged order stays engaged and keeps its hold.
  ghost predicate Commits(db: Db, db': Db, k: OrderId, decides: bool) {
    && Moves(db, db', k)
    && ResolveRows(db', k) == ResolveRows(db, k) + (if decides then 1 else 0)
    && (decides ==> Engaged(db, k) && db.stock.orders[k].terms.stack.Some?)
    && (Engaged(db, k) && !decides ==>
          Engaged(db', k)
          && HoldPresent(db'.stock, db'.stock.orders[k]) == HoldPresent(db.stock, db.stock.orders[k]))
  }

  lemma OtherRows<T>(rows: seq<T>, rows': seq<T>, order: T -> OrderId, k: OrderId, j: OrderId)
    requires Appends(rows, rows', order, k) && j != k
    ensures Count(rows', order, j) == Count(rows, order, j)
  {
  }

  lemma ShapedKept(db: Db, db': Db, k: OrderId)
    requires Shaped(db) && Touches(db.stock, db'.stock, k)
    requires k in db.payments && k in db'.payments && db'.payments == db.payments[k := db'.payments[k]]
    requires db'.payments[k].adapter == db.payments[k].adapter
    ensures Shaped(db')
  {
    forall j | 0 <= j < |db'.stock.orders| ensures OrderShaped(db'.stock, db'.stock.orders[j].terms) {
      assert OrderShaped(db.stock, db.stock.orders[j].terms);
    }
  }

  lemma OtherRowsOk(db: Db, db': Db, k: OrderId, j: OrderId)
    requires RowsOk(db, j) && j != k && AppendsRows(db, db', k)
    requires k in db.payments && k in db'.payments && db'.payments == db.payments[k := db'.payments[k]]
    ensures RowsOk(db', j)
  {
    OtherRows(db.confirmations, db'.confirmations, (r: ConfirmationRow) => r.order, k, j);
    OtherRows(db.resolutions, db'.resolutions, (r: ResolutionRow) => r.order, k, j);
    OtherRows(db.outbox, db'.outbox, (r: OutboxRow) => r.order, k, j);
    forall i | 0 <= i < |db'.resolutions| && db'.resolutions[i].order == j
      ensures j in db'.payments && db'.payments[j].resolution == Some(db'.resolutions[i].resolution)
    {
      assert i < |db.resolutions| && db'.resolutions[i] == db.resolutions[i];
    }
  }

  lemma MovesKeepCore(db: Db, db': Db, k: OrderId)
    requires Core(db) && Moves(db, db', k)
    ensures Core(db')
  {
    ShapedKept(db, db', k);
    forall j ensures RowsOk(db', j) {
      if j != k {
        OtherRowsOk(db, db', k, j);
      }
    }
  }
}
