/**
 The review transactions as the service runs them: statement by statement on a working copy of
 the tables, committed or rolled back at the end, with the loops over order lines and due rows.
 Each is proved to be the step (or run of steps) the theorems are about.
 */
module ReviewTransactions {
  import opened Options
  import opened StateMachines
  import opened Ledger
  import opened BitcoinReview
  import opened BusinessDays

  // -------------------------------------------------------------------------
  // Line loops
  // -------------------------------------------------------------------------

  method ReserveOrderLines(listings: Listings, lines: seq<Line>, createdAt: int) returns (ls: Listings, ok: bool)
    ensures (ls, ok) == ReserveLines(listings, lines, createdAt)
  {
    ls := listings;
    var i := 0;
    while i < |lines|
      invariant 0 <= i <= |lines|
      invariant ReserveLines(listings, lines, createdAt) == ReserveLines(ls, lines[i..], createdAt)
    {
      if !CanReserve(ls, lines[i], createdAt) {
        return ls, false;
      }
      ls := ReserveLine(ls, lines[i]);
      assert lines[i..][1..] == lines[i + 1..];
      i := i + 1;
    }
    ok := true;
  }

  method ReleaseOrderLines(listings: Listings, lines: seq<Line>) returns (ls: Listings, ok: bool)
    ensures (ls, ok) == ReleaseLines(listings, lines)
  {
    ls := listings;
    var i := 0;
    while i < |lines|
      invariant 0 <= i <= |lines|
      invariant ReleaseLines(listings, lines) == ReleaseLines(ls, lines[i..])
    {
      if !CanRelease(ls, lines[i]) {
        return ls, false;
      }
      ls := ReleaseLine(ls, lines[i]);
      assert lines[i..][1..] == lines[i + 1..];
      i := i + 1;
    }
    ok := true;
  }

  method SellOrderLines(listings: Listings, lines: seq<Line>) returns (ls: Listings, ok: bool)
    ensures (ls, ok) == SellLines(listings, lines)
  {
    ls := listings;
    var i := 0;
    while i < |lines|
      invariant 0 <= i <= |lines|
      invariant SellLines(listings, lines) == SellLines(ls, lines[i..])
    {
      if !CanRelease(ls, lines[i]) {
        return ls, false;
      }
      ls := SellLine(ls, lines[i]);
      assert lines[i..][1..] == lines[i + 1..];
      i := i + 1;
    }
    ok := true;
  }

  // -------------------------------------------------------------------------
  // Transactions
  // -------------------------------------------------------------------------

  const ROUTE_BATCH: nat := 100

  // An order in the seller window with its deadline past.
  predicate WindowDue(db: Db, k: OrderId, now: int) {
    && k < |db.stock.orders| && db.stock.orders[k].request == AwaitingSeller
    && db.stock.orders[k].deadline.Some? && db.stock.orders[k].deadline.value <= now
  }

  // The orders found due, in the order listed.
  function DueWindows(db: Db, listed: seq<OrderId>, now: int): (due: seq<OrderId>)
    ensures forall k :: k in due <==> k in listed && WindowDue(db, k, now)
    decreases |listed|
  {
    if listed == [] then []
    else
      var due, last := DueWindows(db, listed[..|listed| - 1], now), listed[|listed| - 1];
      assert listed == listed[..|listed| - 1] + [last];
      if WindowDue(db, last, now) then due + [last] else due
  }

  // What one pass takes of the orders listed by deadline.
  function RouteBatch(db: Db, listed: seq<OrderId>, now: int): seq<OrderId> {
    var due := DueWindows(db, listed, now);
    if |due| <= ROUTE_BATCH then due else due[..ROUTE_BATCH]
  }

  function Routes(due: seq<OrderId>, now: int): (run: seq<Event>)
    ensures |run| == |due|
    ensures forall i :: 0 <= i < |due| ==> run[i] == Event(Route(due[i]), now)
  {
    seq(|due|, i requires 0 <= i < |due| => Event(Route(due[i]), now))
  }

  // The rows of one watch pass as it read them: an order, its entry instant, whether its seller was
  // alerted, and the key minted for it.
  datatype ReviewRow = ReviewRow(order: OrderId, enteredAt: int, alerted: bool, key: nat)

  // What the pass attempts for one row: the alert after two business days, the end after seven days.
  function Watching(row: ReviewRow, now: int): seq<Event> {
    (if !row.alerted && Overdue(row.enteredAt, SELLER_RESPONSE_SLA_BUSINESS_DAYS, now)
     then [Event(Alert(row.order), now)] else [])
    + (if row.enteredAt <= now - MANUAL_REVIEW_INACTIVITY_SECONDS
       then [Event(Abandon(row.order, row.key), now)] else [])
  }

  function Watches(rows: seq<ReviewRow>, now: int): seq<Event>
    decreases |rows|
  {
    if rows == [] then [] else Watches(rows[..|rows| - 1], now) + Watching(rows[|rows| - 1], now)
  }

  // How many events of the run committed, of those that alert or of the others.
  function Committed(db: Db, run: seq<Event>, alerts: bool): nat
    decreases |run|
  {
    if run == [] then 0
    else
      var before, last := run[..|run| - 1], run[|run| - 1];
      Committed(db, before, alerts)
      + if last.action.Alert? == alerts && Attempt(Run(db, before), last.action, last.now).Ok? then 1 else 0
  }

  // A run with one more event.
  lemma OneMoreEvent(db: Db, run: seq<Event>, e: Event)
    ensures Run(db, run + [e]) == Step(Run(db, run), e.action, e.now)
    ensures forall alerts ::
              Committed(db, run + [e], alerts)
              == Committed(db, run, alerts)
                 + if e.action.Alert? == alerts && Attempt(Run(db, run), e.action, e.now).Ok? then 1 else 0
  {
    assert (run + [e])[..|run|] == run;
  }

  lemma OneMoreRow(rows: seq<ReviewRow>, i: nat, now: int)
    requires i < |rows|
    ensures Watches(rows[..i + 1], now) == Watches(rows[..i], now) + Watching(rows[i], now)
  {
    assert rows[..i + 1][..i] == rows[..i];
  }

  function Sweeps(ks: seq<OrderId>, now: int): (run: seq<Event>)
    ensures |run| == |ks|
    ensures forall i :: 0 <= i < |ks| ==> run[i] == Event(SweepWindow(ks[i]), now)
  {
    seq(|ks|, i requires 0 <= i < |ks| => Event(SweepWindow(ks[i]), now))
  }

  lemma SweepsMore(db: Db, ks: seq<OrderId>, k: OrderId, now: int)
    ensures Run(db, Sweeps(ks + [k], now)) == Step(Run(db, Sweeps(ks, now)), SweepWindow(k), now)
  {
    assert Sweeps(ks + [k], now) == Sweeps(ks, now) + [Event(SweepWindow(k), now)];
    OneMoreEvent(db, Sweeps(ks, now), Event(SweepWindow(k), now));
  }

  // A batch that commits is the run of its orders' sweeps.
  lemma {:induction false} SweepBatchIsRun(db: Db, ks: seq<OrderId>, now: int)
    ensures SweepBatch(db, ks, now).Ok? ==> SweepBatch(db, ks, now).value == Run(db, Sweeps(ks, now))
    decreases |ks|
  {
    if ks == [] {
      assert Sweeps(ks, now) == [];
    } else {
      var before, last := ks[..|ks| - 1], ks[|ks| - 1];
      SweepBatchIsRun(db, before, now);
      assert ks == before + [last];
      SweepsMore(db, before, last, now);
      if SweepBatch(db, before, now).Ok? {
        SweepNextIsStep(SweepBatch(db, before, now).value, last, now);
      }
    }
  }

  lemma {:induction false} FailedBatch(db: Db, ks: seq<OrderId>, i: nat, now: int)
    requires i <= |ks| && SweepBatch(db, ks[..i], now).Fail?
    ensures SweepBatch(db, ks, now).Fail?
    decreases |ks| - i
  {
    if i == |ks| {
      assert ks[..i] == ks;
    } else {
      assert ks[..i + 1][..i] == ks[..i];
      FailedBatch(db, ks, i + 1, now);
    }
  }

  lemma OneMoreRoute(db: Db, due: seq<OrderId>, now: int)
    requires due != []
    ensures Run(db, Routes(due, now))
            == Step(Run(db, Routes(due[..|due| - 1], now)), Route(due[|due| - 1]), now)
  {
    assert Routes(due, now)[..|due| - 1] == Routes(due[..|due| - 1], now);
  }

  // Routing some orders puts exactly those that could be routed in manual review, and leaves every
  // other order and payment as it was.
  lemma {:induction false} RoutesMove(db: Db, due: seq<OrderId>, now: int, k: OrderId)
    requires k < |db.stock.orders|
    ensures var db', o := Run(db, Routes(due, now)), db.stock.orders[k];
            && |db'.stock.orders| == |db.stock.orders| && (k in db'.payments <==> k in db.payments)
            && if k in due && k in db.payments && o.request == AwaitingSeller
                  && db.payments[k].state == AwaitingEntitlement
               then db'.stock.orders[k] == SettleRequest(o).(holdExpires := None)
                    && db'.payments[k] == db.payments[k].(state := ManualReview, enteredAt := Some(now))
               else db'.stock.orders[k] == o && (k in db.payments ==> db'.payments[k] == db.payments[k])
    decreases |due|
  {
    if due != [] {
      var before, last := due[..|due| - 1], due[|due| - 1];
      assert due == before + [last];
      RoutesMove(db, before, now, k);
      OneMoreRoute(db, due, now);
    }
  }

  // A pass leaves alone every order whose deadline has not come.
  lemma EarlyWindowsStay(db: Db, listed: seq<OrderId>, now: int, k: OrderId)
    requires k < |db.stock.orders| && !WindowDue(db, k, now)
    ensures var db' := Run(db, Routes(RouteBatch(db, listed, now), now));
            && k < |db'.stock.orders| && db'.stock.orders[k] == db.stock.orders[k]
            && (k in db.payments ==> k in db'.payments && db'.payments[k] == db.payments[k])
  {
    assert k !in RouteBatch(db, listed, now);
    RoutesMove(db, RouteBatch(db, listed, now), now, k);
  }

  // A transaction or an amount the caller repeats, other than the one observed.
  predicate Contradicts(repeated: Observation, seen: Observation) {
    (repeated.txid.Some? && repeated.txid != seen.txid) || (repeated.sats.Some? && repeated.sats != seen.sats)
  }

  // A confirm request of anyone but the seller is refused first; a stored confirmation is answered
  // as it stands and wrong details refused, both without a write; only then is the request attempted.
  predicate AnswersConfirm(
    db: Db, db': Db, a: Action, repeated: Observation, now: int, answer: Tx<ConfirmationRow>)
    requires a.Confirm?
  {
    var stored := FindConfirmation(db.confirmations, a.k);
    if ListingSeller(db.stock, a.k) != Some(a.actor) then
      answer == Fail(if ListingSeller(db.stock, a.k).None? then OrderNotFound else NotOrderSeller) && db' == db
    else if stored.Some? then answer == Ok(stored.value) && db' == db
    else if Contradicts(repeated, a.seen.observation) then
      answer == Fail(ObservationMismatch) && db' == db
    else
      match ConfirmPayment(db, a.k, a.actor, a.seen, a.deliverable, now)
      case Ok(done) => db' == done && answer == Ok(ConfirmationRow(a.k, a.actor, a.seen.observation, now))
      case Fail(why) => answer == Fail(why) && db' == db
  }

  lemma {:induction false} NothingConfirmed(rows: seq<ConfirmationRow>, row: ConfirmationRow)
    requires FindConfirmation(rows, row.order).None?
    ensures FindConfirmation(rows + [row], row.order) == Some(row)
    decreases |rows|
  {
    if rows != [] {
      assert (rows + [row])[1..] == rows[1..] + [row];
      NothingConfirmed(rows[1..], row);
    }
  }

  // An answered confirmation is the one recorded for its order.
  lemma ConfirmedIsRecorded(
    db: Db, db': Db, a: Action, repeated: Observation, now: int, answer: Tx<ConfirmationRow>)
    requires a.Confirm? && AnswersConfirm(db, db', a, repeated, now, answer) && answer.Ok?
    ensures FindConfirmation(db'.confirmations, a.k) == Some(answer.value)
  {
    if FindConfirmation(db.confirmations, a.k).None? {
      NothingConfirmed(db.confirmations, answer.value);
    }
  }

  // Whether the caller may resolve the order at all: its seller, on the Paykit Bitcoin rail.
  predicate InScope(db: Db, k: OrderId, actor: Pubky) {
    ListingSeller(db.stock, k) == Some(actor) && Resolvable(db.stock.orders[k].terms)
  }

  // A resolve request is refused out of scope before its key is looked up; a known key answers its
  // row or conflicts; any other row of the order refuses; only then is the request attempted.
  predicate AnswersResolve(db: Db, a: Action, now: int, answer: Tx<Resolution>)
    requires a.Resolve?
  {
    var row := FindResolution(db.resolutions, a.k, a.key);
    if !InScope(db, a.k, a.actor) then
      Attempt(db, a, now).Fail? && answer == Fail(Attempt(db, a, now).why)
    else if row.Some? then
      answer == if row.value.hash == a.hash then Ok(row.value.resolution) else Fail(KeyConflict)
    else if exists i :: 0 <= i < |db.resolutions| && db.resolutions[i].order == a.k then
      answer == Fail(AlreadyResolved)
    else
      match Attempt(db, a, now)
      case Ok(_) => answer == Ok(Resolution(a.key, a.outcome, SellerAttestation))
      case Fail(why) => answer == Fail(why)
  }

  class Store {
    var db: Db

    constructor (db: Db)
      ensures this.db == db
    {
      this.db := db;
    }

    method ConfirmEffects(
      stock: Stock, k: OrderId, seenState: OrderState, seenHeld: bool, deliverable: bool)
      returns (r: Tx<Stock>)
      requires k < |stock.orders|
      ensures r == ConfirmOrder(stock, k, seenState, seenHeld, deliverable)
    {
      var o := stock.orders[k];
      if !CanTransition(OrderEdges, seenState, Paid) || !deliverable {
        return Fail(StockUnavailable);
      }
      if o.terms.auction.None? && !seenHeld {
        return Fail(Internal);
      }
      if o.terms.auction.Some? && Reserved(stock.reservations, o.terms, {Active}) == 0 {
        return Fail(StockUnavailable);
      }
      var tx := stock.(reservations := Reassign(stock.reservations, o.terms, {Active}, Converted, None));
      var edition := RecordPaidUnit(tx.drops, o.terms);
      if edition.None? {
        return Fail(Internal);
      }
      tx := tx.(drops := edition.value);
      var ls, ok := SellOrderLines(tx.listings, o.terms.lines);
      if !ok {
        return Fail(StockUnavailable);
      }
      tx := tx.(listings := ls);
      var state := if o.terms.instantDigital then Delivered else Paid;
      tx := SetOrder(tx, k, o.(state := state, stockHeld := false, holdExpires := None));
      return Ok(tx);
    }

    // Keeps what was taken when the stock runs out; fails as a whole at the drop's limit per buyer.
    method ReacquireHold(stock: Stock, k: OrderId, now: int) returns (r: Tx<(Stock, bool)>)
      requires k < |stock.orders|
      ensures r == TryReacquire(stock, k, now)
    {
      var o := stock.orders[k];
      var tx := stock;
      if !DropCovers(tx.drops, o.terms) {
        return Ok((tx, false));
      }
      if OverLimit(tx.drops, o.terms) {
        return Fail(Internal);
      }
      tx := tx.(drops := DebitDrop(tx.drops, o.terms));
      var lapsed := Reserved(tx.reservations, o.terms, {Lapsed, Released});
      tx := tx.(reservations := Reassign(tx.reservations, o.terms, {Lapsed, Released}, Active,
        Some(now + REACQUIRED_RESERVATION_SECONDS)));
      if o.terms.auction.Some? && lapsed != 1 {
        return Ok((tx, false));
      }
      var ls, ok := ReserveOrderLines(tx.listings, o.terms.lines, o.terms.createdAt);
      tx := tx.(listings := ls);
      if ok && o.terms.auction.None? {
        tx := SetOrder(tx, k, o.(stockHeld := true));
      }
      return Ok((tx, ok));
    }

    // The confirmation's transaction.
    method CommitConfirmation(
      k: OrderId, actor: Pubky, seen: SeenRow, deliverable: bool, now: int)
      returns (refusal: Option<Failure>)
      modifies this
      ensures match ConfirmPayment(old(db), k, actor, seen, deliverable, now)
              case Ok(db') => refusal == None && db == db'
              case Fail(why) => refusal == Some(why) && db == old(db)
    {
      var seller := ListingSeller(db.stock, k);
      if seller.None? {
        return Some(OrderNotFound);
      }
      if seller.value != actor {
        return Some(NotOrderSeller);
      }
      if k !in db.payments {
        return Some(Internal);
      }
      var o, p := db.stock.orders[k], db.payments[k];
      if o.request != AwaitingSeller {
        return Some(NotAwaitingConfirmation);
      }
      if p.state != AwaitingEntitlement {
        return Some(Internal);
      }
      var sold := ConfirmEffects(SetOrder(db.stock, k, SettleRequest(o)), k, seen.state, seen.held, deliverable);
      if sold.Fail? {
        return Some(sold.why);
      }
      var tx := db.(stock := sold.value, payments := db.payments[k := p.(state := Confirmed)]);
      tx := tx.(confirmations := tx.confirmations + [ConfirmationRow(k, actor, seen.observation, now)]);
      var enqueued := EnqueueResolve(tx, k, o.terms, OutcomePaid, now);
      if enqueued.Fail? {
        return Some(enqueued.why);
      }
      db := enqueued.value;
      return None;
    }

    // The whole request; `repeated` holds the details the caller may repeat, which must be those observed.
    method ConfirmBitcoinPayment(
      k: OrderId, actor: Pubky, repeated: Observation, seen: SeenRow, deliverable: bool, now: int)
      returns (answer: Tx<ConfirmationRow>)
      modifies this
      ensures AnswersConfirm(old(db), db, Confirm(k, actor, seen, deliverable), repeated, now, answer)
    {
      var seller := ListingSeller(db.stock, k);
      if seller.None? {
        return Fail(OrderNotFound);
      }
      if seller.value != actor {
        return Fail(NotOrderSeller);
      }
      var stored := FindConfirmation(db.confirmations, k);
      if stored.Some? {
        return Ok(stored.value);
      }
      if repeated.txid.Some? && repeated.txid != seen.observation.txid {
        return Fail(ObservationMismatch);
      }
      if repeated.sats.Some? && repeated.sats != seen.observation.sats {
        return Fail(ObservationMismatch);
      }
      var refusal := CommitConfirmation(k, actor, seen, deliverable, now);
      return if refusal.Some? then Fail(refusal.value) else Ok(ConfirmationRow(k, actor, seen.observation, now));
    }

    // Routes every window found due, of the orders listed by deadline; one order's failure does not
    // stop the batch.
    method RouteDueSellerConfirmationWindows(listed: seq<OrderId>, now: int) returns (routed: nat)
      modifies this
      ensures db == Run(old(db), Routes(RouteBatch(old(db), listed, now), now))
      ensures routed == Committed(old(db), Routes(RouteBatch(old(db), listed, now), now), false) <= ROUTE_BATCH
    {
      var due := RouteBatch(db, listed, now);
      routed := 0;
      var i := 0;
      while i < |due|
        invariant 0 <= i <= |due|
        invariant db == Run(old(db), Routes(due, now)[..i])
        invariant routed == Committed(old(db), Routes(due, now)[..i], false) <= i
      {
        assert Routes(due, now)[..i + 1][..i] == Routes(due, now)[..i];
        var result := RouteSellerWindow(db, due[i], now);
        if result.Ok? {
          db := result.value;
          routed := routed + 1;
        }
        i := i + 1;
      }
      assert Routes(due, now)[..i] == Routes(due, now);
    }

    method ResolveBitcoinPayment(
      k: OrderId, actor: Pubky, key: nat, outcome: Outcome, hash: string, deliverable: bool, now: int)
      returns (answer: Tx<Resolution>)
      modifies this
      ensures answer.Ok? ==>
                || (Some(answer.value) == ResolvedAnswer(old(db), Replay(k, key, hash), now) && db == old(db))
                || (db == Step(old(db), Resolve(k, actor, key, outcome, hash, deliverable), now)
                    && Some(answer.value)
                       == ResolvedAnswer(old(db), Resolve(k, actor, key, outcome, hash, deliverable), now))
      ensures answer.Fail? ==> db == old(db)
      ensures AnswersResolve(old(db), Resolve(k, actor, key, outcome, hash, deliverable), now, answer)
    {
      var seller := ListingSeller(db.stock, k);
      if seller.None? {
        return Fail(OrderNotFound);
      }
      if seller.value != actor {
        return Fail(NotOrderSeller);
      }
      if !db.stock.orders[k].terms.bitcoin {
        return Fail(ResolutionNotApplicable);
      }
      if !Resolvable(db.stock.orders[k].terms) {
        return Fail(MissingPin);
      }
      var row := FindResolution(db.resolutions, k, key);
      if row.Some? {
        return if row.value.hash == hash then Ok(row.value.resolution) else Fail(KeyConflict);
      }
      if exists i :: 0 <= i < |db.resolutions| && db.resolutions[i].order == k {
        return Fail(AlreadyResolved);
      }
      var result := ApplyResolution(db, k, Resolution(key, outcome, SellerAttestation), hash, deliverable, now);
      if result.Fail? {
        return Fail(result.why);
      }
      db := result.value;
      return Ok(Resolution(key, outcome, SellerAttestation));
    }

    // One pass of the manual-review watch.
    method WatchManualReviews(rows: seq<ReviewRow>, now: int) returns (alerts: nat, abandoned: nat)
      modifies this
      ensures db == Run(old(db), Watches(rows, now))
      ensures alerts == Committed(old(db), Watches(rows, now), true)
      ensures abandoned == Committed(old(db), Watches(rows, now), false)
    {
      alerts, abandoned := 0, 0;
      var i := 0;
      while i < |rows|
        invariant 0 <= i <= |rows|
        invariant db == Run(old(db), Watches(rows[..i], now))
        invariant alerts == Committed(old(db), Watches(rows[..i], now), true)
        invariant abandoned == Committed(old(db), Watches(rows[..i], now), false)
      {
        OneMoreRow(rows, i, now);
        var alerted, ended := WatchOne(rows[i], now, old(db), Watches(rows[..i], now));
        if alerted {
          alerts := alerts + 1;
        }
        if ended {
          abandoned := abandoned + 1;
        }
        i := i + 1;
      }
      assert rows[..i] == rows;
    }

    method WatchOne(row: ReviewRow, now: int, ghost start: Db, ghost run: seq<Event>)
      returns (alerted: bool, abandoned: bool)
      requires db == Run(start, run)
      modifies this
      ensures var run' := run + Watching(row, now);
              && db == Run(start, run')
              && Committed(start, run', true) == Committed(start, run, true) + (if alerted then 1 else 0)
              && Committed(start, run', false) == Committed(start, run, false) + (if abandoned then 1 else 0)
    {
      alerted, abandoned := false, false;
      ghost var mid := run;
      var overdue := PastDeadline(row.enteredAt, SELLER_RESPONSE_SLA_BUSINESS_DAYS, now);
      if !row.alerted && overdue {
        mid := run + [Event(Alert(row.order), now)];
        alerted := AlertOne(row.order, now, start, run);
      }
      if row.enteredAt > now - MANUAL_REVIEW_INACTIVITY_SECONDS {
        assert run + Watching(row, now) == mid;
        return;
      }
      assert run + Watching(row, now) == mid + [Event(Abandon(row.order, row.key), now)];
      abandoned := AbandonOne(row.order, row.key, now, start, mid);
    }

    method AlertOne(k: OrderId, now: int, ghost start: Db, ghost run: seq<Event>) returns (done: bool)
      requires db == Run(start, run)
      modifies this
      ensures var run' := run + [Event(Alert(k), now)];
              && db == Run(start, run') && Committed(start, run', false) == Committed(start, run, false)
              && Committed(start, run', true) == Committed(start, run, true) + (if done then 1 else 0)
    {
      OneMoreEvent(start, run, Event(Alert(k), now));
      var result := AlertSeller(db, k, now);
      done := result.Ok?;
      if done {
        db := result.value;
      }
    }

    method AbandonOne(k: OrderId, key: nat, now: int, ghost start: Db, ghost run: seq<Event>) returns (done: bool)
      requires db == Run(start, run)
      modifies this
      ensures var run' := run + [Event(Abandon(k, key), now)];
              && db == Run(start, run') && Committed(start, run', true) == Committed(start, run, true)
              && Committed(start, run', false) == Committed(start, run, false) + (if done then 1 else 0)
    {
      OneMoreEvent(start, run, Event(Abandon(k, key), now));
      var result := AbandonUnresponsive(db, k, key, now);
      done := result.Ok?;
      if done {
        db := result.value;
      }
    }

    // One transaction of the payment-window sweep over the orders it found due.
    method ExpireDuePaymentWindows(ks: seq<OrderId>, now: int) returns (swept: bool)
      modifies this
      ensures swept <==> SweepBatch(old(db), ks, now).Ok?
      ensures db == if swept then Run(old(db), Sweeps(ks, now)) else old(db)
    {
      SweepBatchIsRun(db, ks, now);
      var tx := db;
      var i := 0;
      while i < |ks|
        invariant 0 <= i <= |ks| && db == old(db)
        invariant SweepBatch(db, ks[..i], now) == Ok(tx)
      {
        assert ks[..i + 1][..i] == ks[..i];
        var result := SweepNext(tx, ks[i], now);
        if result.Fail? {
          FailedBatch(db, ks, i + 1, now);
          return false;
        }
        tx := result.value;
        i := i + 1;
      }
      assert ks[..i] == ks;
      db := tx;
      return true;
    }

    // One sweep transaction: any failure rolls the whole batch back.
    method ExpireDueReservations(ids: seq<nat>, now: int) returns (swept: bool)
      requires forall i :: 0 <= i < |ids| ==> DueReservation(db, ids[i], now)
      modifies this
      ensures db == Step(old(db), SweepHolds(ids), now)
      ensures swept <==> Attempt(old(db), SweepHolds(ids), now).Ok?
    {
      var tx := db.stock;
      var i := 0;
      while i < |ids|
        invariant 0 <= i <= |ids| && |tx.reservations| == |db.stock.reservations| && db == old(db)
        invariant forall j :: 0 <= j < |ids[i..]| ==> ids[i..][j] < |tx.reservations|
        invariant ExpireReservations(db.stock, ids) == ExpireReservations(tx, ids[i..])
      {
        assert ids[i..][0] == ids[i];
        assert ids[i..][1..] == ids[i + 1..];
        var expired := ExpireReservation(tx, ids[i]);
        if expired.Fail? {
          return false;
        }
        tx := expired.value;
        i := i + 1;
      }
      db := db.(stock := tx);
      return true;
    }

    method ApplyLatePayment(
      k: OrderId, paykit: bool, observed: Observation, deliverable: bool, now: int)
      returns (refusal: Option<Failure>)
      modifies this
      ensures match LateMoney(old(db), k, paykit, observed, deliverable, now)
              case Ok(db') => refusal == None && db == db'
              case Fail(why) => refusal == Some(why) && db == old(db)
    {
      if k >= |db.stock.orders| || k !in db.payments {
        return Some(Internal);
      }
      var o, p := db.stock.orders[k], db.payments[k];
      if o.request == AwaitingSeller || !LateGate(p, paykit) {
        return Some(NotDue);
      }
      if paykit && (o.terms.stack.None? || !o.terms.endpoint) {
        return Some(MissingPin);
      }
      o := LateOrder(o, paykit, observed);
      var stock := SetOrder(db.stock, k, o);
      var settled: Tx<(Stock, Payment)>;
      if !deliverable {
        settled := RequireRefund(stock, k, p, o, now);
      } else if o.state == PendingPayment && o.stockHeld {
        settled := if Stampable(p) then Ok((stock, Stamp(p, LateSettlement, now))) else Fail(Internal);
      } else {
        var taken := ReacquireHold(stock, k, now);
        if taken.Fail? {
          return Some(taken.why);
        }
        if taken.value.1 {
          settled := CompleteLate(taken.value.0, k, p);
        } else {
          settled := RequireRefund(taken.value.0, k, p, o, now);
        }
      }
      if settled.Fail? {
        return Some(settled.why);
      }
      db := db.(stock := settled.value.0, payments := db.payments[k := settled.value.1]);
      return None;
    }
  }
}

/** Business-day arithmetic of the seller-response SLA, on instants in seconds and day
 numbers, both counted from a Monday's midnight. */
module BusinessDays {
  predicate IsBusinessDay(day: int) {
    day % 7 < 5
  }

  // Business days in (from, to].
  function BusinessDaysBetween(from: int, to: int): nat
    decreases to - from
  {
    if to <= from then 0
    else BusinessDaysBetween(from, to - 1) + if IsBusinessDay(to) then 1 else 0
  }

  // The deadline is the earliest day by which `days` business days have passed.
  method AddBusinessDays(start: int, days: nat) returns (deadline: int)
    ensures deadline >= start
    ensures BusinessDaysBetween(start, deadline) == days
    ensures forall d :: start <= d < deadline ==> BusinessDaysBetween(start, d) < days
    ensures days > 0 ==> IsBusinessDay(deadline)
  {
    deadline := start;
    var remaining := days;
    while remaining > 0
      invariant deadline >= start
      invariant BusinessDaysBetween(start, deadline) + remaining == days
      invariant forall d :: start <= d < deadline ==> BusinessDaysBetween(start, d) < days
      invariant remaining == 0 && days > 0 ==> IsBusinessDay(deadline)
      decreases remaining, 6 - deadline % 7
    {
      deadline := deadline + 1;
      if IsBusinessDay(deadline) {
        remaining := remaining - 1;
      }
    }
  }

  lemma {:induction false} MoreDays(from: int, to: int, later: int)
    requires to <= later
    ensures BusinessDaysBetween(from, to) <= BusinessDaysBetween(from, later)
    decreases later - to
  {
    if to < later {
      MoreDays(from, to, later - 1);
    }
  }

  const DAY_SECONDS: int := 86_400

  // That many business days have passed whole since the instant.
  predicate Overdue(start: int, days: nat, now: int) {
    var day := start / DAY_SECONDS;
    BusinessDaysBetween(day, day + (now - start) / DAY_SECONDS) >= days
  }

  // Whether the instant moved on by business days has come.
  method PastDeadline(start: int, days: nat, now: int) returns (past: bool)
    requires days > 0
    ensures past <==> Overdue(start, days, now)
  {
    var day := start / DAY_SECONDS;
    var deadline := AddBusinessDays(day, days);
    past := now >= start + (deadline - day) * DAY_SECONDS;
    var gone := (now - start) / DAY_SECONDS;
    assert past <==> gone >= deadline - day;
    if past {
      MoreDays(day, deadline, day + gone);
    }
  }
}
