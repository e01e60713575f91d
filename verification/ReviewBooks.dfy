/**
 The books over every run.  Each committed transaction moves the gap of every listing and every
 drop by a leak that is a function of the tables before it; the leaks of a run add up to the gap
 at its end, and the books stay right exactly while nothing leaks.
 */
module ReviewBooks {
  import opened Options
  import opened StateMachines
  import opened Ledger
  import opened BitcoinReview
  import opened ReviewAccounting
  import opened ReviewInvariant
  import opened ReviewSteps
  import opened ReviewTheorems

  // -------------------------------------------------------------------------
  // Leaks
  // -------------------------------------------------------------------------

  // A resolution ends a present hold; paying without one takes the stock again first, and then
  // gives up the rows that were active before as well.
  function OutcomeLeak(s: Stock, o: Order, outcome: Outcome, b: Book): int {
    if o.state == PendingPayment && HoldPresent(s, o) then EndLeak(s, o.terms, b)
    else if outcome == OutcomePaid then ClaimedFor(s, o.terms, {Active}, b)
    else 0
  }

  function LateLeak(s: Stock, o: Order, deliverable: bool, b: Book): int {
    if !deliverable || (o.state == PendingPayment && o.stockHeld) then 0
    else if TakeFits(s, o.terms) then ClaimedFor(s, o.terms, {Active}, b)
    else FailedTakeLeak(s, o.terms, b)
  }

  // A legacy hold is cancelled even when its release does not go through.
  function WindowLeak(s: Stock, t: Terms, b: Book): int {
    match b
    case ListingBook(l) => UnitsOf(t.lines, l) - UnitsOf(t.lines[..ReleasedPrefix(s.listings, t.lines)], l)
    case DropBook(d) =>
      if d in s.drops && s.drops[d].remaining + Units(t.lines) <= s.drops[d].total then 0 else InTerms(b, t)
  }

  function Leak(db: Db, a: Action, b: Book): int {
    if a.Enter? || a.Route? || a.Replay? || a.Alert? || a.SweepHolds? || a.k >= |db.stock.orders| then 0
    else
      var s, o := db.stock, db.stock.orders[a.k];
      match a
      case Confirm(_, _, _, _) => EndLeak(s, o.terms, b)
      case Resolve(_, _, _, outcome, _, _) => OutcomeLeak(s, o, outcome, b)
      case Abandon(_, _) => OutcomeLeak(s, o, OutcomeAbandoned, b)
      case Late(_, _, _, deliverable) => LateLeak(s, o, deliverable, b)
      case SweepWindow(_) => WindowLeak(s, o.terms, b)
      case _ => 0
  }

  // The gap of a book moved by the leak, and the tables still balance.
  ghost predicate Shifts(s: Stock, s': Stock, b: Book, leak: int) {
    KeepsTables(s, s') && Open(s, b) && Open(s', b) && Gap(s', b) == Gap(s, b) + leak
  }

  lemma SameHeldShifts(s: Stock, s': Stock, b: Book)
    requires Open(s, b) && s'.listings == s.listings && s'.drops == s.drops && Held(s', b) == Held(s, b)
    ensures Shifts(s, s', b, 0)
  {
  }

  lemma ShiftsJoin(s: Stock, mid: Stock, s': Stock, b: Book, first: int, second: int)
    requires Shifts(s, mid, b, first) && Shifts(mid, s', b, second)
    ensures Shifts(s, s', b, first + second)
  {
  }

  // -------------------------------------------------------------------------
  // The effects
  // -------------------------------------------------------------------------

  lemma SaleShifts(s: Stock, k: OrderId, seenState: OrderState, seenHeld: bool, deliverable: bool, s': Stock, b: Book)
    requires k < |s.orders| && OrderShaped(s, s.orders[k].terms) && Open(s, b)
    requires s.orders[k].stockHeld == s.orders[k].terms.auction.None?
    requires ConfirmOrder(s, k, seenState, seenHeld, deliverable) == Ok(s')
    ensures Shifts(s, s', b, EndLeak(s, s.orders[k].terms, b))
  {
    SaleColumns(s, k, seenState, seenHeld, deliverable, s');
    EndedHold(s, s', k, Converted, b);
  }

  lemma CancelShifts(s: Stock, k: OrderId, s': Stock, b: Book)
    requires k < |s.orders| && OrderShaped(s, s.orders[k].terms) && HoldOk(s.orders[k]) && Open(s, b)
    requires CancelHeld(s, k) == Ok(s')
    ensures Shifts(s, s', b, if HoldPresent(s, s.orders[k]) then EndLeak(s, s.orders[k].terms, b) else 0)
  {
    var o := s.orders[k];
    if HoldPresent(s, o) {
      ReleaseColumns(s, o, ReleaseHold(s, o).value);
      assert ColumnsMove(s, s', o.terms, 1);
      EndedHold(s, s', k, Released, b);
    } else {
      NothingMoves(s, s', k);
      SameHeldShifts(s, s', b);
    }
  }

  lemma TakeSaleShifts(
    s: Stock, k: OrderId, now: int, taken: Stock, seenState: OrderState, seenHeld: bool, deliverable: bool,
    s': Stock, b: Book)
    requires k < |s.orders| && OrderShaped(s, s.orders[k].terms) && !s.orders[k].stockHeld && Open(s, b)
    requires Reacquire(s, k, now) == (taken, true)
    requires ConfirmOrder(taken, k, seenState, seenHeld, deliverable) == Ok(s')
    ensures Shifts(s, s', b, ClaimedFor(s, s.orders[k].terms, {Active}, b))
  {
    TakeMoves(s, k, now);
    TakenHold(s, k, now, taken, b);
    assert OrderShaped(taken, s.orders[k].terms);
    SaleShifts(taken, k, seenState, seenHeld, deliverable, s', b);
  }

  lemma OutcomeShifts(s: Stock, k: OrderId, outcome: Outcome, deliverable: bool, now: int, s': Stock, b: Book)
    requires k < |s.orders| && OrderShaped(s, s.orders[k].terms) && HoldOk(s.orders[k]) && Open(s, b)
    requires OutcomeEffects(s, k, outcome, deliverable, now) == Ok(s')
    ensures Shifts(s, s', b, OutcomeLeak(s, s.orders[k], outcome, b))
  {
    var o := s.orders[k];
    if outcome == OutcomePaid {
      if o.state == PendingPayment && HoldPresent(s, o) {
        SaleShifts(s, k, o.state, o.stockHeld, deliverable, s', b);
      } else {
        var taken := Reacquire(s, k, now).0;
        TakeSaleShifts(s, k, now, taken, taken.orders[k].state, taken.orders[k].stockHeld, deliverable, s', b);
      }
    } else {
      UnpaidShifts(s, k, outcome, s', b);
    }
  }

  lemma UnpaidShifts(s: Stock, k: OrderId, outcome: Outcome, s': Stock, b: Book)
    requires k < |s.orders| && OrderShaped(s, s.orders[k].terms) && HoldOk(s.orders[k]) && Open(s, b)
    requires outcome != OutcomePaid && OutcomeEffects(s, k, outcome, false, 0) == Ok(s')
    ensures Shifts(s, s', b, OutcomeLeak(s, s.orders[k], outcome, b))
  {
    var mid := if s.orders[k].state == PendingPayment then CancelHeld(s, k).value else s;
    if s.orders[k].state == PendingPayment {
      CancelShifts(s, k, mid, b);
    }
    NothingMoves(mid, s', k);
    SameHeldShifts(mid, s', b);
  }

  // Asking for a refund ends the hold of an order outside auctions, and leaves reservations alone.
  lemma RefundShifts(s: Stock, k: OrderId, p: Payment, row: Order, now: int, s': Stock, p': Payment, b: Book)
    requires k < |s.orders| && row == s.orders[k] && OrderShaped(s, row.terms) && HoldOk(row) && Open(s, b)
    requires RequireRefund(s, k, p, row, now) == Ok((s', p'))
    ensures Shifts(s, s', b, 0)
  {
    if row.stockHeld {
      ReleaseColumns(s, row, ReleaseHold(s, row).value);
      assert ColumnsMove(s, s', row.terms, 1);
      EndedHold(s, s', k, Released, b);
    } else {
      NothingMoves(s, s', k);
      SameHeldShifts(s, s', b);
    }
  }

  lemma LateForkShifts(s: Stock, k: OrderId, p: Payment, deliverable: bool, now: int, s': Stock, p': Payment, b: Book)
    requires k < |s.orders| && OrderShaped(s, s.orders[k].terms) && HoldOk(s.orders[k]) && Open(s, b)
    requires ApplyLateMoney(s, k, p, deliverable, now) == Ok((s', p'))
    requires s.orders[k].state in {PendingPayment, Cancelled} || p.state == Confirmed
    ensures Shifts(s, s', b, LateLeak(s, s.orders[k], deliverable, b))
  {
    var o := s.orders[k];
    if !deliverable {
      RefundShifts(s, k, p, o, now, s', p', b);
    } else if !(o.state == PendingPayment && o.stockHeld) {
      var (taken, ok) := Reacquire(s, k, now);
      TakeSucceeds(s, k, now);
      if ok {
        TakeSaleShifts(s, k, now, taken, taken.orders[k].state, taken.orders[k].stockHeld, true, s', b);
      } else {
        FailedTake(s, k, now, taken, b);
        RefundShifts(taken, k, p, o, now, s', p', b);
        ShiftsJoin(s, taken, s', b, FailedTakeLeak(s, o.terms, b), 0);
      }
    }
  }

  // -------------------------------------------------------------------------
  // One step
  // -------------------------------------------------------------------------

  lemma LateShifts(
    db: Db, k: OrderId, paykit: bool, observed: Observation, deliverable: bool, now: int, db': Db, b: Book)
    requires Core(db) && LateMoney(db, k, paykit, observed, deliverable, now) == Ok(db') && Open(db.stock, b)
    ensures Shifts(db.stock, db'.stock, b, LateLeak(db.stock, db.stock.orders[k], deliverable, b))
  {
    var o := db.stock.orders[k];
    var s := SetOrder(db.stock, k, LateOrder(o, paykit, observed));
    NothingMoves(db.stock, s, k);
    SameHeldShifts(db.stock, s, b);
    LateForkShifts(s, k, db.payments[k], deliverable, now, db'.stock, db'.payments[k], b);
    SettledLeak(db.stock, s, o, s.orders[k], deliverable, b);
    ShiftsJoin(db.stock, s, db'.stock, b, 0, LateLeak(s, s.orders[k], deliverable, b));
  }

  // Settling the request first changes nothing the leak depends on.
  lemma SettledLeak(s: Stock, s': Stock, o: Order, o': Order, deliverable: bool, b: Book)
    requires s'.listings == s.listings && s'.drops == s.drops && s'.reservations == s.reservations
    requires o'.terms == o.terms && o'.state == o.state && o'.stockHeld == o.stockHeld
    ensures LateLeak(s', o', deliverable, b) == LateLeak(s, o, deliverable, b)
  {
  }

  lemma ConfirmShifts(
    db: Db, k: OrderId, actor: Pubky, seen: SeenRow, deliverable: bool, now: int,
    db': Db, b: Book)
    requires Core(db) && ConfirmPayment(db, k, actor, seen, deliverable, now) == Ok(db')
    requires Open(db.stock, b)
    ensures Shifts(db.stock, db'.stock, b, EndLeak(db.stock, db.stock.orders[k].terms, b))
  {
    var s := SetOrder(db.stock, k, SettleRequest(db.stock.orders[k]));
    NothingMoves(db.stock, s, k);
    SameHeldShifts(db.stock, s, b);
    SaleShifts(s, k, seen.state, seen.held, deliverable, db'.stock, b);
  }

  lemma ResolutionShifts(
    db: Db, k: OrderId, res: Resolution, hash: string, deliverable: bool, now: int, db': Db, b: Book)
    requires Core(db) && ApplyResolution(db, k, res, hash, deliverable, now) == Ok(db') && Open(db.stock, b)
    ensures Shifts(db.stock, db'.stock, b, OutcomeLeak(db.stock, db.stock.orders[k], res.outcome, b))
  {
    OutcomeShifts(db.stock, k, res.outcome, deliverable, now, db'.stock, b);
  }

  // Entering the window, routing and alerting move dates only.
  lemma QuietShifts(db: Db, a: Action, now: int, db': Db, b: Book)
    requires Core(db) && (a.Enter? || a.Route? || a.Alert?) && Attempt(db, a, now) == Ok(db') && Open(db.stock, b)
    ensures Shifts(db.stock, db'.stock, b, 0)
  {
    if a.Route? {
      NothingMoves(db.stock, db'.stock, a.k);
    } else if a.Enter? {
      HeldAfter(db.stock, db'.stock, a.k, {Active}, Active, Some(now + SELLER_CONFIRMATION_WINDOW_SECONDS), b);
      assert {Active} - {Active} == {};
      NoneClaimed(db.stock, db.stock.orders[a.k].terms, b);
    }
    SameHeldShifts(db.stock, db'.stock, b);
  }

  lemma NoneClaimed(s: Stock, t: Terms, b: Book)
    ensures ClaimedFor(s, t, {}, b) == 0
  {
    if t.auction.Some? {
      NoStatusClaims(s.reservations, t.auction.value, t.buyer, b);
    }
  }

  lemma {:induction false} NoStatusClaims(rs: seq<Reservation>, l: ListingId, buyer: Pubky, b: Book)
    ensures Claimed(rs, l, buyer, {}, b) == 0
    decreases |rs|
  {
    if rs != [] {
      NoStatusClaims(rs[1..], l, buyer, b);
    }
  }

  lemma WindowShifts(db: Db, k: OrderId, now: int, db': Db, b: Book)
    requires Core(db) && SweepPaymentWindow(db, k, now) == Ok(db') && Open(db.stock, b)
    ensures Shifts(db.stock, db'.stock, b, WindowLeak(db.stock, db.stock.orders[k].terms, b))
  {
    WindowColumns(db.stock, db.stock.orders[k].terms, db'.stock, b);
    OrdersSplit(db.stock.orders, k, db'.stock.orders[k], b);
  }

  lemma WindowKeepsTables(s: Stock, t: Terms, s': Stock)
    requires s'.listings == ReleaseLines(s.listings, t.lines).0 && s'.drops == CreditOrderDrop(s.drops, t).0
    ensures KeepsTables(s, s')
  {
    ReleaseLinesMoves(s.listings, t.lines);
  }

  lemma WindowColumns(s: Stock, t: Terms, s': Stock, b: Book)
    requires OrderShaped(s, t) && Open(s, b)
    requires s'.listings == ReleaseLines(s.listings, t.lines).0 && s'.drops == CreditOrderDrop(s.drops, t).0
    ensures KeepsTables(s, s') && Open(s', b)
    ensures Column(s', b) == Column(s, b) - InTerms(b, t) + WindowLeak(s, t, b)
  {
    WindowKeepsTables(s, t, s');
    ReleaseLinesMoves(s.listings, t.lines);
  }

  lemma {:induction false} SweepShifts(s: Stock, ids: seq<nat>, s': Stock, b: Book)
    requires forall i :: 0 <= i < |ids| ==> ids[i] < |s.reservations|
    requires ExpireReservations(s, ids) == Ok(s') && Open(s, b)
    ensures Shifts(s, s', b, 0)
    decreases |ids|
  {
    if ids != [] {
      var mid := ExpireReservation(s, ids[0]).value;
      ExpiredHold(s, ids[0], mid, b);
      SweepShifts(mid, ids[1..], s', b);
    }
  }

  lemma DecisionShifts(db: Db, a: Action, now: int, db': Db, b: Book)
    requires Core(db) && Open(db.stock, b) && Decides(a) && Attempt(db, a, now) == Ok(db')
    ensures Shifts(db.stock, db'.stock, b, Leak(db, a, b))
  {
    if a.Confirm? {
      ConfirmShifts(db, a.k, a.actor, a.seen, a.deliverable, now, db', b);
    } else {
      ReviewShifts(db, a, now, db', b);
    }
  }

  lemma ReviewShifts(db: Db, a: Action, now: int, db': Db, b: Book)
    requires Core(db) && Open(db.stock, b) && (a.Resolve? || a.Abandon?) && Attempt(db, a, now) == Ok(db')
    ensures Shifts(db.stock, db'.stock, b, Leak(db, a, b))
  {
    match a {
      case Resolve(k, actor, key, outcome, hash, deliverable) =>
        ResolutionShifts(db, k, Resolution(key, outcome, SellerAttestation), hash, deliverable, now, db', b);
      case Abandon(k, key) =>
        ResolutionShifts(db, k, Resolution(key, OutcomeAbandoned, SellerUnresponsive), UNRESPONSIVE_HASH, false,
          now, db', b);
    }
  }

  lemma {:induction false} SweepKeepsTables(s: Stock, ids: seq<nat>, s': Stock)
    requires forall i :: 0 <= i < |ids| ==> ids[i] < |s.reservations|
    requires ExpireReservations(s, ids) == Ok(s')
    ensures KeepsTables(s, s')
    decreases |ids|
  {
    if ids != [] {
      var mid := ExpireReservation(s, ids[0]).value;
      ExpiryKeepsTables(s, ids[0], mid);
      SweepKeepsTables(mid, ids[1..], s');
    }
  }

  // The tables' checks survive every step.
  lemma StepKeepsTables(db: Db, a: Action, now: int)
    requires Core(db)
    ensures KeepsTables(db.stock, Step(db, a, now).stock)
  {
    if Attempt(db, a, now).Ok? && a.SweepHolds? {
      SweepKeepsTables(db.stock, a.ids, Step(db, a, now).stock);
    } else if db.stock.orders != [] {
      StepShifts(db, a, now, ListingBook(db.stock.orders[0].terms.lines[0].listing));
    }
  }

  // Every committed transaction moves every book's gap by exactly its leak; a refused one moves nothing.
  lemma StepShifts(db: Db, a: Action, now: int, b: Book)
    requires Core(db) && Open(db.stock, b)
    ensures Shifts(db.stock, Step(db, a, now).stock, b, if Attempt(db, a, now).Ok? then Leak(db, a, b) else 0)
  {
    var db' := Step(db, a, now);
    if Attempt(db, a, now).Ok? {
      if Decides(a) {
        DecisionShifts(db, a, now, db', b);
      } else if a.Enter? || a.Route? || a.Alert? {
        QuietShifts(db, a, now, db', b);
      } else if a.Late? {
        LateShifts(db, a.k, a.paykit, a.observed, a.deliverable, now, db', b);
      } else if a.SweepWindow? {
        WindowShifts(db, a.k, now, db', b);
      } else if a.SweepHolds? {
        SweepShifts(db.stock, a.ids, db'.stock, b);
      }
    }
  }

  // -------------------------------------------------------------------------
  // The ledger of leaks
  // -------------------------------------------------------------------------

  function TotalLeak(db: Db, run: seq<Event>, b: Book): int
    decreases |run|
  {
    if run == [] then 0
    else
      var before, last := run[..|run| - 1], run[|run| - 1];
      TotalLeak(db, before, b)
      + if Attempt(Run(db, before), last.action, last.now).Ok? then Leak(Run(db, before), last.action, b) else 0
  }

  // Over every run, whatever it does, a book's gap is what it was plus the leaks of the run.
  lemma {:induction false} GapLedger(db: Db, run: seq<Event>, b: Book)
    requires Core(db) && Open(db.stock, b)
    ensures Shifts(db.stock, Run(db, run).stock, b, TotalLeak(db, run, b)) && Core(Run(db, run))
    decreases |run|
  {
    if run != [] {
      var before, last := run[..|run| - 1], run[|run| - 1];
      GapLedger(db, before, b);
      StepKeepsCore(Run(db, before), last.action, last.now, 0);
      StepShifts(Run(db, before), last.action, last.now, b);
    }
  }
}
