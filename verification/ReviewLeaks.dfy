/**
 When the books stay right.  Every listing and every drop is accounted for at every point of a run
 if and only if no event of it strands stock, a condition on the tables before the event; then the
 runs in which nothing can, and the smallest tables on which something does.
 */
module ReviewLeaks {
  import opened Options
  import opened StateMachines
  import opened Ledger
  import opened BitcoinReview
  import opened ReviewAccounting
  import opened ReviewInvariant
  import opened ReviewSteps
  import opened ReviewTheorems
  import opened ReviewBooks

  // -------------------------------------------------------------------------
  // The guards of the transactions that can leak
  // -------------------------------------------------------------------------

  predicate Pinned(t: Terms) {
    t.invoice && t.stack.Some? && t.endpoint
  }

  // The auction order's hold can end: a row is active and the listing has the units reserved.
  predicate EndFits(s: Stock, t: Terms)
    requires t.lines != []
  {
    Reserved(s.reservations, t, {Active}) > 0 && CanRelease(s.listings, t.lines[0])
  }

  predicate OutcomeFits(s: Stock, o: Order, outcome: Outcome, deliverable: bool)
    requires o.terms.lines != []
  {
    && o.state in {PendingPayment, Cancelled}
    && (o.state == PendingPayment && HoldPresent(s, o) ==> CanRelease(s.listings, o.terms.lines[0]))
    && match outcome
       case OutcomePaid =>
         deliverable && ((o.state == PendingPayment && HoldPresent(s, o)) || TakeFits(s, o.terms))
       case OutcomeRefunded => Refundable(o)
       case OutcomeAbandoned => true
  }

  predicate ReviewAdmits(s: Stock, o: Order, p: Payment, outcome: Outcome, deliverable: bool)
    requires o.terms.lines != []
  {
    && p.adapter == Paykit && p.state == ManualReview && p.resolution.None?
    && !(outcome == OutcomePaid && p.reviewReason == Some(RefundRequiredReason))
    && Resolvable(o.terms) && Pinned(o.terms) && OutcomeFits(s, o, outcome, deliverable)
  }

  predicate LateAdmits(s: Stock, o: Order, p: Payment, paykit: bool) {
    && o.request != AwaitingSeller && LateGate(p, paykit) && p.resolution.None?
    && (paykit ==> o.terms.stack.Some? && o.terms.endpoint) && !OverLimit(s.drops, o.terms)
    && (TakeFits(s, o.terms) ==> CanTransition(OrderEdges, o.state, Paid))
  }

  predicate Admits(db: Db, a: Action) {
    (Decides(a) || a.Late?) && a.k < |db.stock.orders| && a.k in db.payments
    && db.stock.orders[a.k].terms.lines != []
    && var s, o, p := db.stock, db.stock.orders[a.k], db.payments[a.k];
       match a
       case Confirm(k, actor, seen, deliverable) =>
         && ListingSeller(s, k) == Some(actor) && o.request == AwaitingSeller && p.state == AwaitingEntitlement
         && CanTransition(OrderEdges, seen.state, Paid) && deliverable && EndFits(s, o.terms) && Pinned(o.terms)
       case Resolve(k, actor, _, outcome, _, deliverable) =>
         ListingSeller(s, k) == Some(actor) && ReviewAdmits(s, o, p, outcome, deliverable)
       case Abandon(k, _) => ReviewAdmits(s, o, p, OutcomeAbandoned, false)
       case Late(k, paykit, _, _) => LateAdmits(s, o, p, paykit)
       case _ => false
  }

  // -------------------------------------------------------------------------
  // A transaction that would leak commits exactly if its guards admit it
  // -------------------------------------------------------------------------

  lemma OneLine(ls: Listings, lines: seq<Line>, createdAt: int)
    requires |lines| == 1
    ensures SellLines(ls, lines).1 <==> CanRelease(ls, lines[0])
    ensures ReleaseLines(ls, lines).1 <==> CanRelease(ls, lines[0])
    ensures ReserveLines(ls, lines, createdAt).1 ==>
              ReserveLines(ls, lines, createdAt).0 == ReserveLine(ls, lines[0])
  {
  }

  // Only auction orders leak at a decision.
  lemma LeakyDecision(db: Db, a: Action, b: Book)
    requires Core(db) && Decides(a) && Leak(db, a, b) != 0
    ensures a.k < |db.stock.orders| && db.stock.orders[a.k].terms.auction.Some?
  {
  }

  lemma SaleAdmitted(s: Stock, k: OrderId, seenState: OrderState, seenHeld: bool, deliverable: bool)
    requires k < |s.orders| && OrderShaped(s, s.orders[k].terms) && s.orders[k].terms.auction.Some?
    ensures ConfirmOrder(s, k, seenState, seenHeld, deliverable).Ok?
            <==> CanTransition(OrderEdges, seenState, Paid) && deliverable && EndFits(s, s.orders[k].terms)
  {
    OneLine(s.listings, s.orders[k].terms.lines, 0);
  }

  // What was just taken can be sold.
  lemma TakenSells(s: Stock, k: OrderId, now: int, seenState: OrderState, seenHeld: bool, deliverable: bool)
    requires k < |s.orders| && OrderShaped(s, s.orders[k].terms) && s.orders[k].terms.auction.Some?
    requires NonNegative(s.listings) && Reacquire(s, k, now).1
    ensures ConfirmOrder(Reacquire(s, k, now).0, k, seenState, seenHeld, deliverable).Ok?
            <==> CanTransition(OrderEdges, seenState, Paid) && deliverable
  {
    var t, taken := s.orders[k].terms, Reacquire(s, k, now).0;
    OneLine(s.listings, t.lines, t.createdAt);
    ReactivatedCount(s.reservations, t.auction.value, t.buyer, Some(now + REACQUIRED_RESERVATION_SECONDS));
    assert OrderShaped(taken, t);
    SaleAdmitted(taken, k, seenState, seenHeld, deliverable);
  }

  lemma {:induction false} ReactivatedCount(rs: seq<Reservation>, l: ListingId, buyer: Pubky, expiresAt: Option<int>)
    ensures CountReservations(UpdateReservations(rs, l, buyer, {Lapsed, Released}, Active, expiresAt), l, buyer, {Active})
            >= CountReservations(rs, l, buyer, {Lapsed, Released})
    decreases |rs|
  {
    if rs != [] {
      ReactivatedCount(rs[1..], l, buyer, expiresAt);
    }
  }

  lemma OutcomeAdmitted(s: Stock, k: OrderId, outcome: Outcome, deliverable: bool, now: int)
    requires k < |s.orders| && OrderShaped(s, s.orders[k].terms) && s.orders[k].terms.auction.Some?
    requires HoldOk(s.orders[k]) && NonNegative(s.listings)
    ensures OutcomeEffects(s, k, outcome, deliverable, now).Ok? <==> OutcomeFits(s, s.orders[k], outcome, deliverable)
  {
    var o := s.orders[k];
    OneLine(s.listings, o.terms.lines, o.terms.createdAt);
    SaleAdmitted(s, k, o.state, o.stockHeld, deliverable);
    TakeSucceeds(s, k, now);
    if outcome == OutcomePaid && Reacquire(s, k, now).1 {
      var taken := Reacquire(s, k, now).0;
      TakeMoves(s, k, now);
      TakenSells(s, k, now, taken.orders[k].state, taken.orders[k].stockHeld, deliverable);
    }
  }

  lemma ConfirmAdmitted(db: Db, a: Action, now: int)
    requires Core(db) && a.Confirm? && a.k < |db.stock.orders| && db.stock.orders[a.k].terms.auction.Some?
    ensures Attempt(db, a, now).Ok? <==> Admits(db, a)
  {
    var s, k := db.stock, a.k;
    SaleAdmitted(SetOrder(s, k, SettleRequest(s.orders[k])), k, a.seen.state, a.seen.held, a.deliverable);
  }

  lemma ResolutionAdmitted(db: Db, k: OrderId, res: Resolution, hash: string, deliverable: bool, now: int)
    requires Core(db) && Balanced(db.stock) && k < |db.stock.orders| && k in db.payments
    requires db.stock.orders[k].terms.auction.Some? && Resolvable(db.stock.orders[k].terms)
    ensures ApplyResolution(db, k, res, hash, deliverable, now).Ok?
            <==> ReviewAdmits(db.stock, db.stock.orders[k], db.payments[k], res.outcome, deliverable)
  {
    OutcomeAdmitted(db.stock, k, res.outcome, deliverable, now);
  }

  lemma DecisionAdmitted(db: Db, a: Action, now: int, b: Book)
    requires Core(db) && Balanced(db.stock) && Decides(a) && Leak(db, a, b) != 0
    ensures Attempt(db, a, now).Ok? <==> Admits(db, a)
  {
    LeakyDecision(db, a, b);
    var k := a.k;
    if a.Confirm? {
      ConfirmAdmitted(db, a, now);
    } else if k in db.payments && Resolvable(db.stock.orders[k].terms) {
      if a.Resolve? {
        ResolutionAdmitted(db, k, Resolution(a.key, a.outcome, SellerAttestation), a.hash, a.deliverable, now);
      } else {
        ResolutionAdmitted(db, k, Resolution(a.key, OutcomeAbandoned, SellerUnresponsive), UNRESPONSIVE_HASH,
          false, now);
      }
    }
  }

  lemma CompletionAdmitted(s: Stock, k: OrderId, p: Payment, now: int)
    requires k < |s.orders| && OrderShaped(s, s.orders[k].terms) && s.orders[k].terms.auction.Some?
    requires NonNegative(s.listings) && EntryCheck(p) && Reacquire(s, k, now).1
    ensures CompleteLate(Reacquire(s, k, now).0, k, p).Ok?
            <==> p.state in {Expired, AwaitingEntitlement} && p.resolution.None?
                 && CanTransition(OrderEdges, s.orders[k].state, Paid)
  {
    TakeMoves(s, k, now);
    var taken := Reacquire(s, k, now).0;
    TakenSells(s, k, now, taken.orders[k].state, taken.orders[k].stockHeld, true);
  }

  // A refund of an order without a flag hold only stamps the payment.
  lemma RefundAdmitted(s: Stock, k: OrderId, p: Payment, row: Order, now: int)
    requires k < |s.orders| && !row.stockHeld
    ensures RequireRefund(s, k, p, row, now).Ok? <==> Stampable(p)
  {
  }

  lemma LateAdmitted(db: Db, k: OrderId, paykit: bool, observed: Observation, deliverable: bool, now: int, b: Book)
    requires Core(db) && Balanced(db.stock) && k < |db.stock.orders| && k in db.payments
    requires LateLeak(db.stock, db.stock.orders[k], deliverable, b) != 0
    ensures LateMoney(db, k, paykit, observed, deliverable, now).Ok?
            <==> LateAdmits(db.stock, db.stock.orders[k], db.payments[k], paykit)
  {
    var o := db.stock.orders[k];
    var s := SetOrder(db.stock, k, LateOrder(o, paykit, observed));
    TakeSucceeds(s, k, now);
    if TakeFits(s, o.terms) {
      CompletionAdmitted(s, k, db.payments[k], now);
    } else {
      RefundAdmitted(Reacquire(s, k, now).0, k, db.payments[k], s.orders[k], now);
    }
  }

  // -------------------------------------------------------------------------
  // The books over runs
  // -------------------------------------------------------------------------

  // The event commits and leaves a listing, or a drop, with units nobody holds or holders without units.
  predicate Strands(db: Db, a: Action) {
    Admits(db, a) && exists l :: l in db.stock.listings && Leak(db, a, ListingBook(l)) != 0
  }

  predicate StrandsDrop(db: Db, a: Action) {
    Admits(db, a) && exists d :: d in db.stock.drops && Leak(db, a, DropBook(d)) != 0
  }

  // A committed event leaks into a book exactly if its guards admit it and the leak is not zero.
  lemma LeaksExactly(db: Db, a: Action, now: int, b: Book)
    requires Core(db) && Balanced(db.stock) && Open(db.stock, b) && !a.SweepWindow?
    ensures Attempt(db, a, now).Ok? && Leak(db, a, b) != 0 <==> Admits(db, a) && Leak(db, a, b) != 0
  {
    if Leak(db, a, b) != 0 {
      if Decides(a) {
        DecisionAdmitted(db, a, now, b);
      } else if a.k in db.payments {
        LateAdmitted(db, a.k, a.paykit, a.observed, a.deliverable, now, b);
      }
    }
  }

  // Right books have what a lapsed hold gives back.
  lemma WindowKeeps(db: Db, k: OrderId, now: int, b: Book)
    requires Core(db) && SweepPaymentWindow(db, k, now).Ok? && Open(db.stock, b)
    requires if b.ListingBook? then Accounted(db.stock) else DropsAccounted(db.stock)
    ensures WindowLeak(db.stock, db.stock.orders[k].terms, b) == 0
  {
    var s, t := db.stock, db.stock.orders[k].terms;
    match b {
      case ListingBook(l) =>
        HeldOrderReleases(s, k);
        ReleaseLinesMoves(s.listings, t.lines);
        assert t.lines[..|t.lines|] == t.lines;
      case DropBook(d) =>
        assert DropAccounted(s, d);
        OrdersSplit(s.orders, k, s.orders[k], b);
    }
  }

  // With the books right, a lapsed hold outside drops always expires.
  lemma AccountedHoldExpires(db: Db, k: OrderId, now: int)
    requires Core(db) && Accounted(db.stock)
    requires k < |db.stock.orders| ==> db.stock.orders[k].terms.drop.None?
    ensures SweepNext(db, k, now).Ok?
  {
    if k in db.payments && HoldLapsed(db.stock.orders[k], now) {
      HeldOrderReleases(db.stock, k);
    }
  }

  lemma StepAccounts(db: Db, a: Action, now: int)
    requires Core(db) && Balanced(db.stock) && Accounted(db.stock)
    ensures Balanced(Step(db, a, now).stock)
    ensures Accounted(Step(db, a, now).stock) <==> !Strands(db, a)
  {
    var s, s' := db.stock, Step(db, a, now).stock;
    StepKeepsTables(db, a, now);
    forall l | l in s.listings
      ensures l in s'.listings && (Gap(s', ListingBook(l)) != 0 <==> Admits(db, a) && Leak(db, a, ListingBook(l)) != 0)
    {
      ListingStep(db, a, now, l);
    }
    AccountedByGaps(s');
  }

  lemma StepAccountsDrops(db: Db, a: Action, now: int)
    requires Core(db) && Balanced(db.stock) && DropsAccounted(db.stock)
    ensures Balanced(Step(db, a, now).stock)
    ensures DropsAccounted(Step(db, a, now).stock) <==> !StrandsDrop(db, a)
  {
    var s, s' := db.stock, Step(db, a, now).stock;
    StepKeepsTables(db, a, now);
    forall d | d in s.drops
      ensures d in s'.drops && (Gap(s', DropBook(d)) != 0 <==> Admits(db, a) && Leak(db, a, DropBook(d)) != 0)
    {
      DropStep(db, a, now, d);
    }
    AccountedByGaps(s');
  }

  lemma ListingStep(db: Db, a: Action, now: int, l: ListingId)
    requires Core(db) && Balanced(db.stock) && Accounted(db.stock) && l in db.stock.listings
    ensures var s' := Step(db, a, now).stock;
            && l in s'.listings
            && (Gap(s', ListingBook(l)) != 0 <==> Admits(db, a) && Leak(db, a, ListingBook(l)) != 0)
  {
    var b := ListingBook(l);
    AccountedByGaps(db.stock);
    StepShifts(db, a, now, b);
    if !a.SweepWindow? {
      LeaksExactly(db, a, now, b);
    } else if Attempt(db, a, now).Ok? {
      WindowKeeps(db, a.k, now, b);
    }
  }

  lemma DropStep(db: Db, a: Action, now: int, d: DropId)
    requires Core(db) && Balanced(db.stock) && DropsAccounted(db.stock) && d in db.stock.drops
    ensures var s' := Step(db, a, now).stock;
            && d in s'.drops
            && (Gap(s', DropBook(d)) != 0 <==> Admits(db, a) && Leak(db, a, DropBook(d)) != 0)
  {
    var b := DropBook(d);
    AccountedByGaps(db.stock);
    StepShifts(db, a, now, b);
    if !a.SweepWindow? {
      LeaksExactly(db, a, now, b);
    } else if Attempt(db, a, now).Ok? {
      WindowKeeps(db, a.k, now, b);
    }
  }

  lemma {:induction false} BalancedAlways(db: Db, run: seq<Event>, n: nat)
    requires Core(db) && Balanced(db.stock) && n <= |run|
    ensures Balanced(At(db, run, n).stock)
  {
    if n > 0 {
      BalancedAlways(db, run, n - 1);
      CoreAlways(db, run, n - 1);
      AtStep(db, run, n - 1);
      StepKeepsTables(At(db, run, n - 1), run[n - 1].action, run[n - 1].now);
    }
  }

  lemma {:induction false} AccountedWhileNothingStrands(db: Db, run: seq<Event>, n: nat)
    requires Core(db) && Balanced(db.stock) && Accounted(db.stock) && n <= |run|
    requires forall i :: 0 <= i < n ==> !Strands(At(db, run, i), run[i].action)
    ensures Accounted(At(db, run, n).stock)
  {
    if n > 0 {
      AccountedWhileNothingStrands(db, run, n - 1);
      CoreAlways(db, run, n - 1);
      BalancedAlways(db, run, n - 1);
      AtStep(db, run, n - 1);
      StepAccounts(At(db, run, n - 1), run[n - 1].action, run[n - 1].now);
    }
  }

  // Every listing is accounted for at every point of a run if and only if no event strands stock.
  lemma HoldAccounting(db: Db, run: seq<Event>)
    requires Core(db) && Balanced(db.stock) && Accounted(db.stock)
    ensures (forall n :: 0 <= n <= |run| ==> Accounted(At(db, run, n).stock))
            <==> (forall n :: 0 <= n < |run| ==> !Strands(At(db, run, n), run[n].action))
  {
    if forall n :: 0 <= n < |run| ==> !Strands(At(db, run, n), run[n].action) {
      forall n | 0 <= n <= |run| ensures Accounted(At(db, run, n).stock) {
        AccountedWhileNothingStrands(db, run, n);
      }
    }
    if forall n :: 0 <= n <= |run| ==> Accounted(At(db, run, n).stock) {
      forall n | 0 <= n < |run| ensures !Strands(At(db, run, n), run[n].action) {
        assert Accounted(At(db, run, n).stock) && Accounted(At(db, run, n + 1).stock);
        CoreAlways(db, run, n);
        BalancedAlways(db, run, n);
        AtStep(db, run, n);
        StepAccounts(At(db, run, n), run[n].action, run[n].now);
      }
    }
  }

  lemma SweepNextKeeps(db: Db, k: OrderId, now: int, db': Db)
    requires Core(db) && Balanced(db.stock) && Accounted(db.stock) && SweepNext(db, k, now) == Ok(db')
    ensures Core(db') && Balanced(db'.stock) && Accounted(db'.stock)
    ensures |db'.stock.orders| == |db.stock.orders|
    ensures forall j :: 0 <= j < |db.stock.orders| ==> db'.stock.orders[j].terms == db.stock.orders[j].terms
  {
    SweepNextIsStep(db, k, now);
    SweepStepKeeps(db, SweepWindow(k), now);
  }

  lemma SweepStepKeeps(db: Db, a: Action, now: int)
    requires Core(db) && Balanced(db.stock) && Accounted(db.stock) && a.SweepWindow?
    ensures var db' := Step(db, a, now);
            && Core(db') && Balanced(db'.stock) && Accounted(db'.stock)
            && |db'.stock.orders| == |db.stock.orders|
            && forall j :: 0 <= j < |db.stock.orders| ==> db'.stock.orders[j].terms == db.stock.orders[j].terms
  {
    StepKeepsCore(db, a, now, 0);
    StepAccounts(db, a, now);
    StepKeepsClaims(db, a, now);
  }

  // One order that cannot be expired stops every other in its batch; with the books right that never
  // happens outside drops, and the books are right afterwards.
  lemma {:induction false} AccountedBatchCommits(db: Db, ks: seq<OrderId>, now: int)
    requires Core(db) && Balanced(db.stock) && Accounted(db.stock)
    requires forall k :: k in ks && k < |db.stock.orders| ==> db.stock.orders[k].terms.drop.None?
    ensures var r := SweepBatch(db, ks, now);
            && r.Ok? && Core(r.value) && Balanced(r.value.stock) && Accounted(r.value.stock)
            && |r.value.stock.orders| == |db.stock.orders|
            && forall j :: 0 <= j < |db.stock.orders| ==> r.value.stock.orders[j].terms == db.stock.orders[j].terms
    decreases |ks|
  {
    if ks != [] {
      var before, last := ks[..|ks| - 1], ks[|ks| - 1];
      assert ks == before + [last];
      AccountedBatchCommits(db, before, now);
      var mid := SweepBatch(db, before, now).value;
      AccountedHoldExpires(mid, last, now);
      SweepNextKeeps(mid, last, now, SweepNext(mid, last, now).value);
    }
  }

  lemma {:induction false} DropsAccountedWhileNothingStrands(db: Db, run: seq<Event>, n: nat)
    requires Core(db) && Balanced(db.stock) && DropsAccounted(db.stock) && n <= |run|
    requires forall i :: 0 <= i < n ==> !StrandsDrop(At(db, run, i), run[i].action)
    ensures DropsAccounted(At(db, run, n).stock)
  {
    if n > 0 {
      DropsAccountedWhileNothingStrands(db, run, n - 1);
      CoreAlways(db, run, n - 1);
      BalancedAlways(db, run, n - 1);
      AtStep(db, run, n - 1);
      StepAccountsDrops(At(db, run, n - 1), run[n - 1].action, run[n - 1].now);
    }
  }

  // Every drop's units are left, held or paid for at every point of a run if and only if no event
  // strands one.
  lemma DropAccounting(db: Db, run: seq<Event>)
    requires Core(db) && Balanced(db.stock) && DropsAccounted(db.stock)
    ensures (forall n :: 0 <= n <= |run| ==> DropsAccounted(At(db, run, n).stock))
            <==> (forall n :: 0 <= n < |run| ==> !StrandsDrop(At(db, run, n), run[n].action))
  {
    if forall n :: 0 <= n < |run| ==> !StrandsDrop(At(db, run, n), run[n].action) {
      forall n | 0 <= n <= |run| ensures DropsAccounted(At(db, run, n).stock) {
        DropsAccountedWhileNothingStrands(db, run, n);
      }
    }
    if forall n :: 0 <= n <= |run| ==> DropsAccounted(At(db, run, n).stock) {
      forall n | 0 <= n < |run| ensures !StrandsDrop(At(db, run, n), run[n].action) {
        assert DropsAccounted(At(db, run, n).stock) && DropsAccounted(At(db, run, n + 1).stock);
        CoreAlways(db, run, n);
        BalancedAlways(db, run, n);
        AtStep(db, run, n);
        StepAccountsDrops(At(db, run, n), run[n].action, run[n].now);
      }
    }
  }

  // -------------------------------------------------------------------------
  // Runs in which nothing can leak
  // -------------------------------------------------------------------------

  // The auction order's row is its buyer's only reservation of the listing, for the order's units.
  predicate SoleRow(s: Stock, t: Terms, i: nat)
    requires t.auction.Some? && t.lines != []
  {
    SoleReservation(s.reservations, i, t.auction.value, t.buyer) && s.reservations[i].claim.quantity == t.lines[0].quantity
  }

  ghost predicate SoleRows(s: Stock) {
    forall k :: 0 <= k < |s.orders| && s.orders[k].terms.auction.Some? && s.orders[k].terms.lines != [] ==>
      exists i :: SoleRow(s, s.orders[k].terms, i)
  }

  // No reservation on an auction order's listing is for a drop.
  predicate Unstamped(s: Stock) {
    forall k, i | 0 <= k < |s.orders| && 0 <= i < |s.reservations| ::
      WonBy(s.orders[k].terms, s.reservations[i].claim) ==> s.reservations[i].claim.drop.None?
  }

  lemma SoleClaims(s: Stock, t: Terms, l: ListingId)
    requires OrderShaped(s, t) && t.auction.Some? && exists i :: SoleRow(s, t, i)
    ensures Reserved(s.reservations, t, {Active}) > 0 ==> EndLeak(s, t, ListingBook(l)) == 0
    ensures Reserved(s.reservations, t, {Lapsed, Released}) > 0 ==> ClaimedFor(s, t, {Active}, ListingBook(l)) == 0
  {
    var i: nat :| SoleRow(s, t, i);
    assert t.lines[1..] == [];
    assert UnitsOf(t.lines, l) == if t.auction.value == l then t.lines[0].quantity else 0;
    SoleReservationCounts(s.reservations, i, t.auction.value, t.buyer, {Active}, ListingBook(l));
    SoleReservationCounts(s.reservations, i, t.auction.value, t.buyer, {Lapsed, Released}, ListingBook(l));
  }

  // With one row per auction order no decision leaks.
  lemma SoleDecisionsKeep(db: Db, a: Action)
    requires Core(db) && SoleRows(db.stock) && Decides(a)
    ensures !Strands(db, a)
  {
    if Admits(db, a) && db.stock.orders[a.k].terms.auction.Some? {
      forall l | l in db.stock.listings ensures Leak(db, a, ListingBook(l)) == 0 {
        SoleClaims(db.stock, db.stock.orders[a.k].terms, l);
      }
    }
  }

  // Neither claims nor terms ever change.
  lemma {:induction false} ClaimsStay(db: Db, run: seq<Event>, n: nat)
    requires Core(db) && n <= |run|
    ensures var s, s' := db.stock, At(db, run, n).stock;
            && |s'.orders| == |s.orders| && |s'.reservations| == |s.reservations|
            && (forall k :: 0 <= k < |s.orders| ==> s'.orders[k].terms == s.orders[k].terms)
            && (forall i :: 0 <= i < |s.reservations| ==> s'.reservations[i].claim == s.reservations[i].claim)
  {
    if n > 0 {
      ClaimsStay(db, run, n - 1);
      CoreAlways(db, run, n - 1);
      AtStep(db, run, n - 1);
      StepKeepsClaims(At(db, run, n - 1), run[n - 1].action, run[n - 1].now);
    }
  }

  lemma StepKeepsClaims(db: Db, a: Action, now: int)
    requires Core(db)
    ensures var s, s' := db.stock, Step(db, a, now).stock;
            && |s'.orders| == |s.orders| && |s'.reservations| == |s.reservations|
            && (forall k :: 0 <= k < |s.orders| ==> s'.orders[k].terms == s.orders[k].terms)
            && (forall i :: 0 <= i < |s.reservations| ==> s'.reservations[i].claim == s.reservations[i].claim)
  {
    if Attempt(db, a, now).Ok? && !a.Replay? {
      if a.SweepHolds? {
        SweptHolds(db.stock, a.ids, Step(db, a, now).stock);
      } else {
        StepCommits(db, a, now, Step(db, a, now));
      }
    }
  }

  lemma SoleRowsStay(db: Db, run: seq<Event>, n: nat)
    requires Core(db) && SoleRows(db.stock) && n <= |run|
    ensures SoleRows(At(db, run, n).stock)
  {
    ClaimsStay(db, run, n);
    var s, s' := db.stock, At(db, run, n).stock;
    forall k | 0 <= k < |s'.orders| && s'.orders[k].terms.auction.Some? && s'.orders[k].terms.lines != []
      ensures exists i :: SoleRow(s', s'.orders[k].terms, i)
    {
      var t := s.orders[k].terms;
      var i: nat :| SoleRow(s, t, i);
      forall j | 0 <= j < |s'.reservations| && j != i ensures !Matches(s'.reservations[j], t.auction.value, t.buyer) {
        assert !Matches(s.reservations[j], t.auction.value, t.buyer);
      }
      assert SoleRow(s', t, i);
    }
  }

  // One reservation per auction order, and late money only for one-line orders outside auctions:
  // the hold accounting holds throughout.
  lemma PlainRunsAccount(db: Db, run: seq<Event>, n: nat)
    requires Core(db) && Balanced(db.stock) && Accounted(db.stock) && SoleRows(db.stock) && n <= |run|
    requires forall i :: 0 <= i < |run| && run[i].action.Late? && run[i].action.k < |db.stock.orders| ==>
      var t := db.stock.orders[run[i].action.k].terms; |t.lines| == 1 && t.auction.None?
    ensures Accounted(At(db, run, n).stock)
  {
    forall i | 0 <= i < n ensures !Strands(At(db, run, i), run[i].action) {
      ClaimsStay(db, run, i);
      CoreAlways(db, run, i);
      SoleRowsStay(db, run, i);
      var mid, a := At(db, run, i), run[i].action;
      if Decides(a) {
        SoleDecisionsKeep(mid, a);
      } else if Admits(mid, a) {
        OneLineTakesNothing(mid.stock, mid.stock.orders[a.k], a.deliverable);
      }
    }
    AccountedWhileNothingStrands(db, run, n);
  }

  lemma OneLineTakesNothing(s: Stock, o: Order, deliverable: bool)
    requires |o.terms.lines| == 1 && o.terms.auction.None?
    ensures forall l :: LateLeak(s, o, deliverable, ListingBook(l)) == 0
  {
    assert o.terms.lines[..0] == [];
  }

  // Reservations of auctions without a drop, and late money only for orders without one: no drop
  // unit is ever lost.
  lemma PlainRunsAccountDrops(db: Db, run: seq<Event>, n: nat)
    requires Core(db) && Balanced(db.stock) && DropsAccounted(db.stock) && Unstamped(db.stock) && n <= |run|
    requires forall i :: 0 <= i < |run| && run[i].action.Late? && run[i].action.k < |db.stock.orders| ==>
      db.stock.orders[run[i].action.k].terms.drop.None?
    ensures DropsAccounted(At(db, run, n).stock)
  {
    forall i | 0 <= i < n ensures !StrandsDrop(At(db, run, i), run[i].action) {
      ClaimsStay(db, run, i);
      CoreAlways(db, run, i);
      var mid, a := At(db, run, i), run[i].action;
      assert Unstamped(mid.stock);
      if Admits(mid, a) {
        forall d ensures Leak(mid, a, DropBook(d)) == 0 {
          NoDropLeak(mid, a, d);
        }
      }
    }
    DropsAccountedWhileNothingStrands(db, run, n);
  }

  lemma NoDropLeak(db: Db, a: Action, d: DropId)
    requires Core(db) && Unstamped(db.stock) && Admits(db, a)
    requires a.Late? ==> db.stock.orders[a.k].terms.drop.None?
    ensures Leak(db, a, DropBook(d)) == 0
  {
    var s, t := db.stock, db.stock.orders[a.k].terms;
    if t.auction.Some? {
      forall i | 0 <= i < |s.reservations| && Matches(s.reservations[i], t.auction.value, t.buyer)
        ensures s.reservations[i].claim.drop.None?
      {
        assert WonBy(t, s.reservations[i].claim);
      }
      UnstampedClaims(s.reservations, t.auction.value, t.buyer, {Active}, d);
      UnstampedClaims(s.reservations, t.auction.value, t.buyer, {Lapsed, Released}, d);
    }
  }

  lemma {:induction false} UnstampedClaims(
    rs: seq<Reservation>, l: ListingId, buyer: Pubky, from: set<ReservationStatus>, d: DropId)
    requires forall i :: 0 <= i < |rs| && Matches(rs[i], l, buyer) ==> rs[i].claim.drop.None?
    ensures Claimed(rs, l, buyer, from, DropBook(d)) == 0
    decreases |rs|
  {
    if rs != [] {
      UnstampedClaims(rs[1..], l, buyer, from, d);
    }
  }

  // -------------------------------------------------------------------------
  // Tables on which something leaks
  // -------------------------------------------------------------------------

  // One order of a Paykit buyer, its payment, and the stock around it.
  function Single(o: Order, p: Payment, ls: Listings, drops: map<DropId, Drop>, rs: seq<Reservation>): Db {
    Db(Stock([o], ls, drops, rs), map[0 := p], [], [], [])
  }

  lemma SingleCore(o: Order, p: Payment, ls: Listings, drops: map<DropId, Drop>, rs: seq<Reservation>)
    requires OrderShaped(Stock([o], ls, drops, rs), o.terms) && o.terms.bitcoin
    requires HoldOk(o) && PairOk(o, p) && p.resolution.None?
    ensures Core(Single(o, p, ls, drops, rs))
  {
  }

  function BuyersTerms(lines: seq<Line>, auction: Option<ListingId>, drop: Option<DropId>): Terms {
    Terms("buyer", lines, auction, drop, 0, false, true, true, true, Some("stack"), true, 5, None)
  }

  function Lapsing(t: Terms): Order {
    Order(t, Cancelled, Seen, false, false, Observation(None, None), None, None, None)
  }

  const EXPIRED := Payment(Paykit, Expired, None, None, None, None)

  function Claiming(l: ListingId, quantity: nat, status: ReservationStatus): Reservation {
    Reservation(Claim(l, "buyer", quantity, None, false), status, 0)
  }

  const LATE_PAYMENT := Late(0, true, Observation(None, Some(5)), true)

  // A cancelled two-line order: one listing has its unit back, the other sold out meanwhile.
  const TWO_LINES :=
    Single(Lapsing(BuyersTerms([Line("a", 1), Line("b", 1)], None, None)), EXPIRED,
           map["a" := Listing("seller", ListingAvailable, 1, 0, 0, 1, false, None),
               "b" := Listing("seller", ListingSold, 0, 0, 1, 1, false, None)], map[], [])

  lemma TwoLinesStart()
    ensures Core(TWO_LINES) && Balanced(TWO_LINES.stock) && Accounted(TWO_LINES.stock)
  {
    var s := TWO_LINES.stock;
    SingleCore(s.orders[0], EXPIRED, s.listings, map[], []);
    assert s.orders[1..] == [];
  }

  lemma TwoLinesStrand()
    ensures Strands(TWO_LINES, LATE_PAYMENT)
  {
    var s := TWO_LINES.stock;
    var lines := s.orders[0].terms.lines;
    assert lines[1..] == [Line("b", 1)] && lines[..1] == [Line("a", 1)];
    assert ReservedPrefix(s.listings, lines, 0) == 1;
    assert Leak(TWO_LINES, LATE_PAYMENT, ListingBook("a")) == 1;
  }

  // Late money leaves the first listing's unit reserved for nobody.
  lemma LateMoneyCanStrandStock(now: int)
    ensures Core(TWO_LINES) && Balanced(TWO_LINES.stock) && Accounted(TWO_LINES.stock)
    ensures !Accounted(Step(TWO_LINES, LATE_PAYMENT, now).stock)
  {
    TwoLinesStart();
    TwoLinesStrand();
    StepAccounts(TWO_LINES, LATE_PAYMENT, now);
  }

  // A bidder whose own reservation lapsed, and who then won and let that hold lapse too.
  const TWO_LAPSED :=
    Single(Lapsing(BuyersTerms([Line("a", 1)], Some("a"), None)), EXPIRED,
           map["a" := Listing("seller", ListingAvailable, 1, 0, 0, 1, false, None)], map[],
           [Claiming("a", 1, Lapsed), Claiming("a", 1, Lapsed)])

  lemma TwoLapsedStart()
    ensures Core(TWO_LAPSED) && Balanced(TWO_LAPSED.stock) && Accounted(TWO_LAPSED.stock)
  {
    var s := TWO_LAPSED.stock;
    SingleCore(s.orders[0], EXPIRED, s.listings, map[], s.reservations);
    assert s.orders[1..] == [];
    assert s.reservations[1..] == [Claiming("a", 1, Lapsed)] && s.reservations[1..][1..] == [];
  }

  lemma TwoLapsedStrand()
    ensures Strands(TWO_LAPSED, LATE_PAYMENT)
  {
    var rs := TWO_LAPSED.stock.reservations;
    assert rs[1..] == [Claiming("a", 1, Lapsed)] && rs[1..][1..] == [];
    assert Leak(TWO_LAPSED, LATE_PAYMENT, ListingBook("a")) == -2;
  }

  // Late money reactivates both rows over no reserved unit.
  lemma LateMoneyCanReviveTwoRows(now: int)
    ensures Core(TWO_LAPSED) && Balanced(TWO_LAPSED.stock) && Accounted(TWO_LAPSED.stock)
    ensures !Accounted(Step(TWO_LAPSED, LATE_PAYMENT, now).stock)
  {
    TwoLapsedStart();
    TwoLapsedStrand();
    StepAccounts(TWO_LAPSED, LATE_PAYMENT, now);
  }

  const CONFIRMATION := Confirm(0, "seller", SeenRow(PendingPayment, false, Observation(None, Some(5))), true)

  // A bidder who still holds three units when the auction of the fourth is won.
  const TWO_ACTIVE :=
    Single(Lapsing(BuyersTerms([Line("a", 1)], Some("a"), None)).(state := PendingPayment, request := AwaitingSeller),
           EXPIRED.(state := AwaitingEntitlement),
           map["a" := Listing("seller", ListingReserved, 0, 4, 0, 4, false, None)], map[],
           [Claiming("a", 3, Active), Claiming("a", 1, Active)])

  lemma TwoActiveStart()
    ensures Core(TWO_ACTIVE) && Balanced(TWO_ACTIVE.stock) && Accounted(TWO_ACTIVE.stock)
  {
    var s := TWO_ACTIVE.stock;
    SingleCore(s.orders[0], TWO_ACTIVE.payments[0], s.listings, map[], s.reservations);
    assert s.orders[1..] == [];
    assert s.reservations[1..] == [Claiming("a", 1, Active)] && s.reservations[1..][1..] == [];
  }

  lemma TwoActiveStrand()
    ensures Strands(TWO_ACTIVE, CONFIRMATION)
  {
    var rs := TWO_ACTIVE.stock.reservations;
    assert rs[1..] == [Claiming("a", 1, Active)] && rs[1..][1..] == [];
    assert Leak(TWO_ACTIVE, CONFIRMATION, ListingBook("a")) == 3;
  }

  // The seller's confirmation converts both rows and sells one unit: three stay reserved for nobody.
  lemma ConfirmationCanStrandStock(now: int)
    ensures Core(TWO_ACTIVE) && Balanced(TWO_ACTIVE.stock) && Accounted(TWO_ACTIVE.stock)
    ensures !Accounted(Step(TWO_ACTIVE, CONFIRMATION, now).stock)
  {
    TwoActiveStart();
    TwoActiveStrand();
    StepAccounts(TWO_ACTIVE, CONFIRMATION, now);
  }

  // A cancelled one-unit drop order whose listing the seller deleted.
  const DELETED_DROP :=
    Single(Lapsing(BuyersTerms([Line("a", 1)], None, Some("drop"))), EXPIRED,
           map["a" := Listing("seller", ListingAvailable, 1, 0, 0, 1, true, None)],
           map["drop" := Drop(1, 0, 1, map["buyer" := Purchase(0, 1)])], [])

  lemma DeletedDropStart()
    ensures Core(DELETED_DROP) && Balanced(DELETED_DROP.stock)
    ensures Accounted(DELETED_DROP.stock) && DropsAccounted(DELETED_DROP.stock)
  {
    var s := DELETED_DROP.stock;
    SingleCore(s.orders[0], EXPIRED, s.listings, s.drops, []);
    assert s.orders[1..] == [];
  }

  lemma DeletedDropStrands()
    ensures StrandsDrop(DELETED_DROP, LATE_PAYMENT)
    ensures !Strands(DELETED_DROP, LATE_PAYMENT)
  {
    OneLineTakesNothing(DELETED_DROP.stock, DELETED_DROP.stock.orders[0], true);
    assert Leak(DELETED_DROP, LATE_PAYMENT, DropBook("drop")) == 1;
  }

  // Late money takes the drop's unit and asks for a refund; no listing is touched and the unit is gone.
  lemma LateMoneyCanLoseDropUnit(now: int)
    ensures Core(DELETED_DROP) && Balanced(DELETED_DROP.stock)
    ensures Accounted(DELETED_DROP.stock) && DropsAccounted(DELETED_DROP.stock)
    ensures var s' := Step(DELETED_DROP, LATE_PAYMENT, now).stock;
            Accounted(s') && !DropsAccounted(s')
  {
    DeletedDropStart();
    DeletedDropStrands();
    StepAccounts(DELETED_DROP, LATE_PAYMENT, now);
    StepAccountsDrops(DELETED_DROP, LATE_PAYMENT, now);
  }
}
