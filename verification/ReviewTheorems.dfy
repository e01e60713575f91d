/**
 The theorems over every run of the review protocol: any interleaving of entries, seller
 confirmations, window routing, resolutions, abandonments, late money and sweeps.
 */
module ReviewTheorems {
  import opened Options
  import opened StateMachines
  import opened Ledger
  import opened BitcoinReview
  import opened ReviewAccounting
  import opened ReviewInvariant
  import opened ReviewSteps
  import opened ReviewLate

  // -------------------------------------------------------------------------
  // One step
  // -------------------------------------------------------------------------

  lemma {:induction false} SweptHolds(s: Stock, ids: seq<nat>, s': Stock)
    requires forall i :: 0 <= i < |ids| ==> ids[i] < |s.reservations|
    requires ExpireReservations(s, ids) == Ok(s')
    ensures s'.orders == s.orders && SameSellers(s.listings, s'.listings)
    ensures |s'.reservations| == |s.reservations|
    ensures forall i :: 0 <= i < |s.reservations| ==>
      s'.reservations[i].claim == s.reservations[i].claim
      && (i !in ids ==> s'.reservations[i] == s.reservations[i])
    decreases |ids|
  {
    if ids != [] {
      SweptHolds(ExpireReservation(s, ids[0]).value, ids[1..], s');
    }
  }

  lemma SweepKeepsCore(db: Db, ids: seq<nat>, now: int, db': Db)
    requires Core(db) && SweepReservations(db, ids, now) == Ok(db')
    ensures Core(db')
  {
    SweptHolds(db.stock, ids, db'.stock);
    forall j | 0 <= j < |db'.stock.orders| ensures OrderShaped(db'.stock, db'.stock.orders[j].terms) {
      assert OrderShaped(db.stock, db.stock.orders[j].terms);
    }
    forall k ensures RowsOk(db', k) {
      assert RowsOk(db, k);
    }
  }

  predicate Decides(a: Action) {
    a.Confirm? || a.Resolve? || a.Abandon?
  }

  // Every committed single-order transaction is one move of its order.
  lemma StepCommits(db: Db, a: Action, now: int, db': Db)
    requires Core(db) && !a.SweepHolds? && !a.Replay? && Attempt(db, a, now) == Ok(db')
    ensures Commits(db, db', a.k, Decides(a))
  {
    match a {
      case Enter(k, observed) => EnterCommits(db, k, observed, now, db');
      case Confirm(k, actor, seen, deliverable) => ConfirmCommits(db, k, actor, seen, deliverable, now, db');
      case Route(k) => RouteCommits(db, k, now, db');
      case Resolve(k, actor, key, outcome, hash, deliverable) =>
        ResolutionCommits(db, k, Resolution(key, outcome, SellerAttestation), hash, deliverable, now, db');
      case Abandon(k, key) =>
        ResolutionCommits(db, k, Resolution(key, OutcomeAbandoned, SellerUnresponsive), UNRESPONSIVE_HASH,
          false, now, db');
      case Alert(k) => AlertCommits(db, k, now, db');
      case Late(k, paykit, observed, deliverable) =>
        LateCommits(db, k, paykit, observed, deliverable, now, db');
      case SweepWindow(k) => SweepWindowCommits(db, k, now, db');
    }
  }

  // What one step, by whoever, does to order `k`.
  ghost predicate Evolves(db: Db, db': Db, k: OrderId) {
    && (k < |db.stock.orders| ==>
          && k < |db'.stock.orders|
          && db'.stock.orders[k].terms == db.stock.orders[k].terms
          && Path(OrderEdges, db.stock.orders[k].state, db'.stock.orders[k].state)
          && (db.stock.orders[k].state !in {PendingPayment, Cancelled} ==>
                db'.stock.orders[k].state == db.stock.orders[k].state))
    && (k in db.payments ==>
          && k in db'.payments
          && Path(PaymentEdges, db.payments[k].state, db'.payments[k].state)
          && (db.payments[k].resolution.Some? ==> db'.payments[k] == db.payments[k])
          && (db.payments[k].alertedAt.Some? ==> db'.payments[k].alertedAt == db.payments[k].alertedAt))
  }

  lemma StillEvolves(db: Db, db': Db, k: OrderId)
    requires k < |db.stock.orders| ==>
      k < |db'.stock.orders| && db'.stock.orders[k] == db.stock.orders[k]
    requires k in db.payments ==> k in db'.payments && db'.payments[k] == db.payments[k]
    ensures Evolves(db, db', k)
  {
    if k < |db.stock.orders| {
      EdgeIsPath(OrderEdges, db.stock.orders[k].state, db.stock.orders[k].state);
    }
    if k in db.payments {
      EdgeIsPath(PaymentEdges, db.payments[k].state, db.payments[k].state);
    }
  }

  lemma MovesEvolve(db: Db, db': Db, k: OrderId, j: OrderId)
    requires Moves(db, db', k)
    ensures Evolves(db, db', j)
  {
    if j == k {
      EdgeIsPath(PaymentEdges, db.payments[k].state, db'.payments[k].state);
    } else {
      StillEvolves(db, db', j);
    }
  }

  lemma StepKeepsCore(db: Db, a: Action, now: int, k: OrderId)
    requires Core(db)
    ensures Core(Step(db, a, now)) && Evolves(db, Step(db, a, now), k)
  {
    var db' := Step(db, a, now);
    if Attempt(db, a, now).Fail? || a.Replay? {
      StillEvolves(db, db', k);
    } else if a.SweepHolds? {
      SweepKeepsCore(db, a.ids, now, db');
      SweptHolds(db.stock, a.ids, db'.stock);
      StillEvolves(db, db', k);
    } else {
      StepCommits(db, a, now, db');
      MovesKeepCore(db, db', a.k);
      MovesEvolve(db, db', a.k, k);
    }
  }

  // -------------------------------------------------------------------------
  // Runs
  // -------------------------------------------------------------------------

  // The tables after the first `n` events.
  function At(db: Db, run: seq<Event>, n: nat): Db
    requires n <= |run|
  {
    Run(db, run[..n])
  }

  lemma AtStep(db: Db, run: seq<Event>, n: nat)
    requires n < |run|
    ensures At(db, run, n + 1) == Step(At(db, run, n), run[n].action, run[n].now)
  {
    assert run[..n + 1][..n] == run[..n];
  }

  lemma {:induction false} CoreAlways(db: Db, run: seq<Event>, n: nat)
    requires Core(db) && n <= |run|
    ensures Core(At(db, run, n))
  {
    if n > 0 {
      CoreAlways(db, run, n - 1);
      AtStep(db, run, n - 1);
      StepKeepsCore(At(db, run, n - 1), run[n - 1].action, run[n - 1].now, 0);
    }
  }

  lemma EvolvesJoins(db: Db, mid: Db, db': Db, k: OrderId)
    requires Evolves(db, mid, k) && Evolves(mid, db', k)
    ensures Evolves(db, db', k)
  {
    if k < |db.stock.orders| {
      PathsJoin(OrderEdges, db.stock.orders[k].state, mid.stock.orders[k].state, db'.stock.orders[k].state);
    }
    if k in db.payments {
      PathsJoin(PaymentEdges, db.payments[k].state, mid.payments[k].state, db'.payments[k].state);
    }
  }

  // Between any two points of a run, an order and its payment moved along declared edges.
  lemma {:induction false} EvolvesAlways(db: Db, run: seq<Event>, n: nat, m: nat, k: OrderId)
    requires Core(db) && n <= m <= |run|
    ensures Evolves(At(db, run, n), At(db, run, m), k)
    decreases m - n
  {
    if n == m {
      StillEvolves(At(db, run, n), At(db, run, m), k);
    } else {
      EvolvesAlways(db, run, n, m - 1, k);
      CoreAlways(db, run, m - 1);
      AtStep(db, run, m - 1);
      StepKeepsCore(At(db, run, m - 1), run[m - 1].action, run[m - 1].now, k);
      EvolvesJoins(At(db, run, n), At(db, run, m - 1), At(db, run, m), k);
    }
  }

  // A confirmed payment never changes state again and no paid order is un-paid.
  lemma ConfirmedForGood(db: Db, run: seq<Event>, n: nat, m: nat, k: OrderId)
    requires Core(db) && n <= m <= |run| && k in At(db, run, n).payments
    ensures k in At(db, run, m).payments
    ensures At(db, run, n).payments[k].state == Confirmed ==> At(db, run, m).payments[k].state == Confirmed
    ensures k < |At(db, run, n).stock.orders| && k < |At(db, run, m).stock.orders|
    ensures At(db, run, n).stock.orders[k].state in {Paid, Delivered} ==>
              At(db, run, m).stock.orders[k].state == At(db, run, n).stock.orders[k].state
  {
    CoreAlways(db, run, n);
    EvolvesAlways(db, run, n, m, k);
    if At(db, run, n).payments[k].state == Confirmed {
      var via :| Walk(PaymentEdges, Confirmed, via, At(db, run, m).payments[k].state);
      ConfirmedHasNoWayOut(via, At(db, run, m).payments[k].state);
    }
  }

  // At most one seller decision per order, ever, with exactly one resolve row for it.
  lemma ExactlyOneOutcome(db: Db, run: seq<Event>, k: OrderId)
    requires Core(db)
    ensures var end := Run(db, run);
            && Confirmations(end, k) + Resolutions(end, k) <= 1
            && ResolveRows(end, k) == Confirmations(end, k) + Resolutions(end, k)
  {
    CoreAlways(db, run, |run|);
    assert run[..|run|] == run;
    assert RowsOk(Run(db, run), k);
  }

  // Once a resolution outcome is recorded no later step moves the payment.
  lemma ResolvedForGood(db: Db, run: seq<Event>, n: nat, m: nat, k: OrderId)
    requires Core(db) && n <= m <= |run|
    requires k in At(db, run, n).payments && At(db, run, n).payments[k].resolution.Some?
    ensures k in At(db, run, m).payments && At(db, run, m).payments[k] == At(db, run, n).payments[k]
  {
    EvolvesAlways(db, run, n, m, k);
  }

  // The seller of a payment under review is alerted at most once, ever: an alert once recorded stays
  // as it is, and the payment does not enter review again.
  lemma AlertedOnce(db: Db, run: seq<Event>, n: nat, m: nat, k: OrderId)
    requires Core(db) && n <= m <= |run| && k in At(db, run, n).payments
    requires At(db, run, n).payments[k].alertedAt.Some?
    ensures k in At(db, run, m).payments
    ensures At(db, run, m).payments[k].alertedAt == At(db, run, n).payments[k].alertedAt
    ensures At(db, run, m).payments[k].state == ManualReview || At(db, run, m).payments[k].resolution.Some?
  {
    EvolvesAlways(db, run, n, m, k);
    CoreAlways(db, run, m);
    assert PairOk(At(db, run, m).stock.orders[k], At(db, run, m).payments[k]);
  }

  lemma {:induction false} FoundRow(rows: seq<ResolutionRow>, k: OrderId, key: nat)
    ensures var row := FindResolution(rows, k, key);
            row.Some? ==> row.value in rows && row.value.order == k && row.value.resolution.key == key
    decreases |rows|
  {
    if rows != [] {
      FoundRow(rows[1..], k, key);
    }
  }

  // A 200 answer reports what the payment row records right after it.
  lemma AnswerIsRecorded(db: Db, a: Action, now: int)
    requires Core(db) && ResolvedAnswer(db, a, now).Some?
    ensures var db' := Step(db, a, now);
            a.k in db'.payments && db'.payments[a.k].resolution == ResolvedAnswer(db, a, now)
  {
    if a.Replay? {
      FoundRow(db.resolutions, a.k, a.key);
      assert RowsOk(db, a.k);
    } else {
      ResolutionCommits(db, a.k, Resolution(a.key, a.outcome, SellerAttestation), a.hash, a.deliverable,
        now, Step(db, a, now));
    }
  }

  // All 200 answers about one order, over a whole run, carry the same resolution.
  lemma AnswersAgree(db: Db, run: seq<Event>, i: nat, j: nat)
    requires Core(db) && i <= j < |run|
    requires ResolvedAnswer(At(db, run, i), run[i].action, run[i].now).Some?
    requires ResolvedAnswer(At(db, run, j), run[j].action, run[j].now).Some?
    requires run[i].action.k == run[j].action.k
    ensures ResolvedAnswer(At(db, run, i), run[i].action, run[i].now)
            == ResolvedAnswer(At(db, run, j), run[j].action, run[j].now)
  {
    CoreAlways(db, run, i);
    CoreAlways(db, run, j);
    AnswerIsRecorded(At(db, run, i), run[i].action, run[i].now);
    AnswerIsRecorded(At(db, run, j), run[j].action, run[j].now);
    AtStep(db, run, i);
    AtStep(db, run, j);
    ResolvedForGood(db, run, i + 1, j + 1, run[i].action.k);
  }

  lemma {:induction false} FoundConfirmationStays(rows: seq<ConfirmationRow>, more: seq<ConfirmationRow>, k: OrderId)
    requires FindConfirmation(rows, k).Some?
    ensures FindConfirmation(rows + more, k) == FindConfirmation(rows, k)
    decreases |rows|
  {
    assert (rows + more)[1..] == rows[1..] + more;
    if rows[0].order != k {
      FoundConfirmationStays(rows[1..], more, k);
    }
  }

  lemma AppendKeepsConfirmation(db: Db, db': Db, j: OrderId, k: OrderId)
    requires AppendsRows(db, db', j) && FindConfirmation(db.confirmations, k).Some?
    ensures FindConfirmation(db'.confirmations, k) == FindConfirmation(db.confirmations, k)
  {
    var more := db'.confirmations[|db.confirmations|..];
    assert db'.confirmations == db.confirmations + more;
    FoundConfirmationStays(db.confirmations, more, k);
  }

  lemma SweepKeepsConfirmations(db: Db, ids: seq<nat>, now: int)
    ensures Step(db, SweepHolds(ids), now).confirmations == db.confirmations
  {
  }

  lemma StepKeepsConfirmation(db: Db, a: Action, now: int, k: OrderId)
    requires Core(db) && FindConfirmation(db.confirmations, k).Some?
    ensures FindConfirmation(Step(db, a, now).confirmations, k) == FindConfirmation(db.confirmations, k)
  {
    var r := Attempt(db, a, now);
    if a.SweepHolds? {
      SweepKeepsConfirmations(db, a.ids, now);
    } else if r.Ok? && !a.Replay? {
      CommitAppends(db, a, now, r.value);
      AppendKeepsConfirmation(db, r.value, a.k, k);
    }
  }

  lemma CommitAppends(db: Db, a: Action, now: int, db': Db)
    requires Core(db) && !a.SweepHolds? && !a.Replay? && Attempt(db, a, now) == Ok(db')
    ensures AppendsRows(db, db', a.k)
  {
    StepCommits(db, a, now, db');
  }

  // A confirmation once recorded is what every later confirm request of its order is answered.
  lemma {:induction false} ConfirmationStays(db: Db, run: seq<Event>, i: nat, j: nat, k: OrderId)
    requires Core(db) && i <= j <= |run| && FindConfirmation(At(db, run, i).confirmations, k).Some?
    ensures FindConfirmation(At(db, run, j).confirmations, k) == FindConfirmation(At(db, run, i).confirmations, k)
    decreases j
  {
    if i < j {
      ConfirmationStays(db, run, i, j - 1, k);
      CoreAlways(db, run, j - 1);
      AtStep(db, run, j - 1);
      StepKeepsConfirmation(At(db, run, j - 1), run[j - 1].action, run[j - 1].now, k);
    }
  }

  // -------------------------------------------------------------------------
  // Held until resolved
  // -------------------------------------------------------------------------

  lemma EngagedBlocksDrain(db: Db, k: OrderId, stack: StackId)
    requires Engaged(db, k) && db.stock.orders[k].terms.stack == Some(stack)
    ensures !ConditionSevenClear(db, stack)
  {
  }

  // Someone else's transaction leaves this order's hold alone.
  lemma OthersLeaveHold(db: Db, db': Db, j: OrderId, k: OrderId)
    requires Core(db) && Moves(db, db', j) && j != k && k < |db.stock.orders|
    ensures db'.stock.orders[k] == db.stock.orders[k]
    ensures HoldPresent(db'.stock, db'.stock.orders[k]) == HoldPresent(db.stock, db.stock.orders[k])
  {
    var t := db.stock.orders[k].terms;
    if t.auction.Some? {
      SameMatchesSameCount(db.stock.reservations, db'.stock.reservations, t.auction.value, t.buyer, {Active});
    }
  }

  // Nor does the reservation sweep: the rows of an engaged order are not due.
  lemma SweepLeavesHold(db: Db, ids: seq<nat>, now: int, db': Db, k: OrderId)
    requires Core(db) && Engaged(db, k) && SweepReservations(db, ids, now) == Ok(db')
    ensures db'.payments == db.payments && db'.stock.orders == db.stock.orders
    ensures HoldPresent(db'.stock, db'.stock.orders[k]) == HoldPresent(db.stock, db.stock.orders[k])
  {
    SweptHolds(db.stock, ids, db'.stock);
    var t := db.stock.orders[k].terms;
    if t.auction.Some? {
      forall i | 0 <= i < |db.stock.reservations|
        && Matches(db.stock.reservations[i], t.auction.value, t.buyer)
        ensures db'.stock.reservations[i].status == db.stock.reservations[i].status
      {
        assert Preserved(db, db.stock.reservations[i].claim);
        assert !DueReservation(db, i, now);
      }
      SameMatchesSameCount(db.stock.reservations, db'.stock.reservations, t.auction.value, t.buyer, {Active});
    }
  }

  // One step: either the seller's decision committed, or the order is still engaged and what it
  // held it still holds.
  ghost predicate DecidedOrHeld(db: Db, db': Db, k: OrderId)
    requires k < |db.stock.orders|
  {
    || ResolveRows(db', k) == ResolveRows(db, k) + 1
    || (Engaged(db', k)
        && (HoldPresent(db.stock, db.stock.orders[k]) ==> HoldPresent(db'.stock, db'.stock.orders[k])))
  }

  lemma CommitDecidesOrHolds(db: Db, db': Db, j: OrderId, decides: bool, k: OrderId)
    requires Core(db) && Engaged(db, k) && Commits(db, db', j, decides)
    ensures DecidedOrHeld(db, db', k)
  {
    if j != k {
      OthersLeaveHold(db, db', j, k);
    }
  }

  lemma HeldForOneStep(db: Db, a: Action, now: int, k: OrderId)
    requires Core(db) && Engaged(db, k)
    ensures DecidedOrHeld(db, Step(db, a, now), k)
  {
    var db' := Step(db, a, now);
    if Attempt(db, a, now).Ok? && !a.Replay? {
      if a.SweepHolds? {
        SweepLeavesHold(db, a.ids, now, db', k);
      } else {
        StepCommits(db, a, now, db');
        CommitDecidesOrHolds(db, db', a.k, Decides(a), k);
      }
    }
  }

  lemma {:induction false} EngagedUntilResolved(db: Db, run: seq<Event>, n: nat, k: OrderId)
    requires Core(db) && Engaged(db, k) && n <= |run|
    requires ResolveRows(At(db, run, n), k) == ResolveRows(db, k)
    ensures Engaged(At(db, run, n), k)
    ensures HoldPresent(db.stock, db.stock.orders[k]) ==>
              HoldPresent(At(db, run, n).stock, At(db, run, n).stock.orders[k])
    decreases n
  {
    if n > 0 {
      CoreAlways(db, run, n - 1);
      AtStep(db, run, n - 1);
      RowsOnlyGrow(db, run, n - 1, k);
      var mid := At(db, run, n - 1);
      StepRows(mid, run[n - 1].action, run[n - 1].now, k);
      EngagedUntilResolved(db, run, n - 1, k);
      HeldForOneStep(mid, run[n - 1].action, run[n - 1].now, k);
    }
  }

  // From the moment an order awaits its seller until a decision commits, whatever else runs, its
  // hold stays and its stack cannot be drained.
  lemma HeldUntilResolved(db: Db, run: seq<Event>, n: nat, k: OrderId)
    requires Core(db) && Engaged(db, k) && n <= |run|
    requires ResolveRows(At(db, run, n), k) == ResolveRows(db, k)
    ensures Engaged(At(db, run, n), k)
    ensures HoldPresent(db.stock, db.stock.orders[k]) ==>
              HoldPresent(At(db, run, n).stock, At(db, run, n).stock.orders[k])
    ensures db.stock.orders[k].terms.stack.Some? ==>
              !ConditionSevenClear(At(db, run, n), db.stock.orders[k].terms.stack.value)
  {
    EngagedUntilResolved(db, run, n, k);
    EvolvesAlways(db, run, 0, n, k);
    if db.stock.orders[k].terms.stack.Some? {
      EngagedBlocksDrain(At(db, run, n), k, db.stock.orders[k].terms.stack.value);
    }
  }

  // A resolve row appears only through a decision on an engaged order, so never on a drained stack.
  ghost predicate RowsAppearEngaged(db: Db, db': Db, k: OrderId) {
    && ResolveRows(db', k) >= ResolveRows(db, k)
    && (ResolveRows(db', k) > ResolveRows(db, k) ==>
          Engaged(db, k) && db.stock.orders[k].terms.stack.Some?
          && !ConditionSevenClear(db, db.stock.orders[k].terms.stack.value))
  }

  lemma CommitRows(db: Db, db': Db, j: OrderId, decides: bool, k: OrderId)
    requires Commits(db, db', j, decides)
    ensures RowsAppearEngaged(db, db', k)
  {
    if j != k {
      OtherRows(db.outbox, db'.outbox, (r: OutboxRow) => r.order, j, k);
    } else if decides {
      EngagedBlocksDrain(db, k, db.stock.orders[k].terms.stack.value);
    }
  }

  lemma StepRows(db: Db, a: Action, now: int, k: OrderId)
    requires Core(db)
    ensures RowsAppearEngaged(db, Step(db, a, now), k)
  {
    if Attempt(db, a, now).Ok? && !a.Replay? && !a.SweepHolds? {
      StepCommits(db, a, now, Step(db, a, now));
      CommitRows(db, Step(db, a, now), a.k, Decides(a), k);
    }
  }

  lemma {:induction false} RowsOnlyGrow(db: Db, run: seq<Event>, n: nat, k: OrderId)
    requires Core(db) && n <= |run|
    ensures ResolveRows(At(db, run, n), k) >= ResolveRows(db, k)
  {
    if n > 0 {
      RowsOnlyGrow(db, run, n - 1, k);
      CoreAlways(db, run, n - 1);
      AtStep(db, run, n - 1);
      StepRows(At(db, run, n - 1), run[n - 1].action, run[n - 1].now, k);
    }
  }
}
