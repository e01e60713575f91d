/**
 Seller confirmation, the seller-window reaper, manual-review resolution, late money, the
 reservation sweep and the payment-window sweep.  Each SQL transaction is one function from the
 tables to the tables: `Ok` commits, `Fail` rolls back.
 */
module BitcoinReview {
  import opened Options
  import opened StateMachines
  import opened Ledger

  const SELLER_RESPONSE_SLA_BUSINESS_DAYS: nat := 2
  const SELLER_CONFIRMATION_WINDOW_SECONDS: int := 24 * 3600
  const MANUAL_REVIEW_INACTIVITY_SECONDS: int := 7 * 24 * 3600
  const REACQUIRED_RESERVATION_SECONDS: int := 3600

  datatype Failure =
    | OrderNotFound | NotOrderSeller | NotAwaitingConfirmation | MissingPin
    | ResolutionNotApplicable | AlreadyResolved | NotInManualReview | RefundRequired
    | StockUnavailable | KeyConflict | ObservationMismatch | NotDue | Internal

  datatype Tx<+T> = Ok(value: T) | Fail(why: Failure) {
    predicate IsFailure() { Fail? }
    function PropagateFailure<U>(): Tx<U> requires Fail? { Fail(why) }
    function Extract(): T requires Ok? { value }
  }

  function Coalesce(a: Option<int>, b: Option<int>): Option<int> {
    if a.Some? then a else b
  }

  function SetOrder(s: Stock, k: OrderId, o: Order): Stock
    requires k < |s.orders|
  {
    s.(orders := s.orders[k := o])
  }

  // -------------------------------------------------------------------------
  // Effects shared by several transactions
  // -------------------------------------------------------------------------

  // Returns a hold's units to its drop; the flag says whether both updates found their row.
  function CreditDrop(drops: map<DropId, Drop>, d: DropId, buyer: Pubky, units: int): (map<DropId, Drop>, bool) {
    if d !in drops || drops[d].remaining + units > drops[d].total then (drops, false)
    else
      var x := drops[d].(remaining := drops[d].remaining + units);
      if buyer !in x.purchases || x.purchases[buyer].quantity < units then (drops[d := x], false)
      else (drops[d := x.(purchases := Bought(x.purchases, buyer, 0 - units))], true)
  }

  // A change of a buyer's count; a buyer without a row has none to change.
  function Bought(purchases: map<Pubky, Purchase>, buyer: Pubky, units: int): map<Pubky, Purchase> {
    if buyer !in purchases then purchases
    else purchases[buyer := purchases[buyer].(quantity := purchases[buyer].quantity + units)]
  }

  function CreditOrderDrop(drops: map<DropId, Drop>, t: Terms): (map<DropId, Drop>, bool) {
    if t.drop.None? then (drops, true) else CreditDrop(drops, t.drop.value, t.buyer, Units(t.lines))
  }

  predicate DropCovers(drops: map<DropId, Drop>, t: Terms) {
    t.drop.Some? ==> t.drop.value in drops && drops[t.drop.value].remaining >= Units(t.lines)
  }

  function DebitDrop(drops: map<DropId, Drop>, t: Terms): map<DropId, Drop>
    requires DropCovers(drops, t)
  {
    if t.drop.None? then drops
    else
      var x := drops[t.drop.value];
      var units := Units(t.lines);
      drops[t.drop.value := x.(remaining := x.remaining - units, purchases := Bought(x.purchases, t.buyer, units))]
  }

  // The drop has the units, but counting them would take the buyer over the row's limit: the table's
  // CHECK refuses the write, and the whole transaction with it.
  predicate OverLimit(drops: map<DropId, Drop>, t: Terms) {
    && t.drop.Some? && DropCovers(drops, t) && t.buyer in drops[t.drop.value].purchases
    && var row := drops[t.drop.value].purchases[t.buyer];
       row.quantity + Units(t.lines) > row.limit
  }

  // The next edition of the order's drop, unless the drop has no unit left to pay for.
  function RecordPaidUnit(drops: map<DropId, Drop>, t: Terms): Option<map<DropId, Drop>> {
    if t.drop.None? then Some(drops)
    else if t.drop.value !in drops || drops[t.drop.value].paid + 1 > drops[t.drop.value].total then None
    else Some(drops[t.drop.value := drops[t.drop.value].(paid := drops[t.drop.value].paid + 1)])
  }

  function Reserved(rs: seq<Reservation>, t: Terms, status: set<ReservationStatus>): nat {
    if t.auction.None? then 0 else CountReservations(rs, t.auction.value, t.buyer, status)
  }

  function Reassign(
    rs: seq<Reservation>, t: Terms, from: set<ReservationStatus>, to: ReservationStatus,
    expiresAt: Option<int>): seq<Reservation>
  {
    if t.auction.None? then rs
    else UpdateReservations(rs, t.auction.value, t.buyer, from, to, expiresAt)
  }

  predicate HoldPresent(s: Stock, o: Order) {
    if o.terms.auction.Some? then Reserved(s.reservations, o.terms, {Active}) > 0 else o.stockHeld
  }

  // The confirmation effects: the hold becomes a sale.  `seenState` and `seenHeld` are the order's
  // columns as the caller read them, which for the seller's confirmation is before the transaction.
  function ConfirmOrder(s: Stock, k: OrderId, seenState: OrderState, seenHeld: bool, deliverable: bool): (r: Tx<Stock>)
    requires k < |s.orders|
    ensures r.Ok? ==> |r.value.orders| == |s.orders|
  {
    var o := s.orders[k];
    if !CanTransition(OrderEdges, seenState, Paid) || !deliverable then Fail(StockUnavailable)
    else if o.terms.auction.None? && !seenHeld then Fail(Internal)
    else if o.terms.auction.Some? && Reserved(s.reservations, o.terms, {Active}) == 0
    then Fail(StockUnavailable)
    else
      var drops := RecordPaidUnit(s.drops, o.terms);
      var (ls, ok) := SellLines(s.listings, o.terms.lines);
      if drops.None? then Fail(Internal)
      else if !ok then Fail(StockUnavailable)
      else Ok(Stock(
        s.orders[k := o.(state := if o.terms.instantDigital then Delivered else Paid,
                         stockHeld := false, holdExpires := None)],
        ls, drops.value, Reassign(s.reservations, o.terms, {Active}, Converted, None)))
  }

  // Takes the order's stock again: drop, then reservation, then each line.  On `false` the
  // tables keep what was already taken; the resolve path rolls that back, late money does not.
  function Reacquire(s: Stock, k: OrderId, now: int): (r: (Stock, bool))
    requires k < |s.orders|
    ensures |r.0.orders| == |s.orders|
  {
    var o := s.orders[k];
    if !DropCovers(s.drops, o.terms) then (s, false)
    else
      var claimed := s.(drops := DebitDrop(s.drops, o.terms),
        reservations := Reassign(s.reservations, o.terms, {Lapsed, Released}, Active,
          Some(now + REACQUIRED_RESERVATION_SECONDS)));
      if o.terms.auction.Some? && Reserved(s.reservations, o.terms, {Lapsed, Released}) != 1
      then (claimed, false)
      else
        var (ls, ok) := ReserveLines(s.listings, o.terms.lines, o.terms.createdAt);
        (claimed.(listings := ls,
           orders := if ok && o.terms.auction.None? then s.orders[k := o.(stockHeld := true)] else s.orders),
         ok)
  }

  function TryReacquire(s: Stock, k: OrderId, now: int): (r: Tx<(Stock, bool)>)
    requires k < |s.orders|
    ensures r.Ok? ==> |r.value.0.orders| == |s.orders|
  {
    if OverLimit(s.drops, s.orders[k].terms) then Fail(Internal) else Ok(Reacquire(s, k, now))
  }

  // Returns what the order holds, through its flag or its reservation.
  function ReleaseHold(s: Stock, o: Order): Tx<Stock> {
    if !HoldPresent(s, o) then Ok(s)
    else
      var (drops, credited) :=
        if o.terms.auction.Some? then (s.drops, true) else CreditOrderDrop(s.drops, o.terms);
      var (ls, ok) := ReleaseLines(s.listings, o.terms.lines);
      if !credited || !ok then Fail(Internal)
      else Ok(s.(listings := ls, drops := drops,
        reservations := Reassign(s.reservations, o.terms, {Active}, Released, None)))
  }

  function Cancel(s: Stock, k: OrderId): Stock
    requires k < |s.orders|
  {
    SetOrder(s, k, s.orders[k].(state := Cancelled, stockHeld := false, holdExpires := None))
  }

  // Cancels a held order inside a resolution.
  function CancelHeld(s: Stock, k: OrderId): (r: Tx<Stock>)
    requires k < |s.orders|
    ensures r.Ok? ==> |r.value.orders| == |s.orders|
  {
    if s.orders[k].state != PendingPayment then Fail(Internal)
    else
      var released :- ReleaseHold(s, s.orders[k]);
      Ok(Cancel(released, k))
  }

  // -------------------------------------------------------------------------
  // Entry: a matching observation on a shared_manual order
  // -------------------------------------------------------------------------

  function EnterSellerWindow(db: Db, k: OrderId, observed: Observation, now: int): Tx<Db> {
    if k !in db.payments || k >= |db.stock.orders| then Fail(Internal)
    else
      var o, p := db.stock.orders[k], db.payments[k];
      if p.adapter != Paykit || !o.terms.reference || o.terms.stack.None? || !o.terms.endpoint
      then Fail(MissingPin)
      else if p.state != AwaitingEntitlement || o.request !in {Pending, Seen} then Fail(NotDue)
      else
        var deadline := now + SELLER_CONFIRMATION_WINDOW_SECONDS;
        Ok(db.(stock := db.stock.(
          orders := db.stock.orders[k := o.(request := AwaitingSeller, observation := observed,
            deadline := Some(deadline),
            holdExpires := if o.terms.auction.None? then Some(deadline) else o.holdExpires,
            observedSats := Coalesce(o.observedSats, observed.sats))],
          reservations := Reassign(db.stock.reservations, o.terms, {Active}, Active, Some(deadline)))))
  }

  // -------------------------------------------------------------------------
  // Seller confirmation
  // -------------------------------------------------------------------------

  // Session pubky -> order -> first line's listing -> seller pubky.
  function ListingSeller(s: Stock, k: OrderId): Option<Pubky> {
    if k < |s.orders| && s.orders[k].terms.lines != [] && s.orders[k].terms.lines[0].listing in s.listings
    then Some(s.listings[s.orders[k].terms.lines[0].listing].seller)
    else None
  }

  // The one pinned `paykit.resolve` row of a decision.
  function EnqueueResolve(db: Db, k: OrderId, t: Terms, outcome: Outcome, now: int): Tx<Db> {
    if !t.invoice || t.stack.None? || !t.endpoint then Fail(MissingPin)
    else Ok(db.(outbox := db.outbox + [OutboxRow(k, t.stack.value, outcome, now)]))
  }

  // Leaves the seller window: the request is settled and the observation frozen.
  function SettleRequest(o: Order): Order {
    o.(request := Settled, deadline := None, observedSats := Coalesce(o.observedSats, o.observation.sats))
  }

  // The columns of the order row the seller's request reads before its transaction begins.
  datatype SeenRow = SeenRow(state: OrderState, held: bool, observation: Observation)

  function ConfirmPayment(
    db: Db, k: OrderId, actor: Pubky, seen: SeenRow, deliverable: bool, now: int): Tx<Db>
  {
    if ListingSeller(db.stock, k).None? then Fail(OrderNotFound)
    else if ListingSeller(db.stock, k).value != actor then Fail(NotOrderSeller)
    else if k !in db.payments then Fail(Internal)
    else
      var o, p := db.stock.orders[k], db.payments[k];
      if o.request != AwaitingSeller then Fail(NotAwaitingConfirmation)
      else if p.state != AwaitingEntitlement then Fail(Internal)
      else
        var sold :- ConfirmOrder(SetOrder(db.stock, k, SettleRequest(o)), k, seen.state, seen.held, deliverable);
        EnqueueResolve(
          db.(stock := sold, payments := db.payments[k := p.(state := Confirmed)],
              confirmations := db.confirmations + [ConfirmationRow(k, actor, seen.observation, now)]),
          k, o.terms, OutcomePaid, now)
  }

  function FindConfirmation(rows: seq<ConfirmationRow>, k: OrderId): Option<ConfirmationRow>
    decreases |rows|
  {
    if rows == [] then None
    else if rows[0].order == k then Some(rows[0])
    else FindConfirmation(rows[1..], k)
  }

  // -------------------------------------------------------------------------
  // The 24-hour seller-window reaper
  // -------------------------------------------------------------------------

  function RouteSellerWindow(db: Db, k: OrderId, now: int): Tx<Db> {
    if k !in db.payments || k >= |db.stock.orders| then Fail(Internal)
    else
      var o, p := db.stock.orders[k], db.payments[k];
      if o.request != AwaitingSeller then Fail(NotDue)
      else if p.state != AwaitingEntitlement then Fail(Internal)
      else Ok(db.(stock := SetOrder(db.stock, k, SettleRequest(o).(holdExpires := None)),
                  payments := db.payments[k := p.(state := ManualReview, enteredAt := Some(now))]))
  }

  // -------------------------------------------------------------------------
  // Manual-review resolution, shared by the seller and the seven-day reaper
  // -------------------------------------------------------------------------

  function PaidEffects(s: Stock, k: OrderId, deliverable: bool, now: int): (r: Tx<Stock>)
    requires k < |s.orders|
    ensures r.Ok? ==> |r.value.orders| == |s.orders|
  {
    var o := s.orders[k];
    if o.state !in {PendingPayment, Cancelled} then Fail(Internal)
    else
      var (held, ok) :-
        if o.state == PendingPayment && HoldPresent(s, o) then Ok((s, true)) else TryReacquire(s, k, now);
      if !ok then Fail(StockUnavailable)
      else ConfirmOrder(held, k, held.orders[k].state, held.orders[k].stockHeld, deliverable)
  }

  // The most an external refund may record: the larger of the order's total and its Paykit total.
  function RefundCap(t: Terms): int {
    if t.paykitTotal.Some? && t.paykitTotal.value > t.total then t.paykitTotal.value else t.total
  }

  // The amount observed is known, and the table's CHECK lets it be recorded as refunded.
  predicate Refundable(o: Order) {
    o.observedSats.Some? && 1 <= o.observedSats.value <= RefundCap(o.terms)
  }

  function RefundedEffects(s: Stock, k: OrderId): (r: Tx<Stock>)
    requires k < |s.orders|
    ensures r.Ok? ==> |r.value.orders| == |s.orders|
  {
    var cancelled :- if s.orders[k].state == PendingPayment then CancelHeld(s, k) else Ok(s);
    if cancelled.orders[k].state != Cancelled || !Refundable(s.orders[k]) then Fail(Internal)
    else Ok(SetOrder(cancelled, k, cancelled.orders[k].(state := RefundedExternal)))
  }

  function AbandonedEffects(s: Stock, k: OrderId): (r: Tx<Stock>)
    requires k < |s.orders|
    ensures r.Ok? ==> |r.value.orders| == |s.orders|
  {
    match s.orders[k].state
    case PendingPayment => CancelHeld(s, k)
    case Cancelled => Ok(s)
    case _ => Fail(Internal)
  }

  function OutcomeEffects(s: Stock, k: OrderId, outcome: Outcome, deliverable: bool, now: int): (r: Tx<Stock>)
    requires k < |s.orders|
    ensures r.Ok? ==> |r.value.orders| == |s.orders|
  {
    match outcome
    case OutcomePaid => PaidEffects(s, k, deliverable, now)
    case OutcomeRefunded => RefundedEffects(s, k)
    case OutcomeAbandoned => AbandonedEffects(s, k)
  }

  function ExitState(outcome: Outcome): PaymentState {
    if outcome == OutcomeAbandoned then Expired else Confirmed
  }

  function ApplyResolution(
    db: Db, k: OrderId, res: Resolution, hash: string, deliverable: bool, now: int): Tx<Db>
  {
    if k !in db.payments || k >= |db.stock.orders| then Fail(Internal)
    else
      var p := db.payments[k];
      if p.adapter != Paykit then Fail(NotInManualReview)
      else if p.state != ManualReview then
        Fail(if p.resolution.Some? then AlreadyResolved else NotInManualReview)
      else if res.outcome == OutcomePaid && p.reviewReason == Some(RefundRequiredReason) then Fail(RefundRequired)
      else if p.resolution.Some? then Fail(AlreadyResolved)
      else
        var effected :- OutcomeEffects(db.stock, k, res.outcome, deliverable, now);
        EnqueueResolve(
          db.(stock := effected,
              payments := db.payments[k := p.(state := ExitState(res.outcome),
                resolution := Some(res), enteredAt := None)],
              resolutions := db.resolutions + [ResolutionRow(k, res, hash, now)]),
          k, db.stock.orders[k].terms, res.outcome, now)
  }

  // The rail the resolution applies to: Paykit Bitcoin with its pins persisted.
  predicate Resolvable(t: Terms) {
    t.bitcoin && t.reference && t.stack.Some? && t.endpoint
  }

  function ResolvePayment(
    db: Db, k: OrderId, actor: Pubky, key: nat, outcome: Outcome, hash: string, deliverable: bool,
    now: int): Tx<Db>
  {
    if ListingSeller(db.stock, k).None? then Fail(OrderNotFound)
    else if ListingSeller(db.stock, k).value != actor then Fail(NotOrderSeller)
    else if !db.stock.orders[k].terms.bitcoin then Fail(ResolutionNotApplicable)
    else if !Resolvable(db.stock.orders[k].terms) then Fail(MissingPin)
    else ApplyResolution(db, k, Resolution(key, outcome, SellerAttestation), hash, deliverable, now)
  }

  // The reminder that a review waits for its seller, sent once.
  function AlertSeller(db: Db, k: OrderId, now: int): Tx<Db> {
    if k !in db.payments || db.payments[k].state != ManualReview || db.payments[k].alertedAt.Some?
    then Fail(NotDue)
    else Ok(db.(payments := db.payments[k := db.payments[k].(alertedAt := Some(now))]))
  }

  const UNRESPONSIVE_HASH := "seller_unresponsive:abandoned"

  function AbandonUnresponsive(db: Db, k: OrderId, key: nat, now: int): Tx<Db> {
    if k >= |db.stock.orders| || !Resolvable(db.stock.orders[k].terms) then Fail(NotDue)
    else ApplyResolution(db, k, Resolution(key, OutcomeAbandoned, SellerUnresponsive),
      UNRESPONSIVE_HASH, false, now)
  }

  function FindResolution(rows: seq<ResolutionRow>, k: OrderId, key: nat): Option<ResolutionRow>
    decreases |rows|
  {
    if rows == [] then None
    else if rows[0].order == k && rows[0].resolution.key == key then Some(rows[0])
    else FindResolution(rows[1..], k, key)
  }

  // -------------------------------------------------------------------------
  // Late money
  // -------------------------------------------------------------------------

  predicate Stampable(p: Payment) {
    p.state in {Expired, AwaitingEntitlement, ManualReview, Detected} && p.resolution.None?
  }

  function Stamp(p: Payment, reason: ReviewReason, now: int): Payment {
    p.(state := ManualReview, reviewReason := Some(reason), enteredAt := Some(now))
  }

  // The stock-gone shape.  `row` is the order as read before any of this transaction's writes.
  function RequireRefund(s: Stock, k: OrderId, p: Payment, row: Order, now: int): (r: Tx<(Stock, Payment)>)
    requires k < |s.orders|
    ensures r.Ok? ==> |r.value.0.orders| == |s.orders|
  {
    if !Stampable(p) then Fail(Internal)
    else if row.state != PendingPayment then Ok((s, Stamp(p, RefundRequiredReason, now)))
    else
      var released :- if row.terms.auction.None? then ReleaseHold(s, row) else Ok(s);
      Ok((if released.orders[k].state == PendingPayment then Cancel(released, k) else released,
          Stamp(p, RefundRequiredReason, now)))
  }

  // A payment row keeps `manual_review_entered_at` exactly while it is in manual review: the
  // table's CHECK refuses any other write.
  predicate EntryCheck(p: Payment) {
    (p.state == ManualReview) == p.enteredAt.Some?
  }

  function CompleteLate(s: Stock, k: OrderId, p: Payment): (r: Tx<(Stock, Payment)>)
    requires k < |s.orders|
    ensures r.Ok? ==> |r.value.0.orders| == |s.orders|
  {
    var p' := p.(state := Confirmed, reviewReason := None);
    if p.state !in {Expired, AwaitingEntitlement, ManualReview} || p.resolution.Some? || !EntryCheck(p')
    then Fail(Internal)
    else
      var sold :- ConfirmOrder(s, k, s.orders[k].state, s.orders[k].stockHeld, true);
      Ok((sold, p'))
  }

  function ApplyLateMoney(s: Stock, k: OrderId, p: Payment, deliverable: bool, now: int): (r: Tx<(Stock, Payment)>)
    requires k < |s.orders|
    ensures r.Ok? ==> |r.value.0.orders| == |s.orders|
  {
    var o := s.orders[k];
    if o.request == AwaitingSeller then Fail(Internal)
    else if !deliverable then RequireRefund(s, k, p, o, now)
    else if o.state == PendingPayment && o.stockHeld then
      if Stampable(p) then Ok((s, Stamp(p, LateSettlement, now))) else Fail(Internal)
    else
      var (taken, ok) :- TryReacquire(s, k, now);
      if ok then CompleteLate(taken, k, p) else RequireRefund(taken, k, p, o, now)
  }

  // The Paykit poller settles the request and freezes the observation first; the fiat and Locks
  // rails call the fork directly.
  function LateOrder(o: Order, paykit: bool, observed: Observation): Order {
    if paykit
    then o.(request := Settled, deadline := None, observation := observed,
            observedSats := Coalesce(o.observedSats, observed.sats))
    else o
  }

  // The payments the fork is called for: the Paykit pollers call it for expired payments and for those
  // still awaiting their entitlement, the other rails for expired ones.
  predicate LateGate(p: Payment, paykit: bool) {
    p.state == Expired || (paykit && p.state == AwaitingEntitlement)
  }

  function LateMoney(
    db: Db, k: OrderId, paykit: bool, observed: Observation, deliverable: bool, now: int): Tx<Db>
  {
    if k >= |db.stock.orders| || k !in db.payments then Fail(Internal)
    else
      var o := db.stock.orders[k];
      if o.request == AwaitingSeller || !LateGate(db.payments[k], paykit) then Fail(NotDue)
      else if paykit && (o.terms.stack.None? || !o.terms.endpoint) then Fail(MissingPin)
      else
        var settled :- ApplyLateMoney(SetOrder(db.stock, k, LateOrder(o, paykit, observed)), k,
                                      db.payments[k], deliverable, now);
        Ok(db.(stock := settled.0, payments := db.payments[k := settled.1]))
  }

  // -------------------------------------------------------------------------
  // The sweeps
  // -------------------------------------------------------------------------

  // The order keeps its stock while its seller decides.
  predicate Undecided(o: Order, p: Payment) {
    o.request == AwaitingSeller || p.state == ManualReview
  }

  predicate WonBy(t: Terms, c: Claim) {
    t.auction == Some(c.listing) && t.buyer == c.buyer
  }

  predicate Preserved(db: Db, c: Claim) {
    exists k :: k in db.payments && k < |db.stock.orders|
      && WonBy(db.stock.orders[k].terms, c) && db.stock.orders[k].terms.bitcoin
      && db.payments[k].adapter == Paykit && Undecided(db.stock.orders[k], db.payments[k])
  }

  predicate DueReservation(db: Db, i: nat, now: int) {
    && i < |db.stock.reservations|
    && var r := db.stock.reservations[i];
       r.status == Active && r.expiresAt <= now && !r.claim.offerAward && !Preserved(db, r.claim)
  }

  function ExpireReservation(s: Stock, i: nat): (r: Tx<Stock>)
    requires i < |s.reservations|
    ensures r.Ok? ==> |r.value.reservations| == |s.reservations|
  {
    var r := s.reservations[i];
    var c := r.claim;
    if r.status != Active then Ok(s)
    else
      var (drops, credited) :=
        if c.drop.None? then (s.drops, true) else CreditDrop(s.drops, c.drop.value, c.buyer, c.quantity);
      if !credited || !CanRelease(s.listings, Line(c.listing, c.quantity)) then Fail(Internal)
      else Ok(s.(listings := ReleaseLine(s.listings, Line(c.listing, c.quantity)), drops := drops,
                 reservations := s.reservations[i := r.(status := Lapsed)]))
  }

  // One sweep transaction over the due rows it managed to lock: any of them, in any order.
  function ExpireReservations(s: Stock, ids: seq<nat>): Tx<Stock>
    requires forall i :: 0 <= i < |ids| ==> ids[i] < |s.reservations|
    decreases |ids|
  {
    if ids == [] then Ok(s)
    else
      var rest :- ExpireReservation(s, ids[0]);
      ExpireReservations(rest, ids[1..])
  }

  function SweepReservations(db: Db, ids: seq<nat>, now: int): Tx<Db> {
    if forall i :: 0 <= i < |ids| ==> DueReservation(db, ids[i], now) then
      var swept :- ExpireReservations(db.stock, ids);
      Ok(db.(stock := swept))
    else Fail(NotDue)
  }

  predicate HoldLapsed(o: Order, now: int) {
    && o.state == PendingPayment && o.stockHeld
    && (o.holdExpires.Some? ==> o.holdExpires.value <= now)
    && !o.activating && o.request != AwaitingSeller
  }

  function SweepPaymentWindow(db: Db, k: OrderId, now: int): Tx<Db> {
    if k !in db.payments || k >= |db.stock.orders| then Fail(NotDue)
    else
      var o, p := db.stock.orders[k], db.payments[k];
      if !HoldLapsed(o, now) || p.state !in {AwaitingEntitlement, Detected, Expired} then Fail(NotDue)
      else
        var (drops, credited) := CreditOrderDrop(db.stock.drops, o.terms);
        var (ls, released) := ReleaseLines(db.stock.listings, o.terms.lines);
        // A legacy hold without a window is cancelled even when its books disagree.
        if (!credited || !released) && o.holdExpires.Some? then Fail(Internal)
        else Ok(db.(
          stock := Cancel(db.stock.(listings := ls, drops := drops), k),
          payments := if p.state == AwaitingEntitlement
                      then db.payments[k := p.(state := Expired)] else db.payments))
  }

  // An order no longer due is passed over, and one that cannot be expired stops the batch.
  function SweepNext(db: Db, k: OrderId, now: int): Tx<Db> {
    var r := SweepPaymentWindow(db, k, now);
    if r.Fail? && r.why == NotDue then Ok(db) else r
  }

  // One batch of the payment-window sweep.
  function SweepBatch(db: Db, ks: seq<OrderId>, now: int): Tx<Db>
    decreases |ks|
  {
    if ks == [] then Ok(db)
    else
      var swept :- SweepBatch(db, ks[..|ks| - 1], now);
      SweepNext(swept, ks[|ks| - 1], now)
  }

  // -------------------------------------------------------------------------
  // The drain predicate and the transactions as one step relation
  // -------------------------------------------------------------------------

  // No order pinned to the stack can still create a resolution row.
  predicate ConditionSevenClear(db: Db, stack: StackId) {
    !exists k :: 0 <= k < |db.stock.orders| && db.stock.orders[k].terms.stack == Some(stack)
      && (db.stock.orders[k].request == AwaitingSeller
          || (k in db.payments && db.payments[k].state == ManualReview))
  }

  datatype Action =
    | Enter(k: OrderId, observed: Observation)
    | Confirm(k: OrderId, actor: Pubky, seen: SeenRow, deliverable: bool)
    | Route(k: OrderId)
    | Replay(k: OrderId, key: nat, hash: string)
    | Resolve(k: OrderId, actor: Pubky, key: nat, outcome: Outcome, hash: string, deliverable: bool)
    | Abandon(k: OrderId, key: nat)
    | Alert(k: OrderId)
    | Late(k: OrderId, paykit: bool, observed: Observation, deliverable: bool)
    | SweepWindow(k: OrderId)
    | SweepHolds(ids: seq<nat>)

  function Attempt(db: Db, a: Action, now: int): Tx<Db> {
    match a
    case Enter(k, observed) => EnterSellerWindow(db, k, observed, now)
    case Confirm(k, actor, seen, deliverable) => ConfirmPayment(db, k, actor, seen, deliverable, now)
    case Route(k) => RouteSellerWindow(db, k, now)
    case Replay(k, key, hash) => Ok(db)
    case Resolve(k, actor, key, outcome, hash, deliverable) =>
      ResolvePayment(db, k, actor, key, outcome, hash, deliverable, now)
    case Abandon(k, key) => AbandonUnresponsive(db, k, key, now)
    case Alert(k) => AlertSeller(db, k, now)
    case Late(k, paykit, observed, deliverable) => LateMoney(db, k, paykit, observed, deliverable, now)
    case SweepWindow(k) => SweepPaymentWindow(db, k, now)
    case SweepHolds(ids) => SweepReservations(db, ids, now)
  }

  function Step(db: Db, a: Action, now: int): Db {
    match Attempt(db, a, now)
    case Ok(db') => db'
    case Fail(_) => db
  }

  // What a 200 response of the resolve endpoint carries: the replayed row, or the resolution the
  // request itself committed.
  function ResolvedAnswer(db: Db, a: Action, now: int): Option<Resolution> {
    match a
    case Replay(k, key, hash) =>
      var row := FindResolution(db.resolutions, k, key);
      if row.Some? && row.value.hash == hash then Some(row.value.resolution) else None
    case Resolve(k, actor, key, outcome, hash, deliverable) =>
      if Attempt(db, a, now).Ok? then Some(Resolution(key, outcome, SellerAttestation)) else None
    case _ => None
  }

  lemma SweepNextIsStep(db: Db, k: OrderId, now: int)
    ensures SweepNext(db, k, now).Ok? ==> SweepNext(db, k, now).value == Step(db, SweepWindow(k), now)
  {
  }

  datatype Event = Event(action: Action, now: int)

  // The tables after a run of committed and refused transactions, in commit order.
  function Run(db: Db, run: seq<Event>): Db
    decreases |run|
  {
    if run == [] then db
    else
      var last := run[|run| - 1];
      Step(Run(db, run[..|run| - 1]), last.action, last.now)
  }
}
