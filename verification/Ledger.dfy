/**
 The rows the Bitcoin review transactions share, and the inventory statements they are made of.
 Orders and reservations are tables indexed by position.  Every statement is a function from the
 tables to the tables; a flag says whether its guards found the rows they need.
 */
module Ledger {
  import opened Options
  import opened StateMachines

  type OrderId = nat
  type ListingId = string
  type DropId = string
  type Pubky = string
  type StackId = string

  datatype ListingState = ListingAvailable | ListingReserved | ListingSold

  datatype Listing = Listing(
    seller: Pubky, state: ListingState, available: int, reserved: int, sold: int, total: int,
    deleted: bool, recreatedAt: Option<int>)

  datatype Line = Line(listing: ListingId, quantity: nat)

  // `orders.paykit_request_state`; `Unbound` is the SQL null.
  datatype RequestState = Unbound | Preparing | Pending | Seen | AwaitingSeller | Settled

  // The columns fixed when the order is created and its payment method bound.
  datatype Terms = Terms(
    buyer: Pubky, lines: seq<Line>, auction: Option<ListingId>, drop: Option<DropId>, createdAt: int,
    instantDigital: bool, bitcoin: bool, reference: bool, invoice: bool, stack: Option<StackId>,
    endpoint: bool, total: int, paykitTotal: Option<int>)

  // What the payment rail reported: the transaction and the amount, each if known.
  datatype Observation = Observation(txid: Option<string>, sats: Option<int>)

  datatype Order = Order(
    terms: Terms, state: OrderState, request: RequestState, stockHeld: bool, activating: bool,
    observation: Observation, observedSats: Option<int>, deadline: Option<int>,
    holdExpires: Option<int>)

  datatype Adapter = Paykit | OtherAdapter

  datatype Outcome = OutcomePaid | OutcomeRefunded | OutcomeAbandoned

  datatype Basis = SellerAttestation | SellerUnresponsive

  datatype Resolution = Resolution(key: nat, outcome: Outcome, basis: Basis)

  datatype ReviewReason = LateSettlement | RefundRequiredReason

  datatype Payment = Payment(
    adapter: Adapter, state: PaymentState, resolution: Option<Resolution>,
    reviewReason: Option<ReviewReason>, enteredAt: Option<int>, alertedAt: Option<int>)

  datatype ReservationStatus = Active | Converted | Released | Lapsed

  datatype Claim = Claim(
    listing: ListingId, buyer: Pubky, quantity: nat, drop: Option<DropId>, offerAward: bool)

  datatype Reservation = Reservation(claim: Claim, status: ReservationStatus, expiresAt: int)

  // The units a buyer holds or bought in a drop, and how many the row allows.
  datatype Purchase = Purchase(quantity: int, limit: int)

  datatype Drop = Drop(remaining: int, paid: int, total: int, purchases: map<Pubky, Purchase>)

  datatype ConfirmationRow = ConfirmationRow(order: OrderId, seller: Pubky, observation: Observation, at: int)

  datatype ResolutionRow = ResolutionRow(order: OrderId, resolution: Resolution, hash: string, at: int)

  datatype OutboxRow = OutboxRow(order: OrderId, stack: StackId, outcome: Outcome, at: int)

  // The tables inventory moves through.
  datatype Stock = Stock(
    orders: seq<Order>, listings: map<ListingId, Listing>, drops: map<DropId, Drop>,
    reservations: seq<Reservation>)

  datatype Db = Db(
    stock: Stock, payments: map<OrderId, Payment>, confirmations: seq<ConfirmationRow>,
    resolutions: seq<ResolutionRow>, outbox: seq<OutboxRow>)

  // -------------------------------------------------------------------------
  // Listing quantities, one line at a time
  // -------------------------------------------------------------------------

  type Listings = map<ListingId, Listing>

  // available -> reserved, refused for a deleted or re-created listing.
  predicate CanReserve(ls: Listings, line: Line, createdAt: int) {
    && line.listing in ls
    && var x := ls[line.listing];
    && x.available >= line.quantity
    && !x.deleted
    && (x.recreatedAt.Some? ==> x.recreatedAt.value <= createdAt)
  }

  function ReserveLine(ls: Listings, line: Line): Listings
    requires line.listing in ls
  {
    var x := ls[line.listing];
    ls[line.listing := x.(
      state := if x.available == line.quantity then ListingReserved else ListingAvailable,
      available := x.available - line.quantity, reserved := x.reserved + line.quantity)]
  }

  // reserved -> available
  predicate CanRelease(ls: Listings, line: Line) {
    line.listing in ls && ls[line.listing].reserved >= line.quantity
  }

  function ReleaseLine(ls: Listings, line: Line): Listings
    requires line.listing in ls
  {
    var x := ls[line.listing];
    ls[line.listing := x.(state := ListingAvailable,
      available := x.available + line.quantity, reserved := x.reserved - line.quantity)]
  }

  // reserved -> sold
  function SellLine(ls: Listings, line: Line): Listings
    requires line.listing in ls
  {
    var x := ls[line.listing];
    ls[line.listing := x.(
      state := if x.available > 0 then ListingAvailable
               else if x.reserved > line.quantity then ListingReserved else ListingSold,
      reserved := x.reserved - line.quantity, sold := x.sold + line.quantity)]
  }

  // The line loops.  On `false` a line's guard failed and the lines before it have moved: whether
  // they survive is the caller's transaction decision.
  function ReserveLines(ls: Listings, lines: seq<Line>, createdAt: int): (Listings, bool)
    decreases |lines|
  {
    if lines == [] then (ls, true)
    else if !CanReserve(ls, lines[0], createdAt) then (ls, false)
    else ReserveLines(ReserveLine(ls, lines[0]), lines[1..], createdAt)
  }

  function ReleaseLines(ls: Listings, lines: seq<Line>): (Listings, bool)
    decreases |lines|
  {
    if lines == [] then (ls, true)
    else if !CanRelease(ls, lines[0]) then (ls, false)
    else ReleaseLines(ReleaseLine(ls, lines[0]), lines[1..])
  }

  function SellLines(ls: Listings, lines: seq<Line>): (Listings, bool)
    decreases |lines|
  {
    if lines == [] then (ls, true)
    else if !CanRelease(ls, lines[0]) then (ls, false)
    else SellLines(SellLine(ls, lines[0]), lines[1..])
  }

  // -------------------------------------------------------------------------
  // Who holds what
  // -------------------------------------------------------------------------

  function Units(lines: seq<Line>): nat
    decreases |lines|
  {
    if lines == [] then 0 else lines[0].quantity + Units(lines[1..])
  }

  function UnitsOf(lines: seq<Line>, l: ListingId): nat
    decreases |lines|
  {
    if lines == [] then 0
    else (if lines[0].listing == l then lines[0].quantity else 0) + UnitsOf(lines[1..], l)
  }

  // What the tables keep count of: the reserved units of a listing, and the units a drop has given
  // out and nobody has paid for yet.
  datatype Book = ListingBook(listing: ListingId) | DropBook(drop: DropId)

  // The units of the book an order is for, and those a reservation claims.
  function InTerms(b: Book, t: Terms): nat {
    match b
    case ListingBook(l) => UnitsOf(t.lines, l)
    case DropBook(d) => if t.drop == Some(d) then Units(t.lines) else 0
  }

  function InClaim(b: Book, c: Claim): nat {
    match b
    case ListingBook(l) => if c.listing == l then c.quantity else 0
    case DropBook(d) => if c.drop == Some(d) then c.quantity else 0
  }

  function HeldByOrder(o: Order, b: Book): nat {
    if o.stockHeld then InTerms(b, o.terms) else 0
  }

  function HeldByReservation(r: Reservation, b: Book): nat {
    if r.status == Active then InClaim(b, r.claim) else 0
  }

  function HeldByOrders(orders: seq<Order>, b: Book): nat
    decreases |orders|
  {
    if orders == [] then 0 else HeldByOrder(orders[0], b) + HeldByOrders(orders[1..], b)
  }

  function HeldByReservations(rs: seq<Reservation>, b: Book): nat
    decreases |rs|
  {
    if rs == [] then 0 else HeldByReservation(rs[0], b) + HeldByReservations(rs[1..], b)
  }

  function Held(s: Stock, b: Book): nat {
    HeldByOrders(s.orders, b) + HeldByReservations(s.reservations, b)
  }

  // The hold accounting of one listing: its columns balance and its reserved column is exactly
  // what orders and reservations hold.
  predicate ListingAccounted(s: Stock, l: ListingId)
    requires l in s.listings
  {
    var x := s.listings[l];
    && x.available >= 0 && x.reserved >= 0 && x.sold >= 0
    && x.available + x.reserved + x.sold == x.total
    && x.reserved == Held(s, ListingBook(l))
  }

  ghost predicate Accounted(s: Stock) {
    forall l :: l in s.listings ==> ListingAccounted(s, l)
  }

  // The accounting of one drop: every unit is left, held or paid for.
  predicate DropAccounted(s: Stock, d: DropId)
    requires d in s.drops
  {
    var x := s.drops[d];
    && x.remaining >= 0 && x.paid >= 0
    && x.remaining + Held(s, DropBook(d)) + x.paid == x.total
  }

  ghost predicate DropsAccounted(s: Stock) {
    forall d :: d in s.drops ==> DropAccounted(s, d)
  }

  // How the quantities of every listing moved: the lines' units left reserved (`out` is 1) or
  // entered it (-1); the other side is sold or available.
  ghost predicate Moved(ls: Listings, ls': Listings, lines: seq<Line>, out: int, sell: bool) {
    && ls'.Keys == ls.Keys
    && forall l :: l in ls ==>
         && ls'[l].total == ls[l].total
         && ls'[l].reserved == ls[l].reserved - out * UnitsOf(lines, l)
         && ls'[l].available == ls[l].available + (if sell then 0 else out * UnitsOf(lines, l))
         && ls'[l].sold == ls[l].sold + (if sell then out * UnitsOf(lines, l) else 0)
  }

  ghost predicate NonNegative(ls: Listings) {
    forall l :: l in ls ==> ls[l].available >= 0 && ls[l].reserved >= 0 && ls[l].sold >= 0
  }

  ghost predicate SameSellers(ls: Listings, ls': Listings) {
    ls'.Keys == ls.Keys && forall l :: l in ls ==> ls'[l].seller == ls[l].seller
  }

  lemma {:induction false} ReleaseLinesMoves(ls: Listings, lines: seq<Line>)
    ensures var (ls', ok) := ReleaseLines(ls, lines);
            var n := ReleasedPrefix(ls, lines);
            && Moved(ls, ls', lines[..n], 1, false)
            && (NonNegative(ls) ==> NonNegative(ls'))
            && SameSellers(ls, ls')
            && (ok <==> n == |lines|)
    decreases |lines|
  {
    if lines != [] && CanRelease(ls, lines[0]) {
      var next := ReleaseLine(ls, lines[0]);
      ReleaseLinesMoves(next, lines[1..]);
      var n := ReleasedPrefix(next, lines[1..]);
      assert lines[..n + 1][1..] == lines[1..][..n];
    }
  }

  lemma {:induction false} SellLinesMoves(ls: Listings, lines: seq<Line>)
    ensures var (ls', ok) := SellLines(ls, lines);
            && (ok ==> Moved(ls, ls', lines, 1, true))
            && (NonNegative(ls) ==> NonNegative(ls'))
            && SameSellers(ls, ls')
    decreases |lines|
  {
    if lines != [] && CanRelease(ls, lines[0]) {
      SellLinesMoves(SellLine(ls, lines[0]), lines[1..]);
    }
  }

  // Stock that is really reserved can always be released.
  lemma {:induction false} HeldLinesRelease(ls: Listings, lines: seq<Line>)
    requires forall i :: 0 <= i < |lines| ==> lines[i].listing in ls
    requires forall l :: l in ls ==> ls[l].reserved >= UnitsOf(lines, l)
    ensures ReleaseLines(ls, lines).1
    decreases |lines|
  {
    if lines != [] {
      var next := ReleaseLine(ls, lines[0]);
      assert ls[lines[0].listing].reserved >= UnitsOf(lines, lines[0].listing);
      forall l | l in next ensures next[l].reserved >= UnitsOf(lines[1..], l) {
        assert l in ls;
      }
      HeldLinesRelease(next, lines[1..]);
    }
  }

  // How many leading lines a reservation moved before it ran out of stock.
  function ReservedPrefix(ls: Listings, lines: seq<Line>, createdAt: int): (n: nat)
    ensures n <= |lines|
    decreases |lines|
  {
    if lines == [] || !CanReserve(ls, lines[0], createdAt) then 0
    else 1 + ReservedPrefix(ReserveLine(ls, lines[0]), lines[1..], createdAt)
  }

  // How many leading lines a release moved before a listing had too little reserved.
  function ReleasedPrefix(ls: Listings, lines: seq<Line>): (n: nat)
    ensures n <= |lines|
    decreases |lines|
  {
    if lines == [] || !CanRelease(ls, lines[0]) then 0
    else 1 + ReleasedPrefix(ReleaseLine(ls, lines[0]), lines[1..])
  }

  lemma {:induction false} ReserveLinesMoves(ls: Listings, lines: seq<Line>, createdAt: int)
    ensures var (ls', ok) := ReserveLines(ls, lines, createdAt);
            var n := ReservedPrefix(ls, lines, createdAt);
            && Moved(ls, ls', lines[..n], -1, false)
            && (NonNegative(ls) ==> NonNegative(ls'))
            && SameSellers(ls, ls')
            && (ok <==> n == |lines|)
    decreases |lines|
  {
    if lines != [] && CanReserve(ls, lines[0], createdAt) {
      var next := ReserveLine(ls, lines[0]);
      ReserveLinesMoves(next, lines[1..], createdAt);
      var n := ReservedPrefix(next, lines[1..], createdAt);
      assert lines[..n + 1][1..] == lines[1..][..n];
    }
  }

  lemma {:induction false} OrdersSplit(orders: seq<Order>, k: nat, o: Order, b: Book)
    requires k < |orders|
    ensures HeldByOrders(orders[k := o], b)
            == HeldByOrders(orders, b) - HeldByOrder(orders[k], b) + HeldByOrder(o, b)
    ensures HeldByOrders(orders, b) >= HeldByOrder(orders[k], b)
    decreases |orders|
  {
    if k == 0 {
      assert orders[k := o][1..] == orders[1..];
    } else {
      OrdersSplit(orders[1..], k - 1, o, b);
      assert orders[k := o][1..] == orders[1..][k - 1 := o];
    }
  }

  lemma {:induction false} ReservationsSplit(rs: seq<Reservation>, i: nat, r: Reservation, b: Book)
    requires i < |rs|
    ensures HeldByReservations(rs[i := r], b)
            == HeldByReservations(rs, b) - HeldByReservation(rs[i], b) + HeldByReservation(r, b)
    ensures HeldByReservations(rs, b) >= HeldByReservation(rs[i], b)
    decreases |rs|
  {
    if i == 0 {
      assert rs[i := r][1..] == rs[1..];
    } else {
      ReservationsSplit(rs[1..], i - 1, r, b);
      assert rs[i := r][1..] == rs[1..][i - 1 := r];
    }
  }

  // -------------------------------------------------------------------------
  // Reservations, by (listing, buyer) as the UPDATE statements address them
  // -------------------------------------------------------------------------

  predicate Matches(r: Reservation, l: ListingId, buyer: Pubky) {
    r.claim.listing == l && r.claim.buyer == buyer
  }

  function UpdateReservations(
    rs: seq<Reservation>, l: ListingId, buyer: Pubky, from: set<ReservationStatus>,
    to: ReservationStatus, expiresAt: Option<int>): (out: seq<Reservation>)
    ensures |out| == |rs|
    ensures forall i :: 0 <= i < |rs| ==>
      out[i] == if Matches(rs[i], l, buyer) && rs[i].status in from
                then rs[i].(status := to,
                            expiresAt := if expiresAt.Some? then expiresAt.value else rs[i].expiresAt)
                else rs[i]
    decreases |rs|
  {
    if rs == [] then []
    else
      var r := rs[0];
      [if Matches(r, l, buyer) && r.status in from
       then r.(status := to,
               expiresAt := if expiresAt.Some? then expiresAt.value else r.expiresAt)
       else r] + UpdateReservations(rs[1..], l, buyer, from, to, expiresAt)
  }

  function CountReservations(
    rs: seq<Reservation>, l: ListingId, buyer: Pubky, from: set<ReservationStatus>): nat
    decreases |rs|
  {
    if rs == [] then 0
    else (if Matches(rs[0], l, buyer) && rs[0].status in from then 1 else 0)
         + CountReservations(rs[1..], l, buyer, from)
  }

  // The units of a book that rows of this listing and buyer claim, in the given states.
  function Claimed(
    rs: seq<Reservation>, l: ListingId, buyer: Pubky, from: set<ReservationStatus>, b: Book): nat
    decreases |rs|
  {
    if rs == [] then 0
    else (if Matches(rs[0], l, buyer) && rs[0].status in from then InClaim(b, rs[0].claim) else 0)
         + Claimed(rs[1..], l, buyer, from, b)
  }

  // What an UPDATE by (listing, buyer) does to what reservations hold, however many rows match.
  lemma {:induction false} UpdateHeld(
    rs: seq<Reservation>, l: ListingId, buyer: Pubky, from: set<ReservationStatus>,
    to: ReservationStatus, expiresAt: Option<int>, b: Book)
    ensures HeldByReservations(UpdateReservations(rs, l, buyer, from, to, expiresAt), b)
            == HeldByReservations(rs, b)
               + (if to == Active then Claimed(rs, l, buyer, from - {Active}, b) else 0)
               - (if to == Active then 0 else Claimed(rs, l, buyer, from * {Active}, b))
    decreases |rs|
  {
    if rs != [] {
      UpdateHeld(rs[1..], l, buyer, from, to, expiresAt, b);
    }
  }

  // Reactivated rows join those that were active.
  lemma {:induction false} ReactivatedClaims(
    rs: seq<Reservation>, l: ListingId, buyer: Pubky, expiresAt: Option<int>, b: Book)
    ensures Claimed(UpdateReservations(rs, l, buyer, {Lapsed, Released}, Active, expiresAt), l, buyer, {Active}, b)
            == Claimed(rs, l, buyer, {Active}, b) + Claimed(rs, l, buyer, {Lapsed, Released}, b)
    decreases |rs|
  {
    if rs != [] {
      ReactivatedClaims(rs[1..], l, buyer, expiresAt, b);
    }
  }

  // `i` is the one reservation of this listing and buyer.
  predicate SoleReservation(rs: seq<Reservation>, i: nat, l: ListingId, buyer: Pubky) {
    && i < |rs| && Matches(rs[i], l, buyer)
    && forall j :: 0 <= j < |rs| && j != i ==> !Matches(rs[j], l, buyer)
  }

  lemma {:induction false} NoReservationCounts(
    rs: seq<Reservation>, l: ListingId, buyer: Pubky, from: set<ReservationStatus>, b: Book)
    requires forall j :: 0 <= j < |rs| ==> !Matches(rs[j], l, buyer)
    ensures CountReservations(rs, l, buyer, from) == 0 && Claimed(rs, l, buyer, from, b) == 0
    decreases |rs|
  {
    if rs != [] {
      assert !Matches(rs[0], l, buyer);
      NoReservationCounts(rs[1..], l, buyer, from, b);
    }
  }

  // With one row, addressing rows by (listing, buyer) is addressing that row.
  lemma {:induction false} SoleReservationCounts(
    rs: seq<Reservation>, i: nat, l: ListingId, buyer: Pubky, from: set<ReservationStatus>, b: Book)
    requires SoleReservation(rs, i, l, buyer)
    ensures CountReservations(rs, l, buyer, from) == if rs[i].status in from then 1 else 0
    ensures Claimed(rs, l, buyer, from, b) == if rs[i].status in from then InClaim(b, rs[i].claim) else 0
    decreases |rs|
  {
    if i == 0 {
      forall j | 0 <= j < |rs[1..]| ensures !Matches(rs[1..][j], l, buyer) {
        assert rs[1..][j] == rs[j + 1];
      }
      NoReservationCounts(rs[1..], l, buyer, from, b);
    } else {
      assert !Matches(rs[0], l, buyer);
      assert rs[1..][i - 1] == rs[i];
      forall j | 0 <= j < |rs[1..]| && j != i - 1 ensures !Matches(rs[1..][j], l, buyer) {
        assert rs[1..][j] == rs[j + 1];
      }
      SoleReservationCounts(rs[1..], i - 1, l, buyer, from, b);
    }
  }
}
