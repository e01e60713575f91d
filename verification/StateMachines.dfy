/**
 The declared payment and order machines.  They are specifications: the steps of the other
 modules are proved to move along these edges.
 */
module StateMachines {
  datatype PaymentState = AwaitingEntitlement | Detected | Confirmed | Expired | ManualReview

  datatype OrderState =
    | PendingPayment | Paid | ReadyForPickup | Processing | Shipped | Delivered | Completed
    | CancelRequested | Cancelled | ReturnRequested | ReturnApproved | ReturnReceived
    | RefundedExternal | Closed

  function PaymentEdges(from: PaymentState): set<PaymentState> {
    match from
    case AwaitingEntitlement => {Detected, Confirmed, Expired, ManualReview}
    case Detected => {Confirmed, ManualReview}
    case Expired => {ManualReview, Confirmed}
    case ManualReview => {Confirmed, Expired}
    case Confirmed => {}
  }

  function OrderEdges(from: OrderState): set<OrderState> {
    match from
    case PendingPayment => {Paid, Cancelled}
    case Paid =>
      {Shipped, ReadyForPickup, Delivered, Cancelled, CancelRequested, RefundedExternal}
    case ReadyForPickup => {Delivered, CancelRequested, Cancelled, RefundedExternal}
    case Processing => {Shipped, CancelRequested}
    case CancelRequested => {Cancelled, RefundedExternal}
    case Shipped => {Delivered, RefundedExternal}
    case Delivered => {ReturnRequested, Completed, RefundedExternal}
    case Completed => {ReturnRequested, RefundedExternal}
    case ReturnRequested => {ReturnApproved, RefundedExternal}
    case ReturnApproved => {ReturnReceived, RefundedExternal}
    case ReturnReceived => {RefundedExternal}
    case RefundedExternal =>
      {Paid, ReadyForPickup, Shipped, Delivered, Completed, CancelRequested, Cancelled,
       ReturnRequested, ReturnApproved, ReturnReceived}
    case Cancelled => {RefundedExternal, Paid}
    case Closed => {}
  }

  // Staying in the same state is always allowed.
  predicate CanTransition<S(==)>(edges: S -> set<S>, from: S, to: S) {
    from == to || to in edges(from)
  }

  // A walk along declared edges, through the states of `via`.
  predicate Walk<S(==)>(edges: S -> set<S>, from: S, via: seq<S>, to: S)
    decreases |via|
  {
    if via == [] then CanTransition(edges, from, to)
    else CanTransition(edges, from, via[0]) && Walk(edges, via[0], via[1..], to)
  }

  ghost predicate Path<S(!new)>(edges: S -> set<S>, from: S, to: S) {
    exists via :: Walk(edges, from, via, to)
  }

  lemma EdgeIsPath<S(!new)>(edges: S -> set<S>, from: S, to: S)
    requires CanTransition(edges, from, to)
    ensures Path(edges, from, to)
  {
    assert Walk(edges, from, [], to);
  }

  lemma {:induction false} WalksJoin<S>(
    edges: S -> set<S>, from: S, via: seq<S>, mid: S, rest: seq<S>, to: S)
    requires Walk(edges, from, via, mid) && Walk(edges, mid, rest, to)
    ensures Walk(edges, from, via + [mid] + rest, to)
    decreases |via|
  {
    if via == [] {
      assert (via + [mid] + rest)[1..] == rest;
    } else {
      WalksJoin(edges, via[0], via[1..], mid, rest, to);
      assert (via + [mid] + rest)[1..] == via[1..] + [mid] + rest;
    }
  }

  lemma PathsJoin<S(!new)>(edges: S -> set<S>, from: S, mid: S, to: S)
    requires Path(edges, from, mid) && Path(edges, mid, to)
    ensures Path(edges, from, to)
  {
    var via :| Walk(edges, from, via, mid);
    var rest :| Walk(edges, mid, rest, to);
    WalksJoin(edges, from, via, mid, rest, to);
  }

  // No declared walk leaves `confirmed`.
  lemma {:induction false} ConfirmedHasNoWayOut(via: seq<PaymentState>, to: PaymentState)
    requires Walk(PaymentEdges, Confirmed, via, to)
    ensures to == Confirmed
    decreases |via|
  {
    if via != [] {
      ConfirmedHasNoWayOut(via[1..], to);
    }
  }
}
