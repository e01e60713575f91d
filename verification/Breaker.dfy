/**
 The address-search circuit breaker and its tickets.  Instants are milliseconds, generations do
 not wrap.  A lookup admitted through the breaker holds a ticket until it drops it, at any point,
 settled or not.
 */
module Breaker {
  import opened Options

  const FAILURE_THRESHOLD: nat := 3
  const BASE_SECONDS: int := 10
  const MAX_SECONDS: int := 60
  const THROTTLE_MAX_SECONDS: int := 600
  const FAILURE_RETRY_AFTER_SECONDS: int := 2
  const PROBE_RETRY_AFTER_SECONDS: int := 1
  const U32_MAX: nat := 0xFFFF_FFFF
  const I64_MAX: nat := 0x7FFF_FFFF_FFFF_FFFF

  datatype State = State(
    generation: nat, failures: nat, openUntil: Option<int>, nextCooldown: int, probing: bool)

  datatype Ticket = Ticket(generation: nat, probe: bool, admittedAt: int)

  datatype Failure = Throttled(retryAfter: Option<nat>) | Unavailable

  function Min(a: int, b: int): int { if a <= b then a else b }

  function Max(a: int, b: int): int { if a >= b then a else b }

  function Clamp(x: int, lo: int, hi: int): int { if x < lo then lo else if x > hi then hi else x }

  function Closed(generation: nat): State {
    State(generation, 0, None, BASE_SECONDS, false)
  }

  function Remaining(b: State, now: int): Option<int> {
    if b.openUntil.Some? && b.openUntil.value > now
    then Some(Max(1, (b.openUntil.value - now) / 1000))
    else None
  }

  predicate Reopens(b: State, now: int, seconds: int) {
    b.openUntil.None? || (b.openUntil.value <= now && b.openUntil.value < now + seconds * 1000)
  }

  // Opens, or keeps open, until at least `now + seconds`.
  function OpenFor(b: State, now: int, seconds: int): State {
    var until := now + seconds * 1000;
    if b.openUntil.None? || b.openUntil.value < until
    then State(b.generation + 1, b.failures, Some(until),
               if Reopens(b, now, seconds) then Min(b.nextCooldown * 2, MAX_SECONDS) else b.nextCooldown,
               false)
    else b
  }

  // Releases the probe the ticket holds, if the breaker has not moved on.
  function Settle(b: State, t: Ticket): State {
    if t.probe && b.generation == t.generation then b.(probing := false) else b
  }

  // Closed admits everyone, open refuses everyone, half-open admits one probe.
  predicate Admits(b: State, now: int) {
    b.openUntil.None? || (b.openUntil.value <= now && !b.probing)
  }

  function Admit(b: State): State {
    b.(probing := b.probing || b.openUntil.Some?)
  }

  function Success(b: State, t: Ticket): State {
    var settled := Settle(b, t);
    if t.generation != b.generation then settled
    else if settled.openUntil.None? then settled.(failures := 0)
    else if t.probe then Closed(settled.generation + 1)
    else settled
  }

  function ThrottleCooldown(b: State, retryAfter: Option<nat>): int {
    var asked :=
      if retryAfter.None? then 0
      else if retryAfter.value <= I64_MAX then retryAfter.value else THROTTLE_MAX_SECONDS;
    Clamp(asked, b.nextCooldown, THROTTLE_MAX_SECONDS)
  }

  function Fail(b: State, now: int, failure: Failure, t: Ticket): State {
    var settled := Settle(b, t);
    var counted := settled.(failures := if settled.failures < U32_MAX then settled.failures + 1 else U32_MAX);
    match failure
    case Throttled(retryAfter) => OpenFor(counted, now, ThrottleCooldown(counted, retryAfter))
    case Unavailable =>
      if Remaining(settled, now).Some? || t.generation != b.generation then settled
      else if t.probe || counted.failures >= FAILURE_THRESHOLD
      then OpenFor(counted, now, counted.nextCooldown)
      else counted
  }

  // The Retry-After seconds a failed lookup reports.
  function RetryAfter(b: State, now: int, failure: Failure, t: Ticket): int {
    var after := Remaining(Fail(b, now, failure, t), now);
    if after.Some? then after.value
    else if failure.Throttled? then 1
    else FAILURE_RETRY_AFTER_SECONDS
  }

  // -------------------------------------------------------------------------
  // Runs
  // -------------------------------------------------------------------------

  // The breaker, the live tickets, the clock and the reopenings since the last close.
  datatype Gate = Gate(b: State, tickets: map<nat, Ticket>, clock: int, reopenings: nat)

  datatype Action =
    | Lookup(id: nat)
    | Succeed(id: nat)
    | Failed(id: nat, failure: Failure)
    | DropTicket(id: nat)

  datatype Event = Event(now: int, action: Action)

  // A ticket that went through `record_success` or `record_failure` no longer holds the probe.
  function Spent(g: Gate, id: nat): map<nat, Ticket>
    requires id in g.tickets
  {
    g.tickets[id := g.tickets[id].(probe := false)]
  }

  function Step(g: Gate, e: Event): Gate {
    var a := e.action;
    match a
    case Lookup(id) =>
      if id in g.tickets || !Admits(g.b, e.now) then g.(clock := e.now)
      else g.(b := Admit(g.b), clock := e.now,
              tickets := g.tickets[id := Ticket(g.b.generation, g.b.openUntil.Some?, e.now)])
    case Succeed(id) =>
      if id !in g.tickets then g.(clock := e.now)
      else
        var b' := Success(g.b, g.tickets[id]);
        Gate(b', Spent(g, id), e.now, if b'.openUntil.None? then 0 else g.reopenings)
    case Failed(id, failure) =>
      if id !in g.tickets then g.(clock := e.now)
      else
        var b' := Fail(g.b, e.now, failure, g.tickets[id]);
        var reopened := b'.openUntil != g.b.openUntil
                        && (g.b.openUntil.Some? ==> g.b.openUntil.value <= e.now);
        Gate(b', Spent(g, id), e.now, if reopened then g.reopenings + 1 else g.reopenings)
    case DropTicket(id) =>
      if id !in g.tickets then g.(clock := e.now)
      else g.(b := Settle(g.b, g.tickets[id]), tickets := g.tickets - {id}, clock := e.now)
  }

  function Start(now: int): Gate {
    Gate(Closed(0), map[], now, 0)
  }

  function Run(g: Gate, run: seq<Event>): Gate
    decreases |run|
  {
    if run == [] then g else Step(Run(g, run[..|run| - 1]), run[|run| - 1])
  }

  // Events carry a nondecreasing clock.
  predicate Timely(start: int, run: seq<Event>) {
    && (forall i :: 0 <= i < |run| ==> start <= run[i].now)
    && (forall i, j :: 0 <= i < j < |run| ==> run[i].now <= run[j].now)
  }

  // -------------------------------------------------------------------------
  // The invariant
  // -------------------------------------------------------------------------

  predicate LiveProbe(g: Gate, id: nat) {
    id in g.tickets && g.tickets[id].probe && g.tickets[id].generation == g.b.generation
  }

  function Doubled(n: nat): int {
    if n == 0 then BASE_SECONDS else Min(2 * Doubled(n - 1), MAX_SECONDS)
  }

  ghost predicate Inv(g: Gate) {
    && (g.b.probing <==> exists id :: LiveProbe(g, id))
    && (forall i, j :: LiveProbe(g, i) && LiveProbe(g, j) ==> i == j)
    && (forall id :: id in g.tickets ==> g.tickets[id].generation <= g.b.generation)
    && (forall id :: id in g.tickets && g.tickets[id].generation == g.b.generation && !g.tickets[id].probe
          ==> g.b.openUntil.None?)
    && (forall id :: LiveProbe(g, id) ==>
          g.b.openUntil.Some? && g.b.openUntil.value <= g.tickets[id].admittedAt <= g.clock)
    && (g.b.openUntil.None? ==> g.b.failures < FAILURE_THRESHOLD && g.reopenings == 0)
    && g.b.nextCooldown == Doubled(g.reopenings)
  }

  lemma {:induction false} DoubledBounds(n: nat)
    ensures BASE_SECONDS <= Doubled(n) <= MAX_SECONDS
    decreases n
  {
    if n > 0 {
      DoubledBounds(n - 1);
    }
  }

  function Pow2(n: nat): nat { if n == 0 then 1 else 2 * Pow2(n - 1) }

  // The cooldown after n reopenings, in closed form.
  lemma {:induction false} DoubledIs(n: nat)
    ensures Doubled(n) == Min(BASE_SECONDS * Pow2(n), MAX_SECONDS)
    decreases n
  {
    if n > 0 {
      DoubledIs(n - 1);
    }
  }

  lemma LookupKeeps(g: Gate, now: int, id: nat)
    requires Inv(g) && g.clock <= now
    ensures Inv(Step(g, Event(now, Lookup(id))))
  {
    var g' := Step(g, Event(now, Lookup(id)));
    if id in g.tickets || !Admits(g.b, now) {
      forall i ensures LiveProbe(g', i) <==> LiveProbe(g, i) {
      }
    } else {
      forall i | i != id ensures LiveProbe(g', i) <==> LiveProbe(g, i) {
      }
      if g.b.openUntil.Some? {
        assert LiveProbe(g', id);
      }
    }
  }

  // A breaker that moved on has no live probe and no current ticket.
  lemma NewGeneration(g: Gate, g': Gate)
    requires Inv(g) && g'.b.generation > g.b.generation && !g'.b.probing
    requires forall id :: id in g'.tickets ==>
      id in g.tickets && g'.tickets[id].generation == g.tickets[id].generation
    requires g'.b.openUntil.None? ==> g'.b.failures < FAILURE_THRESHOLD && g'.reopenings == 0
    requires g'.b.nextCooldown == Doubled(g'.reopenings)
    ensures Inv(g')
  {
  }

  lemma SucceedKeeps(g: Gate, now: int, id: nat)
    requires Inv(g) && g.clock <= now
    ensures Inv(Step(g, Event(now, Succeed(id))))
  {
    var g' := Step(g, Event(now, Succeed(id)));
    if id in g.tickets {
      var t := g.tickets[id];
      if t.generation == g.b.generation && t.probe {
        assert LiveProbe(g, id);
        NewGeneration(g, g');
      } else {
        forall i ensures LiveProbe(g', i) <==> LiveProbe(g, i) {
        }
      }
    } else {
      forall i ensures LiveProbe(g', i) <==> LiveProbe(g, i) {
      }
    }
  }

  lemma FailedKeeps(g: Gate, now: int, id: nat, failure: Failure)
    requires Inv(g) && g.clock <= now
    ensures Inv(Step(g, Event(now, Failed(id, failure))))
  {
    var g' := Step(g, Event(now, Failed(id, failure)));
    DoubledBounds(g.reopenings);
    if id in g.tickets {
      var t := g.tickets[id];
      if t.probe && t.generation == g.b.generation {
        assert LiveProbe(g, id);
      }
      if g'.b.generation > g.b.generation {
        NewGeneration(g, g');
      } else {
        forall i ensures LiveProbe(g', i) <==> LiveProbe(g, i) {
        }
      }
    } else {
      forall i ensures LiveProbe(g', i) <==> LiveProbe(g, i) {
      }
    }
  }

  lemma DropKeeps(g: Gate, now: int, id: nat)
    requires Inv(g) && g.clock <= now
    ensures Inv(Step(g, Event(now, DropTicket(id))))
  {
    var g' := Step(g, Event(now, DropTicket(id)));
    if id in g.tickets && LiveProbe(g, id) {
      forall i ensures !LiveProbe(g', i) {
        assert i != id && LiveProbe(g', i) ==> LiveProbe(g, i);
      }
    } else {
      forall i ensures LiveProbe(g', i) <==> LiveProbe(g, i) {
      }
    }
  }

  lemma StepKeeps(g: Gate, e: Event)
    requires Inv(g) && g.clock <= e.now
    ensures Inv(Step(g, e)) && Step(g, e).clock == e.now
  {
    match e.action {
      case Lookup(id) => LookupKeeps(g, e.now, id);
      case Succeed(id) => SucceedKeeps(g, e.now, id);
      case Failed(id, failure) => FailedKeeps(g, e.now, id, failure);
      case DropTicket(id) => DropKeeps(g, e.now, id);
    }
  }

  lemma StartInv(now: int)
    ensures Inv(Start(now))
  {
  }

  lemma {:induction false} RunKeeps(start: int, run: seq<Event>)
    requires Timely(start, run)
    ensures Inv(Run(Start(start), run))
    ensures Run(Start(start), run).clock == if run == [] then start else run[|run| - 1].now
    decreases |run|
  {
    if run == [] {
      StartInv(start);
    } else {
      RunKeeps(start, run[..|run| - 1]);
      StepKeeps(Run(Start(start), run[..|run| - 1]), run[|run| - 1]);
    }
  }

  // -------------------------------------------------------------------------
  // The theorems
  // -------------------------------------------------------------------------

  // In every run: `probing` says exactly whether a live probe of this generation exists, there is
  // at most one, a current ticket that is not a probe means the breaker is closed, and a half-open
  // breaker without a live probe admits the next lookup.
  lemma SingleProbe(start: int, run: seq<Event>)
    requires Timely(start, run)
    ensures var g := Run(Start(start), run);
            && (g.b.probing <==> exists id :: LiveProbe(g, id))
            && (forall i, j :: LiveProbe(g, i) && LiveProbe(g, j) ==> i == j)
            && (forall id | id in g.tickets && g.tickets[id].generation == g.b.generation ::
                  g.tickets[id].probe || g.b.openUntil.None?)
            && ((forall id :: !LiveProbe(g, id)) ==>
                  forall now | g.b.openUntil.Some? && g.b.openUntil.value <= now :: Admits(g.b, now))
  {
    RunKeeps(start, run);
  }

  // The books of every run: a closed breaker has fewer than three failures, the next cooldown is
  // min(10 * 2^n, 60) after n reopenings, and the throttle clamp's bounds are ordered.
  lemma CooldownSchedule(start: int, run: seq<Event>)
    requires Timely(start, run)
    ensures var g := Run(Start(start), run);
            && (g.b.openUntil.None? ==> g.b.failures < FAILURE_THRESHOLD)
            && g.b.nextCooldown == Min(BASE_SECONDS * Pow2(g.reopenings), MAX_SECONDS)
            && BASE_SECONDS <= g.b.nextCooldown <= THROTTLE_MAX_SECONDS
  {
    RunKeeps(start, run);
    DoubledIs(Run(Start(start), run).reopenings);
    DoubledBounds(Run(Start(start), run).reopenings);
  }

  // A cooldown in force is never shortened, and the breaker closes only on the success of a probe
  // that was admitted after the cooldown ended.
  lemma NoEarlyClose(g: Gate, e: Event)
    requires Inv(g) && g.clock <= e.now && g.b.openUntil.Some?
    ensures var g' := Step(g, e);
            && (g.b.openUntil.value > e.now ==>
                  g'.b.openUntil.Some? && g'.b.openUntil.value >= g.b.openUntil.value)
            && (g'.b.openUntil.None? ==>
                  && e.action.Succeed? && LiveProbe(g, e.action.id)
                  && g.b.openUntil.value <= g.tickets[e.action.id].admittedAt <= e.now)
  {
  }

  // In every run, an event that closes the breaker is the success of such a probe.
  lemma ClosesOnlyByProbe(start: int, run: seq<Event>)
    requires Timely(start, run) && run != []
    requires Run(Start(start), run[..|run| - 1]).b.openUntil.Some? && Run(Start(start), run).b.openUntil.None?
    ensures var g, e := Run(Start(start), run[..|run| - 1]), run[|run| - 1];
            && e.action.Succeed? && LiveProbe(g, e.action.id)
            && g.b.openUntil.value <= g.tickets[e.action.id].admittedAt <= e.now
  {
    RunKeeps(start, run[..|run| - 1]);
    NoEarlyClose(Run(Start(start), run[..|run| - 1]), run[|run| - 1]);
  }

  // From the moment the breaker opens until `u`, over any run, nobody is admitted.
  lemma {:induction false} CooldownHolds(g: Gate, run: seq<Event>, u: int)
    requires Inv(g) && Timely(g.clock, run) && g.b.openUntil.Some? && g.b.openUntil.value >= u
    requires forall i :: 0 <= i < |run| ==> run[i].now < u
    ensures var g' := Run(g, run);
            && Inv(g') && g'.clock == (if run == [] then g.clock else run[|run| - 1].now)
            && g'.b.openUntil.Some? && g'.b.openUntil.value >= u
            && g'.tickets.Keys <= g.tickets.Keys
    decreases |run|
  {
    if run != [] {
      var before := run[..|run| - 1];
      CooldownHolds(g, before, u);
      StepKeeps(Run(g, before), run[|run| - 1]);
      NoEarlyClose(Run(g, before), run[|run| - 1]);
    }
  }

  // -------------------------------------------------------------------------
  // The breaker as the service keeps it
  // -------------------------------------------------------------------------

  class CircuitBreaker {
    var generation: nat
    var failures: nat
    var openUntil: Option<int>
    var nextCooldown: int
    var probing: bool

    function View(): State
      reads this
    {
      State(generation, failures, openUntil, nextCooldown, probing)
    }

    // What every run keeps of the cooldown, so that the throttle clamp's bounds are ordered.
    predicate Valid()
      reads this
    {
      BASE_SECONDS <= nextCooldown <= MAX_SECONDS
    }

    constructor ()
      ensures Valid() && View() == Closed(0)
    {
      generation, failures, openUntil, nextCooldown, probing := 0, 0, None, BASE_SECONDS, false;
    }

    method OpenUntilAtLeast(now: int, seconds: int) returns (left: int)
      requires Valid()
      modifies this
      ensures Valid() && View() == OpenFor(old(View()), now, seconds)
      ensures left == if Remaining(View(), now).Some? then Remaining(View(), now).value else 1
    {
      var until := now + seconds * 1000;
      var reopening := openUntil.None? || openUntil.value <= now;
      if openUntil.None? || openUntil.value < until {
        openUntil := Some(until);
        generation := generation + 1;
        probing := false;
        if reopening {
          nextCooldown := Min(nextCooldown * 2, MAX_SECONDS);
        }
      }
      var remaining := Remaining(View(), now);
      left := if remaining.Some? then remaining.value else 1;
    }

    // Whether the lookup goes through, and with which ticket; otherwise the seconds to wait.
    method AdmitLookup(now: int) returns (ticket: Option<Ticket>, retryAfter: int)
      requires Valid()
      modifies this
      ensures Valid() && (ticket.Some? <==> Admits(old(View()), now))
      ensures ticket.Some? ==>
                View() == Admit(old(View()))
                && ticket.value == Ticket(old(generation), old(openUntil).Some?, now)
      ensures ticket.None? ==> View() == old(View()) && retryAfter >= 1
      ensures ticket.None? ==>
                retryAfter == (if old(openUntil).value > now then Max(1, (old(openUntil).value - now) / 1000)
                               else PROBE_RETRY_AFTER_SECONDS)
    {
      if openUntil.None? {
        return Some(Ticket(generation, false, now)), 0;
      }
      if openUntil.value > now {
        return None, Max(1, (openUntil.value - now) / 1000);
      }
      if probing {
        return None, PROBE_RETRY_AFTER_SECONDS;
      }
      probing := true;
      return Some(Ticket(generation, true, now)), 0;
    }

    method SettleTicket(ticket: Ticket) returns (spent: Ticket)
      requires Valid()
      modifies this
      ensures Valid() && View() == Settle(old(View()), ticket)
      ensures spent == ticket.(probe := false)
    {
      if ticket.probe && generation == ticket.generation {
        probing := false;
      }
      spent := ticket.(probe := false);
    }

    method RecordSuccess(ticket: Ticket) returns (spent: Ticket)
      requires Valid()
      modifies this
      ensures Valid() && View() == Success(old(View()), ticket)
      ensures spent == ticket.(probe := false)
    {
      var current := ticket.generation == generation;
      spent := SettleTicket(ticket);
      if !current {
        return;
      }
      if openUntil.None? {
        failures := 0;
      } else if ticket.probe {
        generation, failures, openUntil, nextCooldown, probing :=
          generation + 1, 0, None, BASE_SECONDS, false;
      }
    }

    method RecordFailure(now: int, failure: Failure, ticket: Ticket) returns (spent: Ticket, retryAfter: int)
      requires Valid()
      modifies this
      ensures Valid() && View() == Fail(old(View()), now, failure, ticket)
      ensures retryAfter == RetryAfter(old(View()), now, failure, ticket)
      ensures spent == ticket.(probe := false)
    {
      var current := ticket.generation == generation;
      var wasProbe := ticket.probe && current;
      spent := SettleTicket(ticket);
      match failure {
        case Throttled(asked) =>
          failures := if failures < U32_MAX then failures + 1 else U32_MAX;
          var cooldown := ThrottleCooldown(View(), asked);
          retryAfter := OpenUntilAtLeast(now, cooldown);
        case Unavailable =>
          var remaining := Remaining(View(), now);
          if remaining.Some? {
            return spent, remaining.value;
          }
          if !current {
            return spent, FAILURE_RETRY_AFTER_SECONDS;
          }
          failures := if failures < U32_MAX then failures + 1 else U32_MAX;
          if wasProbe || failures >= FAILURE_THRESHOLD {
            retryAfter := OpenUntilAtLeast(now, nextCooldown);
          } else {
            retryAfter := FAILURE_RETRY_AFTER_SECONDS;
          }
      }
    }
  }
}
