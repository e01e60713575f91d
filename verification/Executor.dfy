/**
 The idempotent command executor.  Each submission runs an unlocked look at the stored results
 (for some commands), takes the command's advisory lock, looks again, dispatches, and stores the
 result in the transaction that holds the effect.  Submissions interleave at every step and may
 be cancelled at any of them.  Dispatch, hashing, locking keys and sealing are parameters.
 */
module Executor {
  import opened Options
  import opened Json

  datatype Kind = CreateCheckout | PrepareLocks | OtherKind

  datatype Command = Command(actor: string, id: string, aggregate: string, kind: Kind, payment: string, input: string)

  type Key = (string, string)

  function KeyOf(c: Command): Key { (c.actor, c.id) }

  datatype Cipher = Cipher(
    seal: (string, string, string, nat) -> string,
    open: (string, string, string) -> Option<string>)

  // What the executor is configured with; `locks` is absent when the Locks rail is off.
  datatype World = World(hash: Command -> string, lock: Key -> int, locks: Option<Cipher>)

  // Hashes tell inputs apart; a seal opens for the payment and buyer it was made for.
  ghost predicate Ideal(w: World) {
    && (forall c, d :: KeyOf(c) == KeyOf(d) && w.hash(c) == w.hash(d) ==> c == d)
    && (w.locks.Some? ==> forall p, a, r, n ::
          w.locks.value.open(p, a, w.locks.value.seal(p, a, r, n)) == Some(r))
  }

  // -------------------------------------------------------------------------
  // Stored forms
  // -------------------------------------------------------------------------

  const RESULT := "result"
  const REFERENCE := "client_reference"
  const SEALED := "client_reference_sealed"
  const ORDERS := "orders"
  const ADDRESS := "delivery_address"

  function SuccessBody(c: Command, revision: int, events: seq<Value>, result: Value): Value {
    Object(map["ok" := Bool(true), "version" := Number(1), "command_id" := String(c.id),
               "aggregate_id" := String(c.aggregate), "revision" := Number(revision),
               "event_ids" := Array(events), RESULT := result])
  }

  // The durable form of a prepare result: the reference is replaced by its seal.
  function Seal(k: Cipher, c: Command, body: Value, nonce: nat): Option<Value> {
    if !c.kind.PrepareLocks? then None
    else
      var result := Get(body, RESULT);
      if result.None? then None
      else
        var reference := Get(result.value, REFERENCE);
        if reference.None? || !reference.value.String? then None
        else
          var sealed := k.seal(c.payment, c.actor, reference.value.s, nonce);
          Some(Object(body.fields[RESULT := Object((result.value.fields - {REFERENCE})[SEALED := String(sealed)])]))
  }

  function Unseal(k: Cipher, c: Command, stored: Value): Option<Value> {
    if !c.kind.PrepareLocks? then None
    else
      var result := Get(stored, RESULT);
      if result.None? then None
      else
        var sealed := Get(result.value, SEALED);
        if sealed.None? || !sealed.value.String? then None
        else
          var reference := k.open(c.payment, c.actor, sealed.value.s);
          if reference.None? then None
          else
            Some(Object(stored.fields[RESULT :=
              Object((result.value.fields - {SEALED})[REFERENCE := String(reference.value)])]))
  }

  // Opening a sealed result gives it back, exactly when it had no sealed field of its own.
  lemma UnsealSeal(w: World, c: Command, body: Value, nonce: nat)
    requires Ideal(w) && w.locks.Some? && Seal(w.locks.value, c, body, nonce).Some?
    ensures var unsealed := Unseal(w.locks.value, c, Seal(w.locks.value, c, body, nonce).value);
            && unsealed.Some?
            && (unsealed == Some(body) <==> SEALED !in body.fields[RESULT].fields)
  {
    var k := w.locks.value;
    var fields := body.fields[RESULT].fields;
    var stored := Seal(k, c, body, nonce).value;
    var sealed := (fields - {REFERENCE})[SEALED := stored.fields[RESULT].fields[SEALED]];
    assert stored.fields[RESULT] == Object(sealed);
    var unsealed := Unseal(k, c, stored).value;
    assert unsealed.fields == body.fields[RESULT := Object((sealed - {SEALED})[REFERENCE := fields[REFERENCE]])];
    if SEALED !in fields {
      assert (sealed - {SEALED})[REFERENCE := fields[REFERENCE]] == fields;
      assert unsealed.fields == body.fields;
    } else {
      assert SEALED !in unsealed.fields[RESULT].fields;
    }
  }

  // The orders without their delivery addresses; none if one of them is not an object.
  function RedactOrders(orders: seq<Value>): Option<seq<Value>> {
    if orders == [] then Some([])
    else
      var rest := RedactOrders(orders[..|orders| - 1]);
      var last := orders[|orders| - 1];
      if rest.None? || !last.Object? then None
      else Some(rest.value + [Object(last.fields - {ADDRESS})])
  }

  function OrdersOf(body: Value): Option<seq<Value>> {
    var result := Get(body, RESULT);
    if result.None? then None
    else
      var orders := Get(result.value, ORDERS);
      if orders.None? || !orders.value.Array? then None else Some(orders.value.items)
  }

  function WithOrders(body: Value, orders: seq<Value>): Value
    requires OrdersOf(body).Some?
  {
    Object(body.fields[RESULT := Object(body.fields[RESULT].fields[ORDERS := Array(orders)])])
  }

  function Redact(body: Value): Option<Value> {
    var orders := OrdersOf(body);
    if orders.None? then None
    else
      var redacted := RedactOrders(orders.value);
      if redacted.None? then None else Some(WithOrders(body, redacted.value))
  }

  // Redaction removes the address from every order and nothing else.
  lemma {:induction false} RedactOrdersRemoves(orders: seq<Value>)
    ensures RedactOrders(orders).Some? <==> forall i :: 0 <= i < |orders| ==> orders[i].Object?
    ensures RedactOrders(orders).Some? ==>
              var r := RedactOrders(orders).value;
              && |r| == |orders|
              && forall i :: 0 <= i < |orders| ==>
                   && orders[i].Object? && r[i].Object? && ADDRESS !in r[i].fields
                   && forall f :: f != ADDRESS ==> Get(r[i], f) == Get(orders[i], f)
    decreases |orders|
  {
    if orders != [] {
      var before := orders[..|orders| - 1];
      RedactOrdersRemoves(before);
      assert forall i :: 0 <= i < |before| ==> before[i] == orders[i];
    }
  }

  // A redacted answer redacts to itself: replays of replays say the same.
  lemma RedactIsStable(body: Value)
    requires Redact(body).Some?
    ensures Redact(Redact(body).value) == Redact(body)
  {
    var orders := OrdersOf(body).value;
    var redacted := RedactOrders(orders).value;
    RedactOrdersRemoves(orders);
    var body' := WithOrders(body, redacted);
    assert OrdersOf(body') == Some(redacted);
    NothingToRedact(redacted);
    assert body'.fields[RESULT].fields[ORDERS := Array(redacted)] == body'.fields[RESULT].fields;
    assert body'.fields[RESULT := body'.fields[RESULT]] == body'.fields;
  }

  lemma {:induction false} NothingToRedact(orders: seq<Value>)
    requires forall i :: 0 <= i < |orders| ==> orders[i].Object? && ADDRESS !in orders[i].fields
    ensures RedactOrders(orders) == Some(orders)
    decreases |orders|
  {
    if orders != [] {
      var last := orders[|orders| - 1];
      NothingToRedact(orders[..|orders| - 1]);
      assert last.fields - {ADDRESS} == last.fields;
      assert orders == orders[..|orders| - 1] + [last];
    }
  }

  method RedactCommandResult(body: Value) returns (r: Option<Value>)
    ensures r == Redact(body)
  {
    var orders := OrdersOf(body);
    if orders.None? {
      return None;
    }
    var redacted, i := [], 0;
    while i < |orders.value|
      invariant 0 <= i <= |orders.value|
      invariant RedactOrders(orders.value[..i]) == Some(redacted)
    {
      assert orders.value[..i + 1][..i] == orders.value[..i];
      if !orders.value[i].Object? {
        RedactOrdersRemoves(orders.value);
        return None;
      }
      redacted := redacted + [Object(orders.value[i].fields - {ADDRESS})];
      i := i + 1;
    }
    assert orders.value[..i] == orders.value;
    r := Some(WithOrders(body, redacted));
  }

  // What is written for an accepted body; none if it cannot be protected.
  function StoredForm(w: World, c: Command, body: Value, nonce: nat): Option<Value> {
    if c.kind.PrepareLocks?
    then if w.locks.None? then None else Seal(w.locks.value, c, body, nonce)
    else Some(body)
  }

  // -------------------------------------------------------------------------
  // One lookup
  // -------------------------------------------------------------------------

  datatype Answer = Accepted(body: Value) | Conflict | Refused | Failed

  datatype Row = Row(hash: string, stored: Value)

  // The answer to a command whose key already has a row.
  function StoredAnswer(w: World, c: Command, row: Row): Answer {
    if row.hash != w.hash(c) then Conflict
    else if c.kind.CreateCheckout? then
      var redacted := Redact(row.stored);
      if redacted.None? then Refused else Accepted(redacted.value)
    else if c.kind.PrepareLocks? then
      if w.locks.None? then Refused
      else
        var unsealed := Unseal(w.locks.value, c, row.stored);
        if unsealed.None? then Refused else Accepted(unsealed.value)
    else Accepted(row.stored)
  }

  // -------------------------------------------------------------------------
  // The protocol
  // -------------------------------------------------------------------------

  // What dispatch came to.  A lost answer is a commit whose confirmation never arrived.
  datatype Outcome =
    | Success(revision: int, events: seq<Value>, result: Value, nonce: nat, lost: bool)
    | Refusal
    | Broken

  datatype Pc = Arrived | Ready | Locked | NotFound | Answered(answer: Answer) | Gone

  datatype Submission = Submission(command: Command, pc: Pc)

  datatype Effect = Effect(command: Command, body: Value)

  datatype State = State(results: map<Key, Row>, effects: seq<Effect>, subs: map<nat, Submission>)

  datatype Event =
    | Arrive(id: nat, command: Command)
    | LookUnlocked(id: nat)
    | SkipUnlocked(id: nat)
    | Lock(id: nat)
    | LookLocked(id: nat)
    | Finish(id: nat, outcome: Outcome)
    | Cancel(id: nat)

  const START := State(map[], [], map[])

  function Move(s: State, id: nat, pc: Pc): State
    requires id in s.subs
  {
    s.(subs := s.subs[id := s.subs[id].(pc := pc)])
  }

  predicate InTransaction(s: State, id: nat) {
    id in s.subs && (s.subs[id].pc.Locked? || s.subs[id].pc.NotFound?)
  }

  predicate LockFree(w: World, s: State, key: Key) {
    forall id | id in s.subs && InTransaction(s, id) :: w.lock(KeyOf(s.subs[id].command)) != w.lock(key)
  }

  // The end of a transaction that found no row.
  function Finished(w: World, s: State, id: nat, outcome: Outcome): State
    requires id in s.subs
  {
    var c := s.subs[id].command;
    match outcome
    case Refusal => Move(s, id, Answered(Refused))
    case Broken => Move(s, id, Answered(Failed))
    case Success(revision, events, result, nonce, lost) =>
      var body := SuccessBody(c, revision, events, result);
      var stored := StoredForm(w, c, body, nonce);
      if stored.None? then Move(s, id, Answered(Refused))
      else if KeyOf(c) in s.results then Move(s, id, Answered(Failed))
      else
        Move(State(s.results[KeyOf(c) := Row(w.hash(c), stored.value)], s.effects + [Effect(c, body)], s.subs),
             id, if lost then Gone else Answered(Accepted(body)))
  }

  function Step(w: World, s: State, e: Event): State {
    if e.Arrive? then
      if e.id in s.subs then s else s.(subs := s.subs[e.id := Submission(e.command, Arrived)])
    else if e.id !in s.subs then s
    else
      var sub := s.subs[e.id];
      var key := KeyOf(sub.command);
      match e
      case SkipUnlocked(id) => if sub.pc.Arrived? then Move(s, id, Ready) else s
      case LookUnlocked(id) =>
        if !sub.pc.Arrived? then s
        else if key in s.results then Move(s, id, Answered(StoredAnswer(w, sub.command, s.results[key])))
        else Move(s, id, Ready)
      case Lock(id) => if sub.pc.Ready? && LockFree(w, s, key) then Move(s, id, Locked) else s
      case LookLocked(id) =>
        if !sub.pc.Locked? then s
        else if key in s.results then Move(s, id, Answered(StoredAnswer(w, sub.command, s.results[key])))
        else Move(s, id, NotFound)
      case Finish(id, outcome) => if sub.pc.NotFound? then Finished(w, s, id, outcome) else s
      case Cancel(id) => if sub.pc.Answered? then s else Move(s, id, Gone)
      case Arrive(_, _) => s
  }

  function Run(w: World, run: seq<Event>): State
    decreases |run|
  {
    if run == [] then START else Step(w, Run(w, run[..|run| - 1]), run[|run| - 1])
  }

  // -------------------------------------------------------------------------
  // The atomic idempotent store
  // -------------------------------------------------------------------------

  datatype Entry = Entry(command: Command, body: Value, nonce: nat)

  type Store = map<Key, Entry>

  // What a replay of an accepted command is told: its body, checkout orders redacted.
  function Replay(c: Command, body: Value): Answer {
    if !c.kind.CreateCheckout? then Accepted(body)
    else
      var redacted := Redact(body);
      if redacted.None? then Refused else Accepted(redacted.value)
  }

  // One submission, all at once.
  function Submit(w: World, a: Store, c: Command, outcome: Outcome): (Store, Answer) {
    if KeyOf(c) in a then (a, if a[KeyOf(c)].command == c then Replay(c, a[KeyOf(c)].body) else Conflict)
    else
      match outcome
      case Refusal => (a, Refused)
      case Broken => (a, Failed)
      case Success(revision, events, result, nonce, _) =>
        var body := SuccessBody(c, revision, events, result);
        if StoredForm(w, c, body, nonce).None? then (a, Refused)
        else (a[KeyOf(c) := Entry(c, body, nonce)], Accepted(body))
  }

  // The submission an event settles, if any, with the outcome that matters.
  function Settles(s: State, e: Event): Option<(Command, Outcome)> {
    if e.Arrive? || e.id !in s.subs then None
    else
      var sub := s.subs[e.id];
      if (e.LookUnlocked? && sub.pc.Arrived?) || (e.LookLocked? && sub.pc.Locked?)
      then if KeyOf(sub.command) in s.results then Some((sub.command, Refusal)) else None
      else if e.Finish? && sub.pc.NotFound? then Some((sub.command, e.outcome))
      else None
  }

  function AtomicStep(w: World, a: Store, s: State, e: Event): Store {
    var settled := Settles(s, e);
    if settled.None? then a else Submit(w, a, settled.value.0, settled.value.1).0
  }

  function AtomicRun(w: World, run: seq<Event>): Store
    decreases |run|
  {
    if run == [] then map[]
    else
      var before := run[..|run| - 1];
      AtomicStep(w, AtomicRun(w, before), Run(w, before), run[|run| - 1])
  }

  // Prepare handlers answer with a reference and no sealed field.
  predicate Handled(s: State, e: Event) {
    (e.Finish? && e.outcome.Success? && e.id in s.subs && s.subs[e.id].command.kind.PrepareLocks?)
    ==> Get(e.outcome.result, SEALED).None?
  }

  predicate HandledRun(w: World, run: seq<Event>) {
    forall i :: 0 <= i < |run| ==> Handled(Run(w, run[..i]), run[i])
  }

  // -------------------------------------------------------------------------
  // Refinement
  // -------------------------------------------------------------------------

  // A row is the stored form of the entry it stands for.
  predicate Stands(w: World, row: Row, entry: Entry) {
    && row.hash == w.hash(entry.command)
    && StoredForm(w, entry.command, entry.body, entry.nonce) == Some(row.stored)
    && (entry.command.kind.PrepareLocks? ==>
          Get(entry.body, RESULT).Some? && Get(entry.body.fields[RESULT], SEALED).None?)
  }

  ghost predicate Same(w: World, s: State, a: Store) {
    && s.results.Keys == a.Keys
    && (forall key :: key in a ==> KeyOf(a[key].command) == key && Stands(w, s.results[key], a[key]))
  }

  // Transactions on one key exclude each other, and one that found no row still has none.
  ghost predicate Exclusive(w: World, s: State) {
    && (forall i, j | InTransaction(s, i) && InTransaction(s, j) ::
          w.lock(KeyOf(s.subs[i].command)) == w.lock(KeyOf(s.subs[j].command)) ==> i == j)
    && (forall id :: id in s.subs && s.subs[id].pc.NotFound? ==> KeyOf(s.subs[id].command) !in s.results)
  }

  lemma MoveKeeps(w: World, s: State, s': State, id: nat, pc: Pc)
    requires Exclusive(w, s) && id in s.subs && s' == Move(s, id, pc)
    requires pc.Locked? ==> LockFree(w, s, KeyOf(s.subs[id].command))
    requires pc.NotFound? ==> s.subs[id].pc.Locked? && KeyOf(s.subs[id].command) !in s.results
    ensures Exclusive(w, s')
  {
  }

  lemma CommitKeeps(w: World, s: State, s': State, id: nat, row: Row, pc: Pc)
    requires Exclusive(w, s) && id in s.subs && s.subs[id].pc.NotFound? && (pc.Gone? || pc.Answered?)
    requires s'.results == s.results[KeyOf(s.subs[id].command) := row]
    requires s'.subs == s.subs[id := s.subs[id].(pc := pc)]
    ensures Exclusive(w, s')
  {
  }

  lemma StepKeepsExclusive(w: World, s: State, e: Event)
    requires Exclusive(w, s)
    ensures Exclusive(w, Step(w, s, e))
  {
    var s' := Step(w, s, e);
    if e.Arrive? {
      forall i | InTransaction(s', i) ensures InTransaction(s, i) {
      }
    } else if s' != s {
      var sub := s.subs[e.id];
      if s'.results == s.results && s'.subs[e.id].pc != sub.pc {
        MoveKeeps(w, s, s', e.id, s'.subs[e.id].pc);
      } else if e.Finish? {
        CommitKeeps(w, s, s', e.id, s'.results[KeyOf(sub.command)], s'.subs[e.id].pc);
      }
    }
  }

  // A stored row answers as the entry it stands for would.
  lemma AnswersAgree(w: World, c: Command, row: Row, entry: Entry)
    requires Ideal(w) && Stands(w, row, entry) && KeyOf(c) == KeyOf(entry.command)
    ensures StoredAnswer(w, c, row) == if entry.command == c then Replay(c, entry.body) else Conflict
  {
    if entry.command == c && c.kind.PrepareLocks? {
      UnsealSeal(w, c, entry.body, entry.nonce);
    }
  }

  // What one event does, seen from the atomic store: it either settles a submission with the
  // store's own answer, or changes nothing the store can see.
  ghost predicate Simulates(w: World, s: State, a: Store, e: Event) {
    var s', a', settled := Step(w, s, e), AtomicStep(w, a, s, e), Settles(s, e);
    && Same(w, s', a')
    && (settled.None? ==> a' == a)
    && (a' == a ==> s'.results == s.results && s'.effects == s.effects)
    && (settled.Some? ==>
          s'.subs[e.id].pc == Answered(Submit(w, a, settled.value.0, settled.value.1).1)
          || (s'.subs[e.id].pc.Gone? && e.Finish? && e.outcome.Success? && e.outcome.lost))
  }

  lemma LookSimulates(w: World, s: State, a: Store, e: Event)
    requires Ideal(w) && Same(w, s, a) && (e.LookUnlocked? || e.LookLocked?)
    ensures Simulates(w, s, a, e)
  {
    if Settles(s, e).Some? {
      var c := s.subs[e.id].command;
      AnswersAgree(w, c, s.results[KeyOf(c)], a[KeyOf(c)]);
    }
  }

  lemma FinishSimulates(w: World, s: State, a: Store, e: Event)
    requires Ideal(w) && Same(w, s, a) && Exclusive(w, s) && e.Finish? && Handled(s, e)
    ensures Simulates(w, s, a, e)
  {
    if Settles(s, e).Some? && e.outcome.Success? {
      var c, o := s.subs[e.id].command, e.outcome;
      var body := SuccessBody(c, o.revision, o.events, o.result);
      assert Get(body, RESULT) == Some(o.result);
      if StoredForm(w, c, body, o.nonce).Some? {
        AcceptKeepsSame(w, s, a, Step(w, s, e), Entry(c, body, o.nonce));
      }
    }
  }

  lemma AcceptKeepsSame(w: World, s: State, a: Store, s': State, entry: Entry)
    requires Same(w, s, a) && StoredForm(w, entry.command, entry.body, entry.nonce).Some?
    requires var row := Row(w.hash(entry.command), StoredForm(w, entry.command, entry.body, entry.nonce).value);
             s'.results == s.results[KeyOf(entry.command) := row] && Stands(w, row, entry)
    ensures Same(w, s', a[KeyOf(entry.command) := entry])
  {
  }

  lemma EventSimulates(w: World, s: State, a: Store, e: Event)
    requires Ideal(w) && Same(w, s, a) && Exclusive(w, s) && Handled(s, e)
    ensures Simulates(w, s, a, e)
  {
    if e.LookUnlocked? || e.LookLocked? {
      LookSimulates(w, s, a, e);
    } else if e.Finish? {
      FinishSimulates(w, s, a, e);
    }
  }

  lemma {:induction false} RunSimulates(w: World, run: seq<Event>)
    requires Ideal(w) && HandledRun(w, run)
    ensures Same(w, Run(w, run), AtomicRun(w, run)) && Exclusive(w, Run(w, run))
    decreases |run|
  {
    if run != [] {
      var before, last := run[..|run| - 1], run[|run| - 1];
      assert HandledRun(w, before) by {
        forall i | 0 <= i < |before| ensures Handled(Run(w, before[..i]), before[i]) {
          assert before[..i] == run[..i];
        }
      }
      RunSimulates(w, before);
      EventSimulates(w, Run(w, before), AtomicRun(w, before), last);
      StepKeepsExclusive(w, Run(w, before), last);
    }
  }

  // The executor refines the atomic store: in every run, every event settles a submission with the
  // answer the store gives at that moment, or is invisible to it.
  lemma RefinesAtomicStore(w: World, run: seq<Event>, e: Event)
    requires Ideal(w) && HandledRun(w, run) && Handled(Run(w, run), e)
    ensures Simulates(w, Run(w, run), AtomicRun(w, run), e)
  {
    RunSimulates(w, run);
    EventSimulates(w, Run(w, run), AtomicRun(w, run), e);
  }

  // -------------------------------------------------------------------------
  // At most one effect, and rows that never change
  // -------------------------------------------------------------------------

  function EffectsOn(effects: seq<Effect>, key: Key): nat
    decreases |effects|
  {
    if effects == [] then 0
    else EffectsOn(effects[..|effects| - 1], key) + if KeyOf(effects[|effects| - 1].command) == key then 1 else 0
  }

  lemma StepEffects(w: World, s: State, e: Event, key: Key)
    ensures var s' := Step(w, s, e);
            && (key in s.results ==> key in s'.results && s'.results[key] == s.results[key])
            && EffectsOn(s'.effects, key) - EffectsOn(s.effects, key)
                 == (if key in s'.results && key !in s.results then 1 else 0)
  {
    var s' := Step(w, s, e);
    if s'.effects != s.effects {
      assert s'.effects[..|s'.effects| - 1] == s.effects;
    }
  }

  // Whatever the interleaving, a key has exactly as many committed effects as rows: at most one.
  lemma {:induction false} OneEffect(w: World, run: seq<Event>, key: Key)
    ensures EffectsOn(Run(w, run).effects, key) == if key in Run(w, run).results then 1 else 0
    decreases |run|
  {
    if run != [] {
      OneEffect(w, run[..|run| - 1], key);
      StepEffects(w, Run(w, run[..|run| - 1]), run[|run| - 1], key);
    }
  }

  lemma {:induction false} RowsStay(w: World, run: seq<Event>, more: seq<Event>, key: Key)
    requires key in Run(w, run).results
    ensures key in Run(w, run + more).results && Run(w, run + more).results[key] == Run(w, run).results[key]
    decreases |more|
  {
    if more == [] {
      assert run + more == run;
    } else {
      var most := more[..|more| - 1];
      RowsStay(w, run, most, key);
      assert (run + more)[..|run + more| - 1] == run + most;
      StepEffects(w, Run(w, run + most), more[|more| - 1], key);
    }
  }

  // The unlocked look answers what a locked look at any later moment would.
  lemma UnlockedLookIsFinal(w: World, run: seq<Event>, more: seq<Event>, id: nat, later: nat)
    requires id in Run(w, run).subs && Run(w, run).subs[id].pc.Arrived?
    requires KeyOf(Run(w, run).subs[id].command) in Run(w, run).results
    requires later in Run(w, run + more).subs && Run(w, run + more).subs[later].pc.Locked?
    requires Run(w, run + more).subs[later].command == Run(w, run).subs[id].command
    ensures Step(w, Run(w, run), LookUnlocked(id)).subs[id].pc
            == Step(w, Run(w, run + more), LookLocked(later)).subs[later].pc
  {
    RowsStay(w, run, more, KeyOf(Run(w, run).subs[id].command));
  }

  // -------------------------------------------------------------------------
  // One submission, without interference
  // -------------------------------------------------------------------------

  class CommandTable {
    var results: map<Key, Row>
    var effects: seq<Effect>

    constructor ()
      ensures results == map[] && effects == []
    {
      results, effects := map[], [];
    }

    ghost predicate Represents(w: World, a: Store)
      reads this
    {
      Same(w, State(results, effects, map[]), a)
    }

    // Answers as the atomic store does, and stores what it stores.
    method Execute(w: World, c: Command, unlocked: bool, outcome: Outcome, ghost a: Store)
      returns (answer: Answer)
      requires Ideal(w) && Represents(w, a)
      requires c.kind.PrepareLocks? && outcome.Success? ==> Get(outcome.result, SEALED).None?
      modifies this
      ensures answer == Submit(w, a, c, outcome).1
      ensures Represents(w, Submit(w, a, c, outcome).0)
      ensures effects == old(effects) || (KeyOf(c) !in old(results) && |effects| == |old(effects)| + 1)
      ensures !answer.Accepted? || KeyOf(c) in old(results) ==> results == old(results) && effects == old(effects)
    {
      var key := KeyOf(c);
      if unlocked && key in results {
        AnswersAgree(w, c, results[key], a[key]);
        return StoredAnswer(w, c, results[key]);
      }
      if key in results {
        AnswersAgree(w, c, results[key], a[key]);
        return StoredAnswer(w, c, results[key]);
      }
      match outcome {
        case Refusal => return Refused;
        case Broken => return Failed;
        case Success(revision, events, result, nonce, _) =>
          var body := SuccessBody(c, revision, events, result);
          var stored := StoredForm(w, c, body, nonce);
          if stored.None? {
            return Refused;
          }
          assert Get(body, RESULT) == Some(result);
          results := results[key := Row(w.hash(c), stored.value)];
          effects := effects + [Effect(c, body)];
          return Accepted(body);
      }
    }
  }
}
