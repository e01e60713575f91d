/**
 Single flight by entrant count: one gate per actor and command id, kept while any submission
 holds or waits for it.  Leaving is two steps, releasing the gate and then giving up the place,
 and either may be interleaved with anything other submissions do.
 */
module CommandFlights {

  type Key = (string, string)

  datatype Slot = Slot(gate: nat, entrants: int)

  datatype Phase = Waiting | Holding | Leaving

  // A submission inside a flight: the gate it cloned and how far it got.
  datatype Entrant = Entrant(key: Key, gate: nat, phase: Phase)

  datatype Flights = Flights(slots: map<Key, Slot>, live: map<nat, Entrant>, next: nat)

  datatype Event = Enter(id: nat, key: Key) | Acquire(id: nat) | Release(id: nat) | Leave(id: nat)

  // Takes a place in the key's slot, creating it with the next gate if it is not there.
  function Entered(slots: map<Key, Slot>, key: Key, next: nat): map<Key, Slot> {
    var slot := if key in slots then slots[key] else Slot(next, 0);
    slots[key := slot.(entrants := slot.entrants + 1)]
  }

  // Gives up a place; the last one out removes the slot.
  function Left(slots: map<Key, Slot>, key: Key): map<Key, Slot> {
    if key !in slots then slots
    else if slots[key].entrants - 1 == 0 then slots - {key}
    else slots[key := slots[key].(entrants := slots[key].entrants - 1)]
  }

  predicate GateFree(f: Flights, gate: nat) {
    forall id :: id in f.live && f.live[id].gate == gate ==> !f.live[id].phase.Holding?
  }

  function Step(f: Flights, e: Event): Flights {
    match e
    case Enter(id, key) =>
      if id in f.live then f
      else
        var slots := Entered(f.slots, key, f.next);
        Flights(slots, f.live[id := Entrant(key, slots[key].gate, Waiting)], f.next + 1)
    case Acquire(id) =>
      if id in f.live && f.live[id].phase.Waiting? && GateFree(f, f.live[id].gate)
      then f.(live := f.live[id := f.live[id].(phase := Holding)]) else f
    case Release(id) =>
      if id in f.live && !f.live[id].phase.Leaving?
      then f.(live := f.live[id := f.live[id].(phase := Leaving)]) else f
    case Leave(id) =>
      if id in f.live && f.live[id].phase.Leaving?
      then f.(slots := Left(f.slots, f.live[id].key), live := f.live - {id}) else f
  }

  const START := Flights(map[], map[], 0)

  function Run(run: seq<Event>): Flights
    decreases |run|
  {
    if run == [] then START else Step(Run(run[..|run| - 1]), run[|run| - 1])
  }

  function Entrants(f: Flights, key: Key): set<nat> {
    set id | id in f.live && f.live[id].key == key
  }

  // Every entrant's gate is the one its key's slot has.
  ghost predicate Shared(f: Flights) {
    forall id :: id in f.live ==>
      f.live[id].key in f.slots && f.slots[f.live[id].key].gate == f.live[id].gate
  }

  ghost predicate Counted(f: Flights) {
    forall key :: key in f.slots ==> f.slots[key].entrants == |Entrants(f, key)| && Entrants(f, key) != {}
  }

  ghost predicate OwnGates(f: Flights) {
    && (forall key :: key in f.slots ==> f.slots[key].gate < f.next)
    && (forall k, l :: k in f.slots && l in f.slots && f.slots[k].gate == f.slots[l].gate ==> k == l)
  }

  predicate Holds(f: Flights, id: nat) { id in f.live && f.live[id].phase.Holding? }

  ghost predicate OneHolder(f: Flights) {
    forall i, j :: Holds(f, i) && Holds(f, j) && f.live[i].gate == f.live[j].gate ==> i == j
  }

  ghost predicate Inv(f: Flights) {
    Shared(f) && Counted(f) && OwnGates(f) && OneHolder(f)
  }

  // Changing one entrant's phase touches no slot.
  lemma PhaseKeeps(f: Flights, f': Flights, id: nat, phase: Phase)
    requires Inv(f) && id in f.live && f' == f.(live := f.live[id := f.live[id].(phase := phase)])
    requires phase.Holding? ==> GateFree(f, f.live[id].gate)
    ensures Inv(f')
  {
    PhaseCounts(f, f', id, phase);
    PhaseHolds(f, f', id, phase);
  }

  lemma PhaseCounts(f: Flights, f': Flights, id: nat, phase: Phase)
    requires Shared(f) && Counted(f) && id in f.live
    requires f' == f.(live := f.live[id := f.live[id].(phase := phase)])
    ensures Shared(f') && Counted(f')
  {
    forall key ensures Entrants(f', key) == Entrants(f, key) {
    }
  }

  lemma PhaseHolds(f: Flights, f': Flights, id: nat, phase: Phase)
    requires OneHolder(f) && id in f.live && f' == f.(live := f.live[id := f.live[id].(phase := phase)])
    requires phase.Holding? ==> GateFree(f, f.live[id].gate)
    ensures OneHolder(f')
  {
  }

  lemma EnterKeeps(f: Flights, id: nat, key: Key)
    requires Inv(f) && id !in f.live
    ensures Inv(Step(f, Enter(id, key)))
  {
    var f' := Step(f, Enter(id, key));
    EnterCounts(f, f', id, key);
    EnterShares(f, f', id, key);
  }

  lemma EnterShares(f: Flights, f': Flights, id: nat, key: Key)
    requires Shared(f) && OwnGates(f) && OneHolder(f) && id !in f.live && f' == Step(f, Enter(id, key))
    ensures Shared(f') && OwnGates(f') && OneHolder(f')
  {
    forall i | Holds(f', i) ensures Holds(f, i) && f'.live[i] == f.live[i] {
    }
  }

  lemma EnterCounts(f: Flights, f': Flights, id: nat, key: Key)
    requires Shared(f) && Counted(f) && id !in f.live && f' == Step(f, Enter(id, key))
    ensures Counted(f')
  {
    assert key !in f.slots ==> Entrants(f, key) == {};
    assert Entrants(f', key) == Entrants(f, key) + {id};
    forall k | k in f'.slots && k != key
      ensures f'.slots[k].entrants == |Entrants(f', k)| && Entrants(f', k) != {}
    {
      assert Entrants(f', k) == Entrants(f, k);
    }
  }

  lemma LeaveKeeps(f: Flights, id: nat)
    requires Inv(f) && id in f.live && f.live[id].phase.Leaving?
    ensures Inv(Step(f, Leave(id)))
  {
    var f', key := Step(f, Leave(id)), f.live[id].key;
    LeaveCounts(f, f', id);
    forall i | Holds(f', i) ensures Holds(f, i) {
    }
  }

  lemma LeaveCounts(f: Flights, f': Flights, id: nat)
    requires Shared(f) && Counted(f) && id in f.live && f.live[id].phase.Leaving? && f' == Step(f, Leave(id))
    ensures Counted(f') && Shared(f')
  {
    var key := f.live[id].key;
    var entrants := Entrants(f, key);
    assert id in entrants;
    assert Entrants(f', key) == entrants - {id};
    assert |entrants - {id}| == |entrants| - 1;
    forall k | k in f'.slots && k != key
      ensures f'.slots[k].entrants == |Entrants(f', k)| && Entrants(f', k) != {}
    {
      assert Entrants(f', k) == Entrants(f, k);
    }
    forall other | other in f'.live
      ensures f'.live[other].key in f'.slots && f'.slots[f'.live[other].key].gate == f'.live[other].gate
    {
      if f.live[other].key == key {
        assert other in entrants - {id};
      }
    }
  }

  lemma StepKeeps(f: Flights, e: Event)
    requires Inv(f)
    ensures Inv(Step(f, e))
  {
    if Step(f, e) != f {
      match e {
        case Enter(id, key) => EnterKeeps(f, id, key);
        case Acquire(id) => PhaseKeeps(f, Step(f, e), id, Holding);
        case Release(id) => PhaseKeeps(f, Step(f, e), id, Leaving);
        case Leave(id) => LeaveKeeps(f, id);
      }
    }
  }

  lemma {:induction false} RunKeeps(run: seq<Event>)
    ensures Inv(Run(run))
    decreases |run|
  {
    if run != [] {
      RunKeeps(run[..|run| - 1]);
      StepKeeps(Run(run[..|run| - 1]), run[|run| - 1]);
    }
  }

  // For every interleaving: entrants of a key share one gate, at most one holds it, the count is
  // the number of live entrants and so never underflows, and no key outlives its entrants.
  lemma SingleFlight(run: seq<Event>)
    ensures var f := Run(run);
            && (forall i, j | i in f.live && j in f.live && f.live[i].key == f.live[j].key ::
                  f.live[i].gate == f.live[j].gate && (Holds(f, i) && Holds(f, j) ==> i == j))
            && (forall key | key in f.slots :: f.slots[key].entrants == |Entrants(f, key)| > 0)
            && (forall id | id in f.live :: f.live[id].key in f.slots)
            && (f.live == map[] ==> f.slots == map[])
  {
    RunKeeps(run);
    var f := Run(run);
    forall key | key in f.slots ensures |Entrants(f, key)| > 0 && f.live != map[] {
      var id :| id in Entrants(f, key);
    }
  }

  // Other keys never wait: a gate is free unless an entrant of the same key holds it.
  lemma OnlyTheSameKeyBlocks(run: seq<Event>, id: nat)
    requires var f := Run(run); id in f.live && f.live[id].phase.Waiting?
    requires var f := Run(run);
             forall j | j in f.live && f.live[j].key == f.live[id].key :: !f.live[j].phase.Holding?
    ensures Step(Run(run), Acquire(id)).live[id].phase.Holding?
  {
    RunKeeps(run);
  }

  // -------------------------------------------------------------------------
  // The slot map as the service keeps it
  // -------------------------------------------------------------------------

  class FlightTable {
    var slots: map<Key, Slot>
    var next: nat

    constructor ()
      ensures slots == map[] && next == 0
    {
      slots, next := map[], 0;
    }

    method Enter(key: Key) returns (gate: nat)
      modifies this
      ensures slots == Entered(old(slots), key, old(next)) && next == old(next) + 1
      ensures gate == slots[key].gate
    {
      if key !in slots {
        slots := slots[key := Slot(next, 0)];
      }
      next := next + 1;
      slots := slots[key := slots[key].(entrants := slots[key].entrants + 1)];
      gate := slots[key].gate;
    }

    method Leave(key: Key)
      modifies this
      ensures slots == Left(old(slots), key) && next == old(next)
    {
      if key in slots {
        slots := slots[key := slots[key].(entrants := slots[key].entrants - 1)];
        if slots[key].entrants == 0 {
          slots := slots - {key};
        }
      }
    }
  }
}

/**
 Single flight by reference count: the address-search map keeps a gate while any lookup still
 points at it.  Dropping the pointer and looking at the map are separate steps, so a lookup may
 find a gate that a later lookup put there.
 */
module SearchFlights {
  type Key = string

  // The guard is dropped before the pointer, the pointer before the map is looked at.
  datatype Phase = Waiting | Holding | Done | PointerGone

  datatype Lookup = Lookup(key: Key, gate: nat, phase: Phase)

  datatype Flights = Flights(gates: map<Key, nat>, live: map<nat, Lookup>, next: nat)

  datatype Event = Enter(id: nat, key: Key) | Acquire(id: nat) | Finish(id: nat) | DropPointer(id: nat) | Sweep(id: nat)

  function Pointers(f: Flights, gate: nat): set<nat> {
    set id | id in f.live && f.live[id].gate == gate && !f.live[id].phase.PointerGone?
  }

  // The map's own pointer and those of the lookups.
  function StrongCount(f: Flights, key: Key): nat
    requires key in f.gates
  {
    1 + |Pointers(f, f.gates[key])|
  }

  predicate GateFree(f: Flights, gate: nat) {
    forall id :: id in f.live && f.live[id].gate == gate ==> !f.live[id].phase.Holding?
  }

  function Step(f: Flights, e: Event): Flights {
    match e
    case Enter(id, key) =>
      if id in f.live then f
      else
        var gate := if key in f.gates then f.gates[key] else f.next;
        Flights(f.gates[key := gate], f.live[id := Lookup(key, gate, Waiting)], f.next + 1)
    case Acquire(id) =>
      if id in f.live && f.live[id].phase.Waiting? && GateFree(f, f.live[id].gate)
      then f.(live := f.live[id := f.live[id].(phase := Holding)]) else f
    case Finish(id) =>
      if id in f.live && (f.live[id].phase.Waiting? || f.live[id].phase.Holding?)
      then f.(live := f.live[id := f.live[id].(phase := Done)]) else f
    case DropPointer(id) =>
      if id in f.live && f.live[id].phase.Done?
      then f.(live := f.live[id := f.live[id].(phase := PointerGone)]) else f
    case Sweep(id) =>
      if id in f.live && f.live[id].phase.PointerGone?
      then
        var key := f.live[id].key;
        var idle := key in f.gates && StrongCount(f, key) == 1;
        f.(gates := if idle then f.gates - {key} else f.gates, live := f.live - {id})
      else f
  }

  const START := Flights(map[], map[], 0)

  function Run(run: seq<Event>): Flights
    decreases |run|
  {
    if run == [] then START else Step(Run(run[..|run| - 1]), run[|run| - 1])
  }

  predicate Points(f: Flights, id: nat) {
    id in f.live && !f.live[id].phase.PointerGone?
  }

  // Some lookup will still look at the key's entry.
  ghost predicate Watched(f: Flights, key: Key) {
    exists id :: id in f.live && f.live[id].key == key
  }

  // Every pointer a lookup has is the map's pointer for its key.
  ghost predicate Shared(f: Flights) {
    forall id :: Points(f, id) ==> f.live[id].key in f.gates && f.gates[f.live[id].key] == f.live[id].gate
  }

  ghost predicate OwnGates(f: Flights) {
    && (forall key :: key in f.gates ==> Watched(f, key) && f.gates[key] < f.next)
    && (forall k, l :: k in f.gates && l in f.gates && f.gates[k] == f.gates[l] ==> k == l)
  }

  predicate Holds(f: Flights, id: nat) { id in f.live && f.live[id].phase.Holding? }

  ghost predicate OneHolder(f: Flights) {
    forall i, j :: Holds(f, i) && Holds(f, j) && f.live[i].gate == f.live[j].gate ==> i == j
  }

  ghost predicate Inv(f: Flights) {
    Shared(f) && OwnGates(f) && OneHolder(f)
  }

  lemma StillWatched(f: Flights, f': Flights, key: Key, id: nat)
    requires id in f'.live && f'.live[id].key == key
    ensures Watched(f', key)
  {
  }

  // A lookup moving on touches no entry of the map.
  lemma PhaseKeeps(f: Flights, f': Flights, id: nat, phase: Phase)
    requires Inv(f) && id in f.live && f' == f.(live := f.live[id := f.live[id].(phase := phase)])
    requires Points(f, id) && (phase.Holding? ==> GateFree(f, f.live[id].gate))
    ensures Inv(f')
  {
    forall key | key in f.gates ensures Watched(f', key) {
      assert Watched(f, key);
      var other :| other in f.live && f.live[other].key == key;
      StillWatched(f, f', key, other);
    }
    forall i | Points(f', i) ensures Points(f, i) {
    }
    forall i, j | Holds(f', i) && Holds(f', j) && f'.live[i].gate == f'.live[j].gate ensures i == j {
      assert i != id ==> Holds(f, i);
      assert j != id ==> Holds(f, j);
    }
  }

  lemma EnterKeeps(f: Flights, id: nat, key: Key)
    requires Inv(f) && id !in f.live
    ensures Inv(Step(f, Enter(id, key)))
  {
    var f' := Step(f, Enter(id, key));
    forall k | k in f'.gates ensures Watched(f', k) {
      if k == key {
        StillWatched(f, f', k, id);
      } else {
        assert Watched(f, k);
        var other :| other in f.live && f.live[other].key == k;
        StillWatched(f, f', k, other);
      }
    }
    forall i | Points(f', i) && i != id ensures Points(f, i) {
    }
    forall i | Holds(f', i) ensures Holds(f, i) {
    }
  }

  lemma SweepKeeps(f: Flights, id: nat)
    requires Inv(f) && id in f.live && f.live[id].phase.PointerGone?
    ensures Inv(Step(f, Sweep(id)))
  {
    var f', key := Step(f, Sweep(id)), f.live[id].key;
    forall k | k in f'.gates ensures Watched(f', k) {
      assert Watched(f, k);
      if k == key {
        var other :| other in Pointers(f, f.gates[key]);
        assert Points(f, other);
        StillWatched(f, f', k, other);
      } else {
        var other :| other in f.live && f.live[other].key == k;
        StillWatched(f, f', k, other);
      }
    }
    forall i | Points(f', i)
      ensures f'.live[i].key in f'.gates && f'.gates[f'.live[i].key] == f'.live[i].gate
    {
      assert Points(f, i);
      if f.live[i].key == key {
        assert i in Pointers(f, f.gates[key]);
      }
    }
    forall i | Holds(f', i) ensures Holds(f, i) {
    }
  }

  lemma StepKeeps(f: Flights, e: Event)
    requires Inv(f)
    ensures Inv(Step(f, e))
  {
    if Step(f, e) != f {
      match e {
        case Enter(id, key) => EnterKeeps(f, id, key);
        case Acquire(id) => PhaseKeeps(f, Step(f, e), id, Holding);
        case Finish(id) => PhaseKeeps(f, Step(f, e), id, Done);
        case DropPointer(id) => PhaseKeeps(f, Step(f, e), id, PointerGone);
        case Sweep(id) => SweepKeeps(f, id);
      }
    }
  }

  lemma {:induction false} RunKeeps(run: seq<Event>)
    ensures Inv(Run(run))
    decreases |run|
  {
    if run != [] {
      RunKeeps(run[..|run| - 1]);
      StepKeeps(Run(run[..|run| - 1]), run[|run| - 1]);
    }
  }

  // For every interleaving: lookups of a key that point at a gate point at the same one, at most
  // one holds it, the entry stays while anyone points at it and goes with the last lookup.
  lemma SingleFlight(run: seq<Event>)
    ensures var f := Run(run);
            && (forall i, j | Points(f, i) && Points(f, j) && f.live[i].key == f.live[j].key ::
                  f.live[i].gate == f.live[j].gate && (Holds(f, i) && Holds(f, j) ==> i == j))
            && (forall id | Points(f, id) :: f.live[id].key in f.gates)
            && (f.live == map[] ==> f.gates == map[])
  {
    RunKeeps(run);
    var f := Run(run);
    forall key | key in f.gates ensures f.live != map[] {
      assert Watched(f, key);
    }
  }
}
