/**
 Webhook enqueueing.  One endpoint's pass is one transaction under the endpoint's and the
 seller's lock; it reads a page of events and, when the page is short, the highest sequence of
 the log in a second statement, between which other transactions may have committed `late`
 events.  A sequence is drawn when an event is inserted and seen when its transaction commits,
 so sequences may appear in any order: the log lists events as they appear.
 */
module Webhooks {
  import opened Sets

  datatype Ev = Ev(sequence: int, seller: string, at: int)

  datatype Endpoint = Endpoint(seller: string, start: int, cursor: int, deleted: bool)

  datatype Key = Key(endpoint: nat, sequence: int)

  // Delivery rows still to send, rows delivered or dead-lettered, and every insert ever made.
  datatype Deliveries = Deliveries(pending: set<Key>, closed: set<Key>, enqueued: seq<Key>)

  datatype Config = Config(cap: int, batch: int, retention: int)

  datatype State = State(log: seq<Ev>, endpoints: map<nat, Endpoint>, deliveries: Deliveries, clock: int)

  predicate Sane(c: Config) {
    c.cap > 0 && c.batch > 0
  }

  // -------------------------------------------------------------------------
  // One pass
  // -------------------------------------------------------------------------

  predicate Wanted(e: Ev, seller: string, cursor: int, cutoff: int) {
    e.seller == seller && e.sequence > cursor && e.at >= cutoff
  }

  // An event put in its place among rows in order of sequence.
  function Place(rows: seq<Ev>, e: Ev): seq<Ev>
    decreases |rows|
  {
    if rows == [] || rows[|rows| - 1].sequence < e.sequence then rows + [e]
    else Place(rows[..|rows| - 1], e) + [rows[|rows| - 1]]
  }

  // The seller's events past the cursor and in retention, in order of sequence.
  function Due(log: seq<Ev>, seller: string, cursor: int, cutoff: int): seq<Ev>
    decreases |log|
  {
    if log == [] then []
    else
      var due, last := Due(log[..|log| - 1], seller, cursor, cutoff), log[|log| - 1];
      if Wanted(last, seller, cursor, cutoff) then Place(due, last) else due
  }

  function Page(log: seq<Ev>, seller: string, cursor: int, cutoff: int, limit: nat): seq<Ev> {
    var due := Due(log, seller, cursor, cutoff);
    if |due| <= limit then due else due[..limit]
  }

  function MaxSequence(log: seq<Ev>, none: int): int
    decreases |log|
  {
    if log == [] then none
    else
      var rest, last := MaxSequence(log[..|log| - 1], none), log[|log| - 1].sequence;
      if |log| == 1 || last > rest then last else rest
  }

  function Insert(d: Deliveries, k: Key): Deliveries {
    if k in d.pending || k in d.closed then d
    else Deliveries(d.pending + {k}, d.closed, d.enqueued + [k])
  }

  function InsertAll(d: Deliveries, id: nat, rows: seq<Ev>): Deliveries
    decreases |rows|
  {
    if rows == [] then d else Insert(InsertAll(d, id, rows[..|rows| - 1]), Key(id, rows[|rows| - 1].sequence))
  }

  function PendingOf(s: State, seller: string): set<Key> {
    set k | k in s.deliveries.pending && k.endpoint in s.endpoints && s.endpoints[k.endpoint].seller == seller
  }

  function Room(c: Config, s: State, seller: string): int {
    c.cap - |PendingOf(s, seller)|
  }

  function Limit(c: Config, s: State, seller: string): int {
    if Room(c, s, seller) < c.batch then Room(c, s, seller) else c.batch
  }

  // The rows a pass over a live endpoint with room reads.
  function Rows(c: Config, s: State, id: nat, now: int): seq<Ev>
    requires id in s.endpoints && Limit(c, s, s.endpoints[id].seller) > 0
  {
    var e := s.endpoints[id];
    Page(s.log, e.seller, e.cursor, now - c.retention, Limit(c, s, e.seller))
  }

  predicate Idle(c: Config, s: State, id: nat) {
    id !in s.endpoints || s.endpoints[id].deleted || Room(c, s, s.endpoints[id].seller) <= 0
  }

  function NextCursor(rows: seq<Ev>, limit: int, log: seq<Ev>, cursor: int): int {
    if |rows| == limit then (if rows == [] then cursor else rows[|rows| - 1].sequence)
    else
      var max := MaxSequence(log, cursor);
      if max > cursor then max else cursor
  }

  function Pass(c: Config, s: State, id: nat, now: int, late: seq<Ev>): State
    requires Sane(c)
  {
    var s' := s.(log := s.log + late, clock := now);
    if Idle(c, s, id) then s'
    else
      var e, rows := s.endpoints[id], Rows(c, s, id, now);
      s'.(endpoints := s.endpoints[id := e.(cursor := NextCursor(rows, Limit(c, s, e.seller), s'.log, e.cursor))],
          deliveries := InsertAll(s.deliveries, id, rows))
  }

  // -------------------------------------------------------------------------
  // Runs
  // -------------------------------------------------------------------------

  datatype Action =
    | Append(event: Ev)
    | Register(id: nat, seller: string)
    | Delete(id: nat)
    | Close(key: Key)
    | Purge(key: Key)
    | Enqueue(id: nat, now: int, late: seq<Ev>)

  predicate InOrder(rows: seq<Ev>) {
    forall i, j :: 0 <= i < j < |rows| ==> rows[i].sequence < rows[j].sequence
  }

  // Sequences are positive and never drawn twice.
  predicate Numbered(log: seq<Ev>) {
    && (forall i :: 0 <= i < |log| ==> log[i].sequence > 0)
    && (forall i, j :: 0 <= i < j < |log| ==> log[i].sequence != log[j].sequence)
  }

  // Only sequences not yet drawn appear, and time does not go back.
  predicate Possible(s: State, a: Action) {
    match a
    case Append(event) => Numbered(s.log + [event])
    case Enqueue(id, now, late) => Numbered(s.log + late) && s.clock <= now
    case _ => true
  }

  function Step(c: Config, s: State, a: Action): State
    requires Sane(c)
  {
    if !Possible(s, a) then s
    else
      var d := s.deliveries;
      match a
      case Append(event) => s.(log := s.log + [event])
      case Register(id, seller) =>
        if id in s.endpoints then s
        else
          var start := MaxSequence(s.log, 0);
          s.(endpoints := s.endpoints[id := Endpoint(seller, start, start, false)])
      case Delete(id) =>
        if id !in s.endpoints then s
        else
          var own := set k | k in d.pending && k.endpoint == id;
          s.(endpoints := s.endpoints[id := s.endpoints[id].(deleted := true)],
             deliveries := d.(pending := d.pending - own, closed := d.closed + own))
      case Close(key) =>
        if key !in d.pending then s
        else s.(deliveries := d.(pending := d.pending - {key}, closed := d.closed + {key}))
      case Purge(key) => s.(deliveries := d.(closed := d.closed - {key}))
      case Enqueue(id, now, late) => Pass(c, s, id, now, late)
  }

  function Start(now: int): State { State([], map[], Deliveries({}, {}, []), now) }

  function Run(c: Config, now: int, run: seq<Action>): State
    requires Sane(c)
    decreases |run|
  {
    if run == [] then Start(now) else Step(c, Run(c, now, run[..|run| - 1]), run[|run| - 1])
  }

  // -------------------------------------------------------------------------
  // Facts about one page
  // -------------------------------------------------------------------------

  lemma {:induction false} PlaceKeepsOrder(rows: seq<Ev>, e: Ev)
    requires InOrder(rows) && !Listed(rows, e.sequence)
    ensures InOrder(Place(rows, e))
    ensures forall x :: x in Place(rows, e) <==> x in rows || x == e
    decreases |rows|
  {
    if rows != [] && rows[|rows| - 1].sequence >= e.sequence {
      var before, last := rows[..|rows| - 1], rows[|rows| - 1];
      assert rows == before + [last];
      assert forall i :: 0 <= i < |before| ==> before[i] == rows[i];
      PlaceKeepsOrder(before, e);
      var placed := Place(before, e);
      forall i | 0 <= i < |placed| ensures placed[i].sequence < last.sequence {
        assert placed[i] in placed;
      }
    }
  }

  lemma {:induction false} DueIs(log: seq<Ev>, seller: string, cursor: int, cutoff: int)
    requires Numbered(log)
    ensures var due := Due(log, seller, cursor, cutoff);
            && (forall e :: e in due <==> e in log && Wanted(e, seller, cursor, cutoff))
            && InOrder(due)
    decreases |log|
  {
    if log != [] {
      var before, last := log[..|log| - 1], log[|log| - 1];
      DueIs(before, seller, cursor, cutoff);
      var due := Due(before, seller, cursor, cutoff);
      assert log == before + [last];
      forall i | 0 <= i < |due| ensures due[i].sequence != last.sequence {
        assert due[i] in before;
      }
      PlaceKeepsOrder(due, last);
    }
  }

  // Everything due up to the page's last row is on the page, and a short page is all that is due.
  lemma PageIs(log: seq<Ev>, seller: string, cursor: int, cutoff: int, limit: nat)
    requires Numbered(log) && limit > 0
    ensures var page := Page(log, seller, cursor, cutoff, limit);
            && InOrder(page) && |page| <= limit
            && (forall e :: e in page ==> e in log && Wanted(e, seller, cursor, cutoff))
            && (forall e | e in log && Wanted(e, seller, cursor, cutoff) ::
                  |page| < limit || e.sequence <= page[|page| - 1].sequence ==> e in page)
  {
    DueIs(log, seller, cursor, cutoff);
    var due, page := Due(log, seller, cursor, cutoff), Page(log, seller, cursor, cutoff, limit);
    forall e | e in due && |page| == limit && e.sequence <= page[|page| - 1].sequence ensures e in page {
      var i: nat :| i < |due| && due[i] == e;
      assert page[|page| - 1] == due[limit - 1];
    }
  }

  lemma {:induction false} MaxIs(log: seq<Ev>, none: int)
    ensures log == [] ==> MaxSequence(log, none) == none
    ensures log != [] ==> Listed(log, MaxSequence(log, none))
    ensures forall e :: e in log ==> e.sequence <= MaxSequence(log, none)
    decreases |log|
  {
    if log != [] {
      var before, last := log[..|log| - 1], log[|log| - 1];
      assert log == before + [last];
      MaxIs(before, none);
      if |log| > 1 {
        ListedMore(before, [last], MaxSequence(before, none));
      }
      assert log[|log| - 1].sequence == last.sequence;
    }
  }

  lemma ListedMore(log: seq<Ev>, late: seq<Ev>, sequence: int)
    requires Listed(log, sequence)
    ensures Listed(log + late, sequence)
  {
    var i :| 0 <= i < |log| && log[i].sequence == sequence;
    assert (log + late)[i].sequence == sequence;
  }

  function Count(keys: seq<Key>, k: Key): nat
    decreases |keys|
  {
    if keys == [] then 0 else Count(keys[..|keys| - 1], k) + if keys[|keys| - 1] == k then 1 else 0
  }

  predicate Listed(rows: seq<Ev>, sequence: int) {
    exists i :: 0 <= i < |rows| && rows[i].sequence == sequence
  }

  lemma CountLast(keys: seq<Key>, k: Key, l: Key)
    ensures Count(keys + [k], l) == Count(keys, l) + if k == l then 1 else 0
  {
  }

  // Rows never enqueued before all go in, each once.
  lemma {:induction false} InsertsAll(d: Deliveries, id: nat, rows: seq<Ev>, k: Key)
    requires InOrder(rows) && d.pending !! d.closed
    requires forall i :: 0 <= i < |rows| ==> Key(id, rows[i].sequence) !in d.pending + d.closed
    ensures var d' := InsertAll(d, id, rows);
            && d'.closed == d.closed
            && Count(d'.enqueued, k) == Count(d.enqueued, k) + (if k.endpoint == id && Listed(rows, k.sequence) then 1 else 0)
            && (k in d'.pending <==> k in d.pending || (k.endpoint == id && Listed(rows, k.sequence)))
    decreases |rows|
  {
    if rows != [] {
      var before, last := rows[..|rows| - 1], rows[|rows| - 1];
      var key := Key(id, last.sequence);
      InsertsAll(d, id, before, k);
      InsertsAll(d, id, before, key);
      assert !Listed(before, last.sequence);
      assert Listed(rows, k.sequence) <==> Listed(before, k.sequence) || k.sequence == last.sequence by {
        assert rows[|rows| - 1].sequence == last.sequence;
        assert Listed(before, k.sequence) ==> exists i :: 0 <= i < |before| && rows[i].sequence == k.sequence;
      }
      CountLast(InsertAll(d, id, before).enqueued, key, k);
    }
  }

  // -------------------------------------------------------------------------
  // What every run keeps
  // -------------------------------------------------------------------------

  predicate Covered(s: State, k: Key) {
    && k.endpoint in s.endpoints
    && s.endpoints[k.endpoint].start < k.sequence <= s.endpoints[k.endpoint].cursor
  }

  // The highest sequence seen, or 0.
  function Top(log: seq<Ev>): int { MaxSequence(log, 0) }

  // No key is enqueued twice, none but of an event seen in its endpoint's covered range, and none
  // has a row without an insert.
  ghost predicate Books(s: State) {
    && Numbered(s.log)
    && s.deliveries.pending !! s.deliveries.closed
    && (forall k :: Count(s.deliveries.enqueued, k) <= 1)
    && (forall k :: Count(s.deliveries.enqueued, k) == 1 ==> Covered(s, k) && Listed(s.log, k.sequence))
    && (forall k :: k in s.deliveries.pending + s.deliveries.closed ==> Count(s.deliveries.enqueued, k) == 1)
    && (forall id :: id in s.endpoints ==> 0 <= s.endpoints[id].start <= s.endpoints[id].cursor <= Top(s.log))
  }

  // Events seen later have sequences of their own, and can only raise the highest.
  lemma Later(log: seq<Ev>, late: seq<Ev>)
    requires Numbered(log + late)
    ensures Numbered(log) && 0 <= Top(log) <= Top(log + late)
    ensures forall e :: e in late ==> !Listed(log, e.sequence)
  {
    var all := log + late;
    assert forall i :: 0 <= i < |log| ==> all[i] == log[i];
    MaxIs(log, 0);
    MaxIs(all, 0);
    if log != [] {
      var i :| 0 <= i < |log| && log[i].sequence == Top(log);
      assert all[i] in all;
    } else if all != [] {
      assert all[0] in all;
    }
    forall e | e in late ensures !Listed(log, e.sequence) {
      var j: nat :| j < |late| && late[j] == e;
      assert all[|log| + j] == e;
    }
  }

  // The rows of a pass lie past the cursor and are of events it has seen.
  lemma RowsBetween(c: Config, s: State, id: nat, now: int)
    requires Sane(c) && Numbered(s.log) && !Idle(c, s, id)
    ensures var rows, cursor := Rows(c, s, id, now), s.endpoints[id].cursor;
            && InOrder(rows) && |rows| <= Limit(c, s, s.endpoints[id].seller)
            && forall i :: 0 <= i < |rows| ==> cursor < rows[i].sequence && rows[i] in s.log
  {
    var e, rows := s.endpoints[id], Rows(c, s, id, now);
    PageIs(s.log, e.seller, e.cursor, now - c.retention, Limit(c, s, e.seller));
    forall i | 0 <= i < |rows| ensures e.cursor < rows[i].sequence && rows[i] in s.log {
      assert rows[i] in rows;
    }
  }

  lemma CursorAdvances(rows: seq<Ev>, limit: int, log: seq<Ev>, cursor: int)
    requires InOrder(rows) && cursor <= Top(log)
    requires forall i :: 0 <= i < |rows| ==> cursor < rows[i].sequence && rows[i] in log
    ensures var next := NextCursor(rows, limit, log, cursor);
            && cursor <= next <= Top(log)
            && (forall i :: 0 <= i < |rows| ==> rows[i].sequence <= next)
            && (|rows| != limit ==> forall e :: e in log ==> e.sequence <= next)
  {
    MaxIs(log, 0);
    MaxIs(log, cursor);
    if log != [] {
      var i :| 0 <= i < |log| && log[i].sequence == MaxSequence(log, cursor);
      assert log[i] in log;
    }
  }

  // What a pass does to the count of every key.
  lemma PassCounts(c: Config, s: State, id: nat, now: int, late: seq<Ev>, k: Key)
    requires Sane(c) && Books(s) && Numbered(s.log + late) && !Idle(c, s, id)
    ensures var d, d' := s.deliveries, Pass(c, s, id, now, late).deliveries;
            var listed := k.endpoint == id && Listed(Rows(c, s, id, now), k.sequence);
            && Count(d'.enqueued, k) == Count(d.enqueued, k) + (if listed then 1 else 0)
            && (k in d'.pending <==> k in d.pending || listed) && d'.closed == d.closed
            && (listed ==> s.endpoints[id].cursor < k.sequence && Listed(s.log, k.sequence)
                           && Count(d.enqueued, k) == 0 && k !in d.pending + d.closed)
  {
    var rows := Rows(c, s, id, now);
    RowsBetween(c, s, id, now);
    forall i | 0 <= i < |rows|
      ensures Count(s.deliveries.enqueued, Key(id, rows[i].sequence)) == 0
      ensures Key(id, rows[i].sequence) !in s.deliveries.pending + s.deliveries.closed
    {
      assert !Covered(s, Key(id, rows[i].sequence));
    }
    InsertsAll(s.deliveries, id, rows, k);
    if Listed(rows, k.sequence) {
      var i :| 0 <= i < |rows| && rows[i].sequence == k.sequence;
      assert rows[i] in s.log;
    }
  }

  lemma PassKeepsKey(c: Config, s: State, id: nat, now: int, late: seq<Ev>, k: Key)
    requires Sane(c) && Books(s) && Numbered(s.log + late) && !Idle(c, s, id)
    ensures var s' := Pass(c, s, id, now, late);
            && Count(s'.deliveries.enqueued, k) <= 1
            && (Count(s'.deliveries.enqueued, k) == 1 ==> Covered(s', k) && Listed(s'.log, k.sequence))
            && (k in s'.deliveries.pending + s'.deliveries.closed ==> Count(s'.deliveries.enqueued, k) == 1)
            && !(k in s'.deliveries.pending && k in s'.deliveries.closed)
  {
    var e, rows := s.endpoints[id], Rows(c, s, id, now);
    RowsBetween(c, s, id, now);
    Later(s.log, late);
    CursorAdvances(rows, Limit(c, s, e.seller), s.log + late, e.cursor);
    PassCounts(c, s, id, now, late, k);
    assert Count(s.deliveries.enqueued, k) == 1 ==> Covered(s, k);
    if Listed(s.log, k.sequence) {
      ListedMore(s.log, late, k.sequence);
    }
  }

  lemma PassKeepsBooks(c: Config, s: State, id: nat, now: int, late: seq<Ev>)
    requires Sane(c) && Books(s) && Numbered(s.log + late) && !Idle(c, s, id)
    ensures Books(Pass(c, s, id, now, late))
  {
    var s', e, rows := Pass(c, s, id, now, late), s.endpoints[id], Rows(c, s, id, now);
    RowsBetween(c, s, id, now);
    Later(s.log, late);
    CursorAdvances(rows, Limit(c, s, e.seller), s.log + late, e.cursor);
    forall k
      ensures Count(s'.deliveries.enqueued, k) <= 1
      ensures Count(s'.deliveries.enqueued, k) == 1 ==> Covered(s', k) && Listed(s'.log, k.sequence)
      ensures k in s'.deliveries.pending + s'.deliveries.closed ==> Count(s'.deliveries.enqueued, k) == 1
      ensures !(k in s'.deliveries.pending && k in s'.deliveries.closed)
    {
      PassKeepsKey(c, s, id, now, late, k);
    }
  }

  // Events seen outside a pass, and a pass with nothing to do.
  lemma ArrivalsKeepBooks(s: State, late: seq<Ev>, now: int)
    requires Books(s) && Numbered(s.log + late)
    ensures Books(s.(log := s.log + late, clock := now))
  {
    Later(s.log, late);
    NothingEnqueued(s, s.(log := s.log + late, clock := now));
  }

  lemma RegisterKeepsBooks(s: State, id: nat, seller: string)
    requires Books(s) && id !in s.endpoints
    ensures Books(s.(endpoints := s.endpoints[id := Endpoint(seller, Top(s.log), Top(s.log), false)]))
  {
    MaxIs(s.log, 0);
    NothingEnqueued(s, s.(endpoints := s.endpoints[id := Endpoint(seller, Top(s.log), Top(s.log), false)]));
  }

  lemma StepKeepsBooks(c: Config, s: State, a: Action)
    requires Sane(c) && Books(s)
    ensures Books(Step(c, s, a))
  {
    if Possible(s, a) {
      match a {
        case Enqueue(id, now, late) =>
          if !Idle(c, s, id) {
            PassKeepsBooks(c, s, id, now, late);
          } else {
            ArrivalsKeepBooks(s, late, now);
          }
        case Append(event) => ArrivalsKeepBooks(s, [event], s.clock);
        case Register(id, seller) =>
          if id !in s.endpoints {
            RegisterKeepsBooks(s, id, seller);
          }
        case _ => NothingEnqueued(s, Step(c, s, a));
      }
    }
  }

  // A step that enqueues nothing and moves no cursor back keeps the books.
  lemma NothingEnqueued(s: State, s': State)
    requires Books(s) && Numbered(s'.log) && s.log <= s'.log && Top(s.log) <= Top(s'.log)
    requires s'.deliveries.enqueued == s.deliveries.enqueued && s'.deliveries.pending !! s'.deliveries.closed
    requires s'.deliveries.pending + s'.deliveries.closed <= s.deliveries.pending + s.deliveries.closed
    requires forall id :: id in s.endpoints ==>
               && id in s'.endpoints && s'.endpoints[id].start == s.endpoints[id].start
               && s'.endpoints[id].cursor == s.endpoints[id].cursor
    requires forall id :: id in s'.endpoints && id !in s.endpoints ==>
               0 <= s'.endpoints[id].start == s'.endpoints[id].cursor <= Top(s'.log)
    ensures Books(s')
  {
    forall k | Count(s'.deliveries.enqueued, k) == 1 ensures Covered(s', k) && Listed(s'.log, k.sequence) {
      assert Covered(s, k);
      ListedMore(s.log, s'.log[|s.log|..], k.sequence);
      assert s'.log == s.log + s'.log[|s.log|..];
    }
  }

  lemma {:induction false} RunKeepsBooks(c: Config, now: int, run: seq<Action>)
    requires Sane(c)
    ensures Books(Run(c, now, run))
    decreases |run|
  {
    if run != [] {
      RunKeepsBooks(c, now, run[..|run| - 1]);
      StepKeepsBooks(c, Run(c, now, run[..|run| - 1]), run[|run| - 1]);
    }
  }

  // -------------------------------------------------------------------------
  // The theorems
  // -------------------------------------------------------------------------

  lemma StepMovesForward(c: Config, s: State, a: Action, id: nat)
    requires Sane(c) && Books(s) && id in s.endpoints
    ensures var s' := Step(c, s, a);
            && id in s'.endpoints && s'.endpoints[id].seller == s.endpoints[id].seller
            && s'.endpoints[id].start == s.endpoints[id].start
            && s'.endpoints[id].cursor >= s.endpoints[id].cursor
  {
    if a.Enqueue? && Possible(s, a) && !Idle(c, s, a.id) {
      var e := s.endpoints[a.id];
      RowsBetween(c, s, a.id, a.now);
      Later(s.log, a.late);
      CursorAdvances(Rows(c, s, a.id, a.now), Limit(c, s, e.seller), s.log + a.late, e.cursor);
    }
  }

  // No cursor ever goes back.
  lemma {:induction false} CursorsNeverGoBack(c: Config, now: int, run: seq<Action>, more: seq<Action>, id: nat)
    requires Sane(c) && id in Run(c, now, run).endpoints
    ensures id in Run(c, now, run + more).endpoints
    ensures Run(c, now, run + more).endpoints[id].cursor >= Run(c, now, run).endpoints[id].cursor
    decreases |more|
  {
    if more == [] {
      assert run + more == run;
    } else {
      var most := more[..|more| - 1];
      CursorsNeverGoBack(c, now, run, most, id);
      RunKeepsBooks(c, now, run + most);
      assert (run + more)[..|run + more| - 1] == run + most;
      StepMovesForward(c, Run(c, now, run + most), more[|more| - 1], id);
    }
  }

  // A pass adds at most its rows to what is pending.
  lemma {:induction false} InsertsAtMost(d: Deliveries, id: nat, rows: seq<Ev>) returns (added: set<Key>)
    ensures |added| <= |rows| && InsertAll(d, id, rows).pending == d.pending + added
    ensures forall k :: k in added ==> k.endpoint == id
    decreases |rows|
  {
    added := {};
    if rows != [] {
      added := InsertsAtMost(d, id, rows[..|rows| - 1]);
      var key := Key(id, rows[|rows| - 1].sequence);
      if InsertAll(d, id, rows).pending != d.pending + added {
        assert |added + {key}| <= |added| + 1;
        added := added + {key};
      }
    }
  }

  lemma PassKeepsCap(c: Config, s: State, id: nat, now: int, late: seq<Ev>, seller: string)
    requires Sane(c) && |PendingOf(s, seller)| <= c.cap
    ensures |PendingOf(Pass(c, s, id, now, late), seller)| <= c.cap
  {
    var s' := Pass(c, s, id, now, late);
    if Idle(c, s, id) {
      assert PendingOf(s', seller) == PendingOf(s, seller);
    } else {
      var rows := Rows(c, s, id, now);
      var added := InsertsAtMost(s.deliveries, id, rows);
      if s.endpoints[id].seller == seller {
        SubsetSize(PendingOf(s', seller), PendingOf(s, seller) + added);
        assert |PendingOf(s, seller) + added| <= |PendingOf(s, seller)| + |added|;
      } else {
        SubsetSize(PendingOf(s', seller), PendingOf(s, seller));
      }
    }
  }

  // Only a pass adds to what is pending.
  lemma OthersAddNothing(c: Config, s: State, a: Action, seller: string)
    requires Sane(c) && Books(s) && !(a.Enqueue? && Possible(s, a))
    ensures PendingOf(Step(c, s, a), seller) <= PendingOf(s, seller)
  {
    var s' := Step(c, s, a);
    assert s'.deliveries.pending <= s.deliveries.pending;
    forall k | k in PendingOf(s', seller) ensures k in PendingOf(s, seller) {
      assert Count(s.deliveries.enqueued, k) == 1;
      assert Covered(s, k);
    }
  }

  // A seller never has more pending deliveries than the cap, over all its endpoints together.
  lemma {:induction false} PendingStaysCapped(c: Config, now: int, run: seq<Action>, seller: string)
    requires Sane(c)
    ensures |PendingOf(Run(c, now, run), seller)| <= c.cap
    decreases |run|
  {
    if run == [] {
      assert PendingOf(Start(now), seller) == {};
    } else {
      var s, a := Run(c, now, run[..|run| - 1]), run[|run| - 1];
      PendingStaysCapped(c, now, run[..|run| - 1], seller);
      RunKeepsBooks(c, now, run[..|run| - 1]);
      if a.Enqueue? && Possible(s, a) {
        PassKeepsCap(c, s, a.id, a.now, a.late, seller);
      } else {
        OthersAddNothing(c, s, a, seller);
        SubsetSize(PendingOf(Step(c, s, a), seller), PendingOf(s, seller));
      }
    }
  }

  // Whether a live endpoint owes its seller an event: past its start, up to its cursor, in retention.
  predicate Owed(c: Config, s: State, id: nat, e: Ev) {
    && id in s.endpoints && !s.endpoints[id].deleted && e in s.log && e.seller == s.endpoints[id].seller
    && s.endpoints[id].start < e.sequence <= s.endpoints[id].cursor
    && e.at >= s.clock - c.retention
  }

  ghost predicate Caught(c: Config, s: State) {
    forall id, e :: Owed(c, s, id, e) ==> Count(s.deliveries.enqueued, Key(id, e.sequence)) == 1
  }

  // The events an action makes visible.
  function Arrivals(a: Action): seq<Ev> {
    match a
    case Append(event) => [event]
    case Enqueue(_, _, late) => late
    case _ => []
  }

  // Where an action leaves an endpoint's cursor: a pass moves its own endpoint's.
  function CursorAfter(c: Config, s: State, a: Action, id: nat): int
    requires Sane(c) && id in s.endpoints
  {
    var e := s.endpoints[id];
    if a.Enqueue? && a.id == id && !Idle(c, s, id)
    then NextCursor(Rows(c, s, id, a.now), Limit(c, s, e.seller), s.log + a.late, e.cursor)
    else e.cursor
  }

  // An event of the endpoint's seller, past its start and in retention, appears at or below its cursor.
  predicate Overtaken(c: Config, s: State, a: Action, id: nat, e: Ev)
    requires Sane(c)
  {
    && id in s.endpoints && !s.endpoints[id].deleted && e in Arrivals(a) && e.seller == s.endpoints[id].seller
    && s.endpoints[id].start < e.sequence <= CursorAfter(c, s, a, id)
    && e.at >= (if a.Enqueue? then a.now else s.clock) - c.retention
  }

  ghost predicate Loses(c: Config, s: State, a: Action)
    requires Sane(c)
  {
    Possible(s, a) && exists id, e :: Overtaken(c, s, a, id, e)
  }

  // An event due that a full page's last row does not precede is on the page.
  lemma OnPage(log: seq<Ev>, seller: string, cursor: int, cutoff: int, limit: nat, e: Ev)
    requires Numbered(log) && limit > 0 && e in log && Wanted(e, seller, cursor, cutoff)
    requires var page := Page(log, seller, cursor, cutoff, limit);
             |page| == limit ==> e.sequence <= page[|page| - 1].sequence
    ensures Listed(Page(log, seller, cursor, cutoff, limit), e.sequence)
  {
    PageIs(log, seller, cursor, cutoff, limit);
  }

  // What is owed after a pass, and not of the late events, was owed before or is on the page.
  lemma PassCatches(c: Config, s: State, id: nat, now: int, late: seq<Ev>, other: nat, e: Ev)
    requires Sane(c) && Books(s) && Caught(c, s) && Possible(s, Enqueue(id, now, late)) && !Idle(c, s, id)
    requires Owed(c, Pass(c, s, id, now, late), other, e) && e in s.log
    ensures Count(Pass(c, s, id, now, late).deliveries.enqueued, Key(other, e.sequence)) == 1
  {
    var p, rows := s.endpoints[id], Rows(c, s, id, now);
    PassCounts(c, s, id, now, late, Key(other, e.sequence));
    if other == id && e.sequence > p.cursor {
      OnPage(s.log, p.seller, p.cursor, now - c.retention, Limit(c, s, p.seller), e);
    } else {
      assert Owed(c, s, other, e);
      assert Count(s.deliveries.enqueued, Key(other, e.sequence)) == 1;
    }
  }

  // An action enqueues nothing of what it makes visible.
  lemma ArrivalsAreNotEnqueued(c: Config, s: State, a: Action, id: nat, e: Ev)
    requires Sane(c) && Books(s) && Possible(s, a) && e in Arrivals(a)
    ensures Count(Step(c, s, a).deliveries.enqueued, Key(id, e.sequence)) == 0
  {
    Later(s.log, Arrivals(a));
    assert !Listed(s.log, e.sequence);
    if a.Enqueue? && !Idle(c, s, a.id) {
      PassCounts(c, s, a.id, a.now, a.late, Key(id, e.sequence));
    }
  }

  // What is owed after an action that overtakes no event was seen before it.
  lemma OwedWasSeen(c: Config, s: State, a: Action, id: nat, e: Ev)
    requires Sane(c) && Books(s) && Possible(s, a) && !Loses(c, s, a) && Owed(c, Step(c, s, a), id, e)
    ensures id in s.endpoints && !s.endpoints[id].deleted && e in s.log
  {
    assert Step(c, s, a).log == s.log + Arrivals(a);
    if id in s.endpoints {
      assert !Overtaken(c, s, a, id, e);
    }
  }

  // An action keeps "everything owed was enqueued once" exactly when no event appears at or below
  // the cursor of a live endpoint that should have had it.
  lemma StepCatches(c: Config, s: State, a: Action)
    requires Sane(c) && Books(s) && Caught(c, s)
    ensures Caught(c, Step(c, s, a)) <==> !Loses(c, s, a)
  {
    var s' := Step(c, s, a);
    if Loses(c, s, a) {
      var id, e :| Overtaken(c, s, a, id, e);
      ArrivalsAreNotEnqueued(c, s, a, id, e);
      assert s'.log == s.log + Arrivals(a);
      assert Owed(c, s', id, e);
    } else if Possible(s, a) {
      forall id, e | Owed(c, s', id, e)
        ensures Count(s'.deliveries.enqueued, Key(id, e.sequence)) == 1
      {
        OwedWasSeen(c, s, a, id, e);
        if a.Enqueue? && !Idle(c, s, a.id) {
          PassCatches(c, s, a.id, a.now, a.late, id, e);
        } else {
          assert Owed(c, s, id, e);
        }
      }
    }
  }

  lemma RunStep(c: Config, now: int, run: seq<Action>, n: nat)
    requires Sane(c) && n < |run|
    ensures Run(c, now, run[..n + 1]) == Step(c, Run(c, now, run[..n]), run[n])
  {
    assert run[..n + 1][..n] == run[..n];
  }

  lemma {:induction false} CaughtWhileNothingIsLost(c: Config, now: int, run: seq<Action>, n: nat)
    requires Sane(c) && n <= |run|
    requires forall i :: 0 <= i < n ==> !Loses(c, Run(c, now, run[..i]), run[i])
    ensures Caught(c, Run(c, now, run[..n]))
    decreases n
  {
    if n > 0 {
      CaughtWhileNothingIsLost(c, now, run, n - 1);
      RunKeepsBooks(c, now, run[..n - 1]);
      RunStep(c, now, run, n - 1);
      StepCatches(c, Run(c, now, run[..n - 1]), run[n - 1]);
    }
  }

  // At every point of a run each event an endpoint owes was enqueued exactly once, if and only if no
  // action of the run overtakes an event; and whatever the run does, nothing is ever enqueued twice
  // or outside the covered range.
  lemma EnqueuedExactlyOnce(c: Config, now: int, run: seq<Action>)
    requires Sane(c)
    ensures (forall n :: 0 <= n <= |run| ==> Caught(c, Run(c, now, run[..n])))
            <==> (forall n :: 0 <= n < |run| ==> !Loses(c, Run(c, now, run[..n]), run[n]))
    ensures forall n :: 0 <= n <= |run| ==> Books(Run(c, now, run[..n]))
  {
    forall n | 0 <= n <= |run| ensures Books(Run(c, now, run[..n])) {
      RunKeepsBooks(c, now, run[..n]);
    }
    if forall n :: 0 <= n < |run| ==> !Loses(c, Run(c, now, run[..n]), run[n]) {
      forall n | 0 <= n <= |run| ensures Caught(c, Run(c, now, run[..n])) {
        CaughtWhileNothingIsLost(c, now, run, n);
      }
    }
    if forall n :: 0 <= n <= |run| ==> Caught(c, Run(c, now, run[..n])) {
      forall n | 0 <= n < |run| ensures !Loses(c, Run(c, now, run[..n]), run[n]) {
        RunStep(c, now, run, n);
        assert Caught(c, Run(c, now, run[..n])) && Caught(c, Run(c, now, run[..n + 1]));
        StepCatches(c, Run(c, now, run[..n]), run[n]);
      }
    }
  }

  // Events appear in order of sequence, and each pass reads one snapshot.
  predicate Orderly(s: State, a: Action) {
    match a
    case Append(event) => event.sequence > Top(s.log)
    case Enqueue(_, _, late) => late == []
    case _ => true
  }

  // A run of snapshots over a log that appears in order catches everything.
  lemma {:induction false} OrderlyRunsCatchAll(c: Config, now: int, run: seq<Action>)
    requires Sane(c)
    requires forall i :: 0 <= i < |run| ==> Orderly(Run(c, now, run[..i]), run[i])
    ensures Caught(c, Run(c, now, run))
  {
    forall i | 0 <= i < |run| ensures !Loses(c, Run(c, now, run[..i]), run[i]) {
      RunKeepsBooks(c, now, run[..i]);
      assert Orderly(Run(c, now, run[..i]), run[i]);
    }
    CaughtWhileNothingIsLost(c, now, run, |run|);
    assert run[..|run|] == run;
  }

  lemma ShortPageMovesPast(c: Config, s: State, id: nat, now: int, late: seq<Ev>, e: Ev)
    requires Sane(c) && Books(s) && Numbered(s.log + late) && !Idle(c, s, id) && e in s.log + late
    requires |Rows(c, s, id, now)| < Limit(c, s, s.endpoints[id].seller)
    ensures e.sequence <= CursorAfter(c, s, Enqueue(id, now, late), id)
  {
    RowsBetween(c, s, id, now);
    Later(s.log, late);
    CursorAdvances(Rows(c, s, id, now), Limit(c, s, s.endpoints[id].seller), s.log + late, s.endpoints[id].cursor);
  }

  lemma PassMovesTo(c: Config, s: State, id: nat, now: int, late: seq<Ev>)
    requires Sane(c) && !Idle(c, s, id)
    ensures Pass(c, s, id, now, late).endpoints[id].cursor == CursorAfter(c, s, Enqueue(id, now, late), id)
  {
  }

  lemma ShortPageOvertakes(c: Config, s: State, id: nat, now: int, late: seq<Ev>, e: Ev)
    requires Sane(c) && Books(s) && Numbered(s.log + late) && !Idle(c, s, id) && e in late
    requires |Rows(c, s, id, now)| < Limit(c, s, s.endpoints[id].seller)
    requires e.seller == s.endpoints[id].seller && e.at >= now - c.retention && s.endpoints[id].start < e.sequence
    ensures Overtaken(c, s, Enqueue(id, now, late), id, e)
  {
    assert e in s.log + late;
    ShortPageMovesPast(c, s, id, now, late, e);
  }

  // A short page moves the cursor past all that was seen by its second read: nothing of its snapshot
  // is left uncovered, and what came in between past the endpoint's start is overtaken.
  lemma ShortPageCatchesUp(c: Config, s: State, id: nat, now: int, late: seq<Ev>)
    requires Sane(c) && Books(s) && Numbered(s.log + late) && !Idle(c, s, id)
    requires |Rows(c, s, id, now)| < Limit(c, s, s.endpoints[id].seller)
    ensures forall e :: e in s.log + late ==> e.sequence <= Pass(c, s, id, now, late).endpoints[id].cursor
    ensures forall e | e in late && e.seller == s.endpoints[id].seller && e.at >= now - c.retention ::
              s.endpoints[id].start < e.sequence ==> Overtaken(c, s, Enqueue(id, now, late), id, e)
  {
    PassMovesTo(c, s, id, now, late);
    forall e | e in s.log + late ensures e.sequence <= Pass(c, s, id, now, late).endpoints[id].cursor {
      ShortPageMovesPast(c, s, id, now, late, e);
    }
    forall e | e in late && e.seller == s.endpoints[id].seller && e.at >= now - c.retention
               && s.endpoints[id].start < e.sequence
      ensures Overtaken(c, s, Enqueue(id, now, late), id, e)
    {
      ShortPageOvertakes(c, s, id, now, late, e);
    }
  }

  // -------------------------------------------------------------------------
  // Events lost
  // -------------------------------------------------------------------------

  lemma RunMore(c: Config, now: int, run: seq<Action>, a: Action)
    requires Sane(c)
    ensures Run(c, now, run + [a]) == Step(c, Run(c, now, run), a)
  {
  }

  // A seller's first endpoint, registered before any event.
  function Registered(): State {
    Start(0).(endpoints := map[0 := Endpoint("seller", 0, 0, false)])
  }

  lemma RegisterFirst(c: Config)
    requires Sane(c)
    ensures Run(c, 0, [Register(0, "seller")]) == Registered()
  {
    RunMore(c, 0, [], Register(0, "seller"));
    assert [] + [Register(0, "seller")] == [Register(0, "seller")];
  }

  lemma FirstPass(c: Config, late: seq<Ev>)
    requires Sane(c) && c.retention >= 0 && late == [Ev(1, "seller", 0)]
    ensures var s := Step(c, Registered(), Enqueue(0, 0, late));
            Owed(c, s, 0, Ev(1, "seller", 0)) && Count(s.deliveries.enqueued, Key(0, 1)) == 0
  {
  }

  // One event committed between the two reads of a first pass: its endpoint moves past it for good.
  lemma LateEventIsLost(c: Config)
    requires Sane(c) && c.retention >= 0
    ensures var s := Run(c, 0, [Register(0, "seller"), Enqueue(0, 0, [Ev(1, "seller", 0)])]);
            && Owed(c, s, 0, Ev(1, "seller", 0))
            && Count(s.deliveries.enqueued, Key(0, 1)) == 0
  {
    var pass := Enqueue(0, 0, [Ev(1, "seller", 0)]);
    RegisterFirst(c);
    RunMore(c, 0, [Register(0, "seller")], pass);
    assert [Register(0, "seller"), pass] == [Register(0, "seller")] + [pass];
    FirstPass(c, [Ev(1, "seller", 0)]);
  }

  // Sequence 6 commits first, and a pass takes the cursor to it.
  lemma PassOverSix(c: Config, s: State)
    requires Sane(c) && c.retention >= 0 && s == Registered().(log := [Ev(6, "seller", 0)])
    ensures var s' := Step(c, s, Enqueue(0, 0, []));
            && s'.log == s.log && s'.clock == 0 && s'.endpoints == map[0 := Endpoint("seller", 0, 6, false)]
            && s'.deliveries.enqueued == [Key(0, 6)]
  {
    var six := Ev(6, "seller", 0);
    assert s.log[..0] == [];
    assert Due(s.log, "seller", 0, 0 - c.retention) == [six];
    assert PendingOf(s, "seller") == {};
    assert Rows(c, s, 0, 0) == [six];
    assert [six][..0] == [];
    assert s.log + [] == s.log;
  }

  lemma AppendSix(c: Config)
    requires Sane(c)
    ensures Step(c, Registered(), Append(Ev(6, "seller", 0))) == Registered().(log := [Ev(6, "seller", 0)])
  {
    assert Registered().log + [Ev(6, "seller", 0)] == [Ev(6, "seller", 0)];
  }

  lemma FiveAfterSix(c: Config, s: State)
    requires Sane(c) && c.retention >= 0 && s.log == [Ev(6, "seller", 0)] && s.clock == 0
    requires s.endpoints == map[0 := Endpoint("seller", 0, 6, false)] && s.deliveries.enqueued == [Key(0, 6)]
    ensures var s' := Step(c, s, Append(Ev(5, "seller", 0)));
            && Owed(c, s', 0, Ev(5, "seller", 0)) && Count(s'.deliveries.enqueued, Key(0, 5)) == 0
            && Owed(c, s', 0, Ev(6, "seller", 0)) && Count(s'.deliveries.enqueued, Key(0, 6)) == 1
  {
    assert [Key(0, 6)][..0] == [];
  }

  // Two events drawn in order and committed out of order, with a pass in between: the endpoint has
  // the second and never gets the first, although every pass reads one snapshot.
  lemma EventOutOfOrderIsLost(c: Config)
    requires Sane(c) && c.retention >= 0
    ensures var s := Run(c, 0, [Register(0, "seller"), Append(Ev(6, "seller", 0)), Enqueue(0, 0, []),
                                Append(Ev(5, "seller", 0))]);
            && Owed(c, s, 0, Ev(5, "seller", 0)) && Count(s.deliveries.enqueued, Key(0, 5)) == 0
            && Owed(c, s, 0, Ev(6, "seller", 0)) && Count(s.deliveries.enqueued, Key(0, 6)) == 1
  {
    var r, six, pass, five := Register(0, "seller"), Append(Ev(6, "seller", 0)), Enqueue(0, 0, []),
        Append(Ev(5, "seller", 0));
    RegisterFirst(c);
    assert [r, six] == [r] + [six] && [r, six, pass] == [r, six] + [pass];
    assert [r, six, pass, five] == [r, six, pass] + [five];
    RunMore(c, 0, [r], six);
    RunMore(c, 0, [r, six], pass);
    RunMore(c, 0, [r, six, pass], five);
    AppendSix(c);
    PassOverSix(c, Step(c, Registered(), six));
    FiveAfterSix(c, Step(c, Step(c, Registered(), six), pass));
  }

  // -------------------------------------------------------------------------
  // The pass as the service makes it
  // -------------------------------------------------------------------------

  class Outbox {
    var state: State
    const config: Config

    constructor (config: Config, now: int)
      ensures state == Start(now) && this.config == config
    {
      this.config := config;
      state := Start(now);
    }

    // One endpoint's pass; `late` is what others append between its two reads.
    method EnqueuePass(id: nat, now: int, late: seq<Ev>)
      requires Sane(config)
      modifies this
      ensures state == Pass(config, old(state), id, now, late)
    {
      if id !in state.endpoints || state.endpoints[id].deleted {
        state := state.(log := state.log + late, clock := now);
        return;
      }
      var endpoint := state.endpoints[id];
      var room := config.cap - |PendingOf(state, endpoint.seller)|;
      if room <= 0 {
        state := state.(log := state.log + late, clock := now);
        return;
      }
      var limit := if room < config.batch then room else config.batch;
      var rows := Page(state.log, endpoint.seller, endpoint.cursor, now - config.retention, limit);
      var table := state.deliveries;
      for i := 0 to |rows|
        invariant table == InsertAll(old(state).deliveries, id, rows[..i])
        invariant state == old(state)
      {
        assert rows[..i + 1][..i] == rows[..i];
        var key := Key(id, rows[i].sequence);
        if key !in table.pending && key !in table.closed {
          table := Deliveries(table.pending + {key}, table.closed, table.enqueued + [key]);
        }
      }
      assert rows[..|rows|] == rows;
      var log := state.log + late;
      var next := endpoint.cursor;
      if |rows| == limit {
        next := rows[|rows| - 1].sequence;
      } else {
        var max := MaxSequence(log, next);
        next := if max > next then max else next;
      }
      state := State(log, state.endpoints[id := endpoint.(cursor := next)], table, now);
    }
  }
}
