/**
 The bounded answer cache of address search: a map of answers with their expiry and a queue of
 the keys in the order they first entered.
 */
module AnswerCache {
  import opened Options

  type Key = string
  type Answer = seq<string>

  const TTL_MS: int := 30 * 60 * 1000
  const CAPACITY: nat := 4096

  datatype Entry = Entry(expires: int, answer: Answer)

  datatype Cache = Cache(entries: map<Key, Entry>, order: seq<Key>)

  const EMPTY := Cache(map[], [])

  function Cached(c: Cache, key: Key, now: int): Option<Answer> {
    if key in c.entries && c.entries[key].expires > now then Some(c.entries[key].answer) else None
  }

  // Drops the oldest keys until the map fits.
  function Evict(c: Cache): Cache
    decreases |c.order|
  {
    if |c.entries| > CAPACITY && c.order != []
    then Evict(Cache(c.entries - {c.order[0]}, c.order[1..]))
    else c
  }

  // The cache with the new entry, before anything is dropped.
  function Inserted(c: Cache, key: Key, e: Entry): Cache {
    Cache(c.entries[key := e], if key in c.entries then c.order else c.order + [key])
  }

  function Stored(c: Cache, key: Key, answer: Answer, now: int): Cache {
    Evict(Inserted(c, key, Entry(now + TTL_MS, answer)))
  }

  // The queue lists every key of the map exactly once, and the map is within capacity.
  ghost predicate Consistent(c: Cache) {
    && |c.entries| <= CAPACITY
    && Queued(c)
  }

  ghost predicate Queued(c: Cache) {
    && (forall k :: k in c.order <==> k in c.entries)
    && (forall i, j :: 0 <= i < j < |c.order| ==> c.order[i] != c.order[j])
  }

  lemma DropOldest(c: Cache)
    requires Queued(c) && c.order != []
    ensures var oldest := c.order[0];
            var c' := Cache(c.entries - {oldest}, c.order[1..]);
            Queued(c') && |c'.entries| == |c.entries| - 1
  {
    var oldest := c.order[0];
    var c' := Cache(c.entries - {oldest}, c.order[1..]);
    assert c.order == [oldest] + c'.order;
    assert c'.entries.Keys == c.entries.Keys - {oldest};
    assert |c'.entries.Keys| == |c.entries.Keys| - 1;
  }

  // A cache one over capacity loses exactly its oldest key.
  lemma EvictOne(c: Cache)
    requires Queued(c) && |c.entries| <= CAPACITY + 1
    ensures |c.entries| <= CAPACITY ==> Evict(c) == c
    ensures |c.entries| == CAPACITY + 1 ==>
              c.order != [] && Evict(c) == Cache(c.entries - {c.order[0]}, c.order[1..])
              && |Evict(c).entries| == CAPACITY
    ensures Consistent(Evict(c))
  {
    if |c.entries| == CAPACITY + 1 {
      SomeKey(c);
      DropOldest(c);
    }
  }

  lemma SomeKey(c: Cache)
    requires Queued(c) && |c.entries| > 0
    ensures c.order != []
  {
  }

  lemma InsertKeeps(c: Cache, key: Key, e: Entry)
    requires Consistent(c)
    ensures var w := Inserted(c, key, e);
            && Queued(w)
            && |w.entries| == (if key in c.entries then |c.entries| else |c.entries| + 1)
            && (|w.entries| == CAPACITY + 1 ==> w.order != [] && w.order[0] != key)
  {
  }

  // The key now holds the entry; the others kept theirs, or one of them was dropped for room.
  ghost predicate Updated(c: Cache, c': Cache, key: Key, e: Entry) {
    && key in c'.entries && c'.entries[key] == e
    && (forall k :: k in c'.entries && k != key ==> k in c.entries && c'.entries[k] == c.entries[k])
    && (|c'.entries| < CAPACITY ==> |c.entries| < CAPACITY && forall k :: k in c.entries ==> k in c'.entries)
  }

  lemma StoreKeeps(c: Cache, key: Key, answer: Answer, now: int)
    requires Consistent(c)
    ensures Consistent(Stored(c, key, answer, now))
    ensures Updated(c, Stored(c, key, answer, now), key, Entry(now + TTL_MS, answer))
  {
    var e := Entry(now + TTL_MS, answer);
    InsertKeeps(c, key, e);
    EvictOne(Inserted(c, key, e));
    MakingRoomUpdates(c, Inserted(c, key, e), Stored(c, key, answer, now), key, e);
  }

  lemma MakingRoomUpdates(c: Cache, w: Cache, c': Cache, key: Key, e: Entry)
    requires w.entries == c.entries[key := e] && |c.entries| <= |w.entries|
    requires c'.entries == w.entries
             || (|c'.entries| == CAPACITY && w.order != [] && w.order[0] != key
                 && c'.entries == w.entries - {w.order[0]})
    ensures Updated(c, c', key, e)
  {
  }

  // -------------------------------------------------------------------------
  // Runs of stores
  // -------------------------------------------------------------------------

  datatype Store = Store(key: Key, answer: Answer, now: int)

  function Run(run: seq<Store>): Cache
    decreases |run|
  {
    if run == [] then EMPTY
    else
      var last := run[|run| - 1];
      Stored(Run(run[..|run| - 1]), last.key, last.answer, last.now)
  }

  // What the latest store of a key wrote.
  function Latest(run: seq<Store>, key: Key): Option<Entry>
    decreases |run|
  {
    if run == [] then None
    else
      var last := run[|run| - 1];
      if last.key == key then Some(Entry(last.now + TTL_MS, last.answer)) else Latest(run[..|run| - 1], key)
  }

  // The cache holds only latest entries, and drops none before it is full.
  ghost predicate Faithful(c: Cache, run: seq<Store>) {
    && (forall key :: key in c.entries ==> Latest(run, key) == Some(c.entries[key]))
    && (|c.entries| < CAPACITY ==> forall key :: Latest(run, key).Some? ==> key in c.entries)
  }

  lemma {:induction false} HoldsLatest(run: seq<Store>)
    ensures Consistent(Run(run)) && Faithful(Run(run), run)
    decreases |run|
  {
    if run != [] {
      var before, last := run[..|run| - 1], run[|run| - 1];
      HoldsLatest(before);
      StoreKeeps(Run(before), last.key, last.answer, last.now);
      UpdatedIsFaithful(Run(before), Run(run), run);
    }
  }

  lemma UpdatedIsFaithful(c: Cache, c': Cache, run: seq<Store>)
    requires run != [] && Faithful(c, run[..|run| - 1])
    requires var last := run[|run| - 1]; Updated(c, c', last.key, Entry(last.now + TTL_MS, last.answer))
    ensures Faithful(c', run)
  {
  }

  // A lookup answers exactly what the latest store wrote while that is fresh, except for keys a
  // full cache dropped.
  lemma HitIsLatest(run: seq<Store>, key: Key, now: int)
    ensures var hit, latest := Cached(Run(run), key, now), Latest(run, key);
            && (hit.Some? ==> latest.Some? && hit.value == latest.value.answer && now < latest.value.expires)
            && (|Run(run).entries| < CAPACITY || key in Run(run).entries ==>
                  (hit.Some? <==> latest.Some? && now < latest.value.expires))
  {
    HoldsLatest(run);
  }

  // -------------------------------------------------------------------------
  // The cache as the service keeps it
  // -------------------------------------------------------------------------

  class Answers {
    var cache: map<Key, Entry>
    var order: seq<Key>

    function View(): Cache
      reads this
    {
      Cache(cache, order)
    }

    constructor ()
      ensures View() == EMPTY
    {
      cache, order := map[], [];
    }

    method Store(key: Key, answer: Answer, now: int)
      modifies this
      ensures View() == Stored(old(View()), key, answer, now)
    {
      if key !in cache {
        order := order + [key];
      }
      cache := cache[key := Entry(now + TTL_MS, answer)];
      while |cache| > CAPACITY && order != []
        invariant Evict(View()) == Stored(old(View()), key, answer, now)
        decreases |order|
      {
        var oldest := order[0];
        order := order[1..];
        cache := cache - {oldest};
      }
    }
  }
}
