/**
 The per-client token buckets of address search, kept in a table of bounded size.  Instants are
 milliseconds, token counts are reals, and the rate is the configured, positive tokens a second.
 */
module Limiter {
  import opened Sets

  type Key = string

  const BURST: real := 8.0
  const TABLE_CAPACITY: nat := 20000

  datatype Bucket = Bucket(tokens: real, updated: int)

  datatype Answer = Granted | Wait(seconds: int) | TableFull

  type Table = map<Key, Bucket>

  function Min(a: real, b: real): real { if a <= b then a else b }

  function Earned(ms: int, rate: real): real {
    ms as real / 1000.0 * rate
  }

  function Refill(b: Bucket, now: int, rate: real, capacity: real): Bucket {
    var elapsed := if now >= b.updated then now - b.updated else 0;
    Bucket(Min(b.tokens + Earned(elapsed, rate), capacity), now)
  }

  function Ceiling(x: real): int { -((-x).Floor) }

  // Whole seconds until a bucket with less than one token has one.
  function Shortfall(tokens: real, rate: real): int
    requires rate > 0.0
  {
    var s := Ceiling((1.0 - tokens) / rate);
    if s < 1 then 1 else s
  }

  // Takes one token, or says how long to wait for one.
  function Take(b: Bucket, now: int, rate: real, capacity: real): (Bucket, Answer)
    requires rate > 0.0
  {
    var r := Refill(b, now, rate, capacity);
    if r.tokens >= 1.0 then (r.(tokens := r.tokens - 1.0), Granted)
    else (r, Wait(Shortfall(r.tokens, rate)))
  }

  function BucketOf(t: Table, key: Key, now: int): Bucket {
    if key in t then t[key] else Bucket(BURST, now)
  }

  // Drops the buckets that are full again; the others are refilled on the way.
  function Retained(t: Table, now: int, rate: real): Table {
    map k | k in t && Refill(t[k], now, rate, BURST).tokens < BURST :: Refill(t[k], now, rate, BURST)
  }

  function MakeRoom(t: Table, key: Key, now: int, rate: real): Table {
    if |t| >= TABLE_CAPACITY && key !in t then Retained(t, now, rate) else t
  }

  function AdmitClient(t: Table, key: Key, now: int, rate: real): (Table, Answer)
    requires rate > 0.0
  {
    var room := MakeRoom(t, key, now, rate);
    if key !in room && |room| >= TABLE_CAPACITY then (room, TableFull)
    else
      var (b, answer) := Take(BucketOf(room, key, now), now, rate, BURST);
      (room[key := b], answer)
  }

  // The limiter without a bound: nothing is ever dropped.
  function AdmitUnbounded(u: Table, key: Key, now: int, rate: real): (Table, Answer)
    requires rate > 0.0
  {
    var (b, answer) := Take(BucketOf(u, key, now), now, rate, BURST);
    (u[key := b], answer)
  }

  // -------------------------------------------------------------------------
  // Token levels
  // -------------------------------------------------------------------------

  // The tokens a client has at an instant; a client with no bucket has a full one.
  function Level(t: Table, key: Key, now: int, rate: real): real {
    Refill(BucketOf(t, key, now), now, rate, BURST).tokens
  }

  predicate Sound(t: Table, now: int) {
    forall k :: k in t ==> t[k].updated <= now && 0.0 <= t[k].tokens <= BURST
  }

  lemma EarnedAdds(a: int, b: int, rate: real)
    ensures Earned(a, rate) + Earned(b, rate) == Earned(a + b, rate)
  {
    var x, y := a as real / 1000.0, b as real / 1000.0;
    assert (a + b) as real / 1000.0 == x + y;
    assert x * rate + y * rate == (x + y) * rate;
  }

  lemma EarnedGrows(a: int, rate: real)
    requires a >= 0 && rate > 0.0
    ensures Earned(a, rate) >= 0.0
  {
  }

  // Refilling twice is refilling once.
  lemma RefillComposes(b: Bucket, mid: int, now: int, rate: real)
    requires b.updated <= mid <= now && rate > 0.0 && b.tokens <= BURST
    ensures Refill(Refill(b, mid, rate, BURST), now, rate, BURST) == Refill(b, now, rate, BURST)
  {
    EarnedAdds(mid - b.updated, now - mid, rate);
    EarnedGrows(mid - b.updated, rate);
    EarnedGrows(now - mid, rate);
  }

  lemma RefillBounds(b: Bucket, now: int, rate: real)
    requires b.updated <= now && rate > 0.0 && 0.0 <= b.tokens <= BURST
    ensures 0.0 <= b.tokens <= Refill(b, now, rate, BURST).tokens <= BURST
    ensures Refill(b, now, rate, BURST).tokens <= b.tokens + Earned(now - b.updated, rate)
  {
    EarnedGrows(now - b.updated, rate);
  }

  // Making room changes nobody's level, now or later.
  lemma RoomKeepsLevels(t: Table, key: Key, now: int, later: int, rate: real, other: Key)
    requires rate > 0.0 && Sound(t, now) && now <= later
    ensures Level(MakeRoom(t, key, now, rate), other, later, rate) == Level(t, other, later, rate)
  {
    EarnedGrows(0, rate);
    if other in t {
      RefillComposes(t[other], now, later, rate);
      RefillBounds(t[other], now, rate);
      EarnedGrows(later - now, rate);
    }
  }

  lemma RoomSound(t: Table, key: Key, now: int, rate: real)
    requires rate > 0.0 && Sound(t, now)
    ensures Sound(MakeRoom(t, key, now, rate), now)
  {
    forall k | k in t
      ensures 0.0 <= Refill(t[k], now, rate, BURST).tokens <= BURST
    {
      RefillBounds(t[k], now, rate);
    }
  }

  // What one admission does to every client's level at a later instant.
  lemma AdmitLevels(t: Table, key: Key, now: int, later: int, rate: real, other: Key)
    requires rate > 0.0 && Sound(t, now) && now <= later
    ensures var (t', answer) := AdmitClient(t, key, now, rate);
            && Sound(t', now)
            && (other != key || !answer.Granted? ==> Level(t', other, later, rate) == Level(t, other, later, rate))
            && (answer.Granted? ==>
                  && Level(t, key, now, rate) >= 1.0
                  && Level(t', key, now, rate) == Level(t, key, now, rate) - 1.0)
            && (answer.Wait? ==> Level(t, key, now, rate) < 1.0)
  {
    var room := MakeRoom(t, key, now, rate);
    RoomSound(t, key, now, rate);
    RoomKeepsLevels(t, key, now, later, rate, other);
    RoomKeepsLevels(t, key, now, now, rate, key);
    var b := BucketOf(room, key, now);
    RefillBounds(b, now, rate);
    RefillComposes(b, now, later, rate);
    EarnedGrows(later - now, rate);
    assert Earned(0, rate) == 0.0;
  }

  // -------------------------------------------------------------------------
  // Runs
  // -------------------------------------------------------------------------

  datatype Request = Request(key: Key, now: int)

  predicate Timely(start: int, run: seq<Request>) {
    && (forall i :: 0 <= i < |run| ==> start <= run[i].now)
    && (forall i, j :: 0 <= i < j < |run| ==> run[i].now <= run[j].now)
  }

  function Run(t: Table, run: seq<Request>, rate: real): Table
    requires rate > 0.0
    decreases |run|
  {
    if run == [] then t
    else AdmitClient(Run(t, run[..|run| - 1], rate), run[|run| - 1].key, run[|run| - 1].now, rate).0
  }

  // The answer the last request of the run gets.
  function LastAnswer(t: Table, run: seq<Request>, rate: real): Answer
    requires rate > 0.0 && run != []
  {
    AdmitClient(Run(t, run[..|run| - 1], rate), run[|run| - 1].key, run[|run| - 1].now, rate).1
  }

  function Clock(start: int, run: seq<Request>): int {
    if run == [] then start else run[|run| - 1].now
  }

  function Grants(t: Table, run: seq<Request>, rate: real, key: Key): nat
    requires rate > 0.0
    decreases |run|
  {
    if run == [] then 0
    else Grants(t, run[..|run| - 1], rate, key)
         + if run[|run| - 1].key == key && LastAnswer(t, run, rate).Granted? then 1 else 0
  }

  lemma {:induction false} TableStaysBounded(t: Table, run: seq<Request>, rate: real)
    requires rate > 0.0 && |t| <= TABLE_CAPACITY
    ensures |Run(t, run, rate)| <= TABLE_CAPACITY
    decreases |run|
  {
    if run != [] {
      TableStaysBounded(t, run[..|run| - 1], rate);
      var before, last := Run(t, run[..|run| - 1], rate), run[|run| - 1];
      RetainedIsSmaller(before, last.now, rate);
      var room := MakeRoom(before, last.key, last.now, rate);
      if last.key in room {
        assert room[last.key := room[last.key]].Keys == room.Keys;
        SameKeys(room, last.key, AdmitClient(before, last.key, last.now, rate).0);
      }
    }
  }

  lemma SameKeys(room: Table, key: Key, t: Table)
    requires key in room && t.Keys == room.Keys
    ensures |t| == |room|
  {
    assert |t.Keys| == |room.Keys|;
  }

  lemma RetainedIsSmaller(t: Table, now: int, rate: real)
    ensures |Retained(t, now, rate)| <= |t|
  {
    SubsetSize(Retained(t, now, rate).Keys, t.Keys);
  }

  // Between two instants a client got n grants, paid from what it held and what it earned.
  predicate PaidFor(t: Table, at: int, t': Table, now: int, n: nat, rate: real, key: Key) {
    Level(t', key, now, rate) + n as real <= Level(t, key, at, rate) + Earned(now - at, rate)
  }

  lemma PaidForJoins(t: Table, start: int, mid: Table, at: int, t': Table, now: int, n: nat, d: nat, rate: real, key: Key)
    requires PaidFor(t, start, mid, at, n, rate, key) && PaidFor(mid, at, t', now, d, rate, key)
    ensures PaidFor(t, start, t', now, n + d, rate, key)
  {
    EarnedAdds(at - start, now - at, rate);
  }

  function Paid(t: Table, r: Request, rate: real, key: Key): nat
    requires rate > 0.0
  {
    if r.key == key && AdmitClient(t, r.key, r.now, rate).1.Granted? then 1 else 0
  }

  lemma AdmitIsPaidFor(t: Table, at: int, r: Request, rate: real, key: Key)
    requires rate > 0.0 && Sound(t, at) && at <= r.now
    ensures var t' := AdmitClient(t, r.key, r.now, rate).0;
            Sound(t', r.now) && PaidFor(t, at, t', r.now, Paid(t, r, rate, key), rate, key)
  {
    Aged(t, at, r.now, rate, key);
    AdmitLevels(t, r.key, r.now, r.now, rate, key);
  }

  // Grants never exceed what the bucket held plus what it earned, whatever is evicted meanwhile.
  lemma {:induction false} GrantsArePaidFor(t: Table, start: int, run: seq<Request>, rate: real, key: Key)
    requires rate > 0.0 && Sound(t, start) && Timely(start, run)
    ensures Sound(Run(t, run, rate), Clock(start, run))
    ensures PaidFor(t, start, Run(t, run, rate), Clock(start, run), Grants(t, run, rate, key), rate, key)
    decreases |run|
  {
    if run == [] {
      assert Earned(0, rate) == 0.0;
    } else {
      var before, last := run[..|run| - 1], run[|run| - 1];
      GrantsArePaidFor(t, start, before, rate, key);
      var mid, at := Run(t, before, rate), Clock(start, before);
      AdmitIsPaidFor(mid, at, last, rate, key);
      PaidForJoins(t, start, mid, at, Run(t, run, rate), last.now,
                   Grants(t, before, rate, key), Paid(mid, last, rate, key), rate, key);
    }
  }

  // Letting time pass adds at most the earnings, and never takes a token away.
  lemma Aged(t: Table, now: int, later: int, rate: real, key: Key)
    requires rate > 0.0 && Sound(t, now) && now <= later
    ensures Sound(t, later)
    ensures Level(t, key, now, rate) <= Level(t, key, later, rate)
              <= Level(t, key, now, rate) + Earned(later - now, rate)
  {
    EarnedGrows(later - now, rate);
    if key in t {
      RefillComposes(t[key], now, later, rate);
      RefillBounds(t[key], now, rate);
    }
  }

  // Any client's grants in any window, across evictions: at most the burst and the earnings.
  lemma WindowBound(start: int, prefix: seq<Request>, window: seq<Request>, rate: real, key: Key, end: int)
    requires rate > 0.0 && Timely(start, prefix) && Timely(Clock(start, prefix), window)
    requires window != [] && window[|window| - 1].now <= end
    ensures Grants(Run(map[], prefix, rate), window, rate, key) as real
              <= BURST + Earned(end - window[0].now, rate)
  {
    GrantsArePaidFor(map[], start, prefix, rate, key);
    WindowAfter(Run(map[], prefix, rate), Clock(start, prefix), window, rate, key, end);
  }

  lemma WindowAfter(t: Table, start: int, window: seq<Request>, rate: real, key: Key, end: int)
    requires rate > 0.0 && Sound(t, start) && Timely(start, window) && window != [] && window[|window| - 1].now <= end
    ensures Grants(t, window, rate, key) as real <= BURST + Earned(end - window[0].now, rate)
  {
    Aged(t, start, window[0].now, rate, key);
    WindowFrom(t, window, rate, key);
    EarnedMore(Clock(window[0].now, window) - window[0].now, end - window[0].now, rate);
  }

  lemma WindowFrom(t: Table, window: seq<Request>, rate: real, key: Key)
    requires rate > 0.0 && window != [] && Sound(t, window[0].now) && Timely(window[0].now, window)
    ensures Grants(t, window, rate, key) as real
              <= BURST + Earned(Clock(window[0].now, window) - window[0].now, rate)
  {
    GrantsArePaidFor(t, window[0].now, window, rate, key);
    PaidForBounds(t, window[0].now, Run(t, window, rate), Clock(window[0].now, window),
                  Grants(t, window, rate, key), rate, key);
  }

  lemma EarnedMore(a: int, b: int, rate: real)
    requires a <= b && rate > 0.0
    ensures Earned(a, rate) <= Earned(b, rate)
  {
    EarnedAdds(a, b - a, rate);
    EarnedGrows(b - a, rate);
  }

  lemma PaidForBounds(t: Table, at: int, t': Table, now: int, n: nat, rate: real, key: Key)
    requires rate > 0.0 && Sound(t, at) && Sound(t', now) && PaidFor(t, at, t', now, n, rate, key)
    ensures n as real <= BURST + Earned(now - at, rate)
  {
    LevelBounds(t', now, rate, key);
    LevelBounds(t, at, rate, key);
  }

  lemma LevelBounds(t: Table, now: int, rate: real, key: Key)
    requires rate > 0.0 && Sound(t, now)
    ensures 0.0 <= Level(t, key, now, rate) <= BURST
  {
    RefillBounds(BucketOf(t, key, now), now, rate);
  }

  // -------------------------------------------------------------------------
  // Agreement with the unbounded limiter
  // -------------------------------------------------------------------------

  // The unbounded limiter, shown the requests the bounded one does not turn away for want of room.
  function Shadow(t: Table, run: seq<Request>, rate: real): Table
    requires rate > 0.0
    decreases |run|
  {
    if run == [] then t
    else
      var u, last := Shadow(t, run[..|run| - 1], rate), run[|run| - 1];
      if LastAnswer(t, run, rate).TableFull? then u else AdmitUnbounded(u, last.key, last.now, rate).0
  }

  ghost predicate SameLevels(t: Table, u: Table, now: int, rate: real) {
    forall key :: Level(t, key, now, rate) == Level(u, key, now, rate)
  }

  lemma LevelsStaySame(t: Table, u: Table, now: int, later: int, rate: real)
    requires rate > 0.0 && Sound(t, now) && Sound(u, now) && now <= later && SameLevels(t, u, now, rate)
    ensures SameLevels(t, u, later, rate)
  {
    forall key ensures Level(t, key, later, rate) == Level(u, key, later, rate) {
      LevelLater(t, now, later, rate, key);
      LevelLater(u, now, later, rate, key);
      assert Level(t, key, now, rate) == Level(u, key, now, rate);
    }
  }

  lemma LevelLater(t: Table, now: int, later: int, rate: real, key: Key)
    requires rate > 0.0 && Sound(t, now) && now <= later
    ensures Level(t, key, later, rate) == Min(Level(t, key, now, rate) + Earned(later - now, rate), BURST)
  {
    EarnedGrows(later - now, rate);
    RefillBounds(BucketOf(t, key, now), now, rate);
    if key in t {
      RefillComposes(t[key], now, later, rate);
    }
  }

  lemma UnboundedLevels(u: Table, key: Key, now: int, rate: real, other: Key)
    requires rate > 0.0 && Sound(u, now)
    ensures var (u', answer) := AdmitUnbounded(u, key, now, rate);
            && Sound(u', now)
            && answer == (if Level(u, key, now, rate) >= 1.0 then Granted
                          else Wait(Shortfall(Level(u, key, now, rate), rate)))
            && Level(u', other, now, rate)
                 == (if other == key && answer.Granted? then Level(u, key, now, rate) - 1.0
                     else Level(u, other, now, rate))
  {
    var b := BucketOf(u, key, now);
    RefillBounds(b, now, rate);
    RefillComposes(b, now, now, rate);
    assert Earned(0, rate) == 0.0;
  }

  // The bounded limiter's answer is decided by the level alone, unless the table has no room.
  lemma AnswerByLevel(t: Table, key: Key, now: int, rate: real)
    requires rate > 0.0 && Sound(t, now)
    ensures var answer := AdmitClient(t, key, now, rate).1;
            answer.TableFull?
            || answer == (if Level(t, key, now, rate) >= 1.0 then Granted
                          else Wait(Shortfall(Level(t, key, now, rate), rate)))
  {
    RoomKeepsLevels(t, key, now, now, rate, key);
  }

  // Every decision the bounded table makes is the one the unbounded table makes.
  lemma {:induction false} AgreesWithUnbounded(start: int, run: seq<Request>, rate: real)
    requires rate > 0.0 && Timely(start, run)
    ensures var t, u, now := Run(map[], run, rate), Shadow(map[], run, rate), Clock(start, run);
            && Sound(t, now) && Sound(u, now) && SameLevels(t, u, now, rate)
    ensures run != [] && !LastAnswer(map[], run, rate).TableFull? ==>
              var last := run[|run| - 1];
              LastAnswer(map[], run, rate)
                == AdmitUnbounded(Shadow(map[], run[..|run| - 1], rate), last.key, last.now, rate).1
    decreases |run|
  {
    if run != [] {
      var before, last := run[..|run| - 1], run[|run| - 1];
      AgreesWithUnbounded(start, before, rate);
      var t, u := Run(map[], before, rate), Shadow(map[], before, rate);
      LevelsStaySame(t, u, Clock(start, before), last.now, rate);
      AnswerByLevel(t, last.key, last.now, rate);
      assert Level(t, last.key, last.now, rate) == Level(u, last.key, last.now, rate);
      var t', u' := Run(map[], run, rate), Shadow(map[], run, rate);
      forall key ensures Sound(t', last.now) && Sound(u', last.now)
                         && Level(t', key, last.now, rate) == Level(u', key, last.now, rate)
      {
        AdmitLevels(t, last.key, last.now, last.now, rate, key);
        UnboundedLevels(u, last.key, last.now, rate, key);
        assert Level(t, key, last.now, rate) == Level(u, key, last.now, rate);
      }
      assert Sound(t', last.now) by { AdmitLevels(t, last.key, last.now, last.now, rate, last.key); }
      assert Sound(u', last.now) by { UnboundedLevels(u, last.key, last.now, rate, last.key); }
    }
  }

  // -------------------------------------------------------------------------
  // Waiting
  // -------------------------------------------------------------------------

  lemma CeilingCovers(x: real)
    ensures x <= Ceiling(x) as real
  {
  }

  lemma ShortfallEarnsOne(tokens: real, rate: real)
    requires rate > 0.0
    ensures tokens + Earned(1000 * Shortfall(tokens, rate), rate) >= 1.0
  {
    var missing := (1.0 - tokens) / rate;
    CeilingCovers(missing);
    var s := Shortfall(tokens, rate);
    assert (1000 * s) as real / 1000.0 == s as real;
    assert s as real * rate >= missing * rate by {
      assert (s as real - missing) * rate >= 0.0;
    }
    assert missing * rate == 1.0 - tokens;
  }

  // Without a request by the client, its level only rises.
  lemma {:induction false} LevelOnlyRises(t: Table, start: int, run: seq<Request>, later: int, rate: real, key: Key)
    requires rate > 0.0 && Sound(t, start) && Timely(start, run) && Clock(start, run) <= later
    requires forall i :: 0 <= i < |run| ==> run[i].key != key
    ensures Sound(Run(t, run, rate), Clock(start, run))
    ensures Level(Run(t, run, rate), key, later, rate) == Level(t, key, later, rate)
    decreases |run|
  {
    if run != [] {
      var before, last := run[..|run| - 1], run[|run| - 1];
      LevelOnlyRises(t, start, before, later, rate, key);
      Aged(Run(t, before, rate), Clock(start, before), last.now, rate, key);
      AdmitLevels(Run(t, before, rate), last.key, last.now, later, rate, key);
    }
  }

  // A client told to wait and waiting that long gets its token, whatever the others do, unless its
  // bucket filled up, was dropped, and the table has no room to bring it back.
  lemma WaitingPays(t: Table, key: Key, now: int, run: seq<Request>, later: int, rate: real)
    requires rate > 0.0 && Sound(t, now) && AdmitClient(t, key, now, rate).1.Wait?
    requires Timely(now, run) && Clock(now, run) <= later
    requires forall i :: 0 <= i < |run| ==> run[i].key != key
    requires later >= now + 1000 * AdmitClient(t, key, now, rate).1.seconds
    ensures var t' := Run(AdmitClient(t, key, now, rate).0, run, rate);
            var answer := AdmitClient(t', key, later, rate).1;
            && (answer.Granted? || answer.TableFull?)
            && (key in t' ==> answer.Granted?)
  {
    var (told, answer) := AdmitClient(t, key, now, rate);
    WaitEarns(t, key, now, later, rate);
    LevelOnlyRises(told, now, run, later, rate, key);
    AnswerByLevel(Run(told, run, rate), key, later, rate);
  }

  lemma WaitEarns(t: Table, key: Key, now: int, later: int, rate: real)
    requires rate > 0.0 && Sound(t, now) && AdmitClient(t, key, now, rate).1.Wait?
    requires later >= now + 1000 * AdmitClient(t, key, now, rate).1.seconds
    ensures Sound(AdmitClient(t, key, now, rate).0, now)
    ensures Level(AdmitClient(t, key, now, rate).0, key, later, rate) >= 1.0
  {
    var (told, answer) := AdmitClient(t, key, now, rate);
    var level := Level(t, key, now, rate);
    AnswerByLevel(t, key, now, rate);
    AdmitLevels(t, key, now, now, rate, key);
    LevelLater(told, now, later, rate, key);
    WaitedEnough(level, later - now, rate);
  }

  lemma WaitedEnough(level: real, ms: int, rate: real)
    requires rate > 0.0 && ms >= 1000 * Shortfall(level, rate)
    ensures level + Earned(ms, rate) >= 1.0
  {
    ShortfallEarnsOne(level, rate);
    var s := 1000 * Shortfall(level, rate);
    EarnedAdds(s, ms - s, rate);
    EarnedGrows(ms - s, rate);
  }

  // -------------------------------------------------------------------------
  // The table as the service keeps it
  // -------------------------------------------------------------------------

  class ClientTable {
    var clients: Table
    const perSecond: real

    constructor (perMinute: nat)
      requires perMinute > 0
      ensures clients == map[] && perSecond == perMinute as real / 60.0
    {
      clients := map[];
      perSecond := perMinute as real / 60.0;
    }

    method Retain(now: int)
      modifies this
      ensures clients == Retained(old(clients), now, perSecond)
    {
      var todo, kept: Table := clients.Keys, map[];
      while todo != {}
        invariant clients == old(clients) && todo <= clients.Keys
        invariant kept == map k | k in clients && k !in todo
            && Refill(clients[k], now, perSecond, BURST).tokens < BURST :: Refill(clients[k], now, perSecond, BURST)
        decreases todo
      {
        var k :| k in todo;
        var bucket := Refill(clients[k], now, perSecond, BURST);
        if bucket.tokens < BURST {
          kept := kept[k := bucket];
        }
        todo := todo - {k};
      }
      clients := kept;
    }

    method Admit(key: Key, now: int) returns (answer: Answer)
      requires perSecond > 0.0
      modifies this
      ensures (clients, answer) == AdmitClient(old(clients), key, now, perSecond)
    {
      if |clients| >= TABLE_CAPACITY && key !in clients {
        Retain(now);
        if |clients| >= TABLE_CAPACITY {
          answer := TableFull;
          return;
        }
      }
      ghost var room := clients;
      if key !in clients {
        clients := clients[key := Bucket(BURST, now)];
      }
      var bucket := Refill(clients[key], now, perSecond, BURST);
      if bucket.tokens >= 1.0 {
        answer := Granted;
        bucket := bucket.(tokens := bucket.tokens - 1.0);
      } else {
        answer := Wait(Shortfall(bucket.tokens, perSecond));
      }
      clients := clients[key := bucket];
      assert clients == room[key := bucket];
    }
  }
}
