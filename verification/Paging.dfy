/**
 The seller listing export: keyset pages in (server revision, aggregate id) order, walked by
 following each page's cursor.  Ids compare by the database's collation, any strict total order.
 The text of a cursor is whatever the codec makes of a position.
 */
module Paging {
  import opened Options
  import opened Sets

  const DEFAULT_PAGE_SIZE: int := 50
  const MAX_PAGE_SIZE: int := 200
  const MAX_IDENTITY_BYTES: nat := 256

  type Revision = n: int | n >= 1 witness 1

  datatype Listing = Listing(seller: string, revision: Revision, deleted: bool)

  type Table = map<string, Listing>

  datatype Row = Row(revision: Revision, id: string)

  datatype Position = Position(revision: int, id: string)

  type Collation = (string, string) -> bool

  ghost predicate StrictTotal(less: Collation) {
    && (forall a :: !less(a, a))
    && (forall a, b, c :: less(a, b) && less(b, c) ==> less(a, c))
    && (forall a, b :: a == b || less(a, b) || less(b, a))
  }

  // -------------------------------------------------------------------------
  // Cursors
  // -------------------------------------------------------------------------

  datatype Codec = Codec(encode: Position -> string, parse: string -> Option<Position>)

  ghost predicate RoundTrips(k: Codec) {
    forall p :: k.parse(k.encode(p)) == Some(p)
  }

  predicate IsControl(c: char) {
    c as int <= 0x1F || 0x7F <= c as int <= 0x9F
  }

  function Utf8Bytes(s: string): nat
    decreases |s|
  {
    if s == [] then 0
    else
      var c := s[|s| - 1] as int;
      Utf8Bytes(s[..|s| - 1]) + if c < 0x80 then 1 else if c < 0x800 then 2 else if c < 0x1_0000 then 3 else 4
  }

  predicate Acceptable(p: Position) {
    p.revision >= 0 && Utf8Bytes(p.id) <= MAX_IDENTITY_BYTES && forall i :: 0 <= i < |p.id| ==> !IsControl(p.id[i])
  }

  function Decode(k: Codec, cursor: string): Option<Position> {
    var p := k.parse(cursor);
    if p.Some? && Acceptable(p.value) then p else None
  }

  // -------------------------------------------------------------------------
  // The query
  // -------------------------------------------------------------------------

  predicate Before(less: Collation, a: Row, b: Row) {
    a.revision < b.revision || (a.revision == b.revision && less(a.id, b.id))
  }

  predicate Past(less: Collation, r: Row, p: Position) {
    r.revision > p.revision || (r.revision == p.revision && less(p.id, r.id))
  }

  // The seller's live listings past a position.
  function Matching(less: Collation, t: Table, seller: string, p: Position): set<Row> {
    set id | id in t && t[id].seller == seller && !t[id].deleted && Past(less, Row(t[id].revision, id), p)
      :: Row(t[id].revision, id)
  }

  predicate Ascending(less: Collation, q: seq<Row>) {
    forall i, j :: 0 <= i < j < |q| ==> Before(less, q[i], q[j])
  }

  // The rows of a set in order, each once.
  ghost predicate InOrder(less: Collation, q: seq<Row>, rows: set<Row>) {
    Ascending(less, q) && forall r :: r in q <==> r in rows
  }

  lemma {:induction false} OrderExists(less: Collation, rows: set<Row>) returns (q: seq<Row>)
    requires StrictTotal(less)
    ensures InOrder(less, q, rows)
    decreases rows
  {
    if rows == {} {
      q := [];
    } else {
      var r :| r in rows;
      var rest := OrderExists(less, rows - {r});
      q := PutIn(less, rest, r);
    }
  }

  lemma {:induction false} PutIn(less: Collation, q: seq<Row>, r: Row) returns (q': seq<Row>)
    requires StrictTotal(less) && Ascending(less, q) && r !in q
    ensures Ascending(less, q') && forall x :: x in q' <==> x in q || x == r
    decreases |q|
  {
    if q == [] || Before(less, q[|q| - 1], r) {
      q' := q + [r];
    } else {
      var last := q[|q| - 1];
      var front := PutIn(less, q[..|q| - 1], r);
      q' := front + [last];
      assert q == q[..|q| - 1] + [last];
      forall i | 0 <= i < |front| ensures Before(less, front[i], last) {
        assert front[i] in front;
      }
    }
  }

  lemma {:induction false} OrderIsUnique(less: Collation, p: seq<Row>, q: seq<Row>)
    requires StrictTotal(less) && Ascending(less, p) && Ascending(less, q)
    requires forall r :: r in p <==> r in q
    ensures p == q
    decreases |p|
  {
    assert p != [] ==> p[0] in q;
    assert q != [] ==> q[0] in p;
    if p != [] && q != [] {
      var a, b := p[|p| - 1], q[|q| - 1];
      assert a in q && b in p;
      assert a == b;
      var p', q' := p[..|p| - 1], q[..|q| - 1];
      assert p == p' + [a] && q == q' + [a];
      forall r ensures r in p' <==> r in q' {
        assert r in p <==> r in q;
        assert a !in p' && a !in q';
      }
      OrderIsUnique(less, p', q');
    }
  }

  ghost function Ordered(less: Collation, rows: set<Row>): (q: seq<Row>)
    requires StrictTotal(less)
    ensures InOrder(less, q, rows)
  {
    assert exists q :: InOrder(less, q, rows) by {
      var q := OrderExists(less, rows);
      assert InOrder(less, q, rows);
    }
    var q :| InOrder(less, q, rows);
    q
  }

  // -------------------------------------------------------------------------
  // One request
  // -------------------------------------------------------------------------

  datatype Response = Forbidden | InvalidLimit | InvalidCursor | Page(rows: seq<Row>, next: Option<string>)

  const START := Position(0, "")

  ghost function List(less: Collation, k: Codec, t: Table, actor: string, seller: string,
                      limit: Option<int>, cursor: Option<string>): Response
    requires StrictTotal(less)
  {
    if actor != seller then Forbidden
    else
      var size := if limit.Some? then limit.value else DEFAULT_PAGE_SIZE;
      if !(1 <= size <= MAX_PAGE_SIZE) then InvalidLimit
      else
        var position := if cursor.Some? then Decode(k, cursor.value) else Some(START);
        if position.None? then InvalidCursor
        else
          var q := Ordered(less, Matching(less, t, seller, position.value));
          var rows := if |q| > size + 1 then q[..size + 1] else q;
          if |rows| > size
          then Page(rows[..size], Some(k.encode(Position(rows[size - 1].revision, rows[size - 1].id))))
          else Page(rows, None)
  }

  // -------------------------------------------------------------------------
  // The walk
  // -------------------------------------------------------------------------

  ghost function Left(less: Collation, k: Codec, t: Table, seller: string, cursor: Option<string>): nat {
    var p := if cursor.Some? then Decode(k, cursor.value) else Some(START);
    if p.None? then 0 else |Matching(less, t, seller, p.value)|
  }

  // After a page with a cursor, what the cursor leaves is the rest of the order.
  lemma NextPage(less: Collation, t: Table, seller: string, p: Position, n: nat)
    requires StrictTotal(less) && 1 <= n
    requires n <= |Ordered(less, Matching(less, t, seller, p))|
    ensures var q := Ordered(less, Matching(less, t, seller, p));
            Ordered(less, Matching(less, t, seller, Position(q[n - 1].revision, q[n - 1].id))) == q[n..]
  {
    var q := Ordered(less, Matching(less, t, seller, p));
    var last := q[n - 1];
    var p' := Position(last.revision, last.id);
    assert last in q;
    var q' := Ordered(less, Matching(less, t, seller, p'));
    forall r ensures r in q' <==> r in q[n..] {
      if r in q' {
        assert r in Matching(less, t, seller, p');
        assert r in Matching(less, t, seller, p);
        assert r in q;
        var i: nat :| i < |q| && q[i] == r;
        assert i >= n;
      }
      if r in q[n..] {
        var i: nat :| n <= i < |q| && q[i] == r;
        assert Before(less, last, r);
        assert r in Matching(less, t, seller, p);
        assert r in Matching(less, t, seller, p');
      }
    }
    OrderIsUnique(less, q', q[n..]);
  }

  lemma FewerLeft(less: Collation, t: Table, seller: string, p: Position, n: nat)
    requires StrictTotal(less) && 1 <= n <= |Ordered(less, Matching(less, t, seller, p))|
    ensures var q := Ordered(less, Matching(less, t, seller, p));
            |Matching(less, t, seller, Position(q[n - 1].revision, q[n - 1].id))| < |Matching(less, t, seller, p)|
  {
    var q := Ordered(less, Matching(less, t, seller, p));
    NextPage(less, t, seller, p, n);
    var more, fewer := Matching(less, t, seller, p), Matching(less, t, seller, Position(q[n - 1].revision, q[n - 1].id));
    assert q[n - 1] in q;
    forall r | r in fewer ensures r in more && r != q[n - 1] {
      assert r in q[n..];
      var i: nat :| n <= i < |q| && q[i] == r;
      assert r in q;
      assert Before(less, q[n - 1], q[i]);
    }
    SubsetSize(fewer, more - {q[n - 1]});
  }

  // The pages of a walk put together; none if one of its requests is refused.
  ghost function Walk(less: Collation, k: Codec, t: Table, seller: string, size: int, cursor: Option<string>): Option<seq<Row>>
    requires StrictTotal(less) && RoundTrips(k)
    decreases Left(less, k, t, seller, cursor), if cursor.Some? then 0 else 1
  {
    var page := List(less, k, t, seller, seller, Some(size), cursor);
    if !page.Page? then None
    else if page.next.None? then Some(page.rows)
    else
      var p := if cursor.Some? then Decode(k, cursor.value).value else START;
      FewerLeft(less, t, seller, p, size);
      assert Left(less, k, t, seller, page.next) < Left(less, k, t, seller, cursor);
      var rest := Walk(less, k, t, seller, size, page.next);
      if rest.None? then None else Some(page.rows + rest.value)
  }

  // Every page boundary is a row a cursor may point at.
  predicate BoundariesAcceptable(q: seq<Row>, size: nat)
    requires size > 0
    decreases |q|
  {
    |q| <= size
    || (Acceptable(Position(q[size - 1].revision, q[size - 1].id)) && BoundariesAcceptable(q[size..], size))
  }

  // A full page is followed by the walk from its last row.
  lemma WalkOn(less: Collation, k: Codec, t: Table, seller: string, size: int, cursor: Option<string>, p: Position)
    requires StrictTotal(less) && RoundTrips(k) && 1 <= size <= MAX_PAGE_SIZE
    requires Some(p) == if cursor.Some? then Decode(k, cursor.value) else Some(START)
    requires |Ordered(less, Matching(less, t, seller, p))| > size
    ensures var q := Ordered(less, Matching(less, t, seller, p));
            var rest := Walk(less, k, t, seller, size, Some(k.encode(Position(q[size - 1].revision, q[size - 1].id))));
            Walk(less, k, t, seller, size, cursor) == if rest.None? then None else Some(q[..size] + rest.value)
  {
    var q := Ordered(less, Matching(less, t, seller, p));
    assert q[..size + 1][..size] == q[..size];
  }

  lemma {:induction false} WalkFrom(less: Collation, k: Codec, t: Table, seller: string, size: int,
                                    cursor: Option<string>, p: Position)
    requires StrictTotal(less) && RoundTrips(k) && 1 <= size <= MAX_PAGE_SIZE
    requires Some(p) == if cursor.Some? then Decode(k, cursor.value) else Some(START)
    ensures var q := Ordered(less, Matching(less, t, seller, p));
            Walk(less, k, t, seller, size, cursor) == if BoundariesAcceptable(q, size) then Some(q) else None
    decreases |Matching(less, t, seller, p)|
  {
    var q := Ordered(less, Matching(less, t, seller, p));
    if |q| > size {
      var last := Position(q[size - 1].revision, q[size - 1].id);
      NextPage(less, t, seller, p, size);
      FewerLeft(less, t, seller, p, size);
      WalkOn(less, k, t, seller, size, cursor, p);
      assert q == q[..size] + q[size..];
      if Acceptable(last) {
        WalkFrom(less, k, t, seller, size, Some(k.encode(last)), last);
      }
    }
  }

  // The seller's whole table, in order.
  ghost function Export(less: Collation, t: Table, seller: string): seq<Row>
    requires StrictTotal(less)
  {
    Ordered(less, set id | id in t && t[id].seller == seller && !t[id].deleted :: Row(t[id].revision, id))
  }

  // The walk from the start gives every live listing of the seller once, in order, exactly when
  // each page ends on a row whose position the cursor decoder takes back.
  lemma WalkIsComplete(less: Collation, k: Codec, t: Table, seller: string, size: int)
    requires StrictTotal(less) && RoundTrips(k) && 1 <= size <= MAX_PAGE_SIZE
    ensures Walk(less, k, t, seller, size, None) == Some(Export(less, t, seller))
            <==> BoundariesAcceptable(Export(less, t, seller), size)
    ensures Walk(less, k, t, seller, size, None).Some? <==> BoundariesAcceptable(Export(less, t, seller), size)
  {
    var all := set id | id in t && t[id].seller == seller && !t[id].deleted :: Row(t[id].revision, id);
    assert Matching(less, t, seller, START) == all;
    WalkFrom(less, k, t, seller, size, None, START);
  }

  // Ids without control characters and of at most 256 bytes never stop a walk.
  lemma {:induction false} OrdinaryIdsWalk(q: seq<Row>, size: nat)
    requires size > 0
    requires forall r :: r in q ==> Acceptable(Position(r.revision, r.id))
    ensures BoundariesAcceptable(q, size)
    decreases |q|
  {
    if |q| > size {
      assert q[size - 1] in q;
      OrdinaryIdsWalk(q[size..], size);
    }
  }
}
