/**
 Key rotation of the sealed digital-delivery rows while other writers go on writing.  Sealing is
 ideal: a ciphertext opens exactly under the key and for the associated data it was made with.
 The pass takes no lock: before every read and before every write the other writers may commit
 any number of writes, all under the current key.
 */
module Reseal {
  import opened Sets

  datatype Family = Version | Pin | Email

  datatype Sealer = Current | Previous | Foreign

  datatype Ciphertext = Ciphertext(sealer: Sealer, aad: string, text: string, nonce: nat)

  // A sealed row: the associated data its columns give, and its ciphertext.
  datatype Row = Row(aad: string, sealed: Ciphertext)

  type Serial = n: int | n >= 1 witness 1

  datatype RowId = RowId(family: Family, id: Serial)

  type Rows = map<RowId, Row>

  const BATCH: nat := 100

  predicate OpensUnder(row: Row, sealer: Sealer) {
    row.sealed.sealer == sealer && row.sealed.aad == row.aad
  }

  // -------------------------------------------------------------------------
  // The other writers
  // -------------------------------------------------------------------------

  datatype Write = Put(at: RowId, aad: string, text: string, nonce: nat) | Erase(at: RowId)

  function Apply(rows: Rows, w: Write): Rows {
    match w
    case Put(at, aad, text, nonce) => rows[at := Row(aad, Ciphertext(Current, aad, text, nonce))]
    case Erase(at) => rows - {at}
  }

  function ApplyAll(rows: Rows, writes: seq<Write>): Rows
    decreases |writes|
  {
    if writes == [] then rows else Apply(ApplyAll(rows, writes[..|writes| - 1]), writes[|writes| - 1])
  }

  // The plaintext every row has, with what it is bound to.
  function Plain(rows: Rows): map<RowId, (string, string)> {
    map k | k in rows :: (rows[k].aad, rows[k].sealed.text)
  }

  lemma {:induction false} WritesOnPlain(rows: Rows, others: Rows, writes: seq<Write>)
    requires Plain(rows) == Plain(others)
    ensures Plain(ApplyAll(rows, writes)) == Plain(ApplyAll(others, writes))
    decreases |writes|
  {
    if writes != [] {
      var before := writes[..|writes| - 1];
      WritesOnPlain(rows, others, before);
      WriteOnPlain(ApplyAll(rows, before), ApplyAll(others, before), writes[|writes| - 1]);
    }
  }

  lemma WriteOnPlain(rows: Rows, others: Rows, w: Write)
    requires Plain(rows) == Plain(others)
    ensures Plain(Apply(rows, w)) == Plain(Apply(others, w))
  {
    assert rows.Keys == Plain(rows).Keys == others.Keys;
    forall k | k in Apply(rows, w)
      ensures k in Apply(others, w) && Plain(Apply(rows, w))[k] == Plain(Apply(others, w))[k]
    {
      if k != w.at {
        assert Plain(rows)[k] == Plain(others)[k];
      }
    }
  }

  // Every row is as it was or sealed under the current key since.
  ghost predicate Fresher(rows: Rows, rows': Rows) {
    forall k :: k in rows' ==> (k in rows && rows'[k] == rows[k]) || OpensUnder(rows'[k], Current)
  }

  lemma {:induction false} WritesFreshen(rows: Rows, writes: seq<Write>)
    ensures Fresher(rows, ApplyAll(rows, writes))
    decreases |writes|
  {
    if writes != [] {
      WritesFreshen(rows, writes[..|writes| - 1]);
    }
  }

  lemma FresherJoins(a: Rows, b: Rows, c: Rows)
    requires Fresher(a, b) && Fresher(b, c)
    ensures Fresher(a, c)
  {
  }

  // -------------------------------------------------------------------------
  // Stragglers: rows of a family still under the previous key
  // -------------------------------------------------------------------------

  function Stragglers(rows: Rows, f: Family): set<RowId> {
    set k | k in rows && k.family == f && OpensUnder(rows[k], Previous)
  }

  lemma FresherHasFewer(rows: Rows, rows': Rows, f: Family)
    requires Fresher(rows, rows')
    ensures |Stragglers(rows', f)| <= |Stragglers(rows, f)|
  {
    SubsetSize(Stragglers(rows', f), Stragglers(rows, f));
  }

  // A row the pass is through with: under the current key, or counted as opening under neither.
  ghost predicate Settled(rows: Rows, k: RowId, unopenable: bool) {
    k in rows ==> OpensUnder(rows[k], Current) || (unopenable && !OpensUnder(rows[k], Previous))
  }

  ghost predicate SettledUpTo(rows: Rows, f: Family, after: int, unopenable: bool) {
    forall k: RowId :: k.family == f && k.id <= after ==> Settled(rows, k, unopenable)
  }

  // The books of a stretch of the pass: no row is re-sealed twice, and if nobody else wrote, none
  // was skipped and only this family was touched.
  ghost predicate Tally(rows: Rows, rows': Rows, f: Family, resealed: nat, skipped: nat, quiet: bool) {
    && resealed + |Stragglers(rows', f)| <= |Stragglers(rows, f)|
    && (quiet ==> skipped == 0 && resealed + |Stragglers(rows', f)| == |Stragglers(rows, f)|
                  && OnlyFamily(rows, rows', f))
  }

  lemma TallyJoins(a: Rows, b: Rows, c: Rows, f: Family, r1: nat, s1: nat, r2: nat, s2: nat, quiet: bool)
    requires Tally(a, b, f, r1, s1, quiet) && Tally(b, c, f, r2, s2, quiet)
    ensures Tally(a, c, f, r1 + r2, s1 + s2, quiet)
  {
  }

  lemma NobodyTallies(rows: Rows, rows': Rows, f: Family, quiet: bool)
    requires Fresher(rows, rows') && (quiet ==> rows' == rows)
    ensures Tally(rows, rows', f, 0, 0, quiet)
  {
    FresherHasFewer(rows, rows', f);
  }

  ghost predicate HasUnopenable(rows: Rows) {
    exists k :: k in rows && !OpensUnder(rows[k], Current) && !OpensUnder(rows[k], Previous)
  }

  // Nobody writes a row that opens under neither key.
  lemma UnopenableWasThere(rows: Rows, rows': Rows)
    requires Fresher(rows, rows') && HasUnopenable(rows')
    ensures HasUnopenable(rows)
  {
  }

  ghost predicate FamilySettled(rows: Rows, f: Family, unopenable: bool) {
    forall k: RowId :: k.family == f ==> Settled(rows, k, unopenable)
  }

  lemma FamilyStaysSettled(rows: Rows, rows': Rows, f: Family, was: bool, now: bool)
    requires Fresher(rows, rows') && FamilySettled(rows, f, was) && (was ==> now)
    ensures FamilySettled(rows', f, now)
  {
  }

  lemma StaysSettled(rows: Rows, rows': Rows, f: Family, after: int, was: bool, now: bool)
    requires Fresher(rows, rows') && SettledUpTo(rows, f, after, was) && (was ==> now)
    ensures SettledUpTo(rows', f, after, now)
  {
  }

  // Rows of other families are as they were.
  ghost predicate OnlyFamily(rows: Rows, rows': Rows, f: Family) {
    forall k :: k in rows && k.family != f ==> Untouched(rows, rows', k)
  }

  lemma SameStragglers(rows: Rows, rows': Rows, f: Family, g: Family)
    requires OnlyFamily(rows, rows', f) && rows.Keys == rows'.Keys && f != g
    ensures Stragglers(rows', g) == Stragglers(rows, g)
  {
  }

  predicate Untouched(rows: Rows, rows': Rows, k: RowId) {
    k in rows && k in rows' && rows'[k] == rows[k]
  }

  // -------------------------------------------------------------------------
  // Paging by id
  // -------------------------------------------------------------------------

  ghost predicate IsLeast(m: Serial, ids: set<Serial>) {
    m in ids && forall x :: x in ids ==> m <= x
  }

  lemma {:induction false} LeastExists(ids: set<Serial>) returns (m: Serial)
    requires ids != {}
    ensures IsLeast(m, ids)
    decreases ids
  {
    var y :| y in ids;
    m := y;
    if ids != {y} {
      var rest := ids - {y};
      assert ids == rest + {y};
      var l := LeastExists(rest);
      m := if l <= y then l else y;
    }
  }

  function Least(ids: set<Serial>): (m: Serial)
    requires ids != {}
    ensures m in ids && forall x :: x in ids ==> m <= x
  {
    assert exists m :: IsLeast(m, ids) by {
      var m := LeastExists(ids);
      assert IsLeast(m, ids);
    }
    var m :| m in ids && forall x :: x in ids ==> m <= x;
    m
  }

  function Above(rows: Rows, f: Family, after: int): set<Serial> {
    set k | k in rows && k.family == f && k.id > after :: k.id
  }

  // With no id left above, the family is settled and has no straggler.
  lemma NoneAbove(rows: Rows, f: Family, after: int, unopenable: bool)
    requires Above(rows, f, after) == {} && SettledUpTo(rows, f, after, unopenable)
    ensures FamilySettled(rows, f, unopenable) && Stragglers(rows, f) == {}
  {
    forall k: RowId | k.family == f ensures Settled(rows, k, unopenable) {
      assert k in rows && k.id > after ==> k.id in Above(rows, f, after);
    }
    forall k | k in rows && k.family == f ensures !OpensUnder(rows[k], Previous) {
      assert Settled(rows, k, unopenable);
    }
  }

  // A settled page settles everything up to its last id: rows between were not there to read.
  lemma PageSettles(rows: Rows, rows': Rows, f: Family, after: int, page: seq<Serial>, was: bool, now: bool)
    requires Fresher(rows, rows') && SettledUpTo(rows, f, after, was) && (was ==> now)
    requires page != [] && page == Lowest(Above(rows, f, after), BATCH)
    requires forall i :: 0 <= i < |page| ==> Settled(rows', RowId(f, page[i]), now)
    ensures SettledUpTo(rows', f, page[|page| - 1], now)
  {
    var last := page[|page| - 1];
    forall k: RowId | k.family == f && k.id <= last ensures Settled(rows', k, now) {
      if k in rows' && k in rows && k.id > after {
        assert k.id in Above(rows, f, after);
        var i: nat :| i < |page| && page[i] == k.id;
        assert k == RowId(f, page[i]);
      } else if k.id <= after {
        assert Settled(rows, k, was);
      }
    }
  }

  lemma FewerAbove(rows: Rows, rows': Rows, f: Family, after: int, last: Serial)
    requires rows.Keys == rows'.Keys && last in Above(rows, f, after)
    ensures |Above(rows', f, last)| < |Above(rows, f, after)|
  {
    assert last > after;
    assert Above(rows', f, last) <= Above(rows, f, after) - {last};
    SubsetSize(Above(rows', f, last), Above(rows, f, after) - {last});
  }

  function StragglersAbove(rows: Rows, f: Family, after: int): set<RowId> {
    set k | k in Stragglers(rows, f) && k.id > after
  }

  function Hits(rows: Rows, f: Family, ids: seq<Serial>): set<RowId> {
    set k | k in Stragglers(rows, f) && k.id in ids
  }

  lemma FresherHasFewerAbove(rows: Rows, rows': Rows, f: Family, after: int)
    requires Fresher(rows, rows')
    ensures |StragglersAbove(rows', f, after)| <= |StragglersAbove(rows, f, after)|
  {
    SubsetSize(StragglersAbove(rows', f, after), StragglersAbove(rows, f, after));
  }

  lemma NoStragglersAbove(rows: Rows, f: Family, after: int)
    requires Above(rows, f, after) == {}
    ensures StragglersAbove(rows, f, after) == {}
  {
    forall k | k in rows && k.family == f ensures k.id <= after {
      assert k.id > after ==> k.id in Above(rows, f, after);
    }
  }

  lemma HitsStep(rows: Rows, f: Family, page: seq<Serial>, n: nat)
    requires n < |page| && RowId(f, page[n]) in rows && page[n] !in page[..n]
    ensures |Hits(rows, f, page[..n + 1])|
            == |Hits(rows, f, page[..n])| + if OpensUnder(rows[RowId(f, page[n])], Previous) then 1 else 0
  {
    var at := RowId(f, page[n]);
    assert page[..n + 1] == page[..n] + [page[n]];
    if OpensUnder(rows[at], Previous) {
      assert Hits(rows, f, page[..n + 1]) == Hits(rows, f, page[..n]) + {at};
    } else {
      assert Hits(rows, f, page[..n + 1]) == Hits(rows, f, page[..n]);
    }
  }

  // The stragglers above are those on the next page and those above it.
  lemma PageSplits(rows: Rows, f: Family, after: int, page: seq<Serial>)
    requires page != [] && page == Lowest(Above(rows, f, after), BATCH)
    ensures |StragglersAbove(rows, f, after)| == |Hits(rows, f, page)| + |StragglersAbove(rows, f, page[|page| - 1])|
  {
    var last := page[|page| - 1];
    var hits, above := Hits(rows, f, page), StragglersAbove(rows, f, last);
    forall k | k in StragglersAbove(rows, f, after) ensures k in hits + above {
      assert k.id in Above(rows, f, after);
    }
    forall k | k in hits + above ensures k in StragglersAbove(rows, f, after) {
      assert last in Above(rows, f, after);
      if k in hits {
        assert k.id in Above(rows, f, after);
      }
    }
    assert StragglersAbove(rows, f, after) == hits + above;
    forall k | k in hits ensures k !in above {
      var i: nat :| i < |page| && page[i] == k.id;
    }
    assert hits !! above;
  }

  ghost predicate EachSettled(rows: Rows, unopenable: bool) {
    forall f :: FamilySettled(rows, f, unopenable)
  }

  // Settled one after the other, the families are settled together.
  lemma FamiliesSettle(versions: Rows, pins: Rows, emails: Rows, u1: nat, u2: nat, u3: nat)
    requires Fresher(versions, pins) && Fresher(pins, emails)
    requires FamilySettled(versions, Version, u1 > 0) && FamilySettled(pins, Pin, u2 > 0)
    requires FamilySettled(emails, Email, u3 > 0)
    ensures EachSettled(emails, u1 + u2 + u3 > 0)
  {
    FamilyStaysSettled(versions, pins, Version, u1 > 0, u1 + u2 > 0);
    FamilyStaysSettled(pins, emails, Version, u1 + u2 > 0, u1 + u2 + u3 > 0);
    FamilyStaysSettled(pins, emails, Pin, u2 > 0, u1 + u2 + u3 > 0);
    FamilyStaysSettled(emails, emails, Email, u3 > 0, u1 + u2 + u3 > 0);
  }

  lemma AllSettled(rows: Rows, unopenable: bool)
    requires EachSettled(rows, unopenable)
    ensures forall k :: k in rows ==> !OpensUnder(rows[k], Previous)
    ensures !unopenable ==> forall k :: k in rows ==> OpensUnder(rows[k], Current)
    ensures forall f :: Stragglers(rows, f) == {}
  {
    forall k | k in rows ensures Settled(rows, k, unopenable) {
      assert FamilySettled(rows, k.family, unopenable);
    }
    forall f ensures Stragglers(rows, f) == {} {
      assert forall k :: k in Stragglers(rows, f) ==> k in rows;
    }
  }

  // What a pass without interference reports.
  function ProgressOf(rows: Rows): Progress {
    Progress(|Stragglers(rows, Version)|, |Stragglers(rows, Pin)|, |Stragglers(rows, Email)|, 0, 0)
  }

  // The lowest ids, ascending, at most `limit` of them.
  function Lowest(ids: set<Serial>, limit: nat): (page: seq<Serial>)
    ensures |page| <= limit && (limit > 0 && ids != {} ==> page != [])
    ensures forall i :: 0 <= i < |page| ==> page[i] in ids
    ensures forall i, j :: 0 <= i < j < |page| ==> page[i] < page[j]
    ensures page != [] ==> forall x :: x in ids && x <= page[|page| - 1] ==> x in page
    decreases limit
  {
    if ids == {} || limit == 0 then []
    else
      var m := Least(ids);
      [m] + Lowest(ids - {m}, limit - 1)
  }

  // -------------------------------------------------------------------------
  // The pass
  // -------------------------------------------------------------------------

  datatype Progress = Progress(versions: nat, pins: nat, emails: nat, skipped: nat, remaining: nat)

  datatype Outcome = Done(progress: Progress) | Unopenable(count: nat)

  const NO_PROGRESS := Progress(0, 0, 0, 0, 0)

  class Rotation {
    var rows: Rows
    // What the other writers still do, one batch of commits for each point they can get in.
    var others: seq<seq<Write>>
    // The rows as the other writers alone would have left them.
    ghost var written: Rows

    constructor (start: Rows, writers: seq<seq<Write>>)
      ensures rows == written == start && others == writers
    {
      rows, written, others := start, start, writers;
    }

    ghost predicate Faithful()
      reads this
    {
      Plain(rows) == Plain(written)
    }

    // Nothing of the others' is undone, and unless they wrote the same rows are there.
    twostate predicate Progressed()
      reads this
    {
      && Fresher(old(rows), rows)
      && |others| <= |old(others)|
      && (|others| == |old(others)| ==> rows.Keys == old(rows).Keys)
      && (old(others) == [] ==> others == [])
    }

    method Interfere()
      requires Faithful()
      modifies this
      ensures Faithful() && Progressed()
      ensures old(others) == [] ==> rows == old(rows)
      ensures old(others) != [] ==> |others| < |old(others)|
    {
      if others != [] {
        WritesOnPlain(rows, written, others[0]);
        WritesFreshen(rows, others[0]);
        rows := ApplyAll(rows, others[0]);
        written := ApplyAll(written, others[0]);
        others := others[1..];
      }
    }

    // Writes the re-sealed row if it still holds the ciphertext that was read.
    method WriteResealed(at: RowId, read: Row, nonce: nat) returns (done: bool)
      requires Faithful() && OpensUnder(read, Previous)
      requires at in rows ==> rows[at] == read || OpensUnder(rows[at], Current)
      modifies this`rows
      ensures Faithful() && Fresher(old(rows), rows) && rows.Keys == old(rows).Keys
      ensures Settled(rows, at, false) && forall k :: k in rows && k != at ==> Untouched(old(rows), rows, k)
      ensures done <==> at in old(rows) && old(rows)[at] == read
      ensures |Stragglers(rows, at.family)| == |Stragglers(old(rows), at.family)| - (if done then 1 else 0)
    {
      done := at in rows && rows[at].sealed == read.sealed;
      if done {
        rows := rows[at := Row(read.aad, Ciphertext(Current, read.aad, read.sealed.text, nonce))];
        assert Plain(rows) == Plain(old(rows));
        assert Stragglers(rows, at.family) == Stragglers(old(rows), at.family) - {at};
      }
    }

    // One row of a page: (re-sealed, skipped, opens under neither key).
    method ResealRow(at: RowId, read: Row) returns (resealed: nat, skipped: nat, unopenable: nat)
      requires Faithful()
      requires at in rows ==> rows[at] == read || OpensUnder(rows[at], Current)
      modifies this
      ensures Faithful() && Progressed() && Settled(rows, at, unopenable > 0)
      ensures Tally(old(rows), rows, at.family, resealed, skipped,
                    old(others) == [] && at in old(rows) && old(rows)[at] == read)
      ensures old(others) == [] ==> forall k :: k in old(rows) && k != at ==> Untouched(old(rows), rows, k)
      ensures unopenable > 0 ==> !OpensUnder(read, Current) && !OpensUnder(read, Previous)
    {
      if OpensUnder(read, Current) {
        return 0, 0, 0;
      }
      if !OpensUnder(read, Previous) {
        return 0, 0, 1;
      }
      Interfere();
      FresherHasFewer(old(rows), rows, at.family);
      label Hooked:
      var done := WriteResealed(at, read, |others|);
      FresherJoins(old(rows), old@Hooked(rows), rows);
      return if done then 1 else 0, if done then 0 else 1, 0;
    }

    // One page: the rows as they were read, one after the other.
    method ResealPage(f: Family, page: seq<Serial>) returns (resealed: nat, skipped: nat, unopenable: nat)
      requires Faithful()
      requires forall i :: 0 <= i < |page| ==> RowId(f, page[i]) in rows
      requires forall i, j :: 0 <= i < j < |page| ==> page[i] < page[j]
      modifies this
      ensures Faithful() && Progressed()
      ensures forall i :: 0 <= i < |page| ==> Settled(rows, RowId(f, page[i]), unopenable > 0)
      ensures Tally(old(rows), rows, f, resealed, skipped, old(others) == [])
      ensures unopenable > 0 ==> HasUnopenable(old(rows))
    {
      ghost var snapshot := rows;
      var read := rows;
      resealed, skipped, unopenable := 0, 0, 0;
      for n := 0 to |page|
        invariant Faithful() && Progressed()
        invariant forall i :: 0 <= i < n ==> Settled(rows, RowId(f, page[i]), unopenable > 0)
        invariant Tally(snapshot, rows, f, resealed, skipped, old(others) == [])
        invariant old(others) == [] ==> forall i :: n <= i < |page| ==> Untouched(snapshot, rows, RowId(f, page[i]))
        invariant unopenable > 0 ==> HasUnopenable(snapshot)
      {
        var at := RowId(f, page[n]);
        label Row:
        var r, s, u := ResealRow(at, read[at]);
        FresherJoins(snapshot, old@Row(rows), rows);
        TallyJoins(snapshot, old@Row(rows), rows, f, resealed, skipped, r, s, old(others) == []);
        forall i | 0 <= i < n ensures Settled(rows, RowId(f, page[i]), unopenable + u > 0) {
          assert Settled(old@Row(rows), RowId(f, page[i]), unopenable > 0);
        }
        resealed, skipped, unopenable := resealed + r, skipped + s, unopenable + u;
      }
    }

    // The next page of a family, if there is one.
    method ResealNextPage(f: Family, after: int, ghost bad: bool)
      returns (more: bool, last: int, resealed: nat, skipped: nat, unopenable: nat)
      requires Faithful() && SettledUpTo(rows, f, after, bad)
      modifies this
      ensures Faithful() && Progressed() && Tally(old(rows), rows, f, resealed, skipped, old(others) == [])
      ensures more ==> SettledUpTo(rows, f, last, bad || unopenable > 0)
      ensures more && |others| == |old(others)| ==> |Above(rows, f, last)| < |Above(old(rows), f, after)|
      ensures !more ==> unopenable == 0 && FamilySettled(rows, f, bad) && Stragglers(rows, f) == {}
      ensures unopenable > 0 ==> HasUnopenable(old(rows))
    {
      Interfere();
      StaysSettled(old(rows), rows, f, after, bad, bad);
      NobodyTallies(old(rows), rows, f, old(others) == []);
      var page := Lowest(Above(rows, f, after), BATCH);
      if page == [] {
        NoneAbove(rows, f, after, bad);
        return false, after, 0, 0, 0;
      }
      label Read:
      resealed, skipped, unopenable := ResealPage(f, page);
      more, last := true, page[|page| - 1];
      TallyJoins(old(rows), old@Read(rows), rows, f, 0, 0, resealed, skipped, old(others) == []);
      PageSettles(old@Read(rows), rows, f, after, page, bad, bad || unopenable > 0);
      FresherJoins(old(rows), old@Read(rows), rows);
      if |others| == |old(others)| {
        FewerAbove(old(rows), rows, f, after, page[|page| - 1]);
      }
      if unopenable > 0 {
        UnopenableWasThere(old(rows), old@Read(rows));
      }
    }

    // Every page of a family, by ascending id.
    method ResealFamily(f: Family) returns (resealed: nat, skipped: nat, unopenable: nat)
      requires Faithful()
      modifies this
      ensures Faithful() && Progressed()
      ensures FamilySettled(rows, f, unopenable > 0)
      ensures Tally(old(rows), rows, f, resealed, skipped, old(others) == []) && Stragglers(rows, f) == {}
      ensures unopenable > 0 ==> HasUnopenable(old(rows))
    {
      var after, more := 0, true;
      resealed, skipped, unopenable := 0, 0, 0;
      while more
        invariant Faithful() && Progressed()
        invariant if more then SettledUpTo(rows, f, after, unopenable > 0)
                  else FamilySettled(rows, f, unopenable > 0) && Stragglers(rows, f) == {}
        invariant Tally(old(rows), rows, f, resealed, skipped, old(others) == [])
        invariant unopenable > 0 ==> HasUnopenable(old(rows))
        decreases more, |others|, |Above(rows, f, after)|
      {
        label Page:
        var r, s, u;
        more, after, r, s, u := ResealNextPage(f, after, unopenable > 0);
        TallyJoins(old(rows), old@Page(rows), rows, f, resealed, skipped, r, s, old(others) == []);
        FresherJoins(old(rows), old@Page(rows), rows);
        if u > 0 {
          UnopenableWasThere(old(rows), old@Page(rows));
        }
        resealed, skipped, unopenable := resealed + r, skipped + s, unopenable + u;
      }
    }

    // How many rows of a family a scan finds under the previous key: never more than there were,
    // and exactly those if nobody writes.
    method CountFamily(f: Family) returns (found: nat)
      requires Faithful()
      modifies this
      ensures Faithful() && Progressed() && found <= |Stragglers(old(rows), f)|
      ensures old(others) == [] ==> rows == old(rows) && found == |Stragglers(old(rows), f)|
    {
      var after: int := 0;
      found := 0;
      assert StragglersAbove(rows, f, 0) == Stragglers(rows, f);
      while true
        invariant Faithful() && Progressed()
        invariant found + |StragglersAbove(rows, f, after)| <= |Stragglers(old(rows), f)|
        invariant old(others) == [] ==>
            rows == old(rows) && found + |StragglersAbove(rows, f, after)| == |Stragglers(old(rows), f)|
        decreases |others|, |Above(rows, f, after)|
      {
        label Start:
        Interfere();
        FresherHasFewerAbove(old@Start(rows), rows, f, after);
        FresherJoins(old(rows), old@Start(rows), rows);
        var page := Lowest(Above(rows, f, after), BATCH);
        if page == [] {
          NoStragglersAbove(rows, f, after);
          break;
        }
        var hits := CountPage(f, page);
        PageSplits(rows, f, after, page);
        if |others| == |old@Start(others)| {
          FewerAbove(old@Start(rows), rows, f, after, page[|page| - 1]);
        }
        found, after := found + hits, page[|page| - 1];
      }
    }

    method CountPage(f: Family, page: seq<Serial>) returns (hits: nat)
      requires forall i :: 0 <= i < |page| ==> RowId(f, page[i]) in rows
      requires forall i, j :: 0 <= i < j < |page| ==> page[i] < page[j]
      ensures hits == |Hits(rows, f, page)|
    {
      hits := 0;
      for n := 0 to |page|
        invariant hits == |Hits(rows, f, page[..n])|
      {
        var at := RowId(f, page[n]);
        HitsStep(rows, f, page, n);
        if OpensUnder(rows[at], Previous) {
          hits := hits + 1;
        }
      }
      assert page[..|page|] == page;
    }

    // The three families, one after the other.
    method ResealFamilies() returns (progress: Progress, unopenable: nat)
      requires Faithful()
      modifies this
      ensures Faithful() && Progressed()
      ensures EachSettled(rows, unopenable > 0)
      ensures old(others) == [] ==> progress == ProgressOf(old(rows))
      ensures progress.remaining == 0 && (unopenable > 0 ==> HasUnopenable(old(rows)))
    {
      var v, s1, u1 := ResealFamily(Version);
      label Versions:
      var p, s2, u2 := ResealFamily(Pin);
      FresherJoins(old(rows), old@Versions(rows), rows);
      label Pins:
      var e, s3, u3 := ResealFamily(Email);
      unopenable := u1 + u2 + u3;
      FamiliesSettle(old@Versions(rows), old@Pins(rows), rows, u1, u2, u3);
      FresherJoins(old(rows), old@Pins(rows), rows);
      progress := Progress(v, p, e, s1 + s2 + s3, 0);
      if u2 > 0 {
        UnopenableWasThere(old(rows), old@Versions(rows));
      }
      if u3 > 0 {
        UnopenableWasThere(old(rows), old@Pins(rows));
      }
      if old(others) == [] {
        SameStragglers(old(rows), old@Versions(rows), Version, Pin);
        SameStragglers(old(rows), old@Versions(rows), Version, Email);
        SameStragglers(old@Versions(rows), old@Pins(rows), Pin, Email);
      }
    }

    method CountRemaining() returns (remaining: nat)
      requires Faithful()
      modifies this
      ensures Faithful() && Progressed()
      ensures remaining <= |Stragglers(old(rows), Version)| + |Stragglers(old(rows), Pin)| + |Stragglers(old(rows), Email)|
    {
      var v := CountFamily(Version);
      FresherHasFewer(old(rows), rows, Pin);
      label Versions:
      var p := CountFamily(Pin);
      FresherJoins(old(rows), old@Versions(rows), rows);
      FresherHasFewer(old(rows), rows, Email);
      label Pins:
      var e := CountFamily(Email);
      FresherJoins(old(rows), old@Pins(rows), rows);
      remaining := v + p + e;
    }

    // One pass.  Whatever the others write meanwhile, every row keeps the plaintext of its latest
    // writer and none is left under the previous key; if no row opened under neither key the pass
    // succeeds, every row is under the current key, and it measures no remainder.
    method ResealPass(hasPrevious: bool) returns (outcome: Outcome)
      requires Faithful()
      modifies this
      ensures Faithful() && Progressed()
      ensures !hasPrevious ==> outcome == Done(NO_PROGRESS) && rows == old(rows)
      ensures hasPrevious ==> forall k :: k in rows ==> !OpensUnder(rows[k], Previous)
      ensures hasPrevious && outcome.Done? ==>
                outcome.progress.remaining == 0 && forall k :: k in rows ==> OpensUnder(rows[k], Current)
      ensures hasPrevious && outcome.Done? && old(others) == [] ==> outcome.progress == ProgressOf(old(rows))
      ensures outcome.Unopenable? ==> hasPrevious && outcome.count > 0 && HasUnopenable(old(rows))
    {
      if !hasPrevious {
        return Done(NO_PROGRESS);
      }
      var progress, unopenable := ResealFamilies();
      AllSettled(rows, unopenable > 0);
      if unopenable > 0 {
        return Unopenable(unopenable);
      }
      label Sealed:
      var remaining := CountRemaining();
      FresherJoins(old(rows), old@Sealed(rows), rows);
      return Done(progress.(remaining := remaining));
    }
  }
}
