/** Job openings in PostgreSQL: one row per opening, one per criterion, read back from a LEFT JOIN. */
module OpeningRows {
  import opened Prelude
  import opened Openings
  import opened Tables
  import PostgresRepository

  /** Go's d.Microseconds(), which drops what is below a microsecond towards zero. */
  function Interval(d: int): int {
    if d >= 0 then d / MICROSECOND else -((-d) / MICROSECOND)
  }

  /** The stored interval read back; this adapter writes no days or months. */
  function Duration(microseconds: int): int {
    microseconds * MICROSECOND
  }

  /** The interval is exact for whole microseconds only. */
  lemma IntervalExactIff(d: int)
    ensures Duration(Interval(d)) == d <==> d % 1_000 == 0
  {
    var m := if d >= 0 then d else -d;
    assert m == m / MICROSECOND * MICROSECOND + m % MICROSECOND;
    assert d < 0 ==> (d % MICROSECOND == 0 <==> m % MICROSECOND == 0);
  }

  datatype Header = Header(id: string, title: string, description: string, interval: int, status: Status,
      openedAt: Time, outcome: Option<Outcome>)

  function HeaderOf(o: Opening): Header {
    Header(o.id, o.title, o.description, Interval(o.expectedTimeToFill), o.status, PostgresRepository.Stamp(o.openedAt),
        o.outcome)
  }

  function Opened(h: Header): Opening {
    Opening(h.id, h.title, h.description, [], Duration(h.interval), h.status, h.openedAt, h.outcome)
  }

  /** The opening as it will be loaded. */
  function AsStored(o: Opening): Opening {
    Opened(HeaderOf(o)).(criteria := o.criteria)
  }

  predicate NotAllSpaces(s: string) {
    exists i :: 0 <= i < |s| && s[i] != ' '
  }

  /** The CHECK constraints of both tables. */
  predicate Storable(o: Opening) {
    && NotAllSpaces(o.title) && Interval(o.expectedTimeToFill) > 0
    && (o.status == Closed <==> o.outcome.Some?) && (o.outcome.Some? ==> !o.outcome.value.OtherOutcome?)
    && forall i :: 0 <= i < |o.criteria| ==> PostgresRepository.CriterionChecked(o.criteria[i])
  }

  /** A criterion's row the tables refuse: no name but spaces, not classified, or a weight that is no positive int4. */
  ghost predicate BadRow(c: Criterion) {
    || (forall i :: 0 <= i < |c.name| ==> c.name[i] == ' ')
    || c.classification !in {MustHave, NiceToHave} || c.weight < 1 || c.weight > 2_147_483_647
  }

  /** Which openings the tables' CHECK constraints refuse. */
  lemma StorableIff(o: Opening)
    ensures !Storable(o) <==>
      || (forall i :: 0 <= i < |o.title| ==> o.title[i] == ' ')
      || o.expectedTimeToFill < 1_000
      || (o.status.Closed? && o.outcome == None) || (!o.status.Closed? && o.outcome.Some?)
      || o.outcome !in {None, Some(Filled), Some(Cancelled)}
      || exists c :: c in o.criteria && BadRow(c)
  {
    forall i | 0 <= i < |o.criteria|
      ensures PostgresRepository.CriterionChecked(o.criteria[i]) <==> !BadRow(o.criteria[i])
    {
    }
  }

  /**
   * Every opening the domain can produce is stored, unless it expects to be filled within a microsecond or a
   * weight overflows; it is loaded unchanged exactly when its times are whole microseconds.
   */
  lemma DomainOpeningsFit(o: Opening)
    requires Sound(o)
    ensures Storable(o) <==>
        && o.expectedTimeToFill >= 1_000
        && forall i :: 0 <= i < |o.criteria| ==> o.criteria[i].weight <= 2_147_483_647
    ensures AsStored(o) == o <==> o.expectedTimeToFill % 1_000 == 0 && o.openedAt % 1_000 == 0
  {
    IntervalExactIff(o.expectedTimeToFill);
    var k :| 0 <= k < |o.title| && !IsSpace(o.title[k]);
    assert o.title[k] != ' ';
    forall i | 0 <= i < |o.criteria|
      ensures PostgresRepository.CriterionChecked(o.criteria[i]) <==>
          o.criteria[i].weight <= INT4_MAX
    {
      assert ScorableCriterion(o.criteria[i]);
      var j :| 0 <= j < |o.criteria[i].name| && !IsSpace(o.criteria[i].name[j]);
      assert o.criteria[i].name[j] != ' ';
    }
  }

  // ---------- Flattening and regrouping ----------

  /** Each part of an opening is in the column of its name, and read back from there. */
  lemma HeaderSays(o: Opening)
    ensures
      var h := HeaderOf(o);
      && h.id == o.id && h.title == o.title && h.description == o.description && h.status == o.status
      && h.outcome == o.outcome && h.openedAt == PostgresRepository.Stamp(o.openedAt)
      && h.interval == (if o.expectedTimeToFill >= 0 then o.expectedTimeToFill / 1_000
                        else -(-o.expectedTimeToFill / 1_000))
      && Opened(h).id == h.id && Opened(h).title == h.title && Opened(h).description == h.description
      && Opened(h).status == h.status && Opened(h).outcome == h.outcome && Opened(h).openedAt == h.openedAt
      && Opened(h).expectedTimeToFill == h.interval * 1_000 && Opened(h).criteria == []
  {
  }

  /** A row of the join: an opening's columns, and one criterion or NULLs. */
  datatype JoinRow = JoinRow(header: Header, criterion: Option<Criterion>)

  function RowsOf(o: Opening): (r: seq<JoinRow>)
    ensures |r| > 0 && forall k :: 0 <= k < |r| ==> r[k].header == HeaderOf(o)
  {
    if o.criteria == [] then [JoinRow(HeaderOf(o), None)]
    else seq(|o.criteria|, k requires 0 <= k < |o.criteria| => JoinRow(HeaderOf(o), Some(o.criteria[k])))
  }

  function Joined(a: seq<Opening>): seq<JoinRow> {
    if a == [] then [] else Joined(a[..|a| - 1]) + RowsOf(a[|a| - 1])
  }

  /** One turn of the grouping loop. */
  function Grouped1(out: seq<Opening>, row: JoinRow): (r: seq<Opening>)
    ensures |r| > 0
  {
    var begun := if out == [] || out[|out| - 1].id != row.header.id then out + [Opened(row.header)] else out;
    if row.criterion == None then begun
    else
      var last := begun[|begun| - 1];
      begun[|begun| - 1 := last.(criteria := last.criteria + [row.criterion.value])]
  }

  function Grouped(rows: seq<JoinRow>): seq<Opening> {
    if rows == [] then [] else Grouped1(Grouped(rows[..|rows| - 1]), rows[|rows| - 1])
  }

  /** The loop in query: a row of a new opening starts one, and every row adds its criterion to the last. */
  method Regroup(rows: seq<JoinRow>) returns (openings: seq<Opening>)
    ensures openings == Grouped(rows)
  {
    openings := [];
    for i := 0 to |rows|
      invariant openings == Grouped(rows[..i])
    {
      assert rows[..i + 1][..i] == rows[..i];
      var o := Opened(rows[i].header);
      var n := |openings|;
      if n == 0 || openings[n - 1].id != o.id {
        openings := openings + [o];
      }
      if rows[i].criterion != None {
        var last := openings[|openings| - 1];
        openings := openings[|openings| - 1 := last.(criteria := last.criteria + [rows[i].criterion.value])];
      }
    }
    assert rows[..|rows|] == rows;
  }

  predicate NeighboursDiffer(a: seq<Opening>) {
    forall i :: 0 <= i < |a| - 1 ==> a[i].id != a[i + 1].id
  }

  lemma {:induction false} GroupedNeighboursDiffer(rows: seq<JoinRow>)
    ensures NeighboursDiffer(Grouped(rows))
  {
    if rows != [] {
      GroupedNeighboursDiffer(rows[..|rows| - 1]);
    }
  }

  function StoredAll(a: seq<Opening>): (r: seq<Opening>)
    ensures |r| == |a| && forall i :: 0 <= i < |a| ==> r[i] == AsStored(a[i])
  {
    seq(|a|, i requires 0 <= i < |a| => AsStored(a[i]))
  }

  lemma GroupedAppend(rows: seq<JoinRow>, row: JoinRow)
    ensures Grouped(rows + [row]) == Grouped1(Grouped(rows), row)
  {
    assert (rows + [row])[..|rows|] == rows;
  }

  lemma StartsOpening(out: seq<Opening>, row: JoinRow)
    requires out == [] || out[|out| - 1].id != row.header.id
    ensures Grouped1(out, row)
        == out + [Opened(row.header).(criteria := if row.criterion == None then [] else [row.criterion.value])]
  {
    var begun := out + [Opened(row.header)];
    assert begun[|begun| - 1] == Opened(row.header)
        && [] + [row.criterion.GetOr(Criterion("", MustHave, 0))] == [row.criterion.GetOr(Criterion("", MustHave, 0))];
  }

  lemma ExtendsOpening(out: seq<Opening>, last: Opening, row: JoinRow)
    requires last.id == row.header.id && row.criterion.Some?
    ensures Grouped1(out + [last], row) == out + [last.(criteria := last.criteria + [row.criterion.value])]
  {
  }

  /** An opening of which the first n rows were read. */
  function Begun(o: Opening, n: nat): Opening
    requires n <= |RowsOf(o)|
  {
    Opened(HeaderOf(o)).(criteria := if o.criteria == [] then [] else o.criteria[..n])
  }

  lemma FirstRow(before: seq<JoinRow>, o: Opening)
    requires Grouped(before) == [] || Grouped(before)[|Grouped(before)| - 1].id != o.id
    ensures Grouped(before + RowsOf(o)[..1]) == Grouped(before) + [Begun(o, 1)]
  {
    var row := RowsOf(o)[0];
    assert RowsOf(o)[..1] == [row];
    assert o.criteria != [] ==> o.criteria[..1] == [o.criteria[0]];
    GroupedAppend(before, row);
    StartsOpening(Grouped(before), row);
  }

  lemma NextRow(before: seq<JoinRow>, out: seq<Opening>, o: Opening, n: nat)
    requires 1 < n <= |RowsOf(o)| && Grouped(before + RowsOf(o)[..n - 1]) == out + [Begun(o, n - 1)]
    ensures Grouped(before + RowsOf(o)[..n]) == out + [Begun(o, n)]
  {
    var row := RowsOf(o)[n - 1];
    assert before + RowsOf(o)[..n] == before + RowsOf(o)[..n - 1] + [row];
    assert o.criteria[..n] == o.criteria[..n - 1] + [o.criteria[n - 1]];
    GroupedAppend(before + RowsOf(o)[..n - 1], row);
    ExtendsOpening(out, Begun(o, n - 1), row);
  }

  /** The rows of one more opening, read after those of the openings before it. */
  lemma {:induction false} GroupedRowsOf(before: seq<JoinRow>, o: Opening, n: nat)
    requires 0 < n <= |RowsOf(o)|
    requires Grouped(before) == [] || Grouped(before)[|Grouped(before)| - 1].id != o.id
    ensures Grouped(before + RowsOf(o)[..n]) == Grouped(before) + [Begun(o, n)]
  {
    if n == 1 {
      FirstRow(before, o);
    } else {
      GroupedRowsOf(before, o, n - 1);
      NextRow(before, Grouped(before), o, n);
    }
  }

  lemma NeighboursStored(a: seq<Opening>)
    ensures NeighboursDiffer(StoredAll(a)) <==> NeighboursDiffer(a)
  {
    forall i | 0 <= i < |a|
      ensures StoredAll(a)[i].id == a[i].id
    {
    }
  }

  /**
   * Flattening openings into rows and regrouping adjacent rows gives the same openings, in order, exactly when no
   * two neighbours share an id.
   */
  lemma RegroupingUndoesJoining(a: seq<Opening>)
    ensures Grouped(Joined(a)) == StoredAll(a) <==> NeighboursDiffer(a)
  {
    GroupedNeighboursDiffer(Joined(a));
    NeighboursStored(a);
    if NeighboursDiffer(a) {
      Regroups(a);
    }
  }

  lemma {:induction false} Regroups(a: seq<Opening>)
    requires NeighboursDiffer(a)
    ensures Grouped(Joined(a)) == StoredAll(a)
  {
    if a != [] {
      var rest, o := a[..|a| - 1], a[|a| - 1];
      Regroups(rest);
      if rest != [] {
        assert StoredAll(rest)[|rest| - 1].id == a[|a| - 2].id && a[|a| - 2].id != a[|a| - 2 + 1].id;
      }
      assert StoredAll(a) == StoredAll(rest) + [AsStored(o)] && Joined(a) == Joined(rest) + RowsOf(o);
      hide *;
      LastRows(Joined(rest), o);
    }
  }

  lemma LastRows(before: seq<JoinRow>, o: Opening)
    requires Grouped(before) == [] || Grouped(before)[|Grouped(before)| - 1].id != o.id
    ensures Grouped(before + RowsOf(o)) == Grouped(before) + [AsStored(o)]
  {
    GroupedRowsOf(before, o, |RowsOf(o)|);
    assert RowsOf(o)[..|RowsOf(o)|] == RowsOf(o);
    assert o.criteria == [] || o.criteria[..|RowsOf(o)|] == o.criteria;
  }

  // ---------- The repository ----------

  /** The criteria table holds exactly this opening's list under its id. */
  ghost predicate WrittenFor(rows: set<Row<Criterion>>, o: Opening) {
    && (forall r :: r in rows && r.batchId == o.id ==> r.position < |o.criteria| && r.body == o.criteria[r.position])
    && (forall k :: 0 <= k < |o.criteria| ==> Row(o.id, k, o.criteria[k]) in rows)
  }

  ghost predicate Represents(headers: seq<Header>, rows: set<Row<Criterion>>, a: seq<Opening>) {
    && |headers| == |a|
    && forall i :: 0 <= i < |a| ==>
         headers[i].id == a[i].id && a[i] == Opened(headers[i]).(criteria := a[i].criteria) && AsStored(a[i]) == a[i]
             && WrittenFor(rows, a[i])
  }

  predicate DistinctIds(a: seq<Opening>) {
    forall i, j :: 0 <= i < j < |a| ==> a[i].id != a[j].id
  }

  function OwnRows(rows: set<Row<Criterion>>, id: string): set<Row<Criterion>> {
    set r | r in rows && r.batchId == id
  }

  function ListRows(o: Opening): set<Row<Criterion>> {
    set i | 0 <= i < |o.criteria| :: Row(o.id, i, o.criteria[i])
  }

  /** One opening's rows of the join, from its header and the cursor over its criteria. */
  method JoinOne(header: Header, rows: set<Row<Criterion>>, ghost o: Opening) returns (out: seq<JoinRow>)
    requires WrittenFor(rows, o) && header.id == o.id && HeaderOf(o) == header
    ensures out == RowsOf(o)
  {
    assert UniquePositions(OwnRows(rows, header.id));
    hide CursorOver, WrittenFor, OwnRows;
    var cursor := OrderByPosition(OwnRows(rows, header.id));
    CursorReads(cursor, rows, o);
    out := if |cursor| == 0 then [JoinRow(header, None)]
           else seq(|cursor|, k requires 0 <= k < |cursor| => JoinRow(header, Some(cursor[k].body)));
  }

  lemma CursorReads(cursor: seq<Row<Criterion>>, rows: set<Row<Criterion>>, o: Opening)
    requires WrittenFor(rows, o) && CursorOver(cursor, OwnRows(rows, o.id))
    ensures |cursor| == |o.criteria| && forall k :: 0 <= k < |cursor| ==> cursor[k].body == o.criteria[k]
  {
    assert forall j :: 0 <= j < |cursor| ==> cursor[j] in OwnRows(rows, o.id);
    Regrouped(cursor, o.id, o.criteria);
    OnlyBodies(cursor, o.id);
  }

  lemma {:induction false} OnlyBodies<T>(s: seq<Row<T>>, id: string)
    requires forall r :: 0 <= r < |s| ==> s[r].batchId == id
    ensures |BodiesOf(s, id)| == |s| && forall k :: 0 <= k < |s| ==> BodiesOf(s, id)[k] == s[k].body
  {
    if s != [] {
      OnlyBodies(s[..|s| - 1], id);
    }
  }

  method Query(headers: seq<Header>, rows: set<Row<Criterion>>, ghost a: seq<Opening>) returns (openings: seq<Opening>)
    requires Represents(headers, rows, a) && DistinctIds(a)
    ensures openings == a
  {
    var joined := [];
    for i := 0 to |headers|
      invariant joined == Joined(a[..i])
    {
      hide WrittenFor, RowsOf;
      assert a[..i + 1][..i] == a[..i] && a[..i + 1][i] == a[i];
      HeaderOfStored(headers[i], a[i]);
      var more := JoinOne(headers[i], rows, a[i]);
      joined := joined + more;
    }
    assert a[..|a|] == a;
    openings := Regroup(joined);
    Regroups(a);
    assert StoredAll(a) == a;
  }

  lemma HeaderOfStored(h: Header, o: Opening)
    requires o == Opened(h).(criteria := o.criteria) && AsStored(o) == o
    ensures HeaderOf(o) == h
  {
    IntervalBack(h.interval);
  }

  lemma IntervalBack(m: int)
    ensures Interval(Duration(m)) == m
  {
  }

  /** The list after a save: a known id keeps its place, a new one comes last. */
  function SavedAmong(a: seq<Opening>, o: Opening): seq<Opening> {
    if exists i :: 0 <= i < |a| && a[i].id == o.id
    then seq(|a|, i requires 0 <= i < |a| => if a[i].id == o.id then o else a[i])
    else a + [o]
  }

  /** Saving replaces the opening of that id in its place, or adds it behind all others. */
  lemma SavedSays(a: seq<Opening>, o: Opening)
    requires DistinctIds(a)
    ensures
      var r := SavedAmong(a, o);
      && (forall i :: 0 <= i < |a| ==> i < |r| && r[i] == if a[i].id == o.id then o else a[i])
      && |r| == |a| + (if exists i :: 0 <= i < |a| && a[i].id == o.id then 0 else 1)
      && (|r| > |a| ==> r[|a|] == o)
  {
  }

  /** ON CONFLICT (id) DO UPDATE: the row keeps its seq. */
  function SavedHeaders(headers: seq<Header>, h: Header): seq<Header> {
    if exists i :: 0 <= i < |headers| && headers[i].id == h.id
    then seq(|headers|, i requires 0 <= i < |headers| => if headers[i].id == h.id then h else headers[i])
    else headers + [h]
  }

  lemma SavedRowsWritten(rows: set<Row<Criterion>>, o: Opening, other: Opening)
    ensures WrittenFor(rows - OwnRows(rows, o.id) + ListRows(o), AsStored(o))
    ensures other.id != o.id && WrittenFor(rows, other) ==> WrittenFor(rows - OwnRows(rows, o.id) + ListRows(o), other)
  {
  }

  lemma SavingRepresents(headers: seq<Header>, rows: set<Row<Criterion>>, a: seq<Opening>, o: Opening)
    requires Represents(headers, rows, a) && DistinctIds(a)
    ensures
      var now := SavedAmong(a, AsStored(o));
      Represents(SavedHeaders(headers, HeaderOf(o)), rows - OwnRows(rows, o.id) + ListRows(o), now) && DistinctIds(now)
  {
    var now, h, after := SavedAmong(a, AsStored(o)), SavedHeaders(headers, HeaderOf(o)),
        rows - OwnRows(rows, o.id) + ListRows(o);
    StoredAgain(o);
    if i :| 0 <= i < |a| && a[i].id == o.id {
      assert headers[i].id == o.id;
    }
    forall i | 0 <= i < |now|
      ensures h[i].id == now[i].id && now[i] == Opened(h[i]).(criteria := now[i].criteria) && AsStored(now[i]) == now[i]
          && WrittenFor(after, now[i])
    {
      hide WrittenFor, OwnRows, ListRows;
      SavedRowsWritten(rows, o, now[i]);
    }
  }

  class Repository {
    var headers: seq<Header> // by seq
    var criteria: set<Row<Criterion>>
    ghost var archive: seq<Opening>

    ghost predicate Valid()
      reads this
    {
      Represents(headers, criteria, archive) && DistinctIds(archive)
    }

    constructor ()
      ensures Valid() && archive == []
    {
      headers, criteria, archive := [], {}, [];
    }

    /**
     * Inserts an opening or replaces the one with its id, criteria included, or does nothing when a constraint is
     * violated.
     */
    method Save(o: Opening) returns (ok: bool)
      requires Valid()
      modifies this
      ensures Valid() && (ok <==> Storable(o))
      ensures archive == if ok then SavedAmong(old(archive), AsStored(o)) else old(archive)
    {
      if !Storable(o) {
        return false;
      }
      SavingRepresents(headers, criteria, archive, o);
      headers := SavedHeaders(headers, HeaderOf(o));
      criteria := criteria - OwnRows(criteria, o.id) + ListRows(o);
      archive := SavedAmong(archive, AsStored(o));
      return true;
    }

    method FindByID(id: string) returns (r: Option<Opening>)
      requires Valid()
      ensures r.Some? ==> r.value in archive && r.value.id == id
      ensures r == None <==> forall i :: 0 <= i < |archive| ==> archive[i].id != id
    {
      if i :| 0 <= i < |headers| && headers[i].id == id {
        var openings := Query([headers[i]], criteria, [archive[i]]);
        return Some(openings[0]);
      }
      return None;
    }

    /** Every job opening in creation order. */
    method List() returns (out: seq<Opening>)
      requires Valid()
      ensures out == archive
    {
      out := Query(headers, criteria, archive);
    }
  }

  /** What is loaded is saved as it is. */
  lemma StoredAgain(o: Opening)
    ensures AsStored(AsStored(o)) == AsStored(o) && HeaderOf(AsStored(o)) == HeaderOf(o)
  {
    IntervalBack(Interval(o.expectedTimeToFill));
  }
}
