/**
 * The repository over PostgreSQL: one row per batch, per criterion of its snapshot and per resume, with
 * NULL for what is empty, timestamps in whole microseconds and positions as int4.
 */
module PostgresRepository {
  import opened Prelude
  import opened Openings
  import opened Screening
  import opened Archive
  import opened Tables

  /** What a timestamptz keeps of a time. */
  function Stamp(t: Time): Time {
    t - t % MICROSECOND
  }

  /** Go's int32(x). */
  function ToInt32(x: int): int {
    (x + 0x8000_0000) % 0x1_0000_0000 - 0x8000_0000
  }

  function NonEmpty(s: string): Option<string> {
    if s == "" then None else Some(s)
  }

  function NonZero(t: Time): Option<Time> {
    if t == ZERO_TIME then None else Some(Stamp(t))
  }

  datatype BatchRow = BatchRow(id: string, jobOpeningId: string, submittedAt: Time)

  datatype Columns = Columns(
    resumeId: string, fileName: string, objectKey: string, sizeBytes: int, status: EntryStatus,
    requestedAt: Option<Time>, candidateId: Option<string>, score: Option<int>, meets: Option<bool>, unmet: seq<int>,
    reason: Option<string>, completedAt: Option<Time>, overrideScore: Option<int>, overriddenAt: Option<Time>,
    shortlistedAt: Option<Time>)

  /** The row SaveBatch copies in: every column it does not name is NULL or its default. */
  function InsertedColumns(e: Entry): Columns {
    Columns(e.resumeId, e.fileName, e.objectKey, e.sizeBytes, e.status, None, None, None, None, [], None, None, None,
        None, None)
  }

  function Narrowed(positions: seq<int>): (r: seq<int>)
    ensures |r| == |positions|
    ensures r == positions <==> forall i :: 0 <= i < |positions| ==> ToInt32(positions[i]) == positions[i]
  {
    seq(|positions|, i requires 0 <= i < |positions| => ToInt32(positions[i]))
  }

  /** The row as SaveEntry's UPDATE leaves it; requested_at is not among the columns it sets. */
  function UpdatedColumns(c: Columns, e: Entry): Columns {
    var kept := Columns(c.resumeId, c.fileName, c.objectKey, c.sizeBytes, e.status, c.requestedAt,
                        None, None, None, [], None, None, None, None, NonZero(e.shortlistedAt));
    var answered :=
      if e.result.None? then kept
      else
        var r := e.result.value;
        kept.(candidateId := NonEmpty(r.candidateId), reason := NonEmpty(r.reason),
             completedAt := NonZero(r.completedAt),
              score := if e.status == ScreenedOk then Some(r.score) else None,
              meets := if e.status == ScreenedOk then Some(r.meetsMustHaves) else None,
              unmet := Narrowed(r.unmetMustHaves));
    if e.correction.None? then answered
    else answered.(overrideScore := Some(e.correction.value.score), overriddenAt := Some(Stamp(e.correction.value.at)))
  }

  predicate OnScale(o: Option<int>) {
    o.Some? ==> 0 <= o.value <= 100
  }

  /** The table's CHECK constraints. */
  predicate Checked(c: Columns) {
    && c.sizeBytes >= 0 && OnScale(c.score) && OnScale(c.overrideScore)
    && (c.status == ScreenedOk <==> c.score.Some?)
    && (c.overrideScore.None? <==> c.overriddenAt.None?)
  }

  /** The row read back as loadEntries does. */
  function Decoded(row: Row<Columns>): Entry {
    var c := row.body;
    Entry(c.resumeId, row.batchId, c.fileName, c.objectKey, c.sizeBytes, c.status, c.requestedAt.GetOr(ZERO_TIME),
          if c.status == Pending then None
          else Some(ScreeningResult(c.candidateId.GetOr(""), c.score.GetOr(0), c.meets.GetOr(false), c.unmet,
                                    c.reason.GetOr(""), c.completedAt.GetOr(ZERO_TIME))),
          if c.overrideScore.None? then None
              else Some(ScoreOverride(c.overrideScore.value, c.overriddenAt.GetOr(ZERO_TIME))),
          c.shortlistedAt.GetOr(ZERO_TIME))
  }

  // ---------- What an entry loses on the way through its row ----------

  // ---------- What the columns hold ----------

  /** A timestamp is the last whole microsecond not after the time. */
  lemma StampIs(t: Time)
    ensures Stamp(t) % 1_000 == 0 && Stamp(t) <= t < Stamp(t) + 1_000
  {
  }

  /** Narrowing to 32 bits keeps what fits and wraps the rest. */
  lemma ToInt32Is(x: int)
    ensures -2_147_483_648 <= ToInt32(x) <= 2_147_483_647 && (ToInt32(x) - x) % 4_294_967_296 == 0
    ensures ToInt32(x) == x <==> -2_147_483_648 <= x <= 2_147_483_647
  {
  }

  /** Insert writes the submission into the columns of its names, and NULL everywhere else. */
  lemma InsertSays(e: Entry)
    ensures
      var c := InsertedColumns(e);
      && c.resumeId == e.resumeId && c.fileName == e.fileName && c.objectKey == e.objectKey
      && c.sizeBytes == e.sizeBytes && c.status == e.status && c.requestedAt == None && c.candidateId == None
      && c.score == None && c.meets == None && c.unmet == [] && c.reason == None && c.completedAt == None
      && c.overrideScore == None && c.overriddenAt == None && c.shortlistedAt == None
  {
  }

  /** Update writes each part of an answered entry into the column of its name and leaves the submission's alone. */
  lemma UpdateSays(c: Columns, e: Entry)
    ensures
      var u := UpdatedColumns(c, e);
      && u.resumeId == c.resumeId && u.fileName == c.fileName && u.objectKey == c.objectKey
      && u.sizeBytes == c.sizeBytes && u.requestedAt == c.requestedAt && u.status == e.status
      && u.shortlistedAt == (if e.shortlistedAt == ZERO_TIME then None else Some(Stamp(e.shortlistedAt)))
      && u.overrideScore == (if e.correction.Some? then Some(e.correction.value.score) else None)
      && u.overriddenAt == (if e.correction.Some? then Some(Stamp(e.correction.value.at)) else None)
      && (e.result == None ==>
            && u.candidateId == None && u.score == None && u.meets == None && u.unmet == [] && u.reason == None
            && u.completedAt == None)
      && (e.result.Some? ==>
            var r := e.result.value;
            && u.candidateId == (if r.candidateId == "" then None else Some(r.candidateId))
            && u.reason == (if r.reason == "" then None else Some(r.reason))
            && u.completedAt == (if r.completedAt == ZERO_TIME then None else Some(Stamp(r.completedAt)))
            && u.score == (if e.status.ScreenedOk? then Some(r.score) else None)
            && u.meets == (if e.status.ScreenedOk? then Some(r.meetsMustHaves) else None)
            && |u.unmet| == |r.unmetMustHaves|
            && forall i :: 0 <= i < |u.unmet| ==> u.unmet[i] == ToInt32(r.unmetMustHaves[i]))
  {
  }

  /** Reading takes each part of the entry from the column of its name. */
  lemma DecodeSays(row: Row<Columns>)
    ensures
      var e, c := Decoded(row), row.body;
      && e.resumeId == c.resumeId && e.batchId == row.batchId && e.fileName == c.fileName
      && e.objectKey == c.objectKey && e.sizeBytes == c.sizeBytes && e.status == c.status
      && e.requestedAt == (if c.requestedAt.Some? then c.requestedAt.value else ZERO_TIME)
      && e.shortlistedAt == (if c.shortlistedAt.Some? then c.shortlistedAt.value else ZERO_TIME)
      && (e.result == None <==> c.status.Pending?) && (e.correction == None <==> c.overrideScore == None)
      && (e.correction.Some? ==> e.correction.value.score == c.overrideScore.value
                                 && e.correction.value.at == c.overriddenAt.GetOr(ZERO_TIME))
      && (e.result.Some? ==>
            var r := e.result.value;
            && r.candidateId == c.candidateId.GetOr("") && r.score == c.score.GetOr(0)
            && r.meetsMustHaves == c.meets.GetOr(false) && r.unmetMustHaves == c.unmet
            && r.reason == c.reason.GetOr("") && r.completedAt == c.completedAt.GetOr(ZERO_TIME))
  {
  }

  /** The rows the table's CHECK constraints refuse. */
  lemma RefusedIff(c: Columns)
    ensures !Checked(c) <==>
      || c.sizeBytes < 0
      || (c.score.Some? && (c.score.value < 0 || c.score.value > 100))
      || (c.overrideScore.Some? && (c.overrideScore.value < 0 || c.overrideScore.value > 100))
      || (c.status.ScreenedOk? && c.score == None) || (!c.status.ScreenedOk? && c.score.Some?)
      || (c.overrideScore.Some? && c.overriddenAt == None) || (c.overrideScore == None && c.overriddenAt.Some?)
  {
  }

  predicate Whole(t: Time) {
    t % MICROSECOND == 0
  }

  predicate FitsInt4(x: int) {
    -0x8000_0000 <= x <= INT4_MAX
  }

  /** The submission fields, which no UPDATE touches. */
  predicate SameSubmission(a: Entry, b: Entry) {
    && a.resumeId == b.resumeId && a.batchId == b.batchId && a.fileName == b.fileName
    && a.objectKey == b.objectKey && a.sizeBytes == b.sizeBytes
  }

  /** What the columns can hold of an entry. */
  predicate Representable(e: Entry) {
    && (e.status == Pending <==> e.result == None)
    && (e.result.Some? ==>
          && Whole(e.result.value.completedAt)
          && (forall i :: 0 <= i < |e.result.value.unmetMustHaves| ==> FitsInt4(e.result.value.unmetMustHaves[i]))
          && (e.status != ScreenedOk ==> e.result.value.score == 0 && !e.result.value.meetsMustHaves))
    && (e.correction.Some? ==> Whole(e.correction.value.at))
    && Whole(e.shortlistedAt)
  }

  lemma NarrowedIs(positions: seq<int>)
    ensures Narrowed(positions) == positions <==> forall i :: 0 <= i < |positions| ==> FitsInt4(positions[i])
  {
    assert forall i :: 0 <= i < |positions| ==> (ToInt32(positions[i]) == positions[i] <==> FitsInt4(positions[i]));
  }

  /**
   * Saving an entry over its row and loading it gives the entry, with the request time the row had, exactly when
   * the columns can hold it.
   */
  lemma RoundTripIff(row: Row<Columns>, e: Entry)
    ensures Decoded(row.(body := UpdatedColumns(row.body, e)))
        == e.(requestedAt := row.body.requestedAt.GetOr(ZERO_TIME))
      <==> SameSubmission(Decoded(row), e) && Representable(e)
  {
    if e.result.Some? {
      NarrowedIs(e.result.value.unmetMustHaves);
    }
  }

  /**
   * Every entry the domain can produce, with times from a clock of whole microseconds, fits its row and passes the
   * checks.
   */
  lemma {:induction false} DomainEntriesFit(criteria: seq<Criterion>, e: Entry)
    requires EntryOk(criteria, e) && |criteria| <= INT4_MAX && e.sizeBytes >= 0
    requires e.result.Some? ==> Whole(e.result.value.completedAt)
    requires e.correction.Some? ==> Whole(e.correction.value.at)
    requires Whole(e.shortlistedAt)
    ensures Representable(e)
    ensures forall c: Columns :: c.sizeBytes == e.sizeBytes ==> Checked(UpdatedColumns(c, e))
  {
  }

  /** What is loaded after a save, as a function of what was loaded before it. */
  function Reloaded(stored: Entry, e: Entry): Entry {
    Decoded(Row(stored.batchId, 0,
        UpdatedColumns(InsertedColumns(stored).(requestedAt := Some(stored.requestedAt)), e)))
  }

  lemma ReloadedIs(row: Row<Columns>, e: Entry)
    ensures Decoded(row.(body := UpdatedColumns(row.body, e))) == Reloaded(Decoded(row), e)
    ensures Checked(UpdatedColumns(row.body, e)) <==> Checked(UpdatedColumns(InsertedColumns(Decoded(row)), e))
  {
  }

  // ---------- The tables ----------

  /** The batch table lists the archive's batches in submission order (seq). */
  ghost predicate BatchesMatch(rows: seq<BatchRow>, a: seq<Batch>) {
    && |rows| == |a|
    && (forall i :: 0 <= i < |a| ==> rows[i] == BatchRow(a[i].id, a[i].jobOpeningId, a[i].submittedAt))
    && (forall i, j :: 0 <= i < j < |a| ==> a[i].id != a[j].id)
  }

  ghost predicate CriteriaMatch(rows: set<Row<Criterion>>, a: seq<Batch>) {
    && (forall r :: r in rows ==>
          var i := Position(a, r.batchId);
          i < |a| && r.position < |a[i].criteria| && r.body == a[i].criteria[r.position])
    && (forall i, k :: 0 <= i < |a| && 0 <= k < |a[i].criteria| ==> Row(a[i].id, k, a[i].criteria[k]) in rows)
  }

  /**
   * The row of a resume is the archive's entry at its place; no request time is Go's zero time, which would read
   * as never requested.
   */
  ghost predicate RowFits(a: seq<Batch>, r: string, row: Row<Columns>) {
    var i := Position(a, row.batchId);
    && row.body.resumeId == r && row.body.requestedAt != Some(ZERO_TIME) && Checked(row.body)
    && i < |a| && row.position < |a[i].entries| && Decoded(row) == a[i].entries[row.position]
  }

  ghost predicate HasRow(rows: map<string, Row<Columns>>, a: seq<Batch>, i: nat, k: nat)
    requires i < |a| && k < |a[i].entries|
  {
    var r := a[i].entries[k].resumeId;
    r in rows && rows[r].batchId == a[i].id && rows[r].position == k
  }

  /** One row per resume. */
  ghost predicate EntriesMatch(rows: map<string, Row<Columns>>, a: seq<Batch>) {
    && (forall r :: r in rows ==> RowFits(a, r, rows[r]))
    && (forall i, k :: 0 <= i < |a| && 0 <= k < |a[i].entries| ==> HasRow(rows, a, i, k))
  }

  lemma PositionOf(a: seq<Batch>, i: nat)
    requires i < |a| && forall j :: 0 <= j < i ==> a[j].id != a[i].id
    ensures Position(a, a[i].id) == i
  {
  }

  lemma RowOfEntry(batchRows: seq<BatchRow>, entries: map<string, Row<Columns>>, a: seq<Batch>, i: nat, k: nat)
    requires BatchesMatch(batchRows, a) && EntriesMatch(entries, a) && i < |a| && k < |a[i].entries|
    ensures
      var r := a[i].entries[k].resumeId;
      r in entries && entries[r].batchId == a[i].id && entries[r].position == k
          && Decoded(entries[r]) == a[i].entries[k] && entries[r].body.requestedAt != Some(ZERO_TIME)
  {
    assert HasRow(entries, a, i, k);
    PositionOf(a, i);
    assert RowFits(a, a[i].entries[k].resumeId, entries[a[i].entries[k].resumeId]);
  }

  lemma HolderFromRow(rows: map<string, Row<Columns>>, batchRows: seq<BatchRow>, a: seq<Batch>, r: string)
    requires BatchesMatch(batchRows, a) && EntriesMatch(rows, a)
    ensures r in rows <==> Stored(a, r)
    ensures r in rows ==>
      var i := Position(a, rows[r].batchId);
      Holder(a, r) == i && IndexOf(a[i].entries, r) == rows[r].position && EntryOf(a, r) == Decoded(rows[r])
  {
    assert Stored(a, r) ==> HasRow(rows, a, Holder(a, r), IndexOf(a[Holder(a, r)].entries, r));
    if r in rows {
      var i := Position(a, rows[r].batchId);
      assert RowFits(a, r, rows[r]);
      forall j, k | 0 <= j < |a| && 0 <= k < |a[j].entries| && a[j].entries[k].resumeId == r
        ensures j == i && k == rows[r].position
      {
        assert HasRow(rows, a, j, k);
        PositionOf(a, j);
      }
      assert a[i].entries[rows[r].position].resumeId == r;
      assert IndexOf(a[i].entries, r) == rows[r].position;
      assert forall j :: 0 <= j < |a| && j != i ==> !Holds(a[j], r);
    }
  }

  // ---------- Loading ----------

  /** The batches among these ids, in submission order. */
  function Having(a: seq<Batch>, ids: set<string>): seq<Batch> {
    if a == [] then [] else (if a[0].id in ids then [a[0]] else []) + Having(a[1..], ids)
  }

  function CriterionRows(rows: set<Row<Criterion>>, ids: set<string>): set<Row<Criterion>> {
    set r | r in rows && r.batchId in ids
  }

  lemma CriteriaRegroup(rows: set<Row<Criterion>>, batchRows: seq<BatchRow>, a: seq<Batch>, ids: set<string>,
                        s: seq<Row<Criterion>>, i: nat)
    requires BatchesMatch(batchRows, a) && CriteriaMatch(rows, a) && i < |a| && a[i].id in ids
    requires CursorOver(s, CriterionRows(rows, ids))
    ensures BodiesOf(s, a[i].id) == a[i].criteria
  {
    PositionOf(a, i);
    assert forall j :: 0 <= j < |s| ==> s[j] in CriterionRows(rows, ids);
    Regrouped(s, a[i].id, a[i].criteria);
  }

  function EntryRows(rows: map<string, Row<Columns>>, ids: set<string>): set<Row<Columns>> {
    set r | r in rows && rows[r].batchId in ids :: rows[r]
  }

  function DecodedRow(row: Row<Columns>): Row<Entry> {
    Row(row.batchId, row.position, Decoded(row))
  }

  lemma EntryRowsAreUnique(rows: map<string, Row<Columns>>, a: seq<Batch>, ids: set<string>)
    requires EntriesMatch(rows, a)
    ensures UniquePositions(EntryRows(rows, ids))
  {
    forall p, q | p in EntryRows(rows, ids) && q in EntryRows(rows, ids) && p.batchId == q.batchId
        && p.position == q.position
      ensures p == q
    {
      assert Decoded(p).resumeId == Decoded(q).resumeId;
    }
  }

  function DecodedAll(s: seq<Row<Columns>>): (d: seq<Row<Entry>>)
    ensures |d| == |s| && forall i :: 0 <= i < |d| ==> d[i] == DecodedRow(s[i])
  {
    seq(|s|, i requires 0 <= i < |s| => DecodedRow(s[i]))
  }

  lemma EntriesRegroup(rows: map<string, Row<Columns>>, batchRows: seq<BatchRow>, a: seq<Batch>, ids: set<string>,
                       s: seq<Row<Columns>>, i: nat)
    requires BatchesMatch(batchRows, a) && EntriesMatch(rows, a) && i < |a| && a[i].id in ids
    requires CursorOver(s, EntryRows(rows, ids))
    ensures BodiesOf(DecodedAll(s), a[i].id) == a[i].entries
  {
    var d, id := DecodedAll(s), a[i].id;
    PositionOf(a, i);
    forall j | 0 <= j < |d| && d[j].batchId == id
      ensures d[j].position < |a[i].entries| && d[j].body == a[i].entries[d[j].position]
    {
      assert s[j] in EntryRows(rows, ids);
      var r :| r in rows && rows[r] == s[j];
      assert RowFits(a, r, rows[r]);
    }
    forall k | 0 <= k < |a[i].entries|
      ensures Row(id, k, a[i].entries[k]) in d
    {
      RowOfEntry(batchRows, rows, a, i, k);
      var row := rows[a[i].entries[k].resumeId];
      assert row in EntryRows(rows, ids);
      var j :| 0 <= j < |s| && s[j] == row;
      assert d[j] == Row(id, k, a[i].entries[k]);
    }
    assert InOrder(d);
    Regrouped(d, id, a[i].entries);
  }

  /** A batch as the first query scans it: no criteria and no entries yet. */
  function Shell(b: Batch): Batch {
    b.(criteria := [], entries := [])
  }

  function Shelled(a: seq<Batch>): (r: seq<Batch>)
    ensures |r| == |a| && forall i :: 0 <= i < |a| ==> r[i] == Shell(a[i])
  {
    seq(|a|, i requires 0 <= i < |a| => Shell(a[i]))
  }

  lemma HavingFrom(a: seq<Batch>, n: nat, ids: set<string>)
    requires n < |a|
    ensures Shelled(Having(a[n..], ids))
        == (if a[n].id in ids then [Shell(a[n])] else []) + Shelled(Having(a[n + 1..], ids))
  {
    assert a[n..][1..] == a[n + 1..] && a[n..][0] == a[n];
  }

  lemma SelectingOn(a: seq<Batch>, n: nat, ids: set<string>, out: seq<Batch>, found: seq<Batch>)
    requires n < |a| && found == if a[n].id in ids then [Shell(a[n])] else []
    ensures out + Shelled(Having(a[n..], ids)) == out + found + Shelled(Having(a[n + 1..], ids))
  {
    hide Having, Shelled, Shell;
    HavingFrom(a, n, ids);
    assert out + (found + Shelled(Having(a[n + 1..], ids))) == out + found + Shelled(Having(a[n + 1..], ids));
  }

  method SelectBatches(rows: seq<BatchRow>, ids: set<string>, ghost a: seq<Batch>) returns (out: seq<Batch>)
    requires BatchesMatch(rows, a)
    ensures out == Shelled(Having(a, ids))
  {
    out := [];
    assert a[0..] == a;
    assert Shelled(Having(a[|a|..], ids)) == [];
    hide Having, Shelled;
    for n := 0 to |rows|
      invariant out + Shelled(Having(a[n..], ids)) == Shelled(Having(a, ids))
    {
      ghost var found := if a[n].id in ids then [Shell(a[n])] else [];
      SelectingOn(a, n, ids, out, found);
      if rows[n].id in ids {
        out := out + [Batch(rows[n].id, rows[n].jobOpeningId, rows[n].submittedAt, [], [])];
      } else {
        assert out + found == out;
      }
    }
  }

  /** byID: where each loaded batch is. */
  ghost predicate Pointers(byId: map<string, nat>, out: seq<Batch>) {
    && (forall id :: id in byId ==> byId[id] < |out| && out[byId[id]].id == id)
    && (forall i :: 0 <= i < |out| ==> out[i].id in byId && byId[out[i].id] == i)
  }

  method LoadCriteria(batches: seq<Batch>, byId: map<string, nat>, s: seq<Row<Criterion>>) returns (out: seq<Batch>)
    requires Pointers(byId, batches) && forall r :: r in s ==> r.batchId in byId
    ensures |out| == |batches|
    ensures forall i :: 0 <= i < |out| ==>
        out[i] == batches[i].(criteria := batches[i].criteria + BodiesOf(s, batches[i].id))
  {
    out := batches;
    for n := 0 to |s|
      invariant |out| == |batches|
      invariant forall i :: 0 <= i < |out| ==>
        out[i] == batches[i].(criteria := batches[i].criteria + BodiesOf(s[..n], batches[i].id))
    {
      assert s[..n + 1][..n] == s[..n];
      var i := byId[s[n].batchId];
      out := out[i := out[i].(criteria := out[i].criteria + [s[n].body])];
    }
    assert s[..|s|] == s;
  }

  method LoadEntries(batches: seq<Batch>, byId: map<string, nat>, s: seq<Row<Columns>>) returns (out: seq<Batch>)
    requires Pointers(byId, batches) && forall r :: r in s ==> r.batchId in byId
    ensures |out| == |batches|
    ensures forall i :: 0 <= i < |out| ==>
      out[i] == batches[i].(entries := batches[i].entries + BodiesOf(DecodedAll(s), batches[i].id))
  {
    out := batches;
    for n := 0 to |s|
      invariant |out| == |batches|
      invariant forall i :: 0 <= i < |out| ==>
        out[i] == batches[i].(entries := batches[i].entries + BodiesOf(DecodedAll(s[..n]), batches[i].id))
    {
      assert DecodedAll(s[..n + 1])[..n] == DecodedAll(s[..n]);
      var i := byId[s[n].batchId];
      out := out[i := out[i].(entries := out[i].entries + [Decoded(s[n])])];
    }
    assert s[..|s|] == s;
  }

  lemma {:induction false} HavingIs(a: seq<Batch>, ids: set<string>)
    ensures forall b :: b in Having(a, ids) <==> b in a && b.id in ids
    ensures DistinctIds(a) ==> DistinctIds(Having(a, ids))
  {
    if a != [] {
      HavingIs(a[1..], ids);
      assert a == [a[0]] + a[1..];
      var rest := Having(a[1..], ids);
      assert DistinctIds(a) ==> forall b :: b in rest ==> b.id != a[0].id;
      assert DistinctIds(a) ==> DistinctIds(a[1..]);
      assert a[0].id in ids ==> Having(a, ids) == [a[0]] + rest;
    }
  }

  predicate DistinctIds(a: seq<Batch>) {
    forall i, j :: 0 <= i < j < |a| ==> a[i].id != a[j].id
  }

  method Point(batches: seq<Batch>) returns (byId: map<string, nat>)
    requires forall i, j :: 0 <= i < j < |batches| ==> batches[i].id != batches[j].id
    ensures Pointers(byId, batches) && byId.Keys == set b | b in batches :: b.id
  {
    byId := map[];
    for i := 0 to |batches|
      invariant forall id :: id in byId ==> byId[id] < i && batches[byId[id]].id == id
      invariant forall k :: 0 <= k < i ==> batches[k].id in byId && byId[batches[k].id] == k
    {
      byId := byId[batches[i].id := i];
    }
  }

  method LoadRows(batchRows: seq<BatchRow>, criteria: set<Row<Criterion>>, entries: map<string, Row<Columns>>,
                  ids: set<string>, ghost a: seq<Batch>)
    returns (out: seq<Batch>)
    requires BatchesMatch(batchRows, a) && CriteriaMatch(criteria, a) && EntriesMatch(entries, a)
    ensures out == Having(a, ids)
  {
    HavingIs(a, ids);
    ghost var wanted := Having(a, ids);
    var shells := SelectBatches(batchRows, ids, a);
    assert forall i, j :: 0 <= i < j < |shells| ==> shells[i].id != shells[j].id;
    hide BatchesMatch, CriteriaMatch, EntriesMatch, Having, BodiesOf, Filled;
    ghost var found, criteriaRows, entryRows;
    out, found, criteriaRows, entryRows := Fill(shells, criteria, entries, a);
    forall i | 0 <= i < |wanted|
      ensures out[i] == wanted[i]
    {
      assert wanted[i] in a && shells[i].id in found;
      FilledIsStored(criteria, entries, batchRows, a, found, criteriaRows, entryRows, wanted[i]);
    }
  }

  /** The other two queries, for the batches the first one found. */
  method Fill(shells: seq<Batch>, criteria: set<Row<Criterion>>, entries: map<string, Row<Columns>>,
              ghost a: seq<Batch>)
    returns (out: seq<Batch>, ghost found: set<string>, ghost criteriaRows: seq<Row<Criterion>>,
        ghost entryRows: seq<Row<Columns>>)
    requires CriteriaMatch(criteria, a) && EntriesMatch(entries, a)
    requires forall i, j :: 0 <= i < j < |shells| ==> shells[i].id != shells[j].id
    ensures found == set b | b in shells :: b.id
    ensures CursorOver(criteriaRows, CriterionRows(criteria, found)) && CursorOver(entryRows, EntryRows(entries, found))
    ensures |out| == |shells| && forall i :: 0 <= i < |out| ==> out[i] == Filled(shells[i], criteriaRows, entryRows)
  {
    var byId := Point(shells);
    found := byId.Keys;
    var criteriaCursor := OrderCriteria(criteria, byId.Keys, a);
    EntryRowsAreUnique(entries, a, byId.Keys);
    hide CriteriaMatch, EntriesMatch, BodiesOf;
    var entryCursor := OrderByPosition(EntryRows(entries, byId.Keys));
    criteriaRows, entryRows := criteriaCursor, entryCursor;
    out := LoadCriteria(shells, byId, criteriaCursor);
    out := LoadEntries(out, byId, entryCursor);
  }

  function Filled(shell: Batch, criteriaRows: seq<Row<Criterion>>, entryRows: seq<Row<Columns>>): Batch {
    shell.(criteria := shell.criteria + BodiesOf(criteriaRows, shell.id),
           entries := shell.entries + BodiesOf(DecodedAll(entryRows), shell.id))
  }

  lemma FilledIsStored(criteria: set<Row<Criterion>>, entries: map<string, Row<Columns>>, batchRows: seq<BatchRow>,
                       a: seq<Batch>,
                       ids: set<string>, criteriaRows: seq<Row<Criterion>>, entryRows: seq<Row<Columns>>, b: Batch)
    requires BatchesMatch(batchRows, a) && CriteriaMatch(criteria, a) && EntriesMatch(entries, a)
    requires CursorOver(criteriaRows, CriterionRows(criteria, ids))
    requires CursorOver(entryRows, EntryRows(entries, ids))
    requires b in a && b.id in ids
    ensures Filled(Shell(b), criteriaRows, entryRows) == b
  {
    var k :| 0 <= k < |a| && a[k] == b;
    hide BatchesMatch, CriteriaMatch, EntriesMatch, CursorOver, BodiesOf;
    CriteriaRegroup(criteria, batchRows, a, ids, criteriaRows, k);
    EntriesRegroup(entries, batchRows, a, ids, entryRows, k);
  }

  method OrderCriteria(rows: set<Row<Criterion>>, ids: set<string>,
                       ghost a: seq<Batch>) returns (s: seq<Row<Criterion>>)
    requires CriteriaMatch(rows, a)
    ensures CursorOver(s, CriterionRows(rows, ids))
  {
    s := OrderByPosition(CriterionRows(rows, ids));
  }

  /** A batch with nothing waiting plays no part. */
  lemma UnrequestedAfter(b: Batch, rest: seq<Batch>, limit: nat)
    ensures |Clip(WaitingOnly(b.entries), limit)| <= limit
    ensures UnrequestedOf([b] + rest, limit)
            == Share(b, limit) + UnrequestedOf(rest, limit - |Clip(WaitingOnly(b.entries), limit)|)
    ensures WaitingOnly(b.entries) == [] ==> UnrequestedOf([b] + rest, limit) == UnrequestedOf(rest, limit)
  {
    UnrequestedStep([b] + rest, limit);
    hide UnrequestedOf;
    assert ([b] + rest)[1..] == rest;
  }

  lemma HavingStep(a: seq<Batch>, ids: set<string>)
    ensures a == [] ==> Having(a, ids) == []
    ensures a != [] ==>
      Having(a, ids) == if a[0].id in ids then [a[0]] + Having(a[1..], ids) else Having(a[1..], ids)
  {
  }

  lemma {:induction false} UnrequestedAmong(a: seq<Batch>, ids: set<string>, limit: nat)
    requires forall b :: b in a && WaitingOnly(b.entries) != [] ==> b.id in ids
    ensures UnrequestedOf(Having(a, ids), limit) == UnrequestedOf(a, limit)
    decreases |a|
  {
    hide *;
    HavingStep(a, ids);
    if a != [] {
      var left := TakenIsWithin(WaitingOnly(a[0].entries), limit);
      UnrequestedAmong(a[1..], ids, left);
      UnrequestedAmong(a[1..], ids, limit);
      assert a == [a[0]] + a[1..];
      UnrequestedAfter(a[0], a[1..], limit);
      UnrequestedAfter(a[0], Having(a[1..], ids), limit);
    }
  }

  lemma {:induction false} OpeningsBatches(a: seq<Batch>, ids: set<string>, jobOpeningId: string)
    requires forall b :: b in a ==> (b.id in ids <==> b.jobOpeningId == jobOpeningId)
    ensures Having(a, ids) == Of(a, jobOpeningId)
  {
    if a != [] {
      OpeningsBatches(a[1..], ids, jobOpeningId);
    }
  }

  lemma {:induction false} HavingOne(a: seq<Batch>, ids: set<string>, i: nat)
    requires i < |a| && ids == {a[i].id} && forall j :: 0 <= j < |a| && j != i ==> a[j].id != a[i].id
    ensures Having(a, ids) == [a[i]]
  {
    if i > 0 {
      HavingOne(a[1..], ids, i - 1);
    } else {
      HavingNone(a[1..], ids);
    }
  }

  lemma {:induction false} HavingNone(a: seq<Batch>, ids: set<string>)
    requires forall b :: b in a ==> b.id !in ids
    ensures Having(a, ids) == []
  {
    if a != [] {
      HavingNone(a[1..], ids);
    }
  }

  /** A batch whose ids are new and which passes every constraint of the three tables. */
  predicate Insertable(a: seq<Batch>, b: Batch) {
    && Position(a, b.id) == |a|
    && (forall i :: 0 <= i < |b.criteria| ==> CriterionChecked(b.criteria[i]))
    && (forall i :: 0 <= i < |b.entries| ==>
        !Stored(a, b.entries[i].resumeId) && Checked(InsertedColumns(b.entries[i])))
    && (forall i, j :: 0 <= i < j < |b.entries| ==> b.entries[i].resumeId != b.entries[j].resumeId)
  }

  /** btrim strips spaces only; weight is an int4. */
  predicate CriterionChecked(c: Criterion) {
    && (exists i :: 0 <= i < |c.name| && c.name[i] != ' ')
    && !c.classification.Unlisted? && 0 < c.weight <= INT4_MAX
  }

  /** The batch as it will be loaded. */
  function AsInserted(b: Batch): (r: Batch)
    ensures r.id == b.id && |r.entries| == |b.entries|
  {
    b.(submittedAt := Stamp(b.submittedAt),
       entries := seq(|b.entries|,
           i requires 0 <= i < |b.entries| => Decoded(Row(b.id, i, InsertedColumns(b.entries[i])))))
  }

  /** A batch the domain has just accepted is inserted, and loaded as it was. */
  lemma {:induction false} NewBatchesFit(a: seq<Batch>, b: Batch)
    requires Position(a, b.id) == |a| && ScorableCriteria(b.criteria) && Whole(b.submittedAt)
    requires forall i :: 0 <= i < |b.criteria| ==> b.criteria[i].weight <= INT4_MAX
    requires forall i :: 0 <= i < |b.entries| ==>
        !Stored(a, b.entries[i].resumeId) && b.entries[i].sizeBytes >= 0 && JustSubmitted(b, b.entries[i])
    requires forall i, j :: 0 <= i < j < |b.entries| ==> b.entries[i].resumeId != b.entries[j].resumeId
    ensures Insertable(a, b) && AsInserted(b) == b
  {
    forall i | 0 <= i < |b.criteria|
      ensures CriterionChecked(b.criteria[i])
    {
      assert ScorableCriterion(b.criteria[i]);
      var k :| 0 <= k < |b.criteria[i].name| && !IsSpace(b.criteria[i].name[k]);
      assert b.criteria[i].name[k] != ' ';
    }
  }

  /** NewScreeningBatch's entries. */
  predicate JustSubmitted(b: Batch, e: Entry) {
    e == Submitted(b.id, NewEntry(e.resumeId, e.fileName, e.objectKey, e.sizeBytes))
  }

  // ---------- Writing ----------

  lemma {:induction false} PositionInPrefix(a: seq<Batch>, b: Batch, id: string)
    ensures Position(a + [b], id)
            == if Position(a, id) < |a| then Position(a, id) else if b.id == id then |a| else |a| + 1
  {
    if a != [] && a[0].id != id {
      assert (a + [b])[1..] == a[1..] + [b];
      PositionInPrefix(a[1..], b, id);
    }
  }

  /** The entry rows with the first n of a batch's copied in. */
  ghost predicate Copied(entries: map<string, Row<Columns>>, b: Batch, n: nat, out: map<string, Row<Columns>>)
    requires n <= |b.entries|
  {
    && (forall r :: r in entries ==> r in out && out[r] == entries[r])
    && (forall i :: 0 <= i < n ==>
          var r := b.entries[i].resumeId;
          r !in entries && r in out && out[r] == Row(b.id, i, InsertedColumns(b.entries[i])))
    && (forall r :: r in out ==> r in entries || exists i :: 0 <= i < n && b.entries[i].resumeId == r)
  }

  lemma CopiedRowFits(a: seq<Batch>, b: Batch, k: nat)
    requires Position(a, b.id) == |a| && k < |b.entries| && Checked(InsertedColumns(b.entries[k]))
    ensures RowFits(a + [AsInserted(b)], b.entries[k].resumeId, Row(b.id, k, InsertedColumns(b.entries[k])))
  {
    PositionInPrefix(a, AsInserted(b), b.id);
  }

  lemma RowStillFits(a: seq<Batch>, b: Batch, r: string, row: Row<Columns>)
    requires Position(a, b.id) == |a| && RowFits(a, r, row)
    ensures RowFits(a + [AsInserted(b)], r, row)
  {
    PositionInPrefix(a, AsInserted(b), row.batchId);
  }

  lemma HasRowAfterCopy(entries: map<string, Row<Columns>>, a: seq<Batch>, b: Batch, out: map<string, Row<Columns>>,
                        i: nat, k: nat)
    requires EntriesMatch(entries, a) && Copied(entries, b, |b.entries|, out)
    requires i <= |a| && k < |(a + [AsInserted(b)])[i].entries|
    ensures HasRow(out, a + [AsInserted(b)], i, k)
  {
    if i < |a| {
      assert HasRow(entries, a, i, k);
    } else {
      assert AsInserted(b).entries[k] == Decoded(Row(b.id, k, InsertedColumns(b.entries[k])));
    }
  }

  lemma CopiedRowsFit(entries: map<string, Row<Columns>>, a: seq<Batch>, b: Batch, out: map<string, Row<Columns>>,
                      r: string)
    requires EntriesMatch(entries, a) && Position(a, b.id) == |a| && r in out
    requires Copied(entries, b, |b.entries|, out)
    requires forall i :: 0 <= i < |b.entries| ==> Checked(InsertedColumns(b.entries[i]))
    ensures RowFits(a + [AsInserted(b)], r, out[r])
  {
    hide RowFits, HasRow, AsInserted, Checked;
    if r in entries {
      RowStillFits(a, b, r, entries[r]);
    } else {
      var k :| 0 <= k < |b.entries| && b.entries[k].resumeId == r;
      CopiedRowFits(a, b, k);
    }
  }

  lemma CopyingMatches(entries: map<string, Row<Columns>>, a: seq<Batch>, b: Batch, out: map<string, Row<Columns>>)
    requires EntriesMatch(entries, a) && Position(a, b.id) == |a|
    requires Copied(entries, b, |b.entries|, out)
    requires forall i :: 0 <= i < |b.entries| ==> Checked(InsertedColumns(b.entries[i]))
    ensures EntriesMatch(out, a + [AsInserted(b)])
  {
    hide RowFits, HasRow, AsInserted, Copied, Checked, InsertedColumns;
    var now := a + [AsInserted(b)];
    forall r | r in out
      ensures RowFits(now, r, out[r])
    {
      CopiedRowsFit(entries, a, b, out, r);
    }
    forall i, k | 0 <= i < |now| && 0 <= k < |now[i].entries|
      ensures HasRow(out, now, i, k)
    {
      HasRowAfterCopy(entries, a, b, out, i, k);
    }
  }

  function SnapshotRows(b: Batch): set<Row<Criterion>> {
    set i | 0 <= i < |b.criteria| :: Row(b.id, i, b.criteria[i])
  }

  lemma SnapshotMatches(rows: set<Row<Criterion>>, a: seq<Batch>, b: Batch)
    requires CriteriaMatch(rows, a) && Position(a, b.id) == |a|
    ensures CriteriaMatch(rows + SnapshotRows(b), a + [AsInserted(b)])
  {
    var now := a + [AsInserted(b)];
    forall r | r in rows + SnapshotRows(b)
      ensures
        var i := Position(now, r.batchId);
        i < |now| && r.position < |now[i].criteria| && r.body == now[i].criteria[r.position]
    {
      PositionInPrefix(a, AsInserted(b), r.batchId);
    }
    forall i, k | 0 <= i < |now| && 0 <= k < |now[i].criteria|
      ensures Row(now[i].id, k, now[i].criteria[k]) in rows + SnapshotRows(b)
    {
      if i == |a| {
        assert Row(b.id, k, b.criteria[k]) in SnapshotRows(b);
      }
    }
  }

  /** Two archives that list the same batches in the same places. */
  predicate SamePlaces(a: seq<Batch>, b: seq<Batch>) {
    |a| == |b| && forall i :: 0 <= i < |a| ==> a[i].(entries := []) == b[i].(entries := [])
  }

  lemma {:induction false} SamePositions(a: seq<Batch>, b: seq<Batch>, id: string)
    requires SamePlaces(a, b)
    ensures Position(a, id) == Position(b, id)
  {
    if a != [] {
      assert a[0].(entries := []) == b[0].(entries := []);
      forall i | 0 <= i < |a[1..]|
        ensures a[1..][i].(entries := []) == b[1..][i].(entries := [])
      {
        assert a[i + 1].(entries := []) == b[i + 1].(entries := []);
      }
      SamePositions(a[1..], b[1..], id);
    }
  }

  lemma SamePlacesMatch(batchRows: seq<BatchRow>, criteria: set<Row<Criterion>>, a: seq<Batch>, b: seq<Batch>)
    requires SamePlaces(a, b) && BatchesMatch(batchRows, a) && CriteriaMatch(criteria, a)
    ensures BatchesMatch(batchRows, b) && CriteriaMatch(criteria, b)
  {
    assert forall i :: 0 <= i < |a| ==> a[i].(entries := []) == b[i].(entries := []);
    forall r | r in criteria
      ensures
        var i := Position(b, r.batchId);
        i < |b| && r.position < |b[i].criteria| && r.body == b[i].criteria[r.position]
    {
      SamePositions(a, b, r.batchId);
    }
  }

  /** Replacing the entry in its place. */
  lemma ReplacedInPlace(batchRows: seq<BatchRow>, entries: map<string, Row<Columns>>, a: seq<Batch>, r: string,
                        e: Entry)
    requires BatchesMatch(batchRows, a) && EntriesMatch(entries, a) && r in entries && e.resumeId == r
    ensures Stored(a, r) && SamePlaces(a, Replaced(a, e))
    ensures
      var h, p := Position(a, entries[r].batchId), entries[r].position;
      h < |a| && p < |a[h].entries| && Replaced(a, e) == a[h := a[h].(entries := a[h].entries[p := e])]
  {
    HolderFromRow(entries, batchRows, a, r);
    assert RowFits(a, r, entries[r]);
  }

  lemma RowFitsAfterUpdate(batchRows: seq<BatchRow>, entries: map<string, Row<Columns>>, a: seq<Batch>, r: string,
                           row: Row<Columns>, q: string)
    requires BatchesMatch(batchRows, a) && EntriesMatch(entries, a) && r in entries && q in entries && q != r
        && Decoded(row).resumeId == r
    ensures Stored(a, r) && RowFits(Replaced(a, Decoded(row)), q, entries[q])
  {
    ReplacedInPlace(batchRows, entries, a, r, Decoded(row));
    var now := Replaced(a, Decoded(row));
    SamePositions(a, now, entries[q].batchId);
    assert RowFits(a, q, entries[q]) && RowFits(a, r, entries[r]);
  }

  lemma UpdatedRowFits(batchRows: seq<BatchRow>, entries: map<string, Row<Columns>>, a: seq<Batch>, r: string,
                       c: Columns)
    requires BatchesMatch(batchRows, a) && EntriesMatch(entries, a) && r in entries
    requires c.resumeId == r && c.requestedAt != Some(ZERO_TIME) && Checked(c)
    ensures Stored(a, r)
    ensures var row := entries[r].(body := c); RowFits(Replaced(a, Decoded(row)), r, row)
  {
    var row := entries[r].(body := c);
    ReplacedInPlace(batchRows, entries, a, r, Decoded(row));
    SamePositions(a, Replaced(a, Decoded(row)), row.batchId);
  }

  lemma HasRowAfterSetting(entries: map<string, Row<Columns>>, a: seq<Batch>, row: Row<Columns>, h: nat, p: nat,
                           e: Entry, i: nat, k: nat)
    requires h < |a| && p < |a[h].entries| && a[h].entries[p].resumeId == e.resumeId && e.resumeId in entries
    requires row.batchId == entries[e.resumeId].batchId && row.position == entries[e.resumeId].position
    requires i < |a| && k < |a[i].entries| && HasRow(entries, a, i, k)
    ensures HasRow(entries[e.resumeId := row], a[h := a[h].(entries := a[h].entries[p := e])], i, k)
  {
  }

  lemma HasRowAfterUpdate(batchRows: seq<BatchRow>, entries: map<string, Row<Columns>>, a: seq<Batch>, r: string,
                          row: Row<Columns>, i: nat, k: nat)
    requires BatchesMatch(batchRows, a) && EntriesMatch(entries, a) && r in entries
        && row == entries[r].(body := row.body) && Decoded(row).resumeId == r
    requires i < |a| && k < |a[i].entries|
    ensures Stored(a, r) && |Replaced(a, Decoded(row))[i].entries| == |a[i].entries|
    ensures HasRow(entries[r := row], Replaced(a, Decoded(row)), i, k)
  {
    assert HasRow(entries, a, i, k) && RowFits(a, r, entries[r]);
    var h, p := Position(a, entries[r].batchId), entries[r].position;
    assert a[h].entries[p].resumeId == r;
    hide Replaced, Stored, EntriesMatch, BatchesMatch, RowFits, Decoded, Position, HasRow;
    ReplacedInPlace(batchRows, entries, a, r, Decoded(row));
    HasRowAfterSetting(entries, a, row, h, p, Decoded(row), i, k);
  }

  lemma UpdatingMatches(batchRows: seq<BatchRow>, entries: map<string, Row<Columns>>, a: seq<Batch>, r: string,
                        c: Columns)
    requires BatchesMatch(batchRows, a) && EntriesMatch(entries, a) && r in entries
    requires c.resumeId == r && c.requestedAt != Some(ZERO_TIME) && Checked(c)
    ensures Stored(a, r)
    ensures
      var row := entries[r].(body := c);
      && SamePlaces(a, Replaced(a, Decoded(row)))
      && EntriesMatch(entries[r := row], Replaced(a, Decoded(row)))
  {
    var row := entries[r].(body := c);
    assert Decoded(row).resumeId == r;
    hide BatchesMatch, RowFits, HasRow, Checked, Decoded, Replaced, SamePlaces;
    ReplacedInPlace(batchRows, entries, a, r, Decoded(row));
    UpdatedRowFits(batchRows, entries, a, r, c);
    var out, now := entries[r := row], Replaced(a, Decoded(row));
    forall q | q in out
      ensures RowFits(now, q, out[q])
    {
      if q != r {
        RowFitsAfterUpdate(batchRows, entries, a, r, row, q);
      }
    }
    forall i, k | 0 <= i < |now| && 0 <= k < |now[i].entries|
      ensures HasRow(out, now, i, k)
    {
      if k < |a[i].entries| {
        HasRowAfterUpdate(batchRows, entries, a, r, row, i, k);
      }
    }
  }

  class Repository {
    var batchRows: seq<BatchRow> // by seq
    var criteria: set<Row<Criterion>>
    var entries: map<string, Row<Columns>> // by primary key
    ghost var archive: seq<Batch>

    ghost predicate Valid()
      reads this
    {
      BatchesMatch(batchRows, archive) && CriteriaMatch(criteria, archive) && EntriesMatch(entries, archive)
    }

    constructor ()
      ensures Valid() && archive == []
    {
      batchRows, criteria, entries, archive := [], {}, map[], [];
    }

    /**
     * Inserts a batch, its snapshot and its entries, or nothing: any violated constraint rolls the transaction
     * back.
     */
    method SaveBatch(b: Batch) returns (r: Result<(), ScreeningError>)
      requires Valid()
      modifies this
      ensures Valid()
      ensures
        if Insertable(old(archive), b) then r.Ok? && archive == old(archive) + [AsInserted(b)]
        else r == Err(StorageError) && archive == old(archive)
    {
      hide CriteriaMatch, EntriesMatch;
      if exists i :: 0 <= i < |batchRows| && batchRows[i].id == b.id {
        return Err(StorageError);
      }
      if exists i :: 0 <= i < |b.criteria| && !CriterionChecked(b.criteria[i]) {
        return Err(StorageError);
      }
      var copied, ok := CopyEntries(batchRows, entries, b, archive);
      if !ok {
        return Err(StorageError);
      }
      CopyingMatches(entries, archive, b, copied);
      SnapshotMatches(criteria, archive, b);
      batchRows := batchRows + [BatchRow(b.id, b.jobOpeningId, Stamp(b.submittedAt))];
      criteria := criteria + SnapshotRows(b);
      entries := copied;
      archive := archive + [AsInserted(b)];
      return Ok(());
    }

    /** load: the batches among these ids, with their snapshots and entries, from three cursors. */
    method Load(ids: set<string>) returns (out: seq<Batch>)
      requires Valid()
      ensures out == Having(archive, ids)
    {
      out := LoadRows(batchRows, criteria, entries, ids, archive);
    }

    method FindBatch(id: string) returns (r: Result<Batch, ScreeningError>)
      requires Valid()
      ensures ReadAnswerOf(archive, Call.FindBatch(id)) == if r.Ok? then Found(r.value) else Refused(r.error)
    {
      var batches := Load({id});
      OneOrNone(archive, id);
      return if |batches| == 0 then Err(BatchNotFound) else Ok(batches[0]);
    }

    method FindBatchOfResume(resumeId: string) returns (r: Result<Batch, ScreeningError>)
      requires Valid()
      ensures ReadAnswerOf(archive, Call.FindBatchOfResume(resumeId))
              == if r.Ok? then Found(r.value) else Refused(r.error)
    {
      var batches := Load(if resumeId in entries then {entries[resumeId].batchId} else {});
      HolderFromRow(entries, batchRows, archive, resumeId);
      hide EntriesMatch, CriteriaMatch;
      if resumeId in entries {
        OneOrNone(archive, entries[resumeId].batchId);
      } else {
        HavingNone(archive, {});
      }
      return if |batches| == 0 then Err(ResumeNotFound) else Ok(batches[0]);
    }

    method ListBatches(jobOpeningId: string) returns (out: seq<Batch>)
      requires Valid()
      ensures out == Of(archive, jobOpeningId)
    {
      var ids := set row | row in batchRows && row.jobOpeningId == jobOpeningId :: row.id;
      out := Load(ids);
      hide EntriesMatch, CriteriaMatch;
      forall i | 0 <= i < |archive|
        ensures archive[i].id in ids <==> archive[i].jobOpeningId == jobOpeningId
      {
        assert batchRows[i] in batchRows;
      }
      OpeningsBatches(archive, ids, jobOpeningId);
    }

    method Unrequested(limit: nat) returns (out: seq<Batch>)
      requires Valid()
      ensures out == UnrequestedOf(archive, limit)
    {
      var ids := set r | r in entries && entries[r].body.status == Pending && entries[r].body.requestedAt == None ::
          entries[r].batchId;
      var batches := Load(ids);
      WaitingBatchesSelected(batchRows, entries, archive, ids);
      UnrequestedAmong(archive, ids, limit);
      hide BatchesMatch, EntriesMatch, CriteriaMatch, UnrequestedOf, Clip, Having;
      out := TakeWaiting(batches, limit);
    }

    /** UPDATE of the columns an answer or a decision changes; requested_at is left as it is. */
    method SaveEntry(e: Entry) returns (r: Result<(), ScreeningError>)
      requires Valid()
      modifies this`entries, this`archive
      ensures Valid()
      ensures
        if !Stored(old(archive), e.resumeId) then r == Err(ResumeNotFound) && archive == old(archive)
        else
          var stored := EntryOf(old(archive), e.resumeId);
          if !Checked(UpdatedColumns(InsertedColumns(stored), e)) then r == Err(StorageError) && archive == old(archive)
          else r.Ok? && archive == Replaced(old(archive), Reloaded(stored, e))
    {
      HolderFromRow(entries, batchRows, archive, e.resumeId);
      if e.resumeId !in entries {
        return Err(ResumeNotFound);
      }
      ReloadedIs(entries[e.resumeId], e);
      var columns := UpdatedColumns(entries[e.resumeId].body, e);
      if !Checked(columns) {
        return Err(StorageError);
      }
      assert columns.requestedAt != Some(ZERO_TIME) && columns.resumeId == e.resumeId;
      hide BatchesMatch, CriteriaMatch, EntriesMatch, Checked, UpdatedColumns, Reloaded;
      Store(columns);
      return Ok(());
    }

    method MarkRequested(resumeId: string, at: Time) returns (r: Result<(), ScreeningError>)
      requires Valid() && Stamp(at) != ZERO_TIME // no clock reads Go's zero time
      modifies this`entries, this`archive
      ensures Valid()
      ensures
        if Stored(old(archive), resumeId)
        then r.Ok? && archive == Replaced(old(archive), EntryOf(old(archive), resumeId).(requestedAt := Stamp(at)))
        else r == Err(ResumeNotFound) && archive == old(archive)
    {
      HolderFromRow(entries, batchRows, archive, resumeId);
      if resumeId !in entries {
        return Err(ResumeNotFound);
      }
      var columns := entries[resumeId].body.(requestedAt := Some(Stamp(at)));
      assert Checked(columns) && columns.resumeId == resumeId;
      hide BatchesMatch, CriteriaMatch, EntriesMatch, Checked;
      Store(columns);
      return Ok(());
    }

    /** Writes one resume's columns. */
    method Store(columns: Columns)
      requires Valid() && columns.resumeId in entries && columns.requestedAt != Some(ZERO_TIME) && Checked(columns)
      modifies this`entries, this`archive
      ensures Valid() && Stored(old(archive), columns.resumeId)
      ensures archive == Replaced(old(archive), Decoded(old(entries)[columns.resumeId].(body := columns)))
    {
      var row := entries[columns.resumeId].(body := columns);
      hide EntriesMatch, BatchesMatch, CriteriaMatch, SamePlaces, Checked, Decoded, Replaced, Holder, Position;
      UpdatingMatches(batchRows, entries, archive, columns.resumeId, columns);
      SamePlacesMatch(batchRows, criteria, archive, Replaced(archive, Decoded(row)));
      entries := entries[columns.resumeId := row];
      archive := Replaced(archive, Decoded(row));
    }
  }

  method CopyEntries(batchRows: seq<BatchRow>, entries: map<string, Row<Columns>>, b: Batch, ghost a: seq<Batch>)
    returns (copied: map<string, Row<Columns>>, ok: bool)
    requires BatchesMatch(batchRows, a) && EntriesMatch(entries, a)
    ensures ok ==> Copied(entries, b, |b.entries|, copied)
    ensures ok <==>
      && (forall i :: 0 <= i < |b.entries| ==>
          !Stored(a, b.entries[i].resumeId) && Checked(InsertedColumns(b.entries[i])))
      && (forall i, j :: 0 <= i < j < |b.entries| ==> b.entries[i].resumeId != b.entries[j].resumeId)
  {
    hide *;
    copied, ok := entries, true;
    KnownRows(entries, batchRows, a);
    NothingCopied(entries, b);
    for i := 0 to |b.entries|
      invariant ok && Copied(entries, b, i, copied)
      invariant forall k :: 0 <= k < i ==> Checked(InsertedColumns(b.entries[k]))
      invariant forall k :: 0 <= k < i ==> b.entries[k].resumeId !in entries
      invariant forall j, k :: 0 <= j < k < i ==> b.entries[j].resumeId != b.entries[k].resumeId
    {
      var e := b.entries[i];
      if !Checked(InsertedColumns(e)) {
        ok := false;
        return;
      }
      if e.resumeId in copied {
        AlreadyThere(entries, b, i, copied);
        ok := false;
        return;
      }
      CopyingOneMore(entries, b, i, copied);
      copied := copied[e.resumeId := Row(b.id, i, InsertedColumns(e))];
    }
  }

  lemma KnownRows(entries: map<string, Row<Columns>>, batchRows: seq<BatchRow>, a: seq<Batch>)
    requires BatchesMatch(batchRows, a) && EntriesMatch(entries, a)
    ensures forall r :: r in entries <==> Stored(a, r)
  {
    forall r
      ensures r in entries <==> Stored(a, r)
    {
      HolderFromRow(entries, batchRows, a, r);
    }
  }

  lemma NothingCopied(entries: map<string, Row<Columns>>, b: Batch)
    ensures Copied(entries, b, 0, entries)
  {
  }

  lemma AlreadyThere(entries: map<string, Row<Columns>>, b: Batch, i: nat, copied: map<string, Row<Columns>>)
    requires i < |b.entries| && Copied(entries, b, i, copied) && b.entries[i].resumeId in copied
    ensures b.entries[i].resumeId in entries || exists k :: 0 <= k < i && b.entries[k].resumeId == b.entries[i].resumeId
  {
    hide InsertedColumns;
  }

  lemma CopyingOneMore(entries: map<string, Row<Columns>>, b: Batch, i: nat, copied: map<string, Row<Columns>>)
    requires i < |b.entries| && Copied(entries, b, i, copied) && b.entries[i].resumeId !in copied
    ensures Copied(entries, b, i + 1, copied[b.entries[i].resumeId := Row(b.id, i, InsertedColumns(b.entries[i]))])
    ensures b.entries[i].resumeId !in entries
    ensures forall k :: 0 <= k < i ==> b.entries[k].resumeId != b.entries[i].resumeId
  {
    hide InsertedColumns;
  }

  lemma OneOrNone(a: seq<Batch>, id: string)
    requires forall i, j :: 0 <= i < j < |a| ==> a[i].id != a[j].id
    ensures Having(a, {id}) == if Position(a, id) < |a| then [a[Position(a, id)]] else []
  {
    if Position(a, id) < |a| {
      HavingOne(a, {id}, Position(a, id));
    } else {
      HavingNone(a, {id});
    }
  }

  lemma WaitingBatchesSelected(batchRows: seq<BatchRow>, entries: map<string, Row<Columns>>, a: seq<Batch>,
                               ids: set<string>)
    requires BatchesMatch(batchRows, a) && EntriesMatch(entries, a)
    requires forall r :: r in entries && entries[r].body.status == Pending && entries[r].body.requestedAt == None ==>
        entries[r].batchId in ids
    ensures forall b :: b in a && WaitingOnly(b.entries) != [] ==> b.id in ids
  {
    forall b | b in a && WaitingOnly(b.entries) != []
      ensures b.id in ids
    {
      WaitingOnlyIs(b.entries);
      hide EntriesMatch, BatchesMatch;
      var i :| 0 <= i < |a| && a[i] == b;
      assert WaitingOnly(b.entries)[0] in WaitingOnly(b.entries);
      var k :| 0 <= k < |b.entries| && b.entries[k] == WaitingOnly(b.entries)[0];
      RowOfEntry(batchRows, entries, a, i, k);
    }
  }

  method TakeWaiting(batches: seq<Batch>, limit: nat) returns (out: seq<Batch>)
    ensures out == UnrequestedOf(batches, limit)
  {
    out := [];
    assert batches[0..] == batches;
    var i: nat, left: nat := 0, limit;
    hide UnrequestedOf, WaitingOnly, Share, Clip;
    while i < |batches| && left > 0
      invariant i <= |batches|
      invariant out + UnrequestedOf(batches[i..], left) == UnrequestedOf(batches, limit)
    {
      UnrequestedFrom(batches, i, out, left);
      var share, taken := TakeShare(batches[i], left);
      out := out + share;
      left := left - taken;
      i := i + 1;
    }
    UnrequestedDone(batches, i, left);
  }
}
