/**
 * The PostgreSQL repository stands in for the in-memory one: for any sequence of calls the service makes
 * they answer alike, and what they hold differs at most in when a completed resume was requested.
 */
module StoresAgree {
  import opened Prelude
  import opened Openings
  import opened Screening
  import opened Archive
  import opened PostgresRepository
  import opened Relay
  import Tables

  /** What an entry shows: nothing reads the request time of a resume that has its answer. */
  function View(e: Entry): Entry {
    if e.status == Pending then e else e.(requestedAt := ZERO_TIME)
  }

  function ViewEntries(entries: seq<Entry>): (r: seq<Entry>)
    ensures |r| == |entries| && forall i :: 0 <= i < |r| ==> r[i] == View(entries[i])
  {
    seq(|entries|, i requires 0 <= i < |entries| => View(entries[i]))
  }

  function ViewBatch(b: Batch): Batch {
    b.(entries := ViewEntries(b.entries))
  }

  function ViewAll(a: seq<Batch>): (r: seq<Batch>)
    ensures |r| == |a| && forall i :: 0 <= i < |r| ==> r[i] == ViewBatch(a[i])
  {
    seq(|a|, i requires 0 <= i < |a| => ViewBatch(a[i]))
  }

  function ViewAnswer(answer: Answer): Answer {
    match answer
    case Found(b) => Found(ViewBatch(b))
    case Listed(batches) => Listed(ViewAll(batches))
    case _ => answer
  }

  /** The in-memory repository's step, as MemoryRepository.Repository's contracts give it. */
  function MemoryStep(a: seq<Batch>, call: Call): (seq<Batch>, Answer) {
    match call
    case SaveBatch(b) => if Position(a, b.id) < |a| then (a, Refused(StorageError)) else (a + [b], Done)
    case SaveEntry(e) => if Stored(a, e.resumeId) then (Replaced(a, e), Done) else (a, Refused(ResumeNotFound))
    case MarkRequested(r, at) =>
      if Stored(a, r) then (Replaced(a, EntryOf(a, r).(requestedAt := at)), Done) else (a, Refused(ResumeNotFound))
    case _ => (a, ReadAnswerOf(a, call))
  }

  /** The PostgreSQL repository's, as PostgresRepository.Repository's contracts give it. */
  function PostgresStep(a: seq<Batch>, call: Call): (seq<Batch>, Answer) {
    match call
    case SaveBatch(b) => if Insertable(a, b) then (a + [AsInserted(b)], Done) else (a, Refused(StorageError))
    case SaveEntry(e) =>
      if !Stored(a, e.resumeId) then (a, Refused(ResumeNotFound))
      else
        var stored := EntryOf(a, e.resumeId);
        if !Checked(UpdatedColumns(InsertedColumns(stored), e)) then (a, Refused(StorageError))
        else (Replaced(a, Reloaded(stored, e)), Done)
    case MarkRequested(r, at) =>
      if Stored(a, r) then (Replaced(a, EntryOf(a, r).(requestedAt := Stamp(at))), Done)
      else (a, Refused(ResumeNotFound))
    case _ => (a, ReadAnswerOf(a, call))
  }

  /** A batch as NewScreeningBatch makes one, with fresh ids, from an opening's stored criteria. */
  ghost predicate NewBatch(a: seq<Batch>, b: Batch) {
    && Position(a, b.id) == |a| && ScorableCriteria(b.criteria) && Whole(b.submittedAt)
    && |b.criteria| <= Tables.INT4_MAX
    && (forall i :: 0 <= i < |b.criteria| ==> b.criteria[i].weight <= Tables.INT4_MAX)
    && (forall i :: 0 <= i < |b.entries| ==>
          !Stored(a, b.entries[i].resumeId) && b.entries[i].sizeBytes >= 0 && JustSubmitted(b, b.entries[i]))
    && (forall i, j :: 0 <= i < j < |b.entries| ==> b.entries[i].resumeId != b.entries[j].resumeId)
  }

  /** An entry as the service saves one: loaded, then answered or decided on, by a clock of whole microseconds. */
  ghost predicate ServiceSaves(a: seq<Batch>, e: Entry) {
    Stored(a, e.resumeId) ==>
      && e.status != Pending && e.sizeBytes >= 0 && SameSubmission(EntryOf(a, e.resumeId), e)
      && EntryOk(a[Holder(a, e.resumeId)].criteria, e) && |a[Holder(a, e.resumeId)].criteria| <= Tables.INT4_MAX
      && (e.result.Some? ==> Whole(e.result.value.completedAt))
      && (e.correction.Some? ==> Whole(e.correction.value.at))
      && Whole(e.shortlistedAt)
  }

  /** The calls the service makes of a repository that holds this. */
  ghost predicate ServiceCall(a: seq<Batch>, call: Call) {
    match call
    case SaveBatch(b) => NewBatch(a, b)
    case SaveEntry(e) => ServiceSaves(a, e)
    case MarkRequested(_, at) => Whole(at) && at != ZERO_TIME
    case _ => true
  }

  ghost predicate ServiceCalls(a: seq<Batch>, calls: seq<Call>)
    decreases |calls|
  {
    calls != [] ==> ServiceCall(a, calls[0]) && ServiceCalls(MemoryStep(a, calls[0]).0, calls[1..])
  }

  function MemoryRun(a: seq<Batch>, calls: seq<Call>): (seq<Batch>, seq<Answer>)
    decreases |calls|
  {
    if calls == [] then (a, [])
    else
      var (now, answer) := MemoryStep(a, calls[0]);
      var (last, answers) := MemoryRun(now, calls[1..]);
      (last, [answer] + answers)
  }

  function PostgresRun(a: seq<Batch>, calls: seq<Call>): (seq<Batch>, seq<Answer>)
    decreases |calls|
  {
    if calls == [] then (a, [])
    else
      var (now, answer) := PostgresStep(a, calls[0]);
      var (last, answers) := PostgresRun(now, calls[1..]);
      (last, [answer] + answers)
  }

  // ---------- Looking through the view ----------

  lemma {:induction false} ViewedIndex(entries: seq<Entry>, r: string)
    ensures IndexOf(ViewEntries(entries), r) == IndexOf(entries, r)
  {
    if entries != [] {
      assert ViewEntries(entries)[1..] == ViewEntries(entries[1..]);
      ViewedIndex(entries[1..], r);
    }
  }

  lemma {:induction false} ViewedPosition(a: seq<Batch>, id: string)
    ensures Position(ViewAll(a), id) == Position(a, id)
  {
    if a != [] {
      assert ViewAll(a)[1..] == ViewAll(a[1..]);
      ViewedPosition(a[1..], id);
    }
  }

  lemma {:induction false} ViewedHolder(a: seq<Batch>, r: string)
    ensures Holder(ViewAll(a), r) == Holder(a, r)
  {
    if a != [] {
      assert ViewAll(a)[1..] == ViewAll(a[1..]) && ViewAll(a)[0] == ViewBatch(a[0]);
      ViewedIndex(a[0].entries, r);
      ViewedHolder(a[1..], r);
    }
  }

  lemma ViewedReplaced(a: seq<Batch>, e: Entry)
    requires Stored(a, e.resumeId)
    ensures Stored(ViewAll(a), e.resumeId) && ViewAll(Replaced(a, e)) == Replaced(ViewAll(a), View(e))
    ensures View(EntryOf(a, e.resumeId)) == EntryOf(ViewAll(a), e.resumeId)
  {
    ViewedHolder(a, e.resumeId);
    var i := Holder(a, e.resumeId);
    ViewedIndex(a[i].entries, e.resumeId);
    var k := IndexOf(a[i].entries, e.resumeId);
    assert ViewEntries(a[i].entries[k := e]) == ViewEntries(a[i].entries)[k := View(e)];
  }

  lemma {:induction false} ViewedWaiting(entries: seq<Entry>)
    ensures WaitingOnly(ViewEntries(entries)) == WaitingOnly(entries)
  {
    if entries != [] {
      assert ViewEntries(entries)[1..] == ViewEntries(entries[1..]);
      ViewedWaiting(entries[1..]);
    }
  }

  /** The relay's question is answered by exactly the same batches. */
  lemma {:induction false} ViewedUnrequested(a: seq<Batch>, limit: nat)
    ensures UnrequestedOf(ViewAll(a), limit) == UnrequestedOf(a, limit)
    decreases |a|
  {
    if a != [] && limit > 0 {
      assert ViewAll(a)[1..] == ViewAll(a[1..]) && ViewAll(a)[0] == ViewBatch(a[0]);
      ViewedWaiting(a[0].entries);
      ViewedUnrequested(a[1..], limit - |Clip(WaitingOnly(a[0].entries), limit)|);
    }
  }

  lemma {:induction false} ViewedOf(a: seq<Batch>, jobOpeningId: string)
    ensures Of(ViewAll(a), jobOpeningId) == ViewAll(Of(a, jobOpeningId))
  {
    if a != [] {
      assert ViewAll(a)[1..] == ViewAll(a[1..]) && ViewAll(a)[0] == ViewBatch(a[0]);
      ViewedOf(a[1..], jobOpeningId);
    }
  }

  // ---------- The two agree ----------

  /**
   * Saving one entry leaves both stores showing the same exactly when the columns can hold it and a pending one
   * keeps its request time.
   */
  lemma SaveEntryAgreesIff(stored: Entry, e: Entry)
    ensures View(Reloaded(stored, e)) == View(e) <==>
      && SameSubmission(stored, e) && Representable(e)
      && (e.status == Pending ==> e.requestedAt == stored.requestedAt)
  {
    var row := Tables.Row(stored.batchId, 0, InsertedColumns(stored).(requestedAt := Some(stored.requestedAt)));
    RoundTripIff(row, e);
    ReloadedFields(stored, e);
  }

  lemma ReloadedFields(stored: Entry, e: Entry)
    ensures Reloaded(stored, e).status == e.status && Reloaded(stored, e).requestedAt == stored.requestedAt
    ensures Reloaded(stored, e).resumeId == stored.resumeId
  {
  }

  lemma ReadsAgree(m: seq<Batch>, p: seq<Batch>, call: Call)
    requires ViewAll(m) == ViewAll(p) && !call.SaveBatch? && !call.SaveEntry? && !call.MarkRequested?
    ensures ViewAnswer(ReadAnswerOf(m, call)) == ViewAnswer(ReadAnswerOf(p, call))
    ensures call.Unrequested? ==> ReadAnswerOf(m, call) == ReadAnswerOf(p, call)
  {
    match call
    case FindBatch(id) => ViewedPosition(m, id); ViewedPosition(p, id); SameViewAt(m, p, Position(m, id));
    case FindBatchOfResume(r) => ViewedHolder(m, r); ViewedHolder(p, r); SameViewAt(m, p, Holder(m, r));
    case ListBatches(id) => ViewedOf(m, id); ViewedOf(p, id);
    case Unrequested(limit) => ViewedUnrequested(m, limit); ViewedUnrequested(p, limit);
  }

  lemma SameViewAt(m: seq<Batch>, p: seq<Batch>, i: nat)
    requires ViewAll(m) == ViewAll(p)
    ensures |m| == |p| && (i < |m| ==> ViewBatch(m[i]) == ViewBatch(p[i]))
  {
    assert i < |m| ==> ViewAll(m)[i] == ViewAll(p)[i];
  }

  lemma SaveEntryAgrees(m: seq<Batch>, p: seq<Batch>, e: Entry)
    requires ViewAll(m) == ViewAll(p) && ServiceSaves(m, e)
    ensures MemoryStep(m, SaveEntry(e)).1 == PostgresStep(p, SaveEntry(e)).1
    ensures ViewAll(MemoryStep(m, SaveEntry(e)).0) == ViewAll(PostgresStep(p, SaveEntry(e)).0)
  {
    ViewedHolder(m, e.resumeId);
    ViewedHolder(p, e.resumeId);
    if Stored(m, e.resumeId) {
      ViewedReplaced(m, e);
      ViewedReplaced(p, e);
      var stored := EntryOf(p, e.resumeId);
      assert SameSubmission(stored, e);
      DomainEntriesFit(m[Holder(m, e.resumeId)].criteria, e);
      SaveEntryAgreesIff(stored, e);
      ReloadedFields(stored, e);
      assert Checked(UpdatedColumns(InsertedColumns(stored), e));
      ViewedReplaced(p, Reloaded(stored, e));
    }
  }

  lemma MarkRequestedAgrees(m: seq<Batch>, p: seq<Batch>, r: string, at: Time)
    requires ViewAll(m) == ViewAll(p) && Whole(at)
    ensures MemoryStep(m, MarkRequested(r, at)).1 == PostgresStep(p, MarkRequested(r, at)).1
    ensures ViewAll(MemoryStep(m, MarkRequested(r, at)).0) == ViewAll(PostgresStep(p, MarkRequested(r, at)).0)
  {
    ViewedHolder(m, r);
    ViewedHolder(p, r);
    if Stored(m, r) {
      ViewedReplaced(m, EntryOf(m, r).(requestedAt := at));
      ViewedReplaced(p, EntryOf(p, r).(requestedAt := at));
    }
  }

  lemma SaveBatchAgrees(m: seq<Batch>, p: seq<Batch>, b: Batch)
    requires ViewAll(m) == ViewAll(p) && NewBatch(m, b)
    ensures MemoryStep(m, SaveBatch(b)) == (m + [b], Done) && PostgresStep(p, SaveBatch(b)) == (p + [b], Done)
    ensures ViewAll(m + [b]) == ViewAll(p + [b])
  {
    ViewedPosition(m, b.id);
    ViewedPosition(p, b.id);
    forall i | 0 <= i < |b.entries|
      ensures !Stored(p, b.entries[i].resumeId)
    {
      ViewedHolder(m, b.entries[i].resumeId);
      ViewedHolder(p, b.entries[i].resumeId);
    }
    NewBatchesFit(p, b);
    assert ViewAll(m + [b]) == ViewAll(m) + [ViewBatch(b)];
    assert ViewAll(p + [b]) == ViewAll(p) + [ViewBatch(b)];
  }

  lemma StepsAgree(m: seq<Batch>, p: seq<Batch>, call: Call)
    requires ViewAll(m) == ViewAll(p) && ServiceCall(m, call)
    ensures ViewAll(MemoryStep(m, call).0) == ViewAll(PostgresStep(p, call).0)
    ensures ViewAnswer(MemoryStep(m, call).1) == ViewAnswer(PostgresStep(p, call).1)
    ensures call.Unrequested? ==> MemoryStep(m, call).1 == PostgresStep(p, call).1
  {
    match call
    case SaveBatch(b) => SaveBatchAgrees(m, p, b);
    case SaveEntry(e) => SaveEntryAgrees(m, p, e);
    case MarkRequested(r, at) => MarkRequestedAgrees(m, p, r, at);
    case _ => ReadsAgree(m, p, call);
  }

  /**
   * Whatever the service calls, both repositories give the same answers, the relay's to the last field, and end up
   * showing the same.
   */
  lemma {:induction false} RunsAgree(m: seq<Batch>, p: seq<Batch>, calls: seq<Call>)
    requires ViewAll(m) == ViewAll(p) && ServiceCalls(m, calls)
    ensures ViewAll(MemoryRun(m, calls).0) == ViewAll(PostgresRun(p, calls).0)
    ensures |MemoryRun(m, calls).1| == |calls| == |PostgresRun(p, calls).1|
    ensures forall i :: 0 <= i < |calls| ==>
      ViewAnswer(MemoryRun(m, calls).1[i]) == ViewAnswer(PostgresRun(p, calls).1[i])
      && (calls[i].Unrequested? ==> MemoryRun(m, calls).1[i] == PostgresRun(p, calls).1[i])
    decreases |calls|
  {
    if calls != [] {
      StepsAgree(m, p, calls[0]);
      var m', p' := MemoryStep(m, calls[0]), PostgresStep(p, calls[0]);
      hide MemoryStep, PostgresStep, ServiceCall, ViewAnswer, ViewAll;
      RunsAgree(m'.0, p'.0, calls[1..]);
      assert MemoryRun(m, calls).1 == [m'.1] + MemoryRun(m'.0, calls[1..]).1;
      assert PostgresRun(p, calls).1 == [p'.1] + PostgresRun(p'.0, calls[1..]).1;
    }
  }

  // ---------- Resumes and batches never get confused ----------

  lemma AddingKeepsWellFormed(a: seq<Batch>, b: Batch)
    requires WellFormed(a) && NewBatch(a, b)
    ensures WellFormed(a + [b])
  {
    var out := a + [b];
    assert forall i, k :: EntryAt(out, i, k) && i < |a| ==> EntryAt(a, i, k);
    forall i, k | EntryAt(a, i, k)
      ensures Stored(a, a[i].entries[k].resumeId)
    {
      assert Holds(a[i], a[i].entries[k].resumeId);
    }
    forall i, k | EntryAt(out, i, k)
      ensures out[i].entries[k].batchId == out[i].id
    {
      if i == |a| {
        assert JustSubmitted(b, b.entries[k]);
      }
    }
  }

  /**
   * Whatever the service calls, every resume stays in one place and carries its batch's id: what a relay pass
   * relies on.
   */
  lemma {:induction false} CallsKeepWellFormed(a: seq<Batch>, calls: seq<Call>)
    requires WellFormed(a) && ServiceCalls(a, calls)
    ensures WellFormed(MemoryRun(a, calls).0)
    decreases |calls|
  {
    if calls != [] {
      match calls[0] {
        case SaveBatch(b) =>
          AddingKeepsWellFormed(a, b);
        case SaveEntry(e) =>
          if Stored(a, e.resumeId) {
            ReplacedKeepsWellFormed(a, e);
          }
        case MarkRequested(r, at) =>
          MarkKeepsWellFormed(a, r, at);
        case _ =>
      }
      CallsKeepWellFormed(MemoryStep(a, calls[0]).0, calls[1..]);
    }
  }
}
