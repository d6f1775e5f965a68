/**
 * The two repositories themselves, driven by one sequence of calls: what StoresAgree says of their steps
 * holds of them.
 */
module StoreCalls {
  import opened Prelude
  import opened Openings
  import opened Screening
  import opened Archive
  import opened StoresAgree
  import MemoryRepository
  import PostgresRepository

  function Told(r: Result<(), ScreeningError>): Answer {
    if r.Ok? then Done else Refused(r.error)
  }

  function Shown(r: Result<Batch, ScreeningError>): Answer {
    if r.Ok? then Found(r.value) else Refused(r.error)
  }

  method CallMemory(store: MemoryRepository.Repository, call: Call) returns (answer: Answer)
    requires store.Valid()
    modifies store
    ensures store.Valid() && (store.Value(), answer) == MemoryStep(old(store.Value()), call)
  {
    match call {
      case SaveBatch(b) => var r := store.SaveBatch(b); answer := Told(r);
      case SaveEntry(e) => var r := store.SaveEntry(e); answer := Told(r);
      case MarkRequested(id, at) => var r := store.MarkRequested(id, at); answer := Told(r);
      case FindBatch(id) => var r := store.FindBatch(id); answer := Shown(r);
      case FindBatchOfResume(id) => var r := store.FindBatchOfResume(id); answer := Shown(r);
      case ListBatches(id) => var s := store.ListBatches(id); answer := Listed(s);
      case Unrequested(limit) => var s := store.Unrequested(limit); answer := Listed(s);
    }
  }

  method CallPostgres(store: PostgresRepository.Repository, call: Call) returns (answer: Answer)
    requires store.Valid() && (call.MarkRequested? ==> PostgresRepository.Stamp(call.at) != ZERO_TIME)
    modifies store
    ensures store.Valid() && (store.archive, answer) == PostgresStep(old(store.archive), call)
  {
    match call {
      case SaveBatch(b) => var r := store.SaveBatch(b); answer := Told(r);
      case SaveEntry(e) => var r := store.SaveEntry(e); answer := Told(r);
      case MarkRequested(id, at) => var r := store.MarkRequested(id, at); answer := Told(r);
      case FindBatch(id) => var r := store.FindBatch(id); answer := Shown(r);
      case FindBatchOfResume(id) => var r := store.FindBatchOfResume(id); answer := Shown(r);
      case ListBatches(id) => var s := store.ListBatches(id); answer := Listed(s);
      case Unrequested(limit) => var s := store.Unrequested(limit); answer := Listed(s);
    }
  }

  method RunMemory(store: MemoryRepository.Repository, calls: seq<Call>) returns (answers: seq<Answer>)
    requires store.Valid()
    modifies store
    ensures store.Valid() && (store.Value(), answers) == MemoryRun(old(store.Value()), calls)
    decreases |calls|
  {
    MemoryRunOnce(store.Value(), calls);
    hide *;
    if calls == [] {
      return [];
    }
    var answer := CallMemory(store, calls[0]);
    answers := RunMemory(store, calls[1..]);
    answers := [answer] + answers;
  }

  lemma MemoryRunOnce(a: seq<Batch>, calls: seq<Call>)
    ensures calls == [] ==> MemoryRun(a, calls) == (a, [])
    ensures calls != [] ==>
      var (now, answer) := MemoryStep(a, calls[0]);
      var (last, answers) := MemoryRun(now, calls[1..]);
      MemoryRun(a, calls) == (last, [answer] + answers)
  {
  }

  /** No mark at Go's zero time, which the column would not tell from NULL. */
  predicate Marks(calls: seq<Call>) {
    forall i :: 0 <= i < |calls| ==> calls[i].MarkRequested? ==> PostgresRepository.Stamp(calls[i].at) != ZERO_TIME
  }

  method RunPostgres(store: PostgresRepository.Repository, calls: seq<Call>) returns (answers: seq<Answer>)
    requires store.Valid() && Marks(calls)
    modifies store
    ensures store.Valid() && (store.archive, answers) == PostgresRun(old(store.archive), calls)
    decreases |calls|
  {
    PostgresRunOnce(store.archive, calls);
    assert calls != [] ==>
        Marks(calls[1..]) && (calls[0].MarkRequested? ==> PostgresRepository.Stamp(calls[0].at) != ZERO_TIME);
    hide *;
    if calls == [] {
      return [];
    }
    var answer := CallPostgres(store, calls[0]);
    answers := RunPostgres(store, calls[1..]);
    answers := [answer] + answers;
  }

  lemma PostgresRunOnce(a: seq<Batch>, calls: seq<Call>)
    ensures calls == [] ==> PostgresRun(a, calls) == (a, [])
    ensures calls != [] ==>
      var (now, answer) := PostgresStep(a, calls[0]);
      var (last, answers) := PostgresRun(now, calls[1..]);
      PostgresRun(a, calls) == (last, [answer] + answers)
  {
  }

  /** Every call the service makes, made of both stores: the answers agree one by one, and so does what is left. */
  method RunBoth(memory: MemoryRepository.Repository, postgres: PostgresRepository.Repository, calls: seq<Call>)
    returns (m: seq<Answer>, p: seq<Answer>)
    requires memory.Valid() && postgres.Valid() && ViewAll(memory.Value()) == ViewAll(postgres.archive)
    requires ServiceCalls(memory.Value(), calls)
    modifies memory, postgres
    ensures memory.Valid() && postgres.Valid() && ViewAll(memory.Value()) == ViewAll(postgres.archive)
    ensures |m| == |calls| == |p|
    ensures forall i :: 0 <= i < |calls| ==>
      ViewAnswer(m[i]) == ViewAnswer(p[i]) && (calls[i].Unrequested? ==> m[i] == p[i])
  {
    hide *;
    RunsAgree(memory.Value(), postgres.archive, calls);
    ServiceMarks(memory.Value(), calls);
    m := RunMemory(memory, calls);
    p := RunPostgres(postgres, calls);
  }

  lemma {:induction false} ServiceMarks(a: seq<Batch>, calls: seq<Call>)
    requires ServiceCalls(a, calls)
    ensures Marks(calls)
    decreases |calls|
  {
    if calls != [] {
      ServiceMarks(MemoryStep(a, calls[0]).0, calls[1..]);
      assert forall i :: 0 < i < |calls| ==> calls[i] == calls[1..][i - 1];
    }
  }
}
