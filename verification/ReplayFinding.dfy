/**
 * Two runs that end where the documentation says none does: a resume whose failure Hiring has recorded
 * is replayed from the dead letters and scored, and Hiring's entry still says failed; and a resume that
 * is scored without a candidate id, so that Hiring refuses the answer and never shows it screened.
 */
module ReplayFinding {
  import opened Prelude
  import opened CriterionIds
  import opened Openings
  import opened Screening
  import opened Handover
  import opened Pipeline
  import opened Protocol
  import opened ProtocolInvariant
  import opened ProtocolTheorems
  import opened Runs
  import opened Screenable
  import Scoring

  const KEY := Key("sb_1", "rs_1")
  const CRITERIA := [Criterion("Go", NiceToHave, 1)]
  const UPLOADED := NewEntry("rs_1", "cv.pdf", "jo_1/sb_1/rs_1.pdf", 1)
  const ASSESSMENTS := [Scoring.Assessment("c1", true, 80)]
  const FINE := Fine(ASSESSMENTS)
  const FILE_GONE := FINE.(file := Missing("no such file"))

  lemma OneCriterionIsScored()
    ensures Scoring.ScoreAgainstCriteria(WireCriteria(CRITERIA), ASSESSMENTS).Ok?
  {
    var wire := WireCriteria(CRITERIA);
    assert CriterionID(0) == "c1" by {
      assert Itoa(1) == "1";
    }
    assert wire == [Scoring.Criterion("c1", "Go", false, 1)];
    assert wire[..0] == [];
    assert Scoring.ById(wire) == map["c1" := wire[0]];
    assert ASSESSMENTS[..0] == [];
    assert Scoring.AssessedById(ASSESSMENTS) == map["c1" := ASSESSMENTS[0]];
  }

  /** A row that is not finished, handled with everything going well, is scored. */
  lemma ScoredOnceTried(q: Limits, r: Request, row: Option<Row>, issued: nat)
    requires r.body.Some? && ValidRequest(r.body.value) && r.body.value.criteria == SentCriteria(CRITERIA)
    requires row.Some? ==> !Final(row.value)
    ensures
      var h := AfterDelivery(q, r, row, issued, FINE, 1.0, false);
      && h.row.Some? && h.row.value.status == RowScored
      && h.outbox == [Answered(ToCompleted(h.row.value, r.body.value.correlationId))]
  {
    OneCriterionIsScored();
  }

  /** A missing file fails the resume at once: a dead letter, then a failed answer. */
  lemma HandledWithoutFile(q: Limits, r: Request, issued: nat)
    requires r.body.Some? && ValidRequest(r.body.value)
    ensures
      var h := AfterDelivery(q, r, None, issued, FILE_GONE, 1.0, false);
      && h.row.Some? && h.row.value.status == RowFailed && h.row.value.key == r.body.value.key
      && h.outbox == [DeadLettered(r, "no such file"), Answered(ToCompleted(h.row.value, r.body.value.correlationId))]
  {
  }

  /** A system nothing was submitted to. */
  function Empty(limits: Limits): State {
    State(limits, "resumes", map[], map[], [], Resting, multiset{}, multiset{}, multiset{}, multiset{}, multiset{},
          map[], 0, multiset{}, multiset{}, Idle, multiset{})
  }

  lemma Start(s: State, limits: Limits) returns (t: State, r: Request)
    requires s == Empty(limits)
    ensures Reachable(t) && KEY in t.entries && t.entries[KEY].status == Pending && KEY in t.contexts
    ensures t.contexts[KEY].criteria == CRITERIA && t.rows == map[] && t.consumer == Idle && t.limits == limits
    ensures r.attempt == 0 && r in t.requested && r.body.Some? && KeyOf(r) == KEY
  {
    hide Reachable;
    assert Reachable(s) by {
      assert Init(s) && CanRun(s, []) && After(s, []) == s;
      ReachableHere(s);
    }
    var added := map[KEY := Submitted("sb_1", UPLOADED)];
    var submit := Submit(Context("jo_1", CRITERIA), [KEY], added);
    assert ScorableCriteria(CRITERIA) by {
      assert !Blank("Go") by {
        assert !IsSpace("Go"[0]);
      }
    }
    assert NewlySubmitted(KEY, added[KEY]);
    assert Enabled(s, submit);
    ReachableStep(s, submit);
    t, r := Send(Next(s, submit));
  }

  /** The one resume of the system is published. */
  lemma Send(s: State) returns (t: State, r: Request)
    requires Reachable(s) && s.line == [KEY] && s.relay == Resting
    requires KEY in s.entries && KEY in s.contexts && Unrequested(s.entries[KEY]) && s.entries[KEY].resumeId == "rs_1"
    requires s.entries[KEY].batchId == "sb_1"
    ensures Reachable(t) && t.entries == s.entries && t.contexts == s.contexts && t.rows == s.rows
    ensures t.consumer == s.consumer && t.limits == s.limits
    ensures r.attempt == 0 && r in t.requested && r.body.Some? && KeyOf(r) == KEY
  {
    hide Reachable, Enabled, Next;
    StartsPass(s);
    ReachableStep(s, RelayStart);
    var s1 := Next(s, RelayStart);
    assert s.line[1..] == [];
    assert Waiting(s.line, s.entries) == [KEY] + Waiting([], s.entries);
    assert s1.relay.todo == [KEY];
    PublishesHead(s1, "x");
    ReachableStep(s1, RelayPublish("x"));
    t := Next(s1, RelayPublish("x"));
    r := Request(Some(BodyOf(s1, KEY, "x")), 0);
  }

  lemma ReachableHere(s: State)
    requires Init(s)
    ensures Reachable(s)
  {
    assert CanRun(s, []) && After(s, []) == s;
  }

  /** The request is delivered and fails for good. */
  lemma Fail(s: State, r: Request) returns (t: State, a: Completed)
    requires Reachable(s) && KEY in s.entries && KEY in s.contexts
    requires s.rows == map[] && s.consumer == Idle
    requires r in s.requested && r.body.Some? && KeyOf(r) == KEY
    ensures Reachable(t) && t.entries == s.entries && t.contexts == s.contexts && t.consumer == Idle
    ensures KEY in t.rows && t.rows[KEY].status == RowFailed
    ensures Work(r, Settling([DeadLettered(r, "no such file"), Answered(a)])) in t.working
    ensures a.key == KEY && a.status == FailedScreening
  {
    hide Reachable, AfterDelivery, ValidRequest, BodyOf, ReadAnswer, Rule, Decided;
    var deliver := Deliver(r);
    ReachableStep(s, deliver);
    var s1 := Next(s, deliver);
    DeliveredRequestValid(s1, r);
    HandledWithoutFile(s1.limits, r, s1.issued);
    var handle := HandleDelivery(r, FILE_GONE, 1.0, false);
    ReachableStep(s1, handle);
    t := Next(s1, handle);
    a := ToCompleted(t.rows[KEY], r.body.value.correlationId);
  }

  /** Both the dead letter and the failed answer reach their queues. */
  lemma Publish(s: State, r: Request, a: Completed) returns (t: State)
    requires Reachable(s) && Work(r, Settling([DeadLettered(r, "no such file"), Answered(a)])) in s.working
    ensures Reachable(t) && t.entries == s.entries && t.contexts == s.contexts && t.consumer == s.consumer
        && t.rows == s.rows
    ensures r in t.dead && a in t.completed
  {
    hide Reachable;
    var w := Work(r, Settling([DeadLettered(r, "no such file"), Answered(a)]));
    var w' := Work(r, Settling([Answered(a)]));
    assert w.stage.outbox[1..] == [Answered(a)];
    ReachableStep(s, Take(w));
    var s1 := Next(s, Take(w));
    ReachableStep(s1, Take(w'));
    t := Next(s1, Take(w'));
  }

  /** Hiring's consumer loads the entry the answer is for. */
  lemma LoadFailure(s: State, a: Completed) returns (t: State)
    requires Reachable(s) && a in s.completed && a.key == KEY && a.status == FailedScreening && s.consumer == Idle
    requires KEY in s.entries && s.entries[KEY].status == Pending
    ensures Reachable(t) && t.rows == s.rows && t.dead == s.dead && t.contexts == s.contexts && t.entries == s.entries
    ensures t.consumer == Loaded(a, s.entries[KEY])
  {
    hide Reachable, Rule, Decided, BodyOf;
    ReachableStep(s, Consume(a));
    var s1 := Next(s, Consume(a));
    ReachableStep(s1, LoadEntry);
    t := Next(s1, LoadEntry);
  }

  /** Hiring records the failure. */
  lemma RecordFailure(s: State, a: Completed) returns (t: State)
    requires Reachable(s) && KEY in s.entries && s.entries[KEY].status == Pending && KEY in s.contexts
    requires s.consumer == Loaded(a, s.entries[KEY]) && a.key == KEY && a.status == FailedScreening
    ensures Reachable(t) && t.rows == s.rows && t.dead == s.dead && t.contexts == s.contexts
    ensures KEY in t.entries && t.entries[KEY].status == Failed
  {
    hide Reachable, Decided, BodyOf;
    assert Rule(s.contexts[KEY].criteria, s.entries[KEY], ReadAnswer(a).value, 1).Keep?;
    ReachableStep(s, SaveResult(1));
    t := Next(s, SaveResult(1));
  }

  /** The operator replays the dead letter, and this time the resume is scored. */
  lemma ReplayAndScore(s: State, r: Request) returns (t: State)
    requires Reachable(s) && r in s.dead && r.body.Some? && KeyOf(r) == KEY
    requires KEY in s.contexts && s.contexts[KEY].criteria == CRITERIA
    requires KEY in s.rows && s.rows[KEY].status == RowFailed
    ensures Reachable(t) && t.entries == s.entries && KEY in t.rows && t.rows[KEY].status == RowScored
  {
    hide Reachable, Enabled, Next, AfterDelivery, ValidRequest, SentCriteria, CRITERIA, FINE;
    var again := r.(attempt := 0);
    ReplaysIt(s, r, true);
    ReachableStep(s, Replay(r, true));
    var s1 := Next(s, Replay(r, true));
    Delivers(s1, again);
    ReachableStep(s1, Deliver(again));
    var s2 := Next(s1, Deliver(again));
    DeliveredRequestValid(s2, again);
    DeliveredCriteria(s2, again);
    ScoredOnceTried(s2.limits, again, RowAt(s2, KEY), s2.issued);
    HandlesIt(s2, again, FINE);
    var handle := HandleDelivery(again, FINE, 1.0, false);
    ReachableStep(s2, handle);
    t := Next(s2, handle);
  }

  lemma DeliveredCriteria(s: State, r: Request)
    requires Reachable(s) && Work(r, Received) in s.working && r.body.Some? && KeyOf(r) in s.contexts
    ensures r.body.value.criteria == SentCriteria(s.contexts[KeyOf(r)].criteria)
  {
    hide Reachable, EntriesOk, RowsOk, AnswersOk, LoadedOk, DecisionsOk, RelayOk, NoneLost;
    ReachableKeeps(s);
    WorkingOk(s, Work(r, Received));
  }

  /**
   * A reachable state in which Hiring says failed and Resume Processing has a score: replaying a dead
   * letter does not bring the score to Hiring once the failure is recorded - and never will.
   */
  lemma ReplayedScoreNeverReachesHiring(limits: Limits) returns (s: State)
    ensures Reachable(s) && KEY in s.entries && KEY in s.rows
    ensures s.entries[KEY].status == Failed && s.rows[KEY].status == RowScored
    ensures forall steps :: CanRun(s, steps) ==>
      KEY in After(s, steps).entries && After(s, steps).entries[KEY].status == Failed
  {
    hide Reachable, Next, Enabled, CanRun;
    var s0 := Empty(limits);
    var s1, r := Start(s0, limits);
    var s2, a := Fail(s1, r);
    var s3 := Publish(s2, r, a);
    var s4 := LoadFailure(s3, a);
    var s5 := RecordFailure(s4, a);
    s := ReplayAndScore(s5, r);
    forall steps | CanRun(s, steps)
      ensures KEY in After(s, steps).entries && After(s, steps).entries[KEY].status == Failed
    {
      FirstAnswerStands(s, steps, KEY);
    }
  }

  // ---------- A resume scored without a candidate ----------

  const NO_ID := FINE.(idError := Some("no id"))

  /** The request is queued, and Resume Processing has never got as far as a row for it. */
  ghost predicate Untouched(s: State, r: Request) {
    && Reachable(s) && s.rows == map[] && s.consumer == Idle
    && KEY in s.entries && KEY in s.contexts && s.entries[KEY].status == Pending
    && s.contexts[KEY].criteria == CRITERIA
    && r in s.requested && r.body.Some? && KeyOf(r) == KEY && r.attempt <= s.limits.maxRetries
  }

  /** Handled without an id to be had: tried again, and after the last try a failed row without a candidate. */
  lemma HandledWithoutId(q: Limits, r: Request, issued: nat)
    requires r.body.Some? && ValidRequest(r.body.value) && r.attempt <= q.maxRetries
    ensures
      var h := AfterDelivery(q, r, None, issued, NO_ID, 1.0, false);
      if r.attempt < q.maxRetries then
        h.row == None && |h.outbox| == 1 && h.outbox[0].Retried? && h.outbox[0].retry == r.(attempt := r.attempt + 1)
      else h.row.Some? && h.row.value.status == RowFailed && h.row.value.candidateId == None
  {
    hide Backoff;
  }

  lemma FailsOnce(s: State, r: Request) returns (t: State)
    requires Untouched(s, r) && r.attempt < s.limits.maxRetries
    ensures t.limits == s.limits && Untouched(t, r.(attempt := r.attempt + 1))
  {
    hide Reachable, AfterDelivery, ValidRequest, BodyOf, ReadAnswer, Rule, Decided, CRITERIA, Inv;
    ReachableStep(s, Deliver(r));
    var s1 := Next(s, Deliver(r));
    DeliveredRequestValid(s1, r);
    HandledWithoutId(s1.limits, r, s1.issued);
    var h := AfterDelivery(s1.limits, r, None, s1.issued, NO_ID, 1.0, false);
    var handle := HandleDelivery(r, NO_ID, 1.0, false);
    ReachableStep(s1, handle);
    assert h.outbox == [h.outbox[0]];
    t := TriesAgain(Next(s1, handle), r, h.outbox[0]);
  }

  /** The retry is taken by the broker and queued again once its delay is over. */
  lemma TriesAgain(s: State, r: Request, p: Publication) returns (t: State)
    requires Reachable(s) && p.Retried? && p.retry == r.(attempt := r.attempt + 1)
    requires Work(r, Settling([p])) in s.working
    ensures Reachable(t) && t.limits == s.limits && t.rows == s.rows && t.consumer == s.consumer
    ensures t.entries == s.entries && t.contexts == s.contexts && p.retry in t.requested
  {
    hide Reachable;
    var w := Work(r, Settling([p]));
    ReachableStep(s, Take(w));
    var s1 := Next(s, Take(w));
    ReachableStep(s1, Expire(p.retry));
    t := Next(s1, Expire(p.retry));
  }

  /** The last try fails too, and the delivery is handed back before it is settled. */
  lemma FailsLast(s: State, r: Request) returns (t: State)
    requires Untouched(s, r) && r.attempt == s.limits.maxRetries
    ensures Reachable(t) && t.entries == s.entries && t.contexts == s.contexts && t.consumer == Idle
    ensures r in t.requested && KEY in t.rows && t.rows[KEY].status == RowFailed && t.rows[KEY].candidateId == None
  {
    hide Reachable, AfterDelivery, ValidRequest, BodyOf, ReadAnswer, Rule, Decided;
    ReachableStep(s, Deliver(r));
    var s1 := Next(s, Deliver(r));
    DeliveredRequestValid(s1, r);
    HandledWithoutId(s1.limits, r, s1.issued);
    var handle := HandleDelivery(r, NO_ID, 1.0, false);
    ReachableStep(s1, handle);
    var s2 := Next(s1, handle);
    var w := Work(r, Settling(AfterDelivery(s1.limits, r, None, s1.issued, NO_ID, 1.0, false).outbox));
    ReachableStep(s2, Requeue(w));
    t := Next(s2, Requeue(w));
  }

  lemma {:induction false} FailsThroughout(s: State, r: Request) returns (t: State, last: Request)
    requires Untouched(s, r)
    ensures Reachable(t) && t.consumer == Idle && last in t.requested && last.body.Some? && KeyOf(last) == KEY
    ensures KEY in t.entries && t.entries[KEY].status == Pending && KEY in t.contexts
        && t.contexts[KEY].criteria == CRITERIA
    ensures KEY in t.rows && t.rows[KEY].status == RowFailed && t.rows[KEY].candidateId == None
    decreases s.limits.maxRetries - r.attempt
  {
    hide Reachable;
    if r.attempt == s.limits.maxRetries {
      t := FailsLast(s, r);
      last := r;
    } else {
      var s' := FailsOnce(s, r);
      t, last := FailsThroughout(s', r.(attempt := r.attempt + 1));
    }
  }

  /** Handled again with everything going well: a score, and still no candidate. */
  lemma ScoredWithoutCandidate(s: State, r: Request) returns (t: State, a: Completed)
    requires Reachable(s) && s.consumer == Idle && r in s.requested && r.body.Some? && KeyOf(r) == KEY
    requires KEY in s.entries && s.entries[KEY].status == Pending && KEY in s.contexts
        && s.contexts[KEY].criteria == CRITERIA
    requires KEY in s.rows && s.rows[KEY].status == RowFailed && s.rows[KEY].candidateId == None
    ensures Reachable(t) && t.entries == s.entries && t.contexts == s.contexts && t.consumer == Idle
    ensures KEY in t.rows && t.rows[KEY].status == RowScored && t.rows[KEY].candidateId == None
    ensures a in t.completed && a == ToCompleted(t.rows[KEY], a.correlationId)
  {
    hide Reachable, Enabled, Next, AfterDelivery, ValidRequest, SentCriteria, CRITERIA, FINE;
    Delivers(s, r);
    ReachableStep(s, Deliver(r));
    var s1 := Next(s, Deliver(r));
    DeliveredRequestValid(s1, r);
    DeliveredCriteria(s1, r);
    RowHasItsKey(s1, KEY);
    ScoredOnceTried(s1.limits, r, RowAt(s1, KEY), s1.issued);
    CandidateStays(s1.limits, r, RowAt(s1, KEY), s1.issued, FINE, 1.0, false);
    HandlesIt(s1, r, FINE);
    var handle := HandleDelivery(r, FINE, 1.0, false);
    ReachableStep(s1, handle);
    var s2 := Next(s1, handle);
    a := ToCompleted(s2.rows[KEY], r.body.value.correlationId);
    var w := Work(r, Settling([Answered(a)]));
    TakesIt(s2, w);
    ReachableStep(s2, Take(w));
    t := Next(s2, Take(w));
  }

  lemma RowHasItsKey(s: State, k: Key)
    requires Reachable(s) && k in s.rows
    ensures s.rows[k].key == k
  {
    hide Reachable;
    ReachableKeeps(s);
    assert RowOk(s, k);
  }

  lemma SaveRefuses(s: State, a: Completed)
    requires KEY in s.entries && s.entries[KEY].status == Pending && KEY in s.contexts
    requires a.key == KEY && s.consumer == Loaded(a, s.entries[KEY])
    requires ReadAnswer(a).Some? && ReadAnswer(a).value.status == ScreenedOk
    requires !Recordable(s.contexts[KEY].criteria, ScreenedOk, ReadAnswer(a).value.result)
    ensures Enabled(s, SaveResult(1)) && Next(s, SaveResult(1)) == s.(consumer := Refusing(a))
  {
    hide ReadAnswer;
  }

  /** Hiring refuses the answer and puts it with its dead letters. */
  lemma Refuses(s: State, a: Completed) returns (t: State)
    requires Reachable(s) && KEY in s.entries && s.entries[KEY].status == Pending && KEY in s.contexts
    requires a.key == KEY && s.consumer == Loaded(a, s.entries[KEY])
    requires ReadAnswer(a).Some? && ReadAnswer(a).value.status == ScreenedOk
    requires !Recordable(s.contexts[KEY].criteria, ScreenedOk, ReadAnswer(a).value.result)
    ensures Reachable(t) && a in t.refused && t.rows == s.rows && t.entries == s.entries
  {
    hide Reachable, ReadAnswer, Recordable;
    SaveRefuses(s, a);
    ReachableStep(s, SaveResult(1));
    var s1 := s.(consumer := Refusing(a));
    ReachableStep(s1, RefuseAnswer);
    t := Next(s1, RefuseAnswer);
  }

  /**
   * Whatever the retry limit, a state in which Hiring has refused an honest answer: the resume was
   * scored, and no continuation ever shows it screened.
   */
  lemma AnHonestAnswerRefused(limits: Limits) returns (s: State, a: Completed)
    ensures Reachable(s) && a in s.refused && a.key == KEY && KEY in s.rows && s.rows[KEY].status == RowScored
    ensures KEY in s.entries && s.entries[KEY].status == Pending && !CanBeScreened(s, KEY)
  {
    hide Reachable, CanBeScreened, ReadAnswer, Recordable, Rule;
    var s0 := Empty(limits);
    var s1, r := Start(s0, limits);
    var s2, last := FailsThroughout(s1, r);
    var s3, answer := ScoredWithoutCandidate(s2, last);
    AnswerIsRecordableIff(s3, KEY, answer.correlationId);
    LeadsNowhere(s3, true);
    var s4 := Loads(s3, s3, KEY, answer, true);
    s := Refuses(s4, answer);
    a := answer;
    ScreenableIff(s, KEY);
  }
}
