/** Which resumes can still be screened: exactly those whose row has not closed the way. */
module Screenable {
  import opened Prelude
  import opened CriterionIds
  import opened Openings
  import opened Screening
  import opened Handover
  import opened Pipeline
  import opened Protocol
  import opened ProtocolInvariant
  import opened ProtocolTheorems
  import opened Runs
  import opened Asking
  import Scoring

  // ---------- A run that screens a resume ----------

  /** Every criterion judged unmet and scored 0: an answer the AI Service accepts for any criteria. */
  function Judged(criteria: seq<Criterion>): seq<Scoring.Assessment> {
    seq(|criteria|, i requires 0 <= i < |criteria| => Scoring.Assessment(CriterionID(i), false, 0))
  }

  lemma JudgedIsAccepted(criteria: seq<Criterion>)
    requires |criteria| > 0
    ensures Scoring.ScoreAgainstCriteria(WireCriteria(criteria), Judged(criteria)).Ok?
  {
    var wire, judged := WireCriteria(criteria), Judged(criteria);
    forall i, j | 0 <= i < j < |judged| ensures judged[i].criterionId != judged[j].criterionId {
      if judged[i].criterionId == judged[j].criterionId {
        CriterionIDIsInjective(i, j);
      }
    }
    forall c | c in wire ensures Scoring.AssessedBy(c, judged) {
      var i :| 0 <= i < |wire| && wire[i] == c;
      assert judged[i].criterionId == c.id;
    }
    forall a | a in judged ensures Scoring.AskedFor(a, wire) {
      var i :| 0 <= i < |judged| && judged[i] == a;
      assert wire[i].id == a.criterionId;
    }
    Scoring.AcceptedExactlyWhenOneAssessmentEach(wire, judged);
  }

  /** Everything going well, with this said of the resume. */
  function Fine(assessments: seq<Scoring.Assessment>): World {
    World(None, 0, None, Text, None, None, assessments, None)
  }

  /** The row can still end up scored, and with a candidate. */
  predicate Scorable(row: Option<Row>) {
    row.Some? ==> row.value.candidateId.Some? && row.value.status != RowUnparsable
  }

  /** Handled with everything going well, such a row is scored and answered. */
  lemma HandledWell(q: Limits, r: Request, row: Option<Row>, issued: nat, criteria: seq<Criterion>)
    requires r.body.Some? && ValidRequest(r.body.value) && r.body.value.criteria == SentCriteria(criteria)
    requires |criteria| > 0 && Scorable(row)
    ensures
      var h := AfterDelivery(q, r, row, issued, Fine(Judged(criteria)), 1.0, false);
      && h.row.Some? && h.row.value.status == RowScored && h.row.value.candidateId.Some?
      && h.outbox == [Answered(ToCompleted(h.row.value, r.body.value.correlationId))]
  {
    JudgedIsAccepted(criteria);
    hide Scoring.ScoreAgainstCriteria, WireCriteria, ValidRequest, Judged;
  }

  /** Resume Processing scores it. */
  lemma Scores(s0: State, s: State, k: Key, r: Request, again: bool) returns (t: State)
    requires Reachable(s) && Leads(s0, s, again) && k in s.contexts && |s.contexts[k].criteria| > 0
    requires Work(r, Received) in s.working && r.body.Some? && KeyOf(r) == k && ValidRequest(r.body.value)
    requires r.body.value.criteria == SentCriteria(s.contexts[k].criteria)
    requires Scorable(RowAt(s, k))
    ensures Reachable(t) && Leads(s0, t, again) && SameInHiring(s, t)
    ensures k in t.rows && t.rows[k].status == RowScored && t.rows[k].candidateId.Some?
    ensures Work(r, Settling([Answered(ToCompleted(t.rows[k], r.body.value.correlationId))])) in t.working
  {
    hide Reachable, Leads, ValidRequest, AfterDelivery, Judged, Enabled, Next, Fine, SentCriteria;
    var criteria := s.contexts[k].criteria;
    HandledWell(s.limits, r, RowAt(s, k), s.issued, criteria);
    HandlesIt(s, r, Fine(Judged(criteria)));
    var handle := HandleDelivery(r, Fine(Judged(criteria)), 1.0, false);
    OneMore(s0, s, handle, again);
    t := Next(s, handle);
  }

  /** And the broker takes the answer. */
  lemma Answers(s0: State, s: State, k: Key, r: Request, again: bool) returns (t: State, a: Completed)
    requires Reachable(s) && Leads(s0, s, again) && k in s.contexts && |s.contexts[k].criteria| > 0
    requires Work(r, Received) in s.working && r.body.Some? && KeyOf(r) == k && ValidRequest(r.body.value)
    requires r.body.value.criteria == SentCriteria(s.contexts[k].criteria)
    requires Scorable(RowAt(s, k))
    ensures Reachable(t) && Leads(s0, t, again) && SameInHiring(s, t) && a in t.completed
    ensures k in t.rows && t.rows[k].status == RowScored && t.rows[k].candidateId.Some?
    ensures a == ToCompleted(t.rows[k], a.correlationId)
  {
    hide Reachable, Leads, ValidRequest, SentCriteria, Scorable, Enabled, Next;
    var s1 := Scores(s0, s, k, r, again);
    a := ToCompleted(s1.rows[k], r.body.value.correlationId);
    var w := Work(r, Settling([Answered(a)]));
    TakesIt(s1, w);
    OneMore(s0, s1, Take(w), again);
    t := Next(s1, Take(w));
  }

  /** Hiring's consumer, whatever it was doing, loads the entry the answer is for. */
  lemma Loads(s0: State, s: State, k: Key, a: Completed, again: bool) returns (t: State)
    requires Reachable(s) && Leads(s0, s, again) && k in s.entries
    requires a in s.completed && a.key == k && ReadAnswer(a).Some?
    ensures Reachable(t) && Leads(s0, t, again) && SameInHiring(s, t) && t.rows == s.rows
    ensures t.consumer == Loaded(a, t.entries[k])
  {
    hide Reachable, Leads, ReadAnswer, Enabled, Next;
    var s1 := s;
    if s.consumer != Idle {
      Returns(s);
      OneMore(s0, s, ReturnAnswer, again);
      s1 := Next(s, ReturnAnswer);
    }
    Consumes(s1, a);
    OneMore(s0, s1, Consume(a), again);
    var s2 := Next(s1, Consume(a));
    LoadsIt(s2);
    OneMore(s0, s2, LoadEntry, again);
    t := Next(s2, LoadEntry);
  }

  /** A scored row's answer is one Hiring records, if the row has a candidate, and only then. */
  lemma AnswerIsRecordableIff(s: State, k: Key, correlationId: string)
    requires Reachable(s) && k in s.rows && s.rows[k].status == RowScored
    ensures k in s.entries && k in s.contexts && s.rows[k].key == k
    ensures
      var reading := ReadAnswer(ToCompleted(s.rows[k], correlationId));
      && reading.Some? && reading.value.status == ScreenedOk
      && (Recordable(s.contexts[k].criteria, ScreenedOk, reading.value.result) <==> s.rows[k].candidateId.Some?)
  {
    hide Reachable;
    ReachableKeeps(s);
    assert RowOk(s, k) && HiringEntryOk(s, k);
    var criteria, r := s.contexts[k].criteria, s.rows[k];
    hide Inv, ReadAnswer, Recordable, ScorableCriteria, EntryOk, HonestlyScored;
    var assessments :| HonestlyScored(r, criteria, assessments);
    HonestAnswerAcceptedIffCandidate(r, criteria, assessments, correlationId);
  }

  /** A pending entry takes the answer. */
  lemma Records(s0: State, s: State, k: Key, a: Completed, again: bool) returns (t: State)
    requires Reachable(s) && Leads(s0, s, again) && k in s.entries && k in s.contexts && s.entries[k].status == Pending
    requires a.key == k && s.consumer == Loaded(a, s.entries[k])
    requires ReadAnswer(a).Some? && ReadAnswer(a).value.status == ScreenedOk
    requires Recordable(s.contexts[k].criteria, ScreenedOk, ReadAnswer(a).value.result)
    ensures Leads(s0, t, again) && ScreenedIn(t, k)
  {
    hide Reachable, Leads, ReadAnswer;
    OneMore(s0, s, SaveResult(1), again);
    t := Next(s, SaveResult(1));
  }

  /** Some run from here ends with Hiring showing the resume as screened. */
  ghost predicate CanBeScreened(s: State, k: Key) {
    exists steps :: CanRun(s, steps) && ScreenedIn(After(s, steps), k)
  }

  predicate ScreenedIn(s: State, k: Key) {
    k in s.entries && s.entries[k].status == ScreenedOk
  }

  /** From a request copy before Resume Processing, with no other copy brought back. */
  lemma ScreenedOnceAsked(s0: State, s: State, k: Key, r: Request, again: bool) returns (t: State)
    requires Reachable(s) && Leads(s0, s, again) && Work(r, Received) in s.working && Concerns(r, k)
    requires k in s.entries && s.entries[k].status == Pending && Scorable(RowAt(s, k))
    ensures Leads(s0, t, again) && ScreenedIn(t, k)
  {
    hide Reachable, Leads, ReadAnswer, Recordable, ValidRequest, SentCriteria;
    CarriesTheSnapshot(s, k, r);
    var t1, a := Answers(s0, s, k, r, again);
    t := ScreenedOnceAnswered(s0, t1, k, a, again);
  }

  /** From the answer of a scored row in the queue. */
  lemma ScreenedOnceAnswered(s0: State, s: State, k: Key, a: Completed, again: bool) returns (t: State)
    requires Reachable(s) && Leads(s0, s, again) && a in s.completed
    requires k in s.rows && s.rows[k].status == RowScored && s.rows[k].candidateId.Some?
    requires a == ToCompleted(s.rows[k], a.correlationId) && k in s.entries && s.entries[k].status == Pending
    ensures Leads(s0, t, again) && ScreenedIn(t, k)
  {
    hide Reachable, Leads, ReadAnswer, Recordable;
    AnswerIsRecordableIff(s, k, a.correlationId);
    var t1 := Loads(s0, s, k, a, again);
    t := Records(s0, t1, k, a, again);
  }

  /** A final answer about a resume that can be scored is its scored row's, and not with Hiring's dead letters. */
  lemma FinalAnswerIsTheRows(s: State, k: Key)
    requires Reachable(s) && HasAnswer(s, k) && Scorable(RowAt(s, k))
    ensures k in s.rows && s.rows[k].status == RowScored && s.rows[k].candidateId.Some?
    ensures (exists a :: a in s.completed && IsFinal(a, k) && a == ToCompleted(s.rows[k], a.correlationId))
      || (s.consumer != Idle && s.consumer.answer == ToCompleted(s.rows[k], s.consumer.answer.correlationId))
  {
    hide Reachable, EntriesOk, RequestsOk, LoadedOk, DecisionsOk, RelayOk, NoneLost, HonestRow;
    ReachableKeeps(s);
    if a :| a in s.completed && IsFinal(a, k) {
      assert AnswerOk(s, a);
    } else if a :| a in s.refused && IsFinal(a, k) {
      RefusedHasNoCandidate(s, k, a);
    } else {
      assert AnswerOk(s, s.consumer.answer);
      CandidateIdIsText(s, k);
    }
  }

  lemma RefusedHasNoCandidate(s: State, k: Key, a: Completed)
    requires RowsOk(s) && AnswersOk(s) && a in s.refused && a.key == k
    ensures k in s.rows && s.rows[k].status == RowScored && s.rows[k].candidateId == None
  {
    assert AnswerOk(s, a) && Refusable(a);
    if s.rows[k].candidateId.Some? {
      CandidateIdIsText(s, k);
    }
  }

  lemma CandidateIdIsText(s: State, k: Key)
    requires RowsOk(s) && k in s.rows && s.rows[k].candidateId.Some?
    ensures s.rows[k].candidateId.value != ""
  {
    assert RowOk(s, k);
  }

  lemma ScreenedFromAnswer(s: State, k: Key) returns (t: State)
    requires Reachable(s) && HasAnswer(s, k) && Scorable(RowAt(s, k))
    requires k in s.entries && s.entries[k].status == Pending
    ensures Leads(s, t, true) && ScreenedIn(t, k)
  {
    hide Reachable, Leads, HasAnswer, Enabled, Next;
    FinalAnswerIsTheRows(s, k);
    LeadsNowhere(s, true);
    if a :| a in s.completed && IsFinal(a, k) && a == ToCompleted(s.rows[k], a.correlationId) {
      t := ScreenedOnceAnswered(s, s, k, a, true);
    } else {
      Returns(s);
      OneMore(s, s, ReturnAnswer, true);
      var s1 := Next(s, ReturnAnswer);
      t := ScreenedOnceAnswered(s, s1, k, s.consumer.answer, true);
    }
  }

  lemma ScreenedFrom(s: State, k: Key) returns (t: State)
    requires Reachable(s) && k in s.entries && s.entries[k].status == Pending && Scorable(RowAt(s, k))
    ensures Leads(s, t, true) && ScreenedIn(t, k)
  {
    hide Reachable, Leads, HasAnswer, HasRequest, Enabled, Next;
    NoResumeLost(s, k);
    if s.entries[k].requestedAt == ZERO_TIME {
      var s1, r := FirstAsked(s, k);
      t := ScreenedOnceAsked(s, s1, k, r, true);
    } else if HasRequest(s, k) {
      var s1, r := BroughtBack(s, k);
      t := ScreenedOnceAsked(s, s1, k, r, true);
    } else {
      t := ScreenedFromAnswer(s, k);
    }
  }

  /**
   * Exactly which resumes can still be screened: those that are, and those that are pending while
   * Resume Processing has no row of theirs yet, or one with a candidate that was not found unparsable.
   */
  lemma ScreenableIff(s: State, k: Key)
    requires Reachable(s) && k in s.entries
    ensures CanBeScreened(s, k) <==>
      s.entries[k].status == ScreenedOk || (s.entries[k].status == Pending && Scorable(RowAt(s, k)))
  {
    hide Reachable;
    if steps :| CanRun(s, steps) && ScreenedIn(After(s, steps), k) {
      hide CanRun, After;
      FirstAnswerStands(s, steps, k);
      RunStaysReachable(s, steps);
      ServicesAgree(After(s, steps), k);
    }
    if s.entries[k].status == ScreenedOk {
      assert CanRun(s, []) && After(s, []) == s;
    } else if s.entries[k].status == Pending && Scorable(RowAt(s, k)) {
      var t := ScreenedFrom(s, k);
      LedThere(s, t, k, true);
    }
  }

  lemma LedThere(s: State, t: State, k: Key, again: bool)
    requires Leads(s, t, again) && ScreenedIn(t, k)
    ensures CanBeScreened(s, k)
  {
    var steps :| Run(s, t, steps, again);
  }

  /**
   * When a score reaches Hiring: of a resume scored for a candidate exactly as long
   * as Hiring has not recorded another answer. An operator sees that in Hiring's entry beforehand.
   */
  lemma ScoreReachesHiringIff(s: State, k: Key)
    requires Reachable(s) && k in s.rows && s.rows[k].status == RowScored && s.rows[k].candidateId.Some?
    ensures k in s.entries
    ensures CanBeScreened(s, k) <==> s.entries[k].status in {Pending, ScreenedOk}
  {
    hide Reachable, CanBeScreened;
    AnswerIsRecordableIff(s, k, "");
    ScreenableIff(s, k);
  }

  /**
   * When replaying a dead letter is worth it: exactly as long as the resume can still be screened. The
   * replayed copy is then enough - no other is published, handed back or replayed.
   */
  lemma ReplayScreensIff(s: State, r: Request, acked: bool)
    requires Reachable(s) && r in s.dead
    ensures r.body.Some? && KeyOf(r) in s.entries && Enabled(s, Replay(r, acked))
    ensures
      var k := KeyOf(r);
      (exists t :: Leads(Next(s, Replay(r, acked)), t, false) && ScreenedIn(t, k)) <==>
        s.entries[k].status == ScreenedOk || (s.entries[k].status == Pending && Scorable(RowAt(s, k)))
  {
    hide Reachable, Enabled, Next, CanBeScreened, Leads, Scorable;
    DeadLetterIsKnown(s, r);
    var k, again := KeyOf(r), r.(attempt := 0);
    ReplaysIt(s, r, acked);
    ReachableStep(s, Replay(r, acked));
    var s1 := Next(s, Replay(r, acked));
    ScreenableIff(s1, k);
    if t :| Leads(s1, t, false) && ScreenedIn(t, k) {
      LedThere(s1, t, k, false);
    }
    LeadsNowhere(s1, false);
    if s.entries[k].status == Pending && Scorable(RowAt(s, k)) {
      var s2 := Delivered(s1, s1, again, false);
      var t := ScreenedOnceAsked(s1, s2, k, again, false);
    }
  }

  lemma DeadLetterIsKnown(s: State, r: Request)
    requires Reachable(s) && r in s.dead
    ensures r.body.Some? && KeyOf(r) in s.entries
  {
    hide Reachable;
    ReachableKeeps(s);
  }
}
