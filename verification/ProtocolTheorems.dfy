/** What the handover guarantees over every run from an empty system. */
module ProtocolTheorems {
  import opened Prelude
  import opened Openings
  import opened Screening
  import opened Handover
  import opened Pipeline
  import opened Protocol
  import opened ProtocolInvariant

  /** Some run from an empty system leads here. */
  ghost predicate Reachable(s: State) {
    exists s0, steps :: Init(s0) && CanRun(s0, steps) && After(s0, steps) == s
  }

  lemma ReachableKeeps(s: State)
    requires Reachable(s)
    ensures Inv(s)
  {
    hide Inv, Enabled, Next;
    var s0, steps :| Init(s0) && CanRun(s0, steps) && After(s0, steps) == s;
    InitOk(s0);
    RunKeeps(s0, steps);
  }

  /**
   * No accepted resume is lost, wherever a crash, a lost confirm or a lost acknowledgement falls: a
   * pending entry is still waiting to be sent, or a copy of its request is queued, delayed, in flight
   * or dead-lettered, or a final answer to it is queued, in Hiring's hands or in Hiring's dead letters.
   * The answer that screening failed never is all there is: a dead letter stays beside it.
   */
  lemma NoResumeLost(s: State, k: Key)
    requires Reachable(s) && k in s.entries && s.entries[k].status == Pending
    ensures s.entries[k].requestedAt == ZERO_TIME || HasRequest(s, k) || HasAnswer(s, k)
  {
    hide EntriesOk, RequestsOk, RowsOk, AnswersOk, LoadedOk, DecisionsOk, RelayOk, HasRequest, HasAnswer, Reachable;
    ReachableKeeps(s);
  }

  /**
   * The two services agree: a screened entry carries exactly its row's candidate, score, verdict and
   * unmet must-haves, and one that needs review has an unparsable row.
   */
  lemma ServicesAgree(s: State, k: Key)
    requires Reachable(s) && k in s.entries && s.entries[k].status != Pending
    ensures k in s.rows && s.entries[k].result.Some?
    ensures s.entries[k].result.value.candidateId == s.rows[k].candidateId.GetOr("")
    ensures s.entries[k].status == ScreenedOk ==>
      var e, r := s.entries[k].result.value, s.rows[k];
      && r.status == RowScored && r.candidateId.Some?
      && e.score == r.score && e.meetsMustHaves == r.meetsMustHaves
      && AllParse(r.unmetMustHaveIds) && e.unmetMustHaves == Positions(r.unmetMustHaveIds)
    ensures s.entries[k].status == NeedsReview ==>
      s.rows[k].status == RowUnparsable
      && s.entries[k].result.value.reason == TrimSpace(s.rows[k].error.GetOr(""))
  {
    hide Reachable;
    ReachableKeeps(s);
    assert HiringEntryOk(s, k);
  }

  /**
   * The first answer stands: whatever happens afterwards, an answered entry keeps its status and its
   * result, a finished row stays as it is, and a row keeps its candidate id.
   */
  lemma FirstAnswerStands(s: State, steps: seq<Step>, k: Key)
    requires Reachable(s) && CanRun(s, steps)
    ensures k in s.entries ==> k in After(s, steps).entries
    ensures k in s.entries && s.entries[k].status != Pending ==>
      After(s, steps).entries[k].status == s.entries[k].status
          && After(s, steps).entries[k].result == s.entries[k].result
    ensures k in s.rows ==> k in After(s, steps).rows && After(s, steps).rows[k].candidateId == s.rows[k].candidateId
    ensures k in s.rows && Final(s.rows[k]) ==> After(s, steps).rows[k] == s.rows[k]
    ensures k in s.contexts ==> k in After(s, steps).contexts && After(s, steps).contexts[k] == s.contexts[k]
  {
    hide Inv, Enabled, Next, Reachable;
    ReachableKeeps(s);
    RunKeeps(s, steps);
  }

  /** Saving the answer that was loaded is the only step that changes an entry's status. */
  lemma OnlySavingAnswers(s: State, step: Step, k: Key)
    requires Reachable(s) && Enabled(s, step) && k in s.entries && !step.SaveResult?
    ensures k in Next(s, step).entries && Next(s, step).entries[k].status == s.entries[k].status
  {
    hide EntriesOk, RequestsOk, RowsOk, AnswersOk, LoadedOk, RelayOk, NoneLost, Reachable, AfterDelivery, ReadAnswer,
        Rule;
    hide BodyOf, Decided, AfterPublish, AfterStop, AfterLatePublish, AfterDeliver, AfterHandle, AfterTake,
        AfterAcknowledge;
    hide AfterRequeue, AfterExpire, AfterReplay, AfterConsume, AfterLoad, AfterRefuse, AfterReturn, AfterDecide,
        AfterDrop;
    ReachableKeeps(s);
    if step.SaveDecision? {
      assert DecisionOk(s, step.decision);
    }
  }

  /** An entry is answered with what its answer says, at the time it is saved, and nothing else about it changes. */
  lemma AnsweredAsItArrives(s: State, at: Time, k: Key)
    requires Reachable(s) && Enabled(s, SaveResult(at)) && k in s.entries && s.entries[k].status == Pending
    ensures k in AfterSaveResult(s, at).entries && Next(s, SaveResult(at)) == AfterSaveResult(s, at)
    ensures
      var now := AfterSaveResult(s, at).entries[k];
      now.status != Pending ==>
        && s.consumer.answer.key == k && now.result.Some? && now.result.value.completedAt == at
        && (now.status == ScreenedOk <==> s.consumer.answer.status.Scored?)
        && (now.status == NeedsReview <==> s.consumer.answer.status.Unparsable?)
        && now == s.entries[k].(status := now.status, result := now.result)
  {
    hide EntriesOk, RequestsOk, RowsOk, DecisionsOk, RelayOk, NoneLost, AnswersOk, Reachable, Recordable;
    ReachableKeeps(s);
  }

  /** No step of the result consumer touches an answered entry, so a late repeat wipes no override and no shortlist. */
  lemma RepeatsChangeNothing(s: State, step: Step, k: Key)
    requires Reachable(s) && Enabled(s, step)
    requires step.Consume? || step.LoadEntry? || step.SaveResult? || step.RefuseAnswer? || step.AckAnswer?
        || step.ReturnAnswer?
    requires k in s.entries && s.entries[k].status != Pending
    ensures k in Next(s, step).entries && Next(s, step).entries[k] == s.entries[k]
  {
    hide EntriesOk, RequestsOk, RowsOk, AnswersOk, DecisionsOk, RelayOk, NoneLost, Reachable;
    ReachableKeeps(s);
    if step.SaveResult? && s.consumer.answer.key == k {
      assert s.consumer.entry.status != Pending;
    }
  }

  /** A Recruiter's late save changes only the override and the shortlist mark: never the status or the result. */
  lemma LateDecisionsKeepTheAnswer(s: State, d: Decision)
    requires Reachable(s) && Enabled(s, SaveDecision(d))
    ensures
      var before, after := s.entries[d.key], Next(s, SaveDecision(d)).entries[d.key];
      && before.status == ScreenedOk
      && after == before.(correction := d.entry.correction, shortlistedAt := d.entry.shortlistedAt)
  {
    hide EntriesOk, RequestsOk, RowsOk, AnswersOk, LoadedOk, RelayOk, NoneLost, Reachable;
    ReachableKeeps(s);
    assert DecisionOk(s, d);
  }

  /**
   * An honest answer is refused exactly for want of a candidate id. Everything in Hiring's dead
   * letters is a scored answer without one; where every row has one, nothing is ever refused.
   */
  lemma OnlyCandidatelessAnswersRefused(s: State, a: Completed)
    requires Reachable(s) && a in s.refused
    ensures a.key in s.rows && s.rows[a.key].status == RowScored && s.rows[a.key].candidateId.GetOr("") == ""
  {
    hide EntriesOk, RequestsOk, RowsOk, LoadedOk, DecisionsOk, RelayOk, NoneLost, Reachable;
    ReachableKeeps(s);
    assert AnswerOk(s, a) && Refusable(a);
  }

  lemma NothingRefusedWithCandidates(s: State)
    requires Reachable(s)
    requires forall k :: k in s.rows ==> s.rows[k].candidateId.Some?
    ensures s.refused == multiset{}
  {
    hide RequestsOk, EntriesOk, LoadedOk, DecisionsOk, RelayOk, NoneLost, Reachable;
    ReachableKeeps(s);
    if a :| a in s.refused {
      OnlyCandidatelessAnswersRefused(s, a);
    }
  }

  /** The refusal has one cause, in Resume Processing: a failure recorded for a resume that had no row yet. */
  lemma CandidatelessRowsComeFromFailures(s: State, step: Step, k: Key)
    requires Reachable(s) && Enabled(s, step)
    requires k !in s.rows && k in Next(s, step).rows && Next(s, step).rows[k].candidateId == None
    ensures step.HandleDelivery? && !step.recordError && Next(s, step).rows[k].status == RowFailed
    ensures step.world.idError.Some? || step.world.claimError.Some?
  {
    hide Inv, Reachable, AfterDelivery, ValidRequest;
    if step.HandleDelivery? {
      DeliveredRequestValid(s, step.request);
      CandidatelessOnlyWhenUnclaimed(s.limits, step.request, s.issued, step.world, step.jitter, step.recordError);
    } else {
      OnlyHandlingTouchesRows(s, step);
    }
  }

  lemma OnlyHandlingTouchesRows(s: State, step: Step)
    requires Enabled(s, step) && !step.HandleDelivery?
    ensures Next(s, step).rows == s.rows
  {
    hide ReadAnswer, Rule, Decided, BodyOf, Saved, KeyOf, AfterDelivery, AfterSubmit, AfterPublish, AfterMark;
    hide AfterTake, AfterSaveResult, AfterLoad, AfterDeliver, AfterAcknowledge, AfterRequeue, AfterExpire, AfterReplay;
    hide AfterConsume, AfterSave, AfterRefuse, AfterReturn, AfterDecide, AfterDrop, AfterHandle, Enabled;
  }

  lemma DeliveredRequestValid(s: State, r: Request)
    requires Reachable(s) && Work(r, Received) in s.working
    ensures r.body.Some? && ValidRequest(r.body.value)
  {
    hide EntriesOk, RowsOk, AnswersOk, LoadedOk, DecisionsOk, RelayOk, NoneLost, Reachable, ValidRequest;
    ReachableKeeps(s);
    WorkingOk(s, Work(r, Received));
    RequestValid(s, r);
  }

  /**
   * What every request copy asks for, wherever it is: the file of its own entry, in the system's bucket, judged by
   * its own batch's snapshot.
   */
  lemma RequestsAskForTheirOwn(s: State, r: Request)
    requires Reachable(s)
    requires r in s.requested || r in s.retrying || r in s.dead || Work(r, Received) in s.working
    ensures r.body.Some?
    ensures
      var m, k := r.body.value, r.body.value.key;
      && k in s.entries && k in s.contexts
      && s.entries[k].batchId == k.batchId && s.entries[k].resumeId == k.resumeId
      && m.bucket == s.bucket && m.objectKey == s.entries[k].objectKey
      && m.jobOpeningId == s.contexts[k].jobOpeningId && Lists(m.criteria, s.contexts[k].criteria)
  {
    hide Reachable, Lists;
    ReachableKeeps(s);
    if Work(r, Received) in s.working {
      WorkingOk(s, Work(r, Received));
    }
    assert RequestOk(s, r);
    var k := KeyOf(r);
    assert HiringEntryOk(s, k);
    RequestSays(s.bucket, s.contexts[k].jobOpeningId, s.contexts[k].criteria, s.entries[k], r.body.value.correlationId);
  }

  lemma RequestValid(s: State, r: Request)
    requires Inv(s) && RequestOk(s, r)
    ensures ValidRequest(r.body.value)
  {
    var k := KeyOf(r);
    assert HiringEntryOk(s, k);
    HonestRequestIsValid(s.bucket, s.contexts[k].jobOpeningId, s.contexts[k].criteria, s.entries[k],
        r.body.value.correlationId);
  }

  /** Two resumes never share a candidate. */
  lemma CandidatesAreDistinct(s: State, j: Key, k: Key)
    requires Reachable(s) && j in s.rows && k in s.rows && j != k && s.rows[j].candidateId.Some?
    ensures s.rows[j].candidateId != s.rows[k].candidateId
  {
    hide EntriesOk, RequestsOk, AnswersOk, LoadedOk, DecisionsOk, RelayOk, NoneLost, Reachable;
    ReachableKeeps(s);
  }

  /** An answer wherever it is: queued, with the consumer, or refused. */
  ghost predicate Around(s: State, a: Completed) {
    a in s.completed || a in s.refused || (s.consumer != Idle && s.consumer.answer == a)
  }

  /** All scored answers around for one resume are the same answer, apart from the correlation id. */
  lemma ScoredAnswersAreOne(s: State, a: Completed, b: Completed)
    requires Reachable(s) && Around(s, a) && Around(s, b)
    requires a.key == b.key && a.status == Scored && b.status != FailedScreening
    ensures b == a.(correlationId := b.correlationId)
  {
    hide EntriesOk, RequestsOk, RowsOk, LoadedOk, DecisionsOk, RelayOk, NoneLost, Reachable;
    ReachableKeeps(s);
    assert AnswerOk(s, a) && AnswerOk(s, b);
  }

  /** No request copy ever carries a retry count above the limit. */
  lemma RetriesAreBounded(s: State, r: Request)
    requires Reachable(s)
    requires r in s.requested || r in s.retrying || r in s.dead || Work(r, Received) in s.working
    ensures r.attempt <= s.limits.maxRetries
  {
    hide EntriesOk, RowsOk, AnswersOk, LoadedOk, DecisionsOk, RelayOk, NoneLost, Reachable;
    ReachableKeeps(s);
    if Work(r, Received) in s.working {
      WorkingOk(s, Work(r, Received));
    }
  }
}
