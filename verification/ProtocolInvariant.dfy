/** What every step of the handover keeps. */
module ProtocolInvariant {
  import opened Prelude
  import opened CriterionIds
  import opened Openings
  import opened Screening
  import opened Handover
  import opened Pipeline
  import opened Protocol
  import Scoring

  // ---------- The invariant ----------

  /** A request copy is the one Hiring sent for an entry it has, within the retry limit. */
  ghost predicate RequestOk(s: State, r: Request) {
    && r.body.Some? && r.attempt <= s.limits.maxRetries
    && KeyOf(r) in s.entries && KeyOf(r) in s.contexts
    && r.body.value == BodyOf(s, KeyOf(r), r.body.value.correlationId)
  }

  /** An answer says what its row says, for good when the row is final. */
  ghost predicate AnswerOk(s: State, a: Completed) {
    && a.key in s.entries && a.key in s.rows
    && a.candidateId == s.rows[a.key].candidateId.GetOr("")
    && (a.status == FailedScreening || (a == ToCompleted(s.rows[a.key], a.correlationId) && Final(s.rows[a.key])))
  }

  ghost predicate PublicationOk(s: State, r: Request, p: Publication)
    requires r.body.Some?
  {
    match p
    case Answered(a) => AnswerOk(s, a) && a.key == KeyOf(r)
    case Retried(q, _) => RequestOk(s, q) && q.body == r.body
    case DeadLettered(q, _) => q == r
  }

  ghost predicate WorkOk(s: State, w: Work) {
    && RequestOk(s, w.request)
    && (w.stage.Settling? ==> forall i :: 0 <= i < |w.stage.outbox| ==> PublicationOk(s, w.request, w.stage.outbox[i]))
  }

  ghost predicate RequestsOk(s: State) {
    && (forall r :: r in s.requested ==> RequestOk(s, r))
    && (forall r :: r in s.retrying ==> RequestOk(s, r))
    && (forall r :: r in s.dead ==> RequestOk(s, r))
    && (forall w :: w in s.working ==> WorkOk(s, w))
  }

  ghost predicate HonestRow(criteria: seq<Criterion>, r: Row) {
    exists assessments :: HonestlyScored(r, criteria, assessments)
  }

  ghost predicate RowOk(s: State, k: Key) {
    && k in s.rows && k in s.entries && k in s.contexts
    && s.rows[k].key == k
    && (s.rows[k].status == RowScored ==> HonestRow(s.contexts[k].criteria, s.rows[k]))
    && (s.rows[k].candidateId.Some? ==>
          exists n: nat :: n <= s.issued && s.rows[k].candidateId.value == CandidateId(n))
  }

  /** Rows belong to entries, and no two resumes share a candidate id. */
  ghost predicate RowsOk(s: State) {
    && (forall k :: k in s.rows ==> RowOk(s, k))
    && (forall j, k :: j in s.rows && k in s.rows && j != k && s.rows[j].candidateId.Some? ==>
          s.rows[j].candidateId != s.rows[k].candidateId)
  }

  /** The only answers Hiring refuses: scored ones whose row never got a candidate id. */
  ghost predicate Refusable(a: Completed) {
    a.status == Scored && a.candidateId == ""
  }

  ghost predicate AnswersOk(s: State) {
    && (forall a :: a in s.completed ==> AnswerOk(s, a))
    && (forall a :: a in s.refused ==> AnswerOk(s, a) && Refusable(a))
    && (s.consumer != Idle ==> AnswerOk(s, s.consumer.answer))
    && (s.consumer.Refusing? ==> Refusable(s.consumer.answer))
  }

  /** Hiring's copy of a row's outcome. */
  ghost predicate AgreesWith(e: Entry, r: Row) {
    && e.result.Some?
    && e.result.value.candidateId == r.candidateId.GetOr("")
    && (e.status == ScreenedOk ==>
          && r.status == RowScored && e.result.value.score == r.score
          && e.result.value.meetsMustHaves == r.meetsMustHaves
          && AllParse(r.unmetMustHaveIds) && e.result.value.unmetMustHaves == Positions(r.unmetMustHaveIds))
    && (e.status == NeedsReview ==>
          r.status == RowUnparsable && e.result.value.reason == TrimSpace(r.error.GetOr("")))
  }

  ghost predicate HiringEntryOk(s: State, k: Key) {
    && k in s.entries && k in s.contexts
    && k.batchId != "" && k.resumeId != ""
    && s.entries[k].batchId == k.batchId && s.entries[k].resumeId == k.resumeId && s.entries[k].objectKey != ""
    && ScorableCriteria(s.contexts[k].criteria) && |s.contexts[k].criteria| <= MAX_INT
    && EntryOk(s.contexts[k].criteria, s.entries[k])
    && (s.entries[k].status != Pending ==> k in s.rows && AgreesWith(s.entries[k], s.rows[k]))
  }

  ghost predicate EntriesOk(s: State) {
    && s.bucket != "" && s.contexts.Keys == s.entries.Keys
    && forall k :: k in s.entries ==> HiringEntryOk(s, k)
  }

  /** What was loaded is still what is stored, apart from decisions on an answered entry. */
  ghost predicate LoadedOk(s: State) {
    s.consumer.Loaded? ==>
      var k, e := s.consumer.answer.key, s.consumer.entry;
      && k in s.entries && ReadAnswer(s.consumer.answer).Some?
      && (e.status == Pending <==> s.entries[k].status == Pending)
      && (e.status == Pending ==> e == s.entries[k].(requestedAt := e.requestedAt))
  }

  /** A decision waiting to be saved carries the result that is stored. */
  ghost predicate DecisionOk(s: State, d: Decision) {
    && d.key in s.entries && d.key in s.contexts
    && d.entry.status == ScreenedOk && s.entries[d.key].status == ScreenedOk
    && d.entry.result == s.entries[d.key].result
    && EntryOk(s.contexts[d.key].criteria, d.entry)
  }

  ghost predicate DecisionsOk(s: State) {
    forall d :: d in s.decisions ==> DecisionOk(s, d)
  }

  /** Every entry is in line, and the relay works on entries. */
  ghost predicate RelayOk(s: State) {
    && (forall k :: k in s.entries ==> k in s.line)
    && (s.relay.Relaying? ==> forall i :: 0 <= i < |s.relay.todo| ==> s.relay.todo[i] in s.entries)
  }

  ghost predicate Inv(s: State) {
    EntriesOk(s) && RequestsOk(s) && RowsOk(s) && AnswersOk(s) && LoadedOk(s) && DecisionsOk(s) && RelayOk(s)
        && NoneLost(s)
  }

  // ---------- What never changes ----------

  ghost predicate SameRequest(e: Entry, f: Entry) {
    e.batchId == f.batchId && e.resumeId == f.resumeId && e.objectKey == f.objectKey
  }

  /** Entries, their snapshots and their candidates are fixed; so is a finished row, and a recorded answer. */
  ghost predicate Extends(s: State, t: State) {
    && t.limits == s.limits && t.bucket == s.bucket && t.issued >= s.issued
    && (forall k :: k in s.entries ==> k in t.entries && SameRequest(s.entries[k], t.entries[k]))
    && (forall k :: k in s.contexts ==> k in t.contexts && t.contexts[k] == s.contexts[k])
    && (forall k :: k in s.entries && s.entries[k].status != Pending ==>
          t.entries[k].status == s.entries[k].status && t.entries[k].result == s.entries[k].result)
    && (forall k :: k in s.rows ==> k in t.rows && t.rows[k].candidateId == s.rows[k].candidateId)
    && (forall k :: k in s.rows && Final(s.rows[k]) ==> t.rows[k] == s.rows[k])
  }

  lemma ExtendsTransitive(s: State, t: State, u: State)
    requires Extends(s, t) && Extends(t, u)
    ensures Extends(s, u)
  {
  }

  lemma RequestStaysOk(s: State, t: State, r: Request)
    requires Extends(s, t) && RequestOk(s, r)
    ensures RequestOk(t, r)
  {
  }

  lemma AnswerStaysOk(s: State, t: State, a: Completed)
    requires Extends(s, t) && AnswerOk(s, a)
    ensures AnswerOk(t, a)
  {
  }

  lemma WorkStaysOk(s: State, t: State, w: Work)
    requires Extends(s, t) && WorkOk(s, w)
    ensures WorkOk(t, w)
  {
    RequestStaysOk(s, t, w.request);
    if w.stage.Settling? {
      forall i | 0 <= i < |w.stage.outbox| ensures PublicationOk(t, w.request, w.stage.outbox[i]) {
        assert PublicationOk(s, w.request, w.stage.outbox[i]);
        match w.stage.outbox[i]
        case Answered(a) => AnswerStaysOk(s, t, a);
        case Retried(q, _) => RequestStaysOk(s, t, q);
        case DeadLettered(q, _) =>
      }
    }
  }

  /** Copies that were fine stay fine: what is left to check of a step is the copies it makes. */
  lemma CopiesStayOk(s: State, t: State)
    requires Extends(s, t) && RequestsOk(s) && AnswersOk(s)
    ensures forall r :: r in s.requested || r in s.retrying || r in s.dead ==> RequestOk(t, r)
    ensures forall w :: w in s.working ==> WorkOk(t, w)
    ensures forall a :: a in s.completed || a in s.refused ==> AnswerOk(t, a)
    ensures s.consumer != Idle ==> AnswerOk(t, s.consumer.answer)
  {
    forall r | r in s.requested || r in s.retrying || r in s.dead ensures RequestOk(t, r) {
      RequestStaysOk(s, t, r);
    }
    forall w | w in s.working ensures WorkOk(t, w) {
      WorkStaysOk(s, t, w);
    }
    forall a | a in s.completed || a in s.refused ensures AnswerOk(t, a) {
      AnswerStaysOk(s, t, a);
    }
    if s.consumer != Idle {
      AnswerStaysOk(s, t, s.consumer.answer);
    }
  }

  // ---------- Steps that only move copies ----------

  ghost predicate SameData(s: State, t: State) {
    && t.limits == s.limits && t.bucket == s.bucket && t.issued == s.issued
    && t.entries == s.entries && t.contexts == s.contexts && t.rows == s.rows && t.line == s.line
  }

  lemma SameDataExtends(s: State, t: State)
    requires SameData(s, t)
    ensures Extends(s, t)
  {
  }

  lemma SameDataKeepsData(s: State, t: State)
    requires SameData(s, t) && EntriesOk(s) && RowsOk(s)
    ensures EntriesOk(t) && RowsOk(t)
  {
    forall k | k in t.entries ensures HiringEntryOk(t, k) {
      assert HiringEntryOk(s, k);
    }
    forall k | k in t.rows ensures RowOk(t, k) {
      assert RowOk(s, k);
    }
  }

  lemma SameDataKeepsWaiting(s: State, t: State)
    requires SameData(s, t) && t.decisions <= s.decisions
    requires DecisionsOk(s) && RelayOk(s) && LoadedOk(s)
    ensures DecisionsOk(t)
    ensures t.relay == s.relay ==> RelayOk(t)
    ensures t.consumer == s.consumer || !t.consumer.Loaded? ==> LoadedOk(t)
  {
    forall d | d in t.decisions ensures DecisionOk(t, d) {
      assert d in s.decisions && DecisionOk(s, d);
    }
  }

  /** Only copies moved: the rows and entries are as good as they were, and so is every copy there was. */
  lemma SameDataKeeps(s: State, t: State)
    requires SameData(s, t) && t.decisions <= s.decisions && Inv(s)
    ensures Extends(s, t) && EntriesOk(t) && RowsOk(t) && DecisionsOk(t)
    ensures t.relay == s.relay ==> RelayOk(t)
    ensures t.consumer == s.consumer || !t.consumer.Loaded? ==> LoadedOk(t)
    ensures forall r :: r in s.requested || r in s.retrying || r in s.dead ==> RequestOk(t, r)
    ensures forall w :: w in s.working ==> WorkOk(t, w)
    ensures forall a :: a in s.completed || a in s.refused ==> AnswerOk(t, a)
    ensures s.consumer != Idle ==> AnswerOk(t, s.consumer.answer)
  {
    SameDataExtends(s, t);
    SameDataKeepsData(s, t);
    SameDataKeepsWaiting(s, t);
    CopiesStayOk(s, t);
  }

  /** More copies anywhere lose nobody. */
  lemma LocatedGrows(s: State, t: State, k: Key)
    requires Located(s, k)
    requires s.requested <= t.requested && s.retrying <= t.retrying && s.dead <= t.dead
    requires forall w :: w in s.working && Concerns(w.request, k) ==> w in t.working
    requires s.completed <= t.completed && s.refused <= t.refused && s.consumer == t.consumer
    ensures Located(t, k)
  {
  }

  lemma SentRequestOk(s: State, k: Key, correlationId: string)
    requires EntriesOk(s) && k in s.entries
    ensures RequestOk(s, Request(Some(BodyOf(s, k, correlationId)), 0))
    ensures BodyOf(s, k, correlationId).key == k
  {
    assert HiringEntryOk(s, k);
  }

  lemma RelayStartKeeps(s: State, todo: seq<Key>)
    requires Inv(s) && forall i :: 0 <= i < |todo| ==> todo[i] in s.entries
    ensures Extends(s, s.(relay := Relaying(todo, false))) && Inv(s.(relay := Relaying(todo, false)))
  {
    hide RequestOk, AnswerOk, HiringEntryOk, RowOk, DecisionOk, PublicationOk, BodyOf, ReadAnswer;
    var t := s.(relay := Relaying(todo, false));
    SameDataKeeps(s, t);
    hide Extends, EntriesOk, RowsOk, DecisionsOk;
    forall k | k in t.entries && AwaitsAnswer(t, k) ensures Located(t, k) {
      LocatedGrows(s, t, k);
    }
  }

  lemma RelayStopKeeps(s: State)
    requires Inv(s)
    ensures Extends(s, AfterStop(s)) && Inv(AfterStop(s))
  {
    hide RequestOk, AnswerOk, HiringEntryOk, RowOk, DecisionOk, PublicationOk, BodyOf, ReadAnswer;
    var t := AfterStop(s);
    SameDataKeeps(s, t);
    hide Extends, EntriesOk, RowsOk, DecisionsOk;
    forall k | k in t.entries && AwaitsAnswer(t, k) ensures Located(t, k) {
      LocatedGrows(s, t, k);
    }
  }

  lemma PublishedCopiesOk(s: State, t: State, k: Key, correlationId: string)
    requires k in s.entries && k in s.contexts && EntriesOk(s) && RequestsOk(s) && AnswersOk(s)
    requires SameData(s, t) && t.requested == AfterPublish(s, k, correlationId).requested
    requires t.retrying == s.retrying && t.dead == s.dead && t.working == s.working
    requires t.completed == s.completed && t.refused == s.refused && t.consumer == s.consumer
    ensures RequestsOk(t) && AnswersOk(t)
  {
    hide RequestOk, AnswerOk, WorkOk;
    SameDataExtends(s, t);
    CopiesStayOk(s, t);
    SentRequestOk(s, k, correlationId);
    RequestStaysOk(s, t, Request(Some(BodyOf(s, k, correlationId)), 0));
  }

  lemma PublishingKeepsLocated(s: State, k: Key, correlationId: string, j: Key)
    requires EntriesOk(s) && k in s.entries && k in s.contexts && (j == k || Located(s, j))
    ensures Located(AfterPublish(s, k, correlationId), j)
  {
    hide Located, EntriesOk, BodyOf;
    var t := AfterPublish(s, k, correlationId);
    if j == k {
      SentRequestOk(s, k, correlationId);
      LocatedInQueue(t, Request(Some(BodyOf(s, k, correlationId)), 0), k);
    } else {
      LocatedGrows(s, t, j);
    }
  }

  /** The request is in the queue before the relay may mark its entry. */
  lemma PublishKeeps(s: State, k: Key, correlationId: string, relay: Relay)
    requires Inv(s) && k in s.entries && k in s.contexts
    requires relay == s.relay || (s.relay.Relaying? && |s.relay.todo| > 0 && s.relay.todo[0] == k
                                  && relay == s.relay.(published := true))
    ensures Extends(s, AfterPublish(s, k, correlationId).(relay := relay))
    ensures Inv(AfterPublish(s, k, correlationId).(relay := relay))
  {
    hide Extends, RequestsOk, AnswersOk, EntriesOk, RowsOk, DecisionsOk, LoadedOk, Located, BodyOf;
    var t := AfterPublish(s, k, correlationId).(relay := relay);
    PublishedCopiesOk(s, t, k, correlationId);
    SameDataKeeps(s, t);
    SentRequestOk(s, k, correlationId);
    hide AfterPublish;
    forall j | j in t.entries && AwaitsAnswer(t, j) ensures Located(t, j) {
      if j != k {
        assert AwaitsAnswer(s, j);
      }
      PublishingKeepsLocated(s, k, correlationId, j);
      LocatedGrows(AfterPublish(s, k, correlationId), t, j);
    }
  }

  lemma GivingUpKeeps(s: State, givenUp: multiset<Key>)
    requires Inv(s)
    ensures Extends(s, s.(givenUp := givenUp)) && Inv(s.(givenUp := givenUp))
  {
    hide RequestOk, AnswerOk, HiringEntryOk, RowOk, DecisionOk, PublicationOk, BodyOf, ReadAnswer, Located;
    var t := s.(givenUp := givenUp);
    SameDataKeeps(s, t);
    hide Extends, EntriesOk, RowsOk, DecisionsOk;
    forall k | k in t.entries && AwaitsAnswer(t, k) ensures Located(t, k) {
      assert AwaitsAnswer(s, k);
      LocatedGrows(s, t, k);
    }
  }

  lemma LatePublishKeeps(s: State, k: Key, correlationId: string)
    requires Inv(s) && k in s.entries && k in s.contexts
    ensures Extends(s, AfterLatePublish(s, k, correlationId)) && Inv(AfterLatePublish(s, k, correlationId))
  {
    hide Inv, Extends;
    var u, t := AfterPublish(s, k, correlationId), AfterLatePublish(s, k, correlationId);
    assert u == u.(relay := s.relay) && t == u.(givenUp := t.givenUp);
    PublishKeeps(s, k, correlationId, s.relay);
    GivingUpKeeps(u, t.givenUp);
    ExtendsTransitive(s, u, t);
  }

  lemma LocatedInQueue(s: State, r: Request, k: Key)
    requires r in s.requested && Concerns(r, k)
    ensures Located(s, k)
  {
  }

  lemma DeliveredIsLocated(s: State, r: Request, k: Key)
    requires Located(s, k) && r in s.requested
    ensures Located(AfterDeliver(s, r), k)
  {
    var w := Work(r, Received);
    assert w in AfterDeliver(s, r).working && Live(w);
  }

  lemma DeliverKeeps(s: State, r: Request)
    requires Inv(s) && r in s.requested
    ensures Extends(s, AfterDeliver(s, r)) && Inv(AfterDeliver(s, r))
  {
    hide RequestOk, AnswerOk, HiringEntryOk, RowOk, DecisionOk, PublicationOk, BodyOf, ReadAnswer, Located;
    var t := AfterDeliver(s, r);
    SameDataKeeps(s, t);
    hide Extends, EntriesOk, RowsOk, DecisionsOk;
    assert WorkOk(t, Work(r, Received));
    forall k | k in t.entries && AwaitsAnswer(t, k) ensures Located(t, k) {
      assert AwaitsAnswer(s, k);
      DeliveredIsLocated(s, r, k);
    }
  }

  lemma AcknowledgingKeepsLocated(s: State, w: Work, k: Key)
    requires Located(s, k) && w in s.working && w.stage == Settling([])
    ensures Located(AfterAcknowledge(s, w), k)
  {
    assert !Live(w);
    hide Concerns, IsFinal, Live;
    var t := AfterAcknowledge(s, w);
    if v :| v in s.working && Live(v) && Concerns(v.request, k) {
      OthersStay(s.working, w, w);
      assert v in t.working;
    }
  }

  lemma AcknowledgeKeeps(s: State, w: Work)
    requires Inv(s) && w in s.working && w.stage == Settling([])
    ensures Extends(s, AfterAcknowledge(s, w)) && Inv(AfterAcknowledge(s, w))
  {
    hide RequestOk, AnswerOk, HiringEntryOk, RowOk, DecisionOk, PublicationOk, BodyOf, ReadAnswer, Located;
    var t := AfterAcknowledge(s, w);
    SameDataKeeps(s, t);
    hide Extends, EntriesOk, RowsOk, DecisionsOk;
    forall k | k in t.entries && AwaitsAnswer(t, k) ensures Located(t, k) {
      assert AwaitsAnswer(s, k);
      AcknowledgingKeepsLocated(s, w, k);
    }
  }

  lemma RequeuedIsLocated(s: State, w: Work, k: Key)
    requires Located(s, k) && w in s.working
    ensures Located(AfterRequeue(s, w), k)
  {
    assert w.request in AfterRequeue(s, w).requested;
  }

  lemma RequeueKeeps(s: State, w: Work)
    requires Inv(s) && w in s.working
    ensures Extends(s, AfterRequeue(s, w)) && Inv(AfterRequeue(s, w))
  {
    hide RequestOk, AnswerOk, HiringEntryOk, RowOk, DecisionOk, PublicationOk, BodyOf, ReadAnswer, Located;
    var t := AfterRequeue(s, w);
    SameDataKeeps(s, t);
    hide Extends, EntriesOk, RowsOk, DecisionsOk;
    assert WorkOk(t, w);
    forall k | k in t.entries && AwaitsAnswer(t, k) ensures Located(t, k) {
      assert AwaitsAnswer(s, k);
      RequeuedIsLocated(s, w, k);
    }
  }

  lemma ExpiredIsLocated(s: State, r: Request, k: Key)
    requires Located(s, k) && r in s.retrying
    ensures Located(AfterExpire(s, r), k)
  {
    assert r in AfterExpire(s, r).requested;
  }

  lemma ExpireKeeps(s: State, r: Request)
    requires Inv(s) && r in s.retrying
    ensures Extends(s, AfterExpire(s, r)) && Inv(AfterExpire(s, r))
  {
    hide RequestOk, AnswerOk, HiringEntryOk, RowOk, DecisionOk, PublicationOk, BodyOf, ReadAnswer, Located;
    var t := AfterExpire(s, r);
    SameDataKeeps(s, t);
    hide Extends, EntriesOk, RowsOk, DecisionsOk;
    forall k | k in t.entries && AwaitsAnswer(t, k) ensures Located(t, k) {
      assert AwaitsAnswer(s, k);
      ExpiredIsLocated(s, r, k);
    }
  }

  lemma ReplayedOk(s: State, r: Request)
    requires RequestOk(s, r)
    ensures RequestOk(s, r.(attempt := 0))
  {
  }

  lemma ReplayedIsLocated(s: State, r: Request, acked: bool, k: Key)
    requires Located(s, k) && r in s.dead
    ensures Located(AfterReplay(s, r, acked), k)
  {
    var again := r.(attempt := 0);
    assert again in AfterReplay(s, r, acked).requested && (Concerns(r, k) <==> Concerns(again, k));
  }

  lemma ReplayKeeps(s: State, r: Request, acked: bool)
    requires Inv(s) && r in s.dead
    ensures Extends(s, AfterReplay(s, r, acked)) && Inv(AfterReplay(s, r, acked))
  {
    hide RequestOk, AnswerOk, HiringEntryOk, RowOk, DecisionOk, PublicationOk, BodyOf, ReadAnswer, Located;
    var t := AfterReplay(s, r, acked);
    SameDataKeeps(s, t);
    hide Extends, EntriesOk, RowsOk, DecisionsOk;
    ReplayedOk(t, r);
    forall k | k in t.entries && AwaitsAnswer(t, k) ensures Located(t, k) {
      assert AwaitsAnswer(s, k);
      ReplayedIsLocated(s, r, acked, k);
    }
  }

  lemma PublicationsOk(s: State, w: Work)
    requires WorkOk(s, w) && w.stage.Settling? && |w.stage.outbox| > 0
    ensures
      match w.stage.outbox[0]
      case Answered(a) => AnswerOk(s, a)
      case Retried(q, _) => RequestOk(s, q)
      case DeadLettered(q, _) => RequestOk(s, q)
    ensures WorkOk(s, w.(stage := Settling(w.stage.outbox[1..])))
  {
    assert PublicationOk(s, w.request, w.stage.outbox[0]);
  }

  /** What the broker took is a copy for the same resume, wherever it went - or the answer that it failed. */
  lemma TakenIsLocated(s: State, w: Work, k: Key)
    requires w.stage.Settling? && |w.stage.outbox| > 0 && WorkOk(s, w)
    requires Concerns(w.request, k) && Carries(w.stage.outbox[0])
    ensures Located(AfterTake(s, w), k)
  {
    hide RequestOk, AnswerOk;
    var t := AfterTake(s, w);
    assert PublicationOk(s, w.request, w.stage.outbox[0]);
    match w.stage.outbox[0]
    case Answered(a) => assert a in t.completed && IsFinal(a, k);
    case Retried(q, _) => assert q in t.retrying && Concerns(q, k);
    case DeadLettered(q, _) => assert q in t.dead && Concerns(q, k);
  }

  /** The answer that it failed never was what its resume could go on from. */
  lemma FailureLeavesLocated(s: State, w: Work, k: Key)
    requires w in s.working && w.stage.Settling? && |w.stage.outbox| > 0 && !Carries(w.stage.outbox[0])
    requires Located(s, k)
    ensures Located(AfterTake(s, w), k)
  {
    hide Concerns, IsFinal;
    var t := AfterTake(s, w);
    var rest := w.(stage := Settling(w.stage.outbox[1..]));
    hide Carries;
    assert t.requested == s.requested && t.retrying == s.retrying && t.dead == s.dead && t.refused == s.refused;
    if v :| v in s.working && Live(v) && Concerns(v.request, k) {
      if v == w {
        RestIsLive(w);
        assert rest in t.working && Live(rest);
      } else {
        assert v in t.working;
      }
    }
  }

  lemma RestIsLive(w: Work)
    requires Live(w) && w.stage.Settling? && |w.stage.outbox| > 0 && !Carries(w.stage.outbox[0])
    ensures Live(w.(stage := Settling(w.stage.outbox[1..])))
  {
    var i :| 0 <= i < |w.stage.outbox| && Carries(w.stage.outbox[i]);
    assert w.stage.outbox[1..][i - 1] == w.stage.outbox[i];
  }

  lemma OthersStayLocated(s: State, w: Work, k: Key)
    requires w in s.working && w.stage.Settling? && |w.stage.outbox| > 0
    requires Located(s, k) && !Concerns(w.request, k)
    ensures Located(AfterTake(s, w), k)
  {
    hide Located, Concerns, AfterTake;
    TakingAdds(s, w);
    LocatedGrows(s, AfterTake(s, w), k);
  }

  lemma PublishingAdds(s: State, p: Publication)
    ensures
      var t := Published(s, p);
      && t.requested == s.requested && t.working == s.working && t.refused == s.refused && t.consumer == s.consumer
      && s.retrying <= t.retrying && s.dead <= t.dead && s.completed <= t.completed
  {
  }

  lemma OthersStay<T>(m: multiset<T>, x: T, y: T)
    ensures forall v :: v in m && v != x ==> v in m - multiset{x} && v in m - multiset{x} + multiset{y}
  {
  }

  lemma TakingAdds(s: State, w: Work)
    requires w in s.working && w.stage.Settling? && |w.stage.outbox| > 0
    ensures
      var t := AfterTake(s, w);
      && t.requested == s.requested && t.refused == s.refused && t.consumer == s.consumer
      && s.retrying <= t.retrying && s.dead <= t.dead && s.completed <= t.completed
      && forall v :: v in s.working && v != w ==> v in t.working
  {
    hide Published;
    PublishingAdds(s, w.stage.outbox[0]);
    OthersStay(s.working, w, w.(stage := Settling(w.stage.outbox[1..])));
  }

  lemma TakeOnlyMoves(s: State, w: Work)
    requires w.stage.Settling? && |w.stage.outbox| > 0
    ensures
      var t := AfterTake(s, w);
      SameData(s, t) && t.decisions == s.decisions && t.relay == s.relay && t.consumer == s.consumer
  {
    var p := Published(s, w.stage.outbox[0]);
    assert SameData(s, p) && p.decisions == s.decisions && p.relay == s.relay && p.consumer == s.consumer;
    hide Published;
  }

  /** The copies of t are those of s, those made on the way being fine. */
  lemma RequestsStayOk(s: State, t: State)
    requires Extends(s, t) && RequestsOk(s)
    requires forall r :: r in t.requested ==> r in s.requested || RequestOk(t, r)
    requires forall r :: r in t.retrying ==> r in s.retrying || RequestOk(t, r)
    requires forall r :: r in t.dead ==> r in s.dead || RequestOk(t, r)
    requires forall w :: w in t.working ==> w in s.working || WorkOk(t, w)
    ensures RequestsOk(t)
  {
    hide RequestOk, WorkOk, Extends;
    forall r | r in s.requested || r in s.retrying || r in s.dead ensures RequestOk(t, r) {
      RequestStaysOk(s, t, r);
    }
    forall w | w in s.working ensures WorkOk(t, w) {
      WorkStaysOk(s, t, w);
    }
  }

  lemma AnswersStayOk(s: State, t: State)
    requires Extends(s, t) && AnswersOk(s) && t.refused == s.refused && t.consumer == s.consumer
    requires forall a :: a in t.completed ==> a in s.completed || AnswerOk(t, a)
    ensures AnswersOk(t)
  {
    hide AnswerOk, Extends;
    forall a | a in s.completed || a in s.refused ensures AnswerOk(t, a) {
      AnswerStaysOk(s, t, a);
    }
    if s.consumer != Idle {
      AnswerStaysOk(s, t, s.consumer.answer);
    }
  }

  lemma TakenCopiesOk(s: State, w: Work)
    requires w in s.working && w.stage.Settling? && |w.stage.outbox| > 0
    requires RequestsOk(s) && AnswersOk(s)
    ensures RequestsOk(AfterTake(s, w)) && AnswersOk(AfterTake(s, w))
  {
    hide RequestOk, AnswerOk, WorkOk, Extends, SameData, RequestsOk, AnswersOk;
    var t := AfterTake(s, w);
    TakeOnlyMoves(s, w);
    SameDataExtends(s, t);
    WorkingOk(s, w);
    WorkStaysOk(s, t, w);
    PublicationsOk(t, w);
    RequestsStayOk(s, t);
    AnswersStayOk(s, t);
  }

  /** A publication the broker takes stands in for the delivery it came from. */
  lemma TakeKeeps(s: State, w: Work)
    requires Inv(s) && w in s.working && w.stage.Settling? && |w.stage.outbox| > 0
    ensures Extends(s, AfterTake(s, w)) && Inv(AfterTake(s, w))
  {
    hide Extends, RequestsOk, AnswersOk, EntriesOk, RowsOk, DecisionsOk, RelayOk, LoadedOk, Located, AfterTake;
    var t := AfterTake(s, w);
    TakeOnlyMoves(s, w);
    TakenCopiesOk(s, w);
    SameDataKeeps(s, t);
    forall k | k in t.entries && AwaitsAnswer(t, k) ensures Located(t, k) {
      assert AwaitsAnswer(s, k);
      if !Carries(w.stage.outbox[0]) {
        FailureLeavesLocated(s, w, k);
      } else if Concerns(w.request, k) {
        WorkingOk(s, w);
        TakenIsLocated(s, w, k);
      } else {
        OthersStayLocated(s, w, k);
      }
    }
  }

  lemma WorkingOk(s: State, w: Work)
    requires RequestsOk(s) && w in s.working
    ensures WorkOk(s, w)
  {
  }

  lemma ConsumeKeeps(s: State, a: Completed)
    requires Inv(s) && s.consumer == Idle && a in s.completed
    ensures Extends(s, AfterConsume(s, a)) && Inv(AfterConsume(s, a))
  {
    hide RequestOk, AnswerOk, HiringEntryOk, RowOk, DecisionOk, PublicationOk, BodyOf, ReadAnswer;
    var t := AfterConsume(s, a);
    SameDataKeeps(s, t);
    forall k | k in t.entries && AwaitsAnswer(t, k) ensures Located(t, k) {
      assert AwaitsAnswer(s, k);
    }
  }

  lemma RefuseKeeps(s: State)
    requires Inv(s) && s.consumer.Refusing?
    ensures Extends(s, AfterRefuse(s)) && Inv(AfterRefuse(s))
  {
    hide RequestOk, AnswerOk, HiringEntryOk, RowOk, DecisionOk, PublicationOk, BodyOf, ReadAnswer;
    var t := AfterRefuse(s);
    SameDataKeeps(s, t);
    var a := s.consumer.answer;
    forall k | k in t.entries && AwaitsAnswer(t, k) ensures Located(t, k) {
      assert AwaitsAnswer(s, k) && a in t.refused;
    }
  }

  lemma AckAnswerKeeps(s: State)
    requires Inv(s) && s.consumer.Settled?
    ensures Extends(s, s.(consumer := Idle)) && Inv(s.(consumer := Idle))
  {
    hide RequestOk, AnswerOk, HiringEntryOk, RowOk, DecisionOk, PublicationOk, BodyOf, ReadAnswer;
    var t := s.(consumer := Idle);
    SameDataKeeps(s, t);
    forall k | k in t.entries && AwaitsAnswer(t, k) ensures Located(t, k) {
      assert AwaitsAnswer(s, k);
    }
  }

  lemma ReturnKeeps(s: State)
    requires Inv(s) && s.consumer != Idle
    ensures Extends(s, AfterReturn(s)) && Inv(AfterReturn(s))
  {
    hide RequestOk, AnswerOk, HiringEntryOk, RowOk, DecisionOk, PublicationOk, BodyOf, ReadAnswer;
    var t := AfterReturn(s);
    SameDataKeeps(s, t);
    var a := s.consumer.answer;
    forall k | k in t.entries && AwaitsAnswer(t, k) ensures Located(t, k) {
      assert AwaitsAnswer(s, k) && a in t.completed;
    }
  }

  lemma DropKeeps(s: State, d: Decision)
    requires Inv(s)
    ensures Extends(s, AfterDrop(s, d)) && Inv(AfterDrop(s, d))
  {
    hide RequestOk, AnswerOk, HiringEntryOk, RowOk, DecisionOk, PublicationOk, BodyOf, ReadAnswer;
    var t := AfterDrop(s, d);
    SameDataKeeps(s, t);
    forall k | k in t.entries && AwaitsAnswer(t, k) ensures Located(t, k) {
      LocatedGrows(s, t, k);
    }
  }

  /** An honest answer names an entry Hiring has and reads without an error. */
  lemma AnswerReads(s: State, a: Completed)
    requires EntriesOk(s) && RowsOk(s) && AnswerOk(s, a)
    ensures ReadAnswer(a).Some? && ReadAnswer(a).value.status != Pending
    ensures ReadAnswer(a).value.result.candidateId == a.candidateId
    ensures ReadAnswer(a).value.status == ScreenedOk <==> a.status == Scored
  {
    assert HiringEntryOk(s, a.key) && RowOk(s, a.key);
    hide EntriesOk, RowsOk, WireCriteria, Scoring.ScoreAgainstCriteria;
    var r := s.rows[a.key];
    if a.status == Scored {
      var assessments :| HonestlyScored(r, s.contexts[a.key].criteria, assessments);
      HonestAnswerAcceptedIffCandidate(r, s.contexts[a.key].criteria, assessments, a.correlationId);
    }
  }

  lemma LoadKeeps(s: State)
    requires Inv(s) && s.consumer.Holding?
    ensures Extends(s, AfterLoad(s)) && Inv(AfterLoad(s))
  {
    hide RequestOk, AnswerOk, HiringEntryOk, RowOk, DecisionOk, PublicationOk, BodyOf, ReadAnswer;
    var t := AfterLoad(s);
    var a := s.consumer.answer;
    AnswerReads(s, a);
    SameDataKeeps(s, t);
    forall k | k in t.entries && AwaitsAnswer(t, k) ensures Located(t, k) {
      assert AwaitsAnswer(s, k);
    }
  }

  // ---------- Steps that change what Hiring stores ----------

  lemma StaysOk(s: State, t: State)
    requires Extends(s, t) && EntriesOk(s) && RowsOk(s)
    requires t.rows == s.rows
    ensures RowsOk(t)
    ensures forall k :: k in s.entries && t.entries[k] == s.entries[k] ==> HiringEntryOk(t, k)
  {
    hide HonestRow, EntryOk, ScorableCriteria;
    forall k | k in t.rows ensures RowOk(t, k) {
      assert RowOk(s, k);
    }
    forall k | k in s.entries && t.entries[k] == s.entries[k] ensures HiringEntryOk(t, k) {
      assert HiringEntryOk(s, k);
    }
  }

  ghost predicate MaySubmit(s: State, c: Context, order: seq<Key>, added: map<Key, Entry>) {
    && ScorableCriteria(c.criteria) && |c.criteria| <= MAX_INT && (forall k :: k in added <==> k in order)
    && forall k :: k in added ==> k !in s.entries && NewlySubmitted(k, added[k])
  }

  lemma NewEntryOk(s: State, c: Context, order: seq<Key>, added: map<Key, Entry>, k: Key)
    requires MaySubmit(s, c, order, added) && k in added
    ensures HiringEntryOk(AfterSubmit(s, c, order, added), k)
  {
  }

  lemma SubmitExtends(s: State, c: Context, order: seq<Key>, added: map<Key, Entry>)
    requires EntriesOk(s) && MaySubmit(s, c, order, added)
    ensures Extends(s, AfterSubmit(s, c, order, added))
  {
    hide HiringEntryOk, NewlySubmitted;
  }

  lemma SubmitEntriesOk(s: State, c: Context, order: seq<Key>, added: map<Key, Entry>)
    requires EntriesOk(s) && RowsOk(s) && MaySubmit(s, c, order, added)
    ensures EntriesOk(AfterSubmit(s, c, order, added)) && RowsOk(AfterSubmit(s, c, order, added))
  {
    hide HiringEntryOk, NewlySubmitted, RowsOk, Extends, ScorableCriteria;
    var t := AfterSubmit(s, c, order, added);
    SubmitExtends(s, c, order, added);
    StaysOk(s, t);
    forall k | k in t.entries ensures HiringEntryOk(t, k) {
      if k in added {
        NewEntryOk(s, c, order, added, k);
      } else {
        assert t.entries[k] == s.entries[k];
      }
    }
  }

  lemma SubmitKeeps(s: State, c: Context, order: seq<Key>, added: map<Key, Entry>)
    requires Inv(s) && MaySubmit(s, c, order, added)
    ensures Extends(s, AfterSubmit(s, c, order, added)) && Inv(AfterSubmit(s, c, order, added))
  {
    hide Extends, RequestOk, WorkOk, RequestsOk, AnswerOk, AnswersOk, EntriesOk, RowsOk, NewlySubmitted, Located;
    hide AwaitsAnswer;
    var t := AfterSubmit(s, c, order, added);
    SubmitExtends(s, c, order, added);
    SubmitEntriesOk(s, c, order, added);
    RequestsStayOk(s, t);
    AnswersStayOk(s, t);
    forall k | k in t.entries && AwaitsAnswer(t, k) ensures Located(t, k) {
      if k in added {
        NewNotAwaiting(s, t, k);
      } else {
        AwaitingStays(s, t, k);
        LocatedGrows(s, t, k);
      }
    }
  }

  lemma AwaitingStays(s: State, t: State, k: Key)
    requires k in s.entries && k in t.entries && s.entries[k] == t.entries[k] && s.relay == t.relay
        && AwaitsAnswer(t, k)
    ensures AwaitsAnswer(s, k)
  {
  }

  lemma NewNotAwaiting(s: State, t: State, k: Key)
    requires RelayOk(s) && t.relay == s.relay && k !in s.entries && k in t.entries && NewlySubmitted(k, t.entries[k])
    ensures !AwaitsAnswer(t, k)
  {
  }

  /** An entry may be stored with more decided about it, never with its answer changed. */
  ghost predicate Refines(s: State, k: Key, e: Entry) {
    && k in s.entries && k in s.contexts && SameRequest(s.entries[k], e)
    && EntryOk(s.contexts[k].criteria, e)
    && (s.entries[k].status != Pending ==> e.status == s.entries[k].status && e.result == s.entries[k].result)
    && (e.status != Pending ==> k in s.rows && AgreesWith(e, s.rows[k]))
  }

  lemma StoringExtends(s: State, k: Key, e: Entry)
    requires Refines(s, k, e)
    ensures Extends(s, s.(entries := s.entries[k := e]))
  {
  }

  lemma StoredOk(s: State, k: Key, e: Entry)
    requires Refines(s, k, e) && HiringEntryOk(s, k)
    ensures HiringEntryOk(s.(entries := s.entries[k := e]), k)
  {
  }

  lemma DecisionStaysOk(s: State, k: Key, e: Entry, d: Decision)
    requires Refines(s, k, e) && DecisionOk(s, d)
    ensures DecisionOk(s.(entries := s.entries[k := e]), d)
  {
  }

  /** Storing such an entry keeps everything but what is known of where its answer is. */
  lemma StoringKeeps(s: State, k: Key, e: Entry)
    requires Inv(s) && Refines(s, k, e)
    ensures
      var t := s.(entries := s.entries[k := e]);
      Extends(s, t) && EntriesOk(t) && RowsOk(t) && RequestsOk(t) && AnswersOk(t) && DecisionsOk(t) && RelayOk(t)
  {
    hide Extends, RequestOk, WorkOk, RequestsOk, AnswerOk, AnswersOk, HiringEntryOk, RowsOk, DecisionOk, EntryOk;
    hide AgreesWith;
    var t := s.(entries := s.entries[k := e]);
    StoringExtends(s, k, e);
    StaysOk(s, t);
    RequestsStayOk(s, t);
    AnswersStayOk(s, t);
    StoredOk(s, k, e);
    forall d | d in t.decisions ensures DecisionOk(t, d) {
      DecisionStaysOk(s, k, e, d);
    }
  }

  lemma MarkingKeepsLocated(s: State, at: Time, k: Key)
    requires s.relay.Relaying? && |s.relay.todo| > 0 && s.relay.todo[0] in s.entries && Located(s, k)
    ensures Located(AfterMark(s, at), k)
  {
    hide Located;
    LocatedGrows(s, AfterMark(s, at), k);
  }

  lemma MarkKeeps(s: State, at: Time)
    requires Inv(s) && s.relay.Relaying? && s.relay.published && |s.relay.todo| > 0 && s.relay.todo[0] in s.entries
    ensures Extends(s, AfterMark(s, at)) && Inv(AfterMark(s, at))
  {
    hide Extends, RequestsOk, AnswersOk, RowsOk, Located, DecisionOk, ReadAnswer, HiringEntryOk, Refines;
    var t := AfterMark(s, at);
    var k := s.relay.todo[0];
    var e := s.entries[k].(requestedAt := at);
    MarkRefines(s, k, at);
    StoringKeeps(s, k, e);
    var u := s.(entries := s.entries[k := e]);
    SameDataKeepsMoved(u, t);
    AnswersStayOk(s, t);
    forall j | j in t.entries && AwaitsAnswer(t, j) ensures Located(t, j) {
      assert AwaitsAnswer(s, j);
      MarkingKeepsLocated(s, at, j);
    }
  }

  lemma MarkRefines(s: State, k: Key, at: Time)
    requires EntriesOk(s) && k in s.entries
    ensures Refines(s, k, s.entries[k].(requestedAt := at))
  {
    assert HiringEntryOk(s, k);
  }

  /** Changing the relay or the consumer's progress afterwards touches none of what was kept. */
  lemma SameDataKeepsMoved(s: State, t: State)
    requires t == s.(relay := t.relay, consumer := t.consumer)
    requires EntriesOk(s) && RowsOk(s) && RequestsOk(s) && DecisionsOk(s)
    ensures EntriesOk(t) && RowsOk(t) && RequestsOk(t) && DecisionsOk(t)
    ensures forall u :: Extends(u, s) ==> Extends(u, t)
    ensures forall a :: AnswerOk(s, a) ==> AnswerOk(t, a)
  {
    SameDataKeepsData(s, t);
    SameDataExtends(s, t);
    RequestsStayOk(s, t);
    forall d | d in t.decisions ensures DecisionOk(t, d) {
      assert DecisionOk(s, d);
    }
    forall u | Extends(u, s) ensures Extends(u, t) {
      ExtendsTransitive(u, s, t);
    }
    forall a | AnswerOk(s, a) ensures AnswerOk(t, a) {
      AnswerStaysOk(s, t, a);
    }
  }

  lemma DecideKeeps(s: State, k: Key, c: Choice)
    requires Inv(s) && k in s.entries && Decided(s.entries[k], c).Some?
    ensures Extends(s, AfterDecide(s, Decision(k, Decided(s.entries[k], c).value)))
    ensures Inv(AfterDecide(s, Decision(k, Decided(s.entries[k], c).value)))
  {
    hide Extends, RequestsOk, AnswersOk, RowsOk, Located, EntryOk, AgreesWith;
    var d := Decision(k, Decided(s.entries[k], c).value);
    var t := AfterDecide(s, d);
    SameDataExtends(s, t);
    SameDataKeepsData(s, t);
    RequestsStayOk(s, t);
    AnswersStayOk(s, t);
    DecidedOk(s, k, c);
    forall f | f in t.decisions ensures DecisionOk(t, f) {
      if f != d {
        assert DecisionOk(s, f);
      }
    }
    forall j | j in t.entries && AwaitsAnswer(t, j) ensures Located(t, j) {
      assert AwaitsAnswer(s, j);
      LocatedGrows(s, t, j);
    }
  }

  lemma DecidedOk(s: State, k: Key, c: Choice)
    requires EntriesOk(s) && k in s.entries && Decided(s.entries[k], c).Some?
    ensures DecisionOk(s, Decision(k, Decided(s.entries[k], c).value))
  {
    assert HiringEntryOk(s, k);
  }

  /** A late decision finds the same result stored, and changes only what the Recruiter decides. */
  lemma SaveDecisionKeeps(s: State, d: Decision)
    requires Inv(s) && d in s.decisions
    ensures d.key in s.entries
    ensures Extends(s, AfterSave(AfterDrop(s, d), d.key, d.entry)) && Inv(AfterSave(AfterDrop(s, d), d.key, d.entry))
  {
    hide Extends, RequestsOk, AnswersOk, RowsOk, EntriesOk, Located, EntryOk, AgreesWith;
    assert DecisionOk(s, d);
    var e := Saved(s.entries[d.key], d.entry);
    SavedDecisionRefines(s, d);
    StoringKeeps(s, d.key, e);
    var u := s.(entries := s.entries[d.key := e]);
    var t := AfterSave(AfterDrop(s, d), d.key, d.entry);
    assert t == AfterDrop(u, d);
    SameDataExtends(u, t);
    ExtendsTransitive(s, u, t);
    SameDataKeepsData(u, t);
    RequestsStayOk(u, t);
    AnswersStayOk(u, t);
    forall f | f in t.decisions ensures DecisionOk(t, f) {
      assert f in u.decisions && DecisionOk(u, f);
    }
    forall j | j in t.entries && AwaitsAnswer(t, j) ensures Located(t, j) {
      assert AwaitsAnswer(s, j);
      LocatedGrows(s, t, j);
    }
  }

  lemma SavedDecisionRefines(s: State, d: Decision)
    requires EntriesOk(s) && DecisionOk(s, d)
    ensures Refines(s, d.key, Saved(s.entries[d.key], d.entry))
  {
    assert HiringEntryOk(s, d.key);
  }

  // ---------- Recording an answer ----------

  /** The loaded entry is still pending when its answer is kept, and what is kept is the row's outcome. */
  lemma KeptAnswerRefines(s: State, a: Completed, e: Entry, at: Time)
    requires EntriesOk(s) && RowsOk(s) && AnswerOk(s, a) && ReadAnswer(a).Some?
    requires e.status == Pending && s.entries[a.key].status == Pending
    requires e == s.entries[a.key].(requestedAt := e.requestedAt)
    requires Rule(s.contexts[a.key].criteria, e, ReadAnswer(a).value, at).Keep?
    ensures Refines(s, a.key,
        Saved(s.entries[a.key], Rule(s.contexts[a.key].criteria, e, ReadAnswer(a).value, at).entry))
  {
    assert HiringEntryOk(s, a.key) && RowOk(s, a.key);
    AnswerReads(s, a);
  }

  /** Only a scored answer without a candidate id is refused. */
  lemma RefusedAnswerIsRefusable(s: State, a: Completed, e: Entry, at: Time)
    requires EntriesOk(s) && RowsOk(s) && AnswerOk(s, a) && ReadAnswer(a).Some?
    requires Rule(s.contexts[a.key].criteria, e, ReadAnswer(a).value, at).Refuse?
    ensures Refusable(a)
  {
    assert HiringEntryOk(s, a.key) && RowOk(s, a.key);
    AnswerReads(s, a);
    if a.status == Scored {
      var r, criteria := s.rows[a.key], s.contexts[a.key].criteria;
      var assessments :| HonestlyScored(r, criteria, assessments);
      HonestAnswerAcceptedIffCandidate(r, criteria, assessments, a.correlationId);
      assert AcceptableResult(criteria, ReadAnswer(a).value.result.(completedAt := at))
             <==> AcceptableResult(criteria, ReadAnswer(a).value.result);
    }
  }


  /** What the consumer holds matters to nobody whose answer it does not hold, nor to one already answered. */
  lemma ConsumerMovesOn(s: State, t: State, k: Key)
    requires s.consumer != Idle && Located(s, k) && k != s.consumer.answer.key
    requires t.requested == s.requested && t.retrying == s.retrying && t.dead == s.dead && t.working == s.working
    requires t.completed == s.completed && t.refused == s.refused
    ensures Located(t, k)
  {
  }

  lemma IgnoreKeeps(s: State)
    requires Inv(s) && s.consumer.Loaded? && s.consumer.entry.status != Pending
    ensures
      var t := s.(consumer := Settled(s.consumer.answer));
      Extends(s, t) && Inv(t)
  {
    hide Extends, RequestsOk, RowsOk, EntriesOk, DecisionsOk, Located, ReadAnswer, AnswerOk;
    var t := s.(consumer := Settled(s.consumer.answer));
    SameDataKeeps(s, t);
    RequestsStayOk(s, t);
    forall k | k in t.entries && AwaitsAnswer(t, k) ensures Located(t, k) {
      IgnoredStaysLocated(s, k);
    }
  }

  lemma IgnoredStaysLocated(s: State, k: Key)
    requires LoadedOk(s) && NoneLost(s) && s.consumer.Loaded? && s.consumer.entry.status != Pending
    requires k in s.entries && AwaitsAnswer(s.(consumer := Settled(s.consumer.answer)), k)
    ensures Located(s.(consumer := Settled(s.consumer.answer)), k)
  {
    hide Located, ReadAnswer;
    assert AwaitsAnswer(s, k);
    ConsumerMovesOn(s, s.(consumer := Settled(s.consumer.answer)), k);
  }

  lemma StartRefusingKeeps(s: State)
    requires Inv(s) && s.consumer.Loaded? && Refusable(s.consumer.answer)
    ensures
      var t := s.(consumer := Refusing(s.consumer.answer));
      Extends(s, t) && Inv(t)
  {
    hide Extends, RequestsOk, RowsOk, EntriesOk, DecisionsOk, Located, ReadAnswer, AnswerOk, Refusable;
    var t := s.(consumer := Refusing(s.consumer.answer));
    SameDataKeeps(s, t);
    RequestsStayOk(s, t);
    forall k | k in t.entries && AwaitsAnswer(t, k) ensures Located(t, k) {
      assert AwaitsAnswer(s, k);
      if k == s.consumer.answer.key {
        HeldIsLocated(t, k);
      } else {
        ConsumerMovesOn(s, t, k);
      }
    }
  }

  lemma HeldIsLocated(s: State, k: Key)
    requires s.consumer.Refusing? && s.consumer.answer.key == k && Refusable(s.consumer.answer)
    ensures Located(s, k)
  {
  }

  lemma KeepKeeps(s: State, e: Entry)
    requires Inv(s) && s.consumer.Loaded?
    requires Refines(s, s.consumer.answer.key, e) && e.status != Pending
    ensures
      var k := s.consumer.answer.key;
      var t := s.(entries := s.entries[k := e], consumer := Settled(s.consumer.answer));
      Extends(s, t) && Inv(t)
  {
    hide Extends, RequestsOk, RowsOk, EntriesOk, DecisionsOk, Located, ReadAnswer, AnswerOk, EntryOk, AgreesWith;
    var k := s.consumer.answer.key;
    var u := s.(entries := s.entries[k := e]);
    var t := u.(consumer := Settled(s.consumer.answer));
    StoringKeeps(s, k, e);
    SameDataKeepsMoved(u, t);
    forall j | j in t.entries && AwaitsAnswer(t, j) ensures Located(t, j) {
      assert AwaitsAnswer(s, j) && j != k;
      ConsumerMovesOn(s, t, j);
    }
  }

  lemma SaveResultKeeps(s: State, at: Time)
    requires Inv(s) && s.consumer.Loaded? && ReadAnswer(s.consumer.answer).Some?
    requires s.consumer.answer.key in s.entries && s.consumer.answer.key in s.contexts
    ensures Extends(s, AfterSaveResult(s, at)) && Inv(AfterSaveResult(s, at))
  {
    hide Extends, RequestsOk, RowsOk, EntriesOk, DecisionsOk, RelayOk, NoneLost, AnswerOk, Refusable, ReadAnswer;
    hide Recordable, Refines;
    var a, e, k := s.consumer.answer, s.consumer.entry, s.consumer.answer.key;
    match Rule(s.contexts[k].criteria, e, ReadAnswer(a).value, at)
    case Keep(kept) =>
      KeptAnswerRefines(s, a, e, at);
      KeptIsAnswered(s.contexts[k].criteria, e, ReadAnswer(a).value, at);
      KeepKeeps(s, Saved(s.entries[k], kept));
    case Ignore =>
      IgnoreKeeps(s);
    case Refuse =>
      RefusedAnswerIsRefusable(s, a, e, at);
      StartRefusingKeeps(s);
  }

  lemma KeptIsAnswered(criteria: seq<Criterion>, e: Entry, reading: Reading, at: Time)
    requires Rule(criteria, e, reading, at).Keep?
    ensures e.status == Pending && Rule(criteria, e, reading, at).entry.status != Pending
  {
  }

  // ---------- Handling a request ----------

  /** A row the pipeline scores is scored honestly, from the snapshot the request carries. */
  lemma HandledRowIsHonest(q: Limits, r: Request, row: Option<Row>, issued: nat, w: World, jitter: real,
                           recordError: bool,
                           criteria: seq<Criterion>)
    requires r.body.Some? && r.body.value.criteria == SentCriteria(criteria)
    requires row.Some? && row.value.status == RowScored ==> HonestRow(criteria, row.value)
    ensures
      var h := AfterDelivery(q, r, row, issued, w, jitter, recordError);
      h.row.Some? && h.row.value.status == RowScored ==> HonestRow(criteria, h.row.value)
  {
    hide HonestRow, ReceivedCriteria, SentCriteria, Scoring.ScoreAgainstCriteria;
    var m := r.body.value;
    var a := Process(m, row, issued, w);
    if a.row.Some? && a.row.value.status == RowScored && !(row.Some? && Final(row.value)) && a.result.Ok? {
      HonestFrom(criteria, a.row.value, w.assessments);
    }
  }

  lemma HonestFrom(criteria: seq<Criterion>, r: Row, assessments: seq<Scoring.Assessment>)
    requires HonestlyScored(r, criteria, assessments)
    ensures HonestRow(criteria, r)
  {
  }

  /** What handling a request copy does, as far as the invariant is concerned. */
  ghost predicate SoundOutcome(s: State, r: Request, h: Handled)
    requires r.body.Some?
  {
    var k := KeyOf(r);
    && k in s.contexts && h.issued >= s.issued
    && (h.row.Some? ==> h.row.value.key == k)
    && (h.row.Some? && h.row.value.status == RowScored ==> HonestRow(s.contexts[k].criteria, h.row.value))
    && (k in s.rows ==> h.row.Some? && h.row.value.candidateId == s.rows[k].candidateId)
    && (k in s.rows && Final(s.rows[k]) ==> h.row.value == s.rows[k])
    && (k !in s.rows && h.row.Some? && h.row.value.candidateId.Some? ==>
          h.issued > s.issued && h.row.value.candidateId.value == CandidateId(h.issued))
    && |h.outbox| > 0 && Carries(h.outbox[0])
    && (forall i :: 0 <= i < |h.outbox| ==> SoundPublication(s, r, h, h.outbox[i]))
  }

  ghost predicate SoundPublication(s: State, r: Request, h: Handled, p: Publication)
    requires r.body.Some?
  {
    match p
    case Answered(a) =>
      h.row.Some? && a == ToCompleted(h.row.value, r.body.value.correlationId) && h.row.value.status != Processing
    case Retried(q, _) => q.body == r.body && q.attempt <= s.limits.maxRetries
    case DeadLettered(q, _) => q == r
  }

  lemma HandlingIsSound(s: State, r: Request, w: World, jitter: real, recordError: bool)
    requires EntriesOk(s) && RowsOk(s) && RequestOk(s, r)
    ensures SoundOutcome(s, r, AfterDelivery(s.limits, r, RowAt(s, KeyOf(r)), s.issued, w, jitter, recordError))
  {
    hide HonestRow, Screened, Claimed, MarkFailed, ValidRequest;
    var k, row := KeyOf(r), RowAt(s, KeyOf(r));
    var h := AfterDelivery(s.limits, r, row, s.issued, w, jitter, recordError);
    assert HiringEntryOk(s, k);
    if row.Some? {
      assert RowOk(s, k);
      HonestRequestIsValid(s.bucket, s.contexts[k].jobOpeningId, s.contexts[k].criteria, s.entries[k],
          r.body.value.correlationId);
      if Final(row.value) {
        FinishedWorkIsReplayed(s.limits, r, row.value, s.issued, w, jitter, recordError);
      }
    }
    HandledRowIsHonest(s.limits, r, row, s.issued, w, jitter, recordError, s.contexts[k].criteria);
    hide AfterDelivery;
    CandidateStays(s.limits, r, row, s.issued, w, jitter, recordError);
    AnswersComeFromTheRow(s.limits, r, row, s.issued, w, jitter, recordError);
    NothingHandledVanishes(s.limits, r, row, s.issued, w, jitter, recordError);
  }

  lemma HandleExtends(s: State, r: Request, h: Handled)
    requires RequestOk(s, r) && SoundOutcome(s, r, h)
    ensures Extends(s, AfterHandle(s, r, h))
  {
    hide HonestRow, SoundPublication, BodyOf;
  }

  lemma AgreementStays(s: State, t: State, k: Key)
    requires Extends(s, t) && HiringEntryOk(s, k) && t.entries == s.entries
    ensures HiringEntryOk(t, k)
  {
    hide EntryOk, ScorableCriteria;
  }

  lemma HandleEntriesOk(s: State, r: Request, h: Handled)
    requires r.body.Some?
    requires EntriesOk(s) && RequestOk(s, r) && SoundOutcome(s, r, h)
    ensures EntriesOk(AfterHandle(s, r, h))
  {
    hide HiringEntryOk, SoundOutcome, RequestOk, Extends;
    var t := AfterHandle(s, r, h);
    HandleExtends(s, r, h);
    forall k | k in t.entries ensures HiringEntryOk(t, k) {
      AgreementStays(s, t, k);
    }
  }

  lemma HandleRowOk(s: State, r: Request, h: Handled, k: Key)
    requires EntriesOk(s) && RowsOk(s) && RequestOk(s, r) && SoundOutcome(s, r, h) && k in AfterHandle(s, r, h).rows
    ensures RowOk(AfterHandle(s, r, h), k)
  {
    hide HonestRow, SoundPublication, BodyOf, HiringEntryOk, CandidateId;
    if k in s.rows {
      assert RowOk(s, k);
    }
  }

  /** A new row's id is above every id handed out before, so no other row has it. */
  lemma NewCandidateIsNew(s: State, k: Key, n: nat)
    requires RowsOk(s) && k in s.rows && n > s.issued
    ensures s.rows[k].candidateId != Some(CandidateId(n))
  {
    assert RowOk(s, k);
    if s.rows[k].candidateId.Some? {
      var m: nat :| m <= s.issued && s.rows[k].candidateId.value == CandidateId(m);
      if CandidateId(m) == CandidateId(n) {
        CandidateIdIsInjective(m, n);
      }
    }
  }

  lemma HandleRowsOk(s: State, r: Request, h: Handled)
    requires r.body.Some?
    requires EntriesOk(s) && RowsOk(s) && RequestOk(s, r) && SoundOutcome(s, r, h)
    ensures RowsOk(AfterHandle(s, r, h))
  {
    hide RowOk, HonestRow, SoundPublication, BodyOf, HiringEntryOk, CandidateId, RequestOk;
    var t := AfterHandle(s, r, h);
    forall k | k in t.rows ensures RowOk(t, k) {
      HandleRowOk(s, r, h, k);
    }
    var claimed := KeyOf(r);
    forall j, k | j in t.rows && k in t.rows && j != k && t.rows[j].candidateId.Some?
      ensures t.rows[j].candidateId != t.rows[k].candidateId
    {
      if claimed !in s.rows && j == claimed {
        NewCandidateIsNew(s, k, h.issued);
      } else if claimed !in s.rows && k == claimed && t.rows[k].candidateId.Some? {
        NewCandidateIsNew(s, j, h.issued);
      }
    }
  }

  lemma HandledWorkOk(s: State, r: Request, h: Handled)
    requires EntriesOk(s) && RequestOk(s, r) && SoundOutcome(s, r, h)
    ensures WorkOk(AfterHandle(s, r, h), Work(r, Settling(h.outbox)))
  {
    hide HonestRow, BodyOf, HiringEntryOk;
    var t := AfterHandle(s, r, h);
    HandleExtends(s, r, h);
    RequestStaysOk(s, t, r);
    forall i | 0 <= i < |h.outbox| ensures PublicationOk(t, r, h.outbox[i]) {
      assert SoundPublication(s, r, h, h.outbox[i]);
    }
  }

  lemma HandledIsLocated(s: State, r: Request, h: Handled, k: Key)
    requires r.body.Some? && |h.outbox| > 0 && Carries(h.outbox[0]) && Work(r, Received) in s.working && Located(s, k)
    ensures Located(AfterHandle(s, r, h), k)
  {
    hide Concerns;
    var t := AfterHandle(s, r, h);
    var w := Work(r, Settling(h.outbox));
    assert w in t.working && Live(w) by {
      assert Carries(w.stage.outbox[0]);
    }
    if Concerns(r, k) {
    } else {
      LocatedGrows(s, t, k);
    }
  }

  lemma HandleKeeps(s: State, r: Request, h: Handled)
    requires Inv(s) && Work(r, Received) in s.working && r.body.Some? && SoundOutcome(s, r, h)
    ensures Extends(s, AfterHandle(s, r, h)) && Inv(AfterHandle(s, r, h))
  {
    hide Extends, RequestsOk, AnswersOk, RowsOk, EntriesOk, Located, DecisionOk, SoundPublication;
    var t := AfterHandle(s, r, h);
    WorkingOk(s, Work(r, Received));
    HandleExtends(s, r, h);
    HandleEntriesOk(s, r, h);
    HandleRowsOk(s, r, h);
    HandledWorkOk(s, r, h);
    RequestsStayOk(s, t);
    AnswersStayOk(s, t);
    forall d | d in t.decisions ensures DecisionOk(t, d) {
      DecisionSurvives(s, t, d);
    }
    forall k | k in t.entries && AwaitsAnswer(t, k) ensures Located(t, k) {
      assert AwaitsAnswer(s, k);
      HandledIsLocated(s, r, h, k);
    }
  }

  lemma DecisionSurvives(s: State, t: State, d: Decision)
    requires DecisionOk(s, d) && t.entries == s.entries && t.contexts == s.contexts
    ensures DecisionOk(t, d)
  {
  }

  // ---------- Every step ----------

  lemma InitOk(s: State)
    requires Init(s)
    ensures Inv(s)
  {
  }

  lemma NextKeeps(s: State, step: Step)
    requires Inv(s) && Enabled(s, step)
    ensures Extends(s, Next(s, step)) && Inv(Next(s, step))
  {
    hide Extends, Inv, AfterDelivery, AfterSubmit, AfterMark, AfterDeliver, AfterTake, AfterAcknowledge, AfterRequeue;
    hide AfterExpire, AfterReplay, AfterConsume, AfterLoad, AfterSaveResult, AfterRefuse, AfterReturn, AfterDecide;
    match step
    case Submit(c, order, added) => SubmitKeeps(s, c, order, added);
    case RelayStart => RelayStartKeeps(s, NextPass(s));
    case RelayPublish(id) => PublishKeeps(s, s.relay.todo[0], id, s.relay.(published := true));
    case RelayMark(at) => MarkKeeps(s, at);
    case RelayStop => RelayStopKeeps(s);
    case LatePublish(k, id) => LatePublishKeeps(s, k, id);
    case Deliver(r) => DeliverKeeps(s, r);
    case HandleDelivery(r, w, jitter, recordError) =>
      DeliveryIsSound(s, r, w, jitter, recordError);
      HandleKeeps(s, r, AfterDelivery(s.limits, r, RowAt(s, KeyOf(r)), s.issued, w, jitter, recordError));
    case Take(w) => TakeKeeps(s, w);
    case Acknowledge(w) => AcknowledgeKeeps(s, w);
    case Requeue(w) => RequeueKeeps(s, w);
    case Expire(r) => ExpireKeeps(s, r);
    case Replay(r, acked) => ReplayKeeps(s, r, acked);
    case Consume(a) => ConsumeKeeps(s, a);
    case LoadEntry => LoadKeeps(s);
    case SaveResult(at) => SaveResultKeeps(s, at);
    case RefuseAnswer => RefuseKeeps(s);
    case AckAnswer => AckAnswerKeeps(s);
    case ReturnAnswer => ReturnKeeps(s);
    case Decide(k, c) => DecideKeeps(s, k, c);
    case SaveDecision(d) => SaveDecisionKeeps(s, d);
    case DropDecision(d) => DropKeeps(s, d);
  }

  lemma DeliveryIsSound(s: State, r: Request, w: World, jitter: real, recordError: bool)
    requires Inv(s) && Work(r, Received) in s.working && r.body.Some?
    ensures SoundOutcome(s, r, AfterDelivery(s.limits, r, RowAt(s, KeyOf(r)), s.issued, w, jitter, recordError))
  {
    hide SoundOutcome, AfterDelivery;
    WorkingOk(s, Work(r, Received));
    HandlingIsSound(s, r, w, jitter, recordError);
  }

  lemma {:induction false} RunKeeps(s: State, steps: seq<Step>)
    requires Inv(s) && CanRun(s, steps)
    ensures Extends(s, After(s, steps)) && Inv(After(s, steps))
    decreases |steps|
  {
    hide Inv, Enabled, Next;
    if |steps| == 0 {
      SameDataExtends(s, s);
    } else {
      NextKeeps(s, steps[0]);
      RunKeeps(Next(s, steps[0]), steps[1..]);
      ExtendsTransitive(s, Next(s, steps[0]), After(s, steps));
    }
  }
}
