/** How often one resume can be handled: a budget every handling draws on, and the steps that refill it. */
module RetryBudget {
  import opened Prelude
  import opened Handover
  import opened Pipeline
  import opened Protocol
  import opened ProtocolInvariant
  import opened ProtocolTheorems

  // ---------- Sums over bags ----------

  ghost function SumOver<T(!new)>(m: multiset<T>, f: T -> nat): nat
    decreases |m|
  {
    if m == multiset{} then 0
    else
      var x :| x in m;
      f(x) + SumOver(m - multiset{x}, f)
  }

  lemma {:induction false} SumWithout<T(!new)>(m: multiset<T>, x: T, f: T -> nat)
    requires x in m
    ensures SumOver(m, f) == f(x) + SumOver(m - multiset{x}, f)
    decreases |m|
  {
    var y :| y in m && SumOver(m, f) == f(y) + SumOver(m - multiset{y}, f);
    if y != x {
      SumWithout(m - multiset{y}, x, f);
      SumWithout(m - multiset{x}, y, f);
      assert m - multiset{y} - multiset{x} == m - multiset{x} - multiset{y};
    }
  }

  lemma SumWith<T(!new)>(m: multiset<T>, x: T, f: T -> nat)
    ensures SumOver(m + multiset{x}, f) == SumOver(m, f) + f(x)
  {
    SumWithout(m + multiset{x}, x, f);
    assert m + multiset{x} - multiset{x} == m;
  }

  // ---------- The budget ----------

  /** How many times a copy can still be handled: once as it is, and once for each retry left to it. */
  function CopyLeft(q: Limits, k: Key, r: Request): nat {
    if Concerns(r, k) && r.attempt <= q.maxRetries then q.maxRetries + 1 - r.attempt else 0
  }

  function LeftToPublish(q: Limits, k: Key, outbox: seq<Publication>): nat {
    if |outbox| == 0 then 0
    else (if outbox[0].Retried? then CopyLeft(q, k, outbox[0].retry) else 0) + LeftToPublish(q, k, outbox[1..])
  }

  function WorkLeft(q: Limits, k: Key, w: Work): nat {
    match w.stage
    case Received => CopyLeft(q, k, w.request)
    case Settling(outbox) => LeftToPublish(q, k, outbox)
  }

  function Left(q: Limits, k: Key): Request -> nat {
    (r: Request) => CopyLeft(q, k, r)
  }

  function LeftOfWork(q: Limits, k: Key): Work -> nat {
    (w: Work) => WorkLeft(q, k, w)
  }

  /** What all the copies of one resume's request, dead letters aside, can still be handled. */
  ghost function Budget(s: State, k: Key): nat {
    SumOver(s.requested, Left(s.limits, k)) + SumOver(s.retrying, Left(s.limits, k))
        + SumOver(s.working, LeftOfWork(s.limits, k))
  }

  /**
   * What a step adds to the budget: a new copy may be handled maxRetries + 1 times, and a delivery handed
   * back after it was handled as often as the copy it came from.
   */
  ghost function Grant(s: State, step: Step, k: Key): nat {
    match step
    case RelayPublish(_) =>
      if s.relay.Relaying? && |s.relay.todo| > 0 && s.relay.todo[0] == k then s.limits.maxRetries + 1 else 0
    case LatePublish(j, _) => if j == k then s.limits.maxRetries + 1 else 0
    case Replay(r, _) => if Concerns(r, k) then s.limits.maxRetries + 1 else 0
    case Requeue(w) => if w.stage.Settling? then CopyLeft(s.limits, k, w.request) else 0
    case _ => 0
  }

  predicate Handles(step: Step, k: Key) {
    step.HandleDelivery? && Concerns(step.request, k)
  }

  lemma RetriedOnceLess(q: Limits, k: Key, r: Request, row: Option<Row>, issued: nat, w: World, jitter: real,
                        recordError: bool)
    requires r.body.Some? && r.attempt <= q.maxRetries
    ensures LeftToPublish(q, k, AfterDelivery(q, r, row, issued, w, jitter, recordError).outbox)
            <= if Concerns(r, k) then Left(q, k)(r) - 1 else 0
  {
    hide AfterDelivery;
    var o := AfterDelivery(q, r, row, issued, w, jitter, recordError).outbox;
    NothingHandledVanishes(q, r, row, issued, w, jitter, recordError);
    if |o| == 2 {
      assert LeftToPublish(q, k, o[1..]) == 0;
    }
  }

  /** A copy added to the queue adds what it can be handled itself. */
  lemma PublishGrants(s: State, t: State, r: Request, k: Key)
    requires t.limits == s.limits
    requires t.requested == s.requested + multiset{r} && t.retrying == s.retrying && t.working == s.working
    ensures Budget(t, k) == Budget(s, k) + CopyLeft(s.limits, k, r)
  {
    SumWith(s.requested, r, Left(s.limits, k));
  }

  lemma SameCopiesSameBudget(s: State, t: State, k: Key)
    requires SameRequests(s, t)
    ensures Budget(t, k) == Budget(s, k)
  {
  }

  lemma DeliverDraws(s: State, r: Request, k: Key)
    requires r in s.requested
    ensures Budget(AfterDeliver(s, r), k) == Budget(s, k)
  {
    SumWithout(s.requested, r, Left(s.limits, k));
    SumWith(s.working, Work(r, Received), LeftOfWork(s.limits, k));
  }

  lemma AcknowledgeDraws(s: State, w: Work, k: Key)
    requires w in s.working
    ensures Budget(AfterAcknowledge(s, w), k) == Budget(s, k) - WorkLeft(s.limits, k, w)
  {
    SumWithout(s.working, w, LeftOfWork(s.limits, k));
  }

  /** Handing a delivery back trades what is left of its work for what its request can be handled. */
  lemma RequeueGrants(s: State, w: Work, k: Key)
    requires w in s.working
    ensures Budget(AfterRequeue(s, w), k) == Budget(s, k) - WorkLeft(s.limits, k, w) + CopyLeft(s.limits, k, w.request)
    ensures w.stage == Received ==> Budget(AfterRequeue(s, w), k) == Budget(s, k)
  {
    AcknowledgeDraws(s, w, k);
    PublishGrants(AfterAcknowledge(s, w), AfterRequeue(s, w), w.request, k);
  }

  lemma ExpireDraws(s: State, r: Request, k: Key)
    requires r in s.retrying
    ensures Budget(AfterExpire(s, r), k) == Budget(s, k)
  {
    SumWithout(s.retrying, r, Left(s.limits, k));
    SumWith(s.requested, r, Left(s.limits, k));
  }

  lemma HandleDraws(s: State, r: Request, w: World, jitter: real, recordError: bool, k: Key)
    requires Work(r, Received) in s.working && r.body.Some? && r.attempt <= s.limits.maxRetries
    ensures
      var h := AfterDelivery(s.limits, r, RowAt(s, KeyOf(r)), s.issued, w, jitter, recordError);
      Budget(AfterHandle(s, r, h), k) + (if Concerns(r, k) then 1 else 0) <= Budget(s, k)
  {
    hide AfterDelivery;
    var h := AfterDelivery(s.limits, r, RowAt(s, KeyOf(r)), s.issued, w, jitter, recordError);
    var f := LeftOfWork(s.limits, k);
    RetriedOnceLess(s.limits, k, r, RowAt(s, KeyOf(r)), s.issued, w, jitter, recordError);
    SumWithout(s.working, Work(r, Received), f);
    SumWith(s.working - multiset{Work(r, Received)}, Work(r, Settling(h.outbox)), f);
  }

  lemma TakeDraws(s: State, w: Work, k: Key)
    requires w in s.working && w.stage.Settling? && |w.stage.outbox| > 0
    ensures Budget(AfterTake(s, w), k) <= Budget(s, k)
  {
    hide CopyLeft;
    var f, t, p := LeftOfWork(s.limits, k), AfterTake(s, w), w.stage.outbox[0];
    var rest := w.(stage := Settling(w.stage.outbox[1..]));
    SumWithout(s.working, w, f);
    SumWith(s.working - multiset{w}, rest, f);
    assert t.requested == s.requested && t.limits == s.limits;
    assert SumOver(t.working, f) == SumOver(s.working, f) - f(w) + f(rest);
    assert f(w) == (if p.Retried? then CopyLeft(s.limits, k, p.retry) else 0) + f(rest);
    match p
    case Retried(q, _) =>
      SumWith(s.retrying, q, Left(s.limits, k));
    case Answered(_) => assert t.retrying == s.retrying;
    case DeadLettered(_, _) => assert t.retrying == s.retrying;
  }

  /** Whatever the step: a handling uses up one, and nothing is added but what the step grants. */
  lemma StepDraws(s: State, step: Step, k: Key)
    requires Inv(s) && Enabled(s, step)
    ensures Budget(Next(s, step), k) + (if Handles(step, k) then 1 else 0) <= Budget(s, k) + Grant(s, step, k)
  {
    hide Inv, Budget, AfterDelivery, BodyOf, ReadAnswer, Rule, Decided, NewlySubmitted;
    hide AfterSubmit, AfterStop, AfterMark, AfterConsume, AfterLoad, AfterSave, AfterSaveResult, AfterRefuse;
    hide AfterReturn, AfterDecide, AfterReplay, AfterPublish, AfterLatePublish, AfterDrop, AfterDeliver, AfterTake;
    hide AfterAcknowledge, AfterRequeue, AfterExpire, AfterHandle;
    match step
    case Deliver(r) => DeliverDraws(s, r, k);
    case HandleDelivery(r, w, jitter, recordError) =>
      DeliveredWithinLimit(s, r);
      HandleDraws(s, r, w, jitter, recordError, k);
    case Take(w) => TakeDraws(s, w, k);
    case Acknowledge(w) => AcknowledgeDraws(s, w, k);
    case Requeue(w) => RequeueGrants(s, w, k);
    case Expire(r) => ExpireDraws(s, r, k);
    case Replay(r, acked) => ReplayGrants(s, r, acked, k);
    case RelayPublish(id) => RelayPublishGrants(s, id, k);
    case LatePublish(j, id) => LatePublishGrants(s, j, id, k);
    case _ => SameCopiesSameBudget(s, Next(s, step), k);
  }

  /** Replaying a dead letter grants its resume a full budget again, and no other resume anything. */
  lemma ReplayGrants(s: State, r: Request, acked: bool, k: Key)
    ensures Budget(AfterReplay(s, r, acked), k) == Budget(s, k) + if Concerns(r, k) then s.limits.maxRetries + 1 else 0
  {
    PublishGrants(s, AfterReplay(s, r, acked), r.(attempt := 0), k);
  }

  /** So does publishing a request, the first time and every time it is repeated. */
  lemma RelayPublishGrants(s: State, id: string, k: Key)
    requires Inv(s) && Enabled(s, RelayPublish(id))
    ensures Budget(Next(s, RelayPublish(id)), k)
            == Budget(s, k) + if s.relay.todo[0] == k then s.limits.maxRetries + 1 else 0
  {
    hide Budget, HiringEntryOk, RequestsOk, RowsOk, AnswersOk, LoadedOk, DecisionsOk, RelayOk, NoneLost, BodyOf;
    var j := s.relay.todo[0];
    SentRequestOk(s, j, id);
    PublishGrants(s, Next(s, RelayPublish(id)), Request(Some(BodyOf(s, j, id)), 0), k);
  }

  lemma LatePublishGrants(s: State, j: Key, id: string, k: Key)
    requires Inv(s) && j in s.entries && j in s.contexts
    ensures Budget(AfterLatePublish(s, j, id), k) == Budget(s, k) + if j == k then s.limits.maxRetries + 1 else 0
  {
    SentRequestOk(s, j, id);
    PublishGrants(s, AfterLatePublish(s, j, id), Request(Some(BodyOf(s, j, id)), 0), k);
  }

  /** A grant is no generous estimate: the budget grows by just that much, less what a returned delivery had left. */
  lemma GrantsAreExact(s: State, step: Step, k: Key)
    requires Inv(s) && Enabled(s, step) && Grant(s, step, k) > 0
    ensures Budget(Next(s, step), k)
         == Budget(s, k) + Grant(s, step, k) - if step.Requeue? then WorkLeft(s.limits, k, step.work) else 0
  {
    hide Budget, Inv, BodyOf, AfterPublish, AfterLatePublish, AfterReplay, AfterRequeue, AfterDelivery;
    match step
    case RelayPublish(id) => RelayPublishGrants(s, id, k);
    case LatePublish(j, id) => LatePublishGrants(s, j, id, k);
    case Replay(r, acked) => ReplayGrants(s, r, acked, k);
    case Requeue(w) => RequeueGrants(s, w, k);
    case _ =>
  }

  lemma DeliveredWithinLimit(s: State, r: Request)
    requires Inv(s) && Work(r, Received) in s.working
    ensures r.attempt <= s.limits.maxRetries
  {
    WorkingOk(s, Work(r, Received));
  }

  function Handlings(steps: seq<Step>, k: Key): nat {
    if |steps| == 0 then 0 else (if Handles(steps[0], k) then 1 else 0) + Handlings(steps[1..], k)
  }

  /** What the steps of a run grant together. */
  ghost function Granted(s: State, steps: seq<Step>, k: Key): nat
    requires CanRun(s, steps)
    decreases |steps|
  {
    if |steps| == 0 then 0 else Grant(s, steps[0], k) + Granted(Next(s, steps[0]), steps[1..], k)
  }

  lemma {:induction false} RunDraws(s: State, steps: seq<Step>, k: Key)
    requires Inv(s) && CanRun(s, steps)
    ensures Budget(After(s, steps), k) + Handlings(steps, k) <= Budget(s, k) + Granted(s, steps, k)
    decreases |steps|
  {
    hide Inv, Enabled, Next, Budget, Grant, Handles;
    if |steps| > 0 {
      StepDraws(s, steps[0], k);
      NextKeeps(s, steps[0]);
      RunDraws(Next(s, steps[0]), steps[1..], k);
    }
  }

  /** From an empty system, a resume is never handled more often than its publishes, replays and returns grant. */
  lemma HandledOnlyAsGranted(s: State, steps: seq<Step>, k: Key)
    requires Init(s) && CanRun(s, steps)
    ensures Handlings(steps, k) <= Granted(s, steps, k)
  {
    hide CanRun, Granted;
    InitOk(s);
    RunDraws(s, steps, k);
  }

  /**
   * A lone copy of a request is handled at most maxRetries + 1 times and what the run grants besides:
   * without another publish, a replay or a handled delivery handed back, maxRetries + 1 times.
   */
  lemma HandledAtMostMaxRetriesPlusOne(s: State, r: Request, steps: seq<Step>, k: Key)
    requires Reachable(s) && CanRun(s, steps)
    requires r in s.requested && forall q :: q in s.requested - multiset{r} ==> !Concerns(q, k)
    requires forall q :: q in s.retrying ==> !Concerns(q, k)
    requires forall w :: w in s.working ==> !Concerns(w.request, k)
    ensures Handlings(steps, k) <= s.limits.maxRetries + 1 + Granted(s, steps, k)
  {
    hide CanRun, Granted, Reachable, Handlings, After;
    ReachableKeeps(s);
    RunDraws(s, steps, k);
    LoneCopyBudget(s, r, k);
  }

  lemma LoneCopyBudget(s: State, r: Request, k: Key)
    requires Inv(s)
    requires r in s.requested && forall q :: q in s.requested - multiset{r} ==> !Concerns(q, k)
    requires forall q :: q in s.retrying ==> !Concerns(q, k)
    requires forall w :: w in s.working ==> !Concerns(w.request, k)
    ensures Budget(s, k) == CopyLeft(s.limits, k, r)
  {
    hide EntriesOk, RowsOk, AnswersOk, LoadedOk, DecisionsOk, RelayOk, NoneLost, PublicationOk;
    SumWithout(s.requested, r, Left(s.limits, k));
    NothingLeft(s.requested - multiset{r}, Left(s.limits, k));
    NothingLeft(s.retrying, Left(s.limits, k));
    forall w | w in s.working ensures LeftOfWork(s.limits, k)(w) == 0 {
      WorkingOk(s, w);
      if w.stage.Settling? {
        NothingLeftToPublish(s, w, k, w.stage.outbox);
      }
    }
    NothingLeft(s.working, LeftOfWork(s.limits, k));
  }

  lemma {:induction false} NothingLeftToPublish(s: State, w: Work, k: Key, outbox: seq<Publication>)
    requires w.request.body.Some? && !Concerns(w.request, k)
    requires forall i :: 0 <= i < |outbox| ==> PublicationOk(s, w.request, outbox[i])
    ensures LeftToPublish(s.limits, k, outbox) == 0
  {
    hide RequestOk, AnswerOk;
    if |outbox| > 0 {
      assert PublicationOk(s, w.request, outbox[0]);
      NothingLeftToPublish(s, w, k, outbox[1..]);
    }
  }

  lemma {:induction false} NothingLeft<T(!new)>(m: multiset<T>, f: T -> nat)
    requires forall x :: x in m ==> f(x) == 0
    ensures SumOver(m, f) == 0
    decreases |m|
  {
    if m != multiset{} {
      var x :| x in m;
      SumWithout(m, x, f);
      NothingLeft(m - multiset{x}, f);
    }
  }
}
