/**
 * The books of the handover: how many copies of one message each place holds, and which steps move one in or
 * out. No step loses a message, makes one up, or takes one from a place it does not stand for.
 */
module Copies {
  import opened Prelude
  import opened Screening
  import opened Handover
  import opened Pipeline
  import opened Protocol

  /** A place for copies of one message. */
  datatype Place =
    | Asked(request: Request)     // the requested queue
    | Delayed(request: Request)   // the retry queue
    | Buried(request: Request)    // Resume Processing's dead letters
    | Told(answer: Completed)     // the completed queue, and the consumer's hands
    | Rejected(answer: Completed) // Hiring's dead letters
    | Unconfirmed(key: Key)       // publishes the relay no longer waits for

  function Held(s: State, p: Place): nat {
    match p
    case Asked(r) => s.requested[r]
    case Delayed(r) => s.retrying[r]
    case Buried(r) => s.dead[r]
    case Told(a) => s.completed[a] + if s.consumer != Idle && s.consumer.answer == a then 1 else 0
    case Rejected(a) => s.refused[a]
    case Unconfirmed(k) => s.givenUp[k]
  }

  /** The publication goes there. */
  predicate IsFor(taken: Publication, p: Place) {
    match taken
    case Answered(a) => p == Told(a)
    case Retried(r, _) => p == Delayed(r)
    case DeadLettered(r, _) => p == Buried(r)
  }

  /** The step puts one more copy there. */
  ghost predicate Enters(s: State, step: Step, p: Place)
    requires Enabled(s, step)
  {
    match p
    case Asked(r) =>
      || (step.Requeue? && step.work.request == r) || (step.Expire? && step.request == r)
      || (step.Replay? && step.request.body == r.body && r.attempt == 0)
      || (step.RelayPublish? && r.attempt == 0 && r.body == Some(BodyOf(s, s.relay.todo[0], step.correlationId)))
      || (step.LatePublish? && r.attempt == 0 && r.body == Some(BodyOf(s, step.key, step.correlationId)))
    case Rejected(a) => step.RefuseAnswer? && s.consumer.answer == a
    case Unconfirmed(k) =>
      step.RelayStop? && s.relay.Relaying? && !s.relay.published && s.relay.todo != [] && s.relay.todo[0] == k
    case _ => step.Take? && IsFor(step.work.stage.outbox[0], p)
  }

  /** The step takes one copy away from there: a dead letter only when its replay is acknowledged. */
  ghost predicate Leaves(s: State, step: Step, p: Place)
    requires Enabled(s, step)
  {
    match p
    case Asked(r) => step == Deliver(r)
    case Delayed(r) => step == Expire(r)
    case Buried(r) => step == Replay(r, true)
    case Told(a) => step.AckAnswer? && s.consumer.answer == a
    case Rejected(_) => false
    case Unconfirmed(k) => step.LatePublish? && step.key == k
  }

  ghost function Change(s: State, step: Step, p: Place): int
    requires Enabled(s, step)
  {
    (if Enters(s, step, p) then 1 else 0) - (if Leaves(s, step, p) then 1 else 0)
  }

  ghost function Balance(s: State, steps: seq<Step>, p: Place): int
    requires CanRun(s, steps)
    decreases |steps|
  {
    if |steps| == 0 then 0 else Change(s, steps[0], p) + Balance(Next(s, steps[0]), steps[1..], p)
  }

  lemma DeliveringBalances(s: State, step: Step, p: Place)
    requires Enabled(s, step) && (step.Deliver? || step.Requeue?)
    ensures Held(Next(s, step), p) == Held(s, p) + Change(s, step, p)
  {
    hide RequestOf, Rule, Recordable, ReadAnswer, AfterDelivery, NextPass, NewlySubmitted, Decided;
  }

  lemma ExpiringBalances(s: State, r: Request, p: Place)
    requires Enabled(s, Expire(r))
    ensures Held(Next(s, Expire(r)), p) == Held(s, p) + Change(s, Expire(r), p)
  {
    assert Next(s, Expire(r)) == AfterExpire(s, r) && r in s.retrying;
    hide Enabled, Next;
  }

  lemma ReplayingBalances(s: State, r: Request, acked: bool, p: Place)
    requires Enabled(s, Replay(r, acked))
    ensures Held(Next(s, Replay(r, acked)), p) == Held(s, p) + Change(s, Replay(r, acked), p)
  {
    assert Next(s, Replay(r, acked)) == AfterReplay(s, r, acked) && r in s.dead;
    assert p.Asked? ==> (p.request == r.(attempt := 0) <==> r.body == p.request.body && p.request.attempt == 0);
    hide Enabled, Next;
  }

  lemma PublishedBalances(s: State, taken: Publication, p: Place)
    ensures Held(Published(s, taken), p) == Held(s, p) + if IsFor(taken, p) then 1 else 0
  {
  }

  lemma WorkHoldsNone(s: State, working: multiset<Work>, p: Place)
    ensures Held(s.(working := working), p) == Held(s, p)
  {
  }

  lemma TakingTakes(s: State, w: Work)
    requires Enabled(s, Take(w))
    ensures w.stage.Settling? && |w.stage.outbox| > 0 && Next(s, Take(w)) == AfterTake(s, w)
  {
    hide Published;
  }

  lemma TakingChanges(s: State, w: Work, p: Place)
    requires Enabled(s, Take(w)) && w.stage.Settling? && |w.stage.outbox| > 0
    ensures Change(s, Take(w), p) == if IsFor(w.stage.outbox[0], p) then 1 else 0
  {
    hide Enabled, BodyOf;
  }

  lemma TakingBalances(s: State, w: Work, p: Place)
    requires Enabled(s, Take(w))
    ensures Held(Next(s, Take(w)), p) == Held(s, p) + Change(s, Take(w), p)
  {
    TakingTakes(s, w);
    TakingChanges(s, w, p);
    PublishedBalances(s, w.stage.outbox[0], p);
    WorkHoldsNone(Published(s, w.stage.outbox[0]), AfterTake(s, w).working, p);
    hide Enabled, Next, Published, Change, IsFor, Held;
  }

  lemma ConsumingBalances(s: State, step: Step, p: Place)
    requires Enabled(s, step) && (step.Consume? || step.ReturnAnswer?)
    ensures Held(Next(s, step), p) == Held(s, p) + Change(s, step, p)
  {
    hide RequestOf, Rule, Recordable, ReadAnswer, AfterDelivery, NextPass, NewlySubmitted, Decided;
  }

  lemma LoadingBalances(s: State, p: Place)
    requires Enabled(s, LoadEntry)
    ensures Held(Next(s, LoadEntry), p) == Held(s, p) + Change(s, LoadEntry, p)
  {
    hide RequestOf, Rule, Recordable, ReadAnswer, AfterDelivery, NextPass, NewlySubmitted, Decided;
  }

  lemma SavingBalances(s: State, step: Step, p: Place)
    requires Enabled(s, step) && step.SaveResult?
    ensures Held(Next(s, step), p) == Held(s, p) + Change(s, step, p)
  {
    hide RequestOf, Rule, Recordable, ReadAnswer, AfterDelivery, NextPass, NewlySubmitted, Decided;
  }

  lemma SettlingBalances(s: State, step: Step, p: Place)
    requires Enabled(s, step) && (step.RefuseAnswer? || step.AckAnswer?)
    ensures Held(Next(s, step), p) == Held(s, p) + Change(s, step, p)
  {
    hide RequestOf, Rule, Recordable, ReadAnswer, AfterDelivery, NextPass, NewlySubmitted, Decided;
  }

  lemma PublishingBalances(s: State, id: string, p: Place)
    requires Enabled(s, RelayPublish(id))
    ensures Held(Next(s, RelayPublish(id)), p) == Held(s, p) + Change(s, RelayPublish(id), p)
  {
    hide RequestOf, Rule, Recordable, ReadAnswer, AfterDelivery, NextPass, NewlySubmitted, Decided, BodyOf;
  }

  lemma LatePublishingBalances(s: State, k: Key, id: string, p: Place)
    requires Enabled(s, LatePublish(k, id))
    ensures Held(Next(s, LatePublish(k, id)), p) == Held(s, p) + Change(s, LatePublish(k, id), p)
  {
    hide RequestOf, Rule, Recordable, ReadAnswer, AfterDelivery, NextPass, NewlySubmitted, Decided, BodyOf;
  }

  lemma PassingBalances(s: State, step: Step, p: Place)
    requires Enabled(s, step) && (step.RelayStart? || step.RelayMark? || step.RelayStop?)
    ensures Held(Next(s, step), p) == Held(s, p) + Change(s, step, p)
  {
    hide RequestOf, Rule, Recordable, ReadAnswer, AfterDelivery, NextPass, NewlySubmitted, Decided;
  }

  lemma WorkMovesNothing(s: State, step: Step, p: Place)
    requires Enabled(s, step) && (step.Submit? || step.HandleDelivery? || step.Acknowledge?)
    ensures Held(Next(s, step), p) == Held(s, p) && Change(s, step, p) == 0
  {
    hide RequestOf, Rule, Recordable, ReadAnswer, AfterDelivery, NextPass, NewlySubmitted, Decided;
  }

  lemma DecisionsMoveNothing(s: State, step: Step, p: Place)
    requires Enabled(s, step) && (step.Decide? || step.SaveDecision? || step.DropDecision?)
    ensures Held(Next(s, step), p) == Held(s, p) && Change(s, step, p) == 0
  {
    hide RequestOf, Rule, Recordable, ReadAnswer, AfterDelivery, NextPass, NewlySubmitted, Decided;
  }

  lemma StepBalances(s: State, step: Step, p: Place)
    requires Enabled(s, step)
    ensures Held(Next(s, step), p) == Held(s, p) + Change(s, step, p)
  {
    hide *;
    match step
    case Deliver(_) => DeliveringBalances(s, step, p);
    case Requeue(_) => DeliveringBalances(s, step, p);
    case Expire(r) => ExpiringBalances(s, r, p);
    case Replay(r, acked) => ReplayingBalances(s, r, acked, p);
    case Take(w) => TakingBalances(s, w, p);
    case Consume(_) => ConsumingBalances(s, step, p);
    case ReturnAnswer => ConsumingBalances(s, step, p);
    case LoadEntry => LoadingBalances(s, p);
    case SaveResult(_) => SavingBalances(s, step, p);
    case RefuseAnswer => SettlingBalances(s, step, p);
    case AckAnswer => SettlingBalances(s, step, p);
    case RelayPublish(id) => PublishingBalances(s, id, p);
    case LatePublish(k, id) => LatePublishingBalances(s, k, id, p);
    case RelayStart => PassingBalances(s, step, p);
    case RelayMark(_) => PassingBalances(s, step, p);
    case RelayStop => PassingBalances(s, step, p);
    case Submit(_, _, _) => WorkMovesNothing(s, step, p);
    case HandleDelivery(_, _, _, _) => WorkMovesNothing(s, step, p);
    case Acknowledge(_) => WorkMovesNothing(s, step, p);
    case _ => DecisionsMoveNothing(s, step, p);
  }

  /** Over any run, what each place holds is what it held, and what was put there, less what was taken from there. */
  lemma {:induction false} TheBooksBalance(s: State, steps: seq<Step>, p: Place)
    requires CanRun(s, steps)
    ensures Held(After(s, steps), p) == Held(s, p) + Balance(s, steps, p)
    decreases |steps|
  {
    if |steps| > 0 {
      StepBalances(s, steps[0], p);
      TheBooksBalance(Next(s, steps[0]), steps[1..], p);
    }
    hide *;
  }

  /** A dead letter is there until a replay of it was acknowledged. */
  lemma {:induction false} DeadLettersStay(s: State, steps: seq<Step>, r: Request)
    requires CanRun(s, steps)
    requires forall i :: 0 <= i < |steps| ==> steps[i] != Replay(r, true)
    ensures After(s, steps).dead[r] >= s.dead[r]
    decreases |steps|
  {
    if |steps| > 0 {
      StepBalances(s, steps[0], Buried(r));
      DeadLettersStay(Next(s, steps[0]), steps[1..], r);
    }
    hide Enabled, Next;
  }
}
