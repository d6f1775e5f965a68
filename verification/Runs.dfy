/** Runs put together step by step, from any reachable state. */
module Runs {
  import opened Openings
  import opened Handover
  import opened Pipeline
  import opened Protocol
  import opened ProtocolTheorems

  /** The steps that put a copy of a request into the queue. */
  predicate BringsBack(step: Step) {
    step.RelayPublish? || step.LatePublish? || step.Expire? || step.Requeue? || step.Replay?
  }

  /** Some run takes s to t; unless `again`, one that brings no request back. */
  ghost predicate Leads(s: State, t: State, again: bool) {
    exists steps :: Run(s, t, steps, again)
  }

  ghost predicate Run(s: State, t: State, steps: seq<Step>, again: bool) {
    CanRun(s, steps) && After(s, steps) == t && (again || forall i :: 0 <= i < |steps| ==> !BringsBack(steps[i]))
  }

  lemma {:induction false} RunExtended(s: State, steps: seq<Step>, step: Step)
    requires CanRun(s, steps) && Enabled(After(s, steps), step)
    ensures CanRun(s, steps + [step]) && After(s, steps + [step]) == Next(After(s, steps), step)
    decreases |steps|
  {
    hide Enabled, Next;
    if |steps| == 0 {
      assert (steps + [step])[1..] == [];
    } else {
      RunExtended(Next(s, steps[0]), steps[1..], step);
      assert (steps + [step])[1..] == steps[1..] + [step];
    }
  }

  lemma ReachableStep(s: State, step: Step)
    requires Reachable(s) && Enabled(s, step)
    ensures Reachable(Next(s, step))
  {
    hide Enabled, Next;
    var s0, steps :| Init(s0) && CanRun(s0, steps) && After(s0, steps) == s;
    RunExtended(s0, steps, step);
  }

  lemma LeadsNowhere(s: State, again: bool)
    ensures Leads(s, s, again)
  {
    assert CanRun(s, []) && After(s, []) == s;
    assert Run(s, s, [], again);
  }

  /** One more step of a run from a reachable state. */
  lemma OneMore(s: State, t: State, step: Step, again: bool)
    requires Reachable(t) && Leads(s, t, again) && Enabled(t, step) && (again || !BringsBack(step))
    ensures Reachable(Next(t, step)) && Leads(s, Next(t, step), again)
  {
    hide Enabled, Next, Reachable, BringsBack;
    ReachableStep(t, step);
    var steps :| Run(s, t, steps, again);
    RunExtended(s, steps, step);
    assert Run(s, Next(t, step), steps + [step], again);
  }

  lemma {:induction false} RunStaysReachable(s: State, steps: seq<Step>)
    requires Reachable(s) && CanRun(s, steps)
    ensures Reachable(After(s, steps))
    decreases |steps|
  {
    hide Enabled, Next, Reachable;
    if |steps| > 0 {
      ReachableStep(s, steps[0]);
      RunStaysReachable(Next(s, steps[0]), steps[1..]);
    }
  }

  /** Hiring's side of two states is the same. */
  ghost predicate SameInHiring(s: State, t: State) {
    t.entries == s.entries && t.contexts == s.contexts && t.line == s.line
  }

  // ---------- What single steps are, so that runs can be put together without every other step in sight ----------

  lemma Delivers(s: State, r: Request)
    requires r in s.requested
    ensures Enabled(s, Deliver(r)) && Next(s, Deliver(r)) == AfterDeliver(s, r)
  {
  }

  lemma HandlesIt(s: State, r: Request, world: World)
    requires Work(r, Received) in s.working && r.body.Some?
    ensures Enabled(s, HandleDelivery(r, world, 1.0, false))
    ensures Next(s, HandleDelivery(r, world, 1.0, false))
            == AfterHandle(s, r, AfterDelivery(s.limits, r, RowAt(s, KeyOf(r)), s.issued, world, 1.0, false))
  {
  }

  lemma TakesIt(s: State, w: Work)
    requires w in s.working && w.stage.Settling? && |w.stage.outbox| > 0
    ensures Enabled(s, Take(w)) && Next(s, Take(w)) == AfterTake(s, w)
  {
  }

  lemma Returns(s: State)
    requires s.consumer != Idle
    ensures Enabled(s, ReturnAnswer) && Next(s, ReturnAnswer) == AfterReturn(s)
  {
  }

  lemma Consumes(s: State, a: Completed)
    requires s.consumer == Idle && a in s.completed
    ensures Enabled(s, Consume(a)) && Next(s, Consume(a)) == AfterConsume(s, a)
  {
  }

  lemma LoadsIt(s: State)
    requires s.consumer.Holding?
    ensures Enabled(s, LoadEntry) && Next(s, LoadEntry) == AfterLoad(s)
  {
  }

  lemma ExpiresIt(s: State, r: Request)
    requires r in s.retrying
    ensures Enabled(s, Expire(r)) && Next(s, Expire(r)) == AfterExpire(s, r)
  {
  }

  lemma ReplaysIt(s: State, r: Request, acked: bool)
    requires r in s.dead
    ensures Enabled(s, Replay(r, acked)) && Next(s, Replay(r, acked)) == AfterReplay(s, r, acked)
  {
  }

  lemma RequeuesIt(s: State, w: Work)
    requires w in s.working
    ensures Enabled(s, Requeue(w)) && Next(s, Requeue(w)) == AfterRequeue(s, w)
  {
  }

  lemma StartsPass(s: State)
    requires s.relay == Resting
    ensures Enabled(s, RelayStart) && Next(s, RelayStart) == s.(relay := Relaying(NextPass(s), false))
  {
  }

  lemma StopsPass(s: State)
    ensures Enabled(s, RelayStop) && Next(s, RelayStop) == AfterStop(s)
  {
  }

  lemma PublishesHead(s: State, id: string)
    requires s.relay.Relaying? && !s.relay.published && |s.relay.todo| > 0
    requires s.relay.todo[0] in s.entries && s.relay.todo[0] in s.contexts
    ensures Enabled(s, RelayPublish(id))
    ensures Next(s, RelayPublish(id)) == AfterPublish(s, s.relay.todo[0], id).(relay := s.relay.(published := true))
  {
  }

  lemma MarksHead(s: State, at: Time)
    requires s.relay.Relaying? && s.relay.published && |s.relay.todo| > 0 && s.relay.todo[0] in s.entries
    requires at != ZERO_TIME
    ensures Enabled(s, RelayMark(at)) && Next(s, RelayMark(at)) == AfterMark(s, at)
  {
  }
}
