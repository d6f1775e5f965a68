/** From the batch that is saved to the requests it leads to: what they ask for, and in which order. */
module Uploads {
  import opened Screening
  import opened Handover
  import opened Pipeline
  import opened Protocol
  import opened ProtocolInvariant
  import opened ProtocolTheorems
  import opened Runs
  import Archive

  lemma SubmittingSays(s: State, c: Context, order: seq<Key>, added: map<Key, Entry>)
    requires Enabled(s, Submit(c, order, added))
    ensures
      var t := Next(s, Submit(c, order, added));
      && t.bucket == s.bucket && t.line == s.line + order
      && (forall k :: k in added ==>
          k in t.entries && t.entries[k] == added[k] && k in t.contexts && t.contexts[k] == c)
      && (forall k :: k in s.entries ==> k in t.entries && t.entries[k] == s.entries[k])
  {
  }

  /**
   * Once a batch is saved, every copy of a request for one of its resumes, in any continuation, asks for the
   * object that was uploaded, for the batch's opening, by the criteria of the snapshot taken then.
   */
  lemma WhatWasUploadedIsAskedFor(s: State, c: Context, order: seq<Key>, added: map<Key, Entry>, later: seq<Step>,
                                  r: Request)
    requires Reachable(s) && Enabled(s, Submit(c, order, added)) && CanRun(Next(s, Submit(c, order, added)), later)
    requires
      var t := After(Next(s, Submit(c, order, added)), later);
      r in t.requested || r in t.retrying || r in t.dead || Work(r, Received) in t.working
    ensures r.body.Some?
    ensures r.body.value.key in added ==>
      var m := r.body.value;
      && m.bucket == s.bucket && m.objectKey == added[m.key].objectKey && m.jobOpeningId == c.jobOpeningId
      && Lists(m.criteria, c.criteria)
  {
    hide *;
    var saved := Next(s, Submit(c, order, added));
    SubmittingSays(s, c, order, added);
    ReachableStep(s, Submit(c, order, added));
    RunStaysReachable(saved, later);
    RequestsAskForTheirOwn(After(saved, later), r);
    SubmissionStays(saved, later);
  }

  lemma SubmissionStays(s: State, steps: seq<Step>)
    requires Reachable(s) && CanRun(s, steps)
    ensures
      var t := After(s, steps);
      && t.bucket == s.bucket
      && (forall k :: k in s.entries ==> k in t.entries && t.entries[k].objectKey == s.entries[k].objectKey)
      && (forall k :: k in s.contexts ==> k in t.contexts && t.contexts[k] == s.contexts[k])
  {
    hide Inv, Enabled, Next, Reachable;
    ReachableKeeps(s);
    RunKeeps(s, steps);
  }

  // ---------- The order of the line ----------

  /** Who is ahead in the line stays ahead: whatever happens, newcomers stand behind everybody there. */
  lemma {:induction false} TheLineGrowsBehind(s: State, steps: seq<Step>)
    requires CanRun(s, steps)
    ensures s.line <= After(s, steps).line
    decreases |steps|
  {
    if |steps| > 0 {
      StepsBehind(s, steps[0]);
      TheLineGrowsBehind(Next(s, steps[0]), steps[1..]);
    }
    hide Enabled, Next;
  }

  lemma StepsBehind(s: State, step: Step)
    requires Enabled(s, step)
    ensures Next(s, step).line == if step.Submit? then s.line + step.order else s.line
  {
    hide RequestOf, Rule, Recordable, ReadAnswer, AfterDelivery, NextPass, NewlySubmitted, Decided;
  }

  lemma {:induction false} WaitingOf(line: seq<Key>, entries: map<Key, Entry>) returns (at: seq<nat>)
    ensures Archive.Picks(line, at, Waiting(line, entries))
    ensures forall p: nat :: p < |line| ==> (p in at <==> StillToAsk(entries, line[p]))
  {
    at := [];
    if line != [] {
      var rest := WaitingOf(line[1..], entries);
      var first := StillToAsk(entries, line[0]);
      at := (if first then [0] else []) + Archive.OneOn(rest);
      Archive.PicksFirst(line, rest, Waiting(line[1..], entries), first);
      hide Archive.OneOn, Archive.Picks, Waiting, StillToAsk;
      forall p: nat | p < |line| ensures p in at <==> StillToAsk(entries, line[p]) {
        if p > 0 {
          Archive.InOneOn(rest, p - 1);
          assert line[p] == line[1..][p - 1];
        } else {
          Archive.InOneOn(rest, 0);
        }
      }
    }
  }

  /** A pending resume that was never marked as requested. */
  predicate StillToAsk(entries: map<Key, Entry>, k: Key) {
    k in entries && entries[k].status.Pending? && entries[k].requestedAt == 0
  }

  /**
   * A pass works through the oldest resumes still to be asked for, in the order of the line: whoever it leaves
   * out stands behind five hundred it takes.
   */
  lemma OldestFirst(s: State) returns (at: seq<nat>)
    requires Enabled(s, RelayStart)
    ensures Next(s, RelayStart).relay.Relaying? && !Next(s, RelayStart).relay.published
    ensures Archive.Picks(s.line, at, Next(s, RelayStart).relay.todo) && |at| <= 500
    ensures forall p: nat :: p < |s.line| ==>
      if p in at then StillToAsk(s.entries, s.line[p])
      else StillToAsk(s.entries, s.line[p]) ==> |at| == 500 && forall i :: 0 <= i < |at| ==> at[i] < p
  {
    hide *;
    var all := WaitingOf(s.line, s.entries);
    var n := if |all| < 500 then |all| else 500;
    at := all[..n];
    PassIs(s);
    FirstPicked(s.line, all, Waiting(s.line, s.entries), n);
  }

  /** The first of the positions kept are before all the others. */
  lemma FirstPicked<T>(list: seq<T>, at: seq<nat>, kept: seq<T>, n: nat)
    requires Archive.Picks(list, at, kept) && n <= |at|
    ensures |at| == |kept| && Archive.Picks(list, at[..n], kept[..n])
    ensures forall p :: p in at[..n] ==> p in at
    ensures forall p, i :: p in at && p !in at[..n] && 0 <= i < n ==> at[i] < p
    ensures forall p :: p in at && p !in at[..n] ==> n < |at|
  {
    forall p | p in at && p !in at[..n]
      ensures n < |at| && forall i :: 0 <= i < n ==> at[i] < p
    {
      var j :| 0 <= j < |at| && at[j] == p;
      assert j >= n;
    }
  }

  lemma PassIs(s: State)
    requires Enabled(s, RelayStart)
    ensures
      var waiting := Waiting(s.line, s.entries);
      Next(s, RelayStart).relay == Relaying(waiting[..if |waiting| < 500 then |waiting| else 500], false)
  {
  }
}
