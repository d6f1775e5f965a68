/** How a request copy of a pending resume comes before Resume Processing, whatever the state. */
module Asking {
  import opened Prelude
  import opened Screening
  import opened Handover
  import opened Pipeline
  import opened Protocol
  import opened ProtocolInvariant
  import opened ProtocolTheorems
  import opened Runs

  /** The relay has moved on: rows, contexts, line and batches are what they were, and so is this entry. */
  ghost predicate Onward(s: State, t: State, k: Key) {
    && t.rows == s.rows && t.contexts == s.contexts && t.line == s.line && t.entries.Keys == s.entries.Keys
    && k in s.entries && t.entries[k] == s.entries[k]
  }

  /** A pass that has published and marked the head of its list. */
  lemma HeadIsMarked(s0: State, s: State) returns (t: State)
    requires Reachable(s) && Leads(s0, s, true)
    requires s.relay.Relaying? && !s.relay.published && |s.relay.todo| > 0
    ensures s.relay.todo[0] in s.entries && Reachable(t) && Leads(s0, t, true)
    ensures t.relay == Relaying(s.relay.todo[1..], false)
    ensures t.rows == s.rows && t.contexts == s.contexts && t.line == s.line
    ensures t.entries == s.entries[s.relay.todo[0] := s.entries[s.relay.todo[0]].(requestedAt := 1)]
  {
    HeadIsKnown(s);
    hide Reachable, Leads, Enabled, Next, BodyOf;
    PublishesHead(s, "x");
    OneMore(s0, s, RelayPublish("x"), true);
    var s1 := Next(s, RelayPublish("x"));
    MarksHead(s1, 1);
    OneMore(s0, s1, RelayMark(1), true);
    t := Next(s1, RelayMark(1));
  }

  lemma HeadIsKnown(s: State)
    requires Reachable(s) && s.relay.Relaying? && |s.relay.todo| > 0
    ensures s.relay.todo[0] in s.entries && s.relay.todo[0] in s.contexts
  {
    hide Reachable;
    ReachableKeeps(s);
  }

  /** A pass comes to every resume on its list. */
  lemma {:induction false} PassReaches(s0: State, s: State, k: Key) returns (t: State, r: Request)
    requires Reachable(s) && Leads(s0, s, true) && k in s.entries
    requires s.relay.Relaying? && !s.relay.published && k in s.relay.todo
    ensures Reachable(t) && Leads(s0, t, true) && Onward(s, t, k)
    ensures r in t.requested && Concerns(r, k)
    decreases |s.relay.todo|
  {
    hide Reachable, Leads, Enabled, Next;
    HeadIsKnown(s);
    if s.relay.todo[0] == k {
      KeysMatch(s, k);
      PublishesHead(s, "x");
      OneMore(s0, s, RelayPublish("x"), true);
      t := Next(s, RelayPublish("x"));
      r := Request(Some(BodyOf(s, k, "x")), 0);
    } else {
      var s1 := HeadIsMarked(s0, s);
      assert k in s1.relay.todo;
      t, r := PassReaches(s0, s1, k);
    }
  }

  lemma KeysMatch(s: State, k: Key)
    requires Reachable(s) && k in s.entries
    ensures s.entries[k].batchId == k.batchId && s.entries[k].resumeId == k.resumeId
  {
    hide Reachable;
    ReachableKeeps(s);
    assert HiringEntryOk(s, k);
  }

  /** Some entries were marked, and nothing else about them changed. */
  ghost predicate OnlyMarked(s: State, t: State) {
    && t.rows == s.rows && t.contexts == s.contexts && t.line == s.line && t.entries.Keys == s.entries.Keys
    && forall j :: j in s.entries ==> t.entries[j] == s.entries[j] || t.entries[j] == s.entries[j].(requestedAt := 1)
  }

  /** A pass with the broker up gets through its list. */
  lemma {:induction false} PassDrains(s0: State, s: State) returns (t: State)
    requires Reachable(s) && Leads(s0, s, true) && s.relay.Relaying? && !s.relay.published
    ensures Reachable(t) && Leads(s0, t, true) && t.relay == Relaying([], false) && OnlyMarked(s, t)
    ensures forall j :: j in s.entries && j !in s.relay.todo ==> t.entries[j] == s.entries[j]
    ensures forall j :: j in s.relay.todo ==> j in t.entries && t.entries[j].requestedAt == 1
    decreases |s.relay.todo|
  {
    hide Reachable, Leads;
    if s.relay.todo == [] {
      t := s;
    } else {
      var s1 := HeadIsMarked(s0, s);
      t := PassDrains(s0, s1);
      assert s.relay.todo == [s.relay.todo[0]] + s1.relay.todo;
    }
  }

  lemma {:induction false} InWaiting(line: seq<Key>, entries: map<Key, Entry>, k: Key)
    requires k in line && k in entries && Unrequested(entries[k])
    ensures k in Waiting(line, entries)
  {
    if line[0] != k {
      assert line == [line[0]] + line[1..];
      InWaiting(line[1..], entries, k);
    }
  }

  /** Marked entries leave the line. */
  lemma {:induction false} LineShortens(line: seq<Key>, before: map<Key, Entry>, after: map<Key, Entry>)
    requires before.Keys == after.Keys
    requires forall j :: j in after && Unrequested(after[j]) ==> Unrequested(before[j])
    ensures |Waiting(line, after)| <= |Waiting(line, before)|
    ensures (exists j :: j in Waiting(line, before) && !Unrequested(after[j])) ==>
      |Waiting(line, after)| < |Waiting(line, before)|
  {
    if line != [] {
      LineShortens(line[1..], before, after);
    }
  }

  /** Pass after pass, the relay comes to every resume in the line. */
  lemma {:induction false} RelayReaches(s0: State, s: State, k: Key) returns (t: State, r: Request)
    requires Reachable(s) && Leads(s0, s, true) && s.relay == Resting && k in s.entries && Unrequested(s.entries[k])
    ensures Reachable(t) && Leads(s0, t, true) && Onward(s, t, k)
    ensures r in t.requested && Concerns(r, k)
    decreases |Waiting(s.line, s.entries)|
  {
    hide Reachable, Leads, Enabled, Next, Waiting;
    StandsInLine(s, k);
    InWaiting(s.line, s.entries, k);
    StartsPass(s);
    OneMore(s0, s, RelayStart, true);
    var s1 := Next(s, RelayStart);
    if k in s1.relay.todo {
      t, r := PassReaches(s0, s1, k);
    } else {
      var s2 := PassDrains(s0, s1);
      StopsPass(s2);
      OneMore(s0, s2, RelayStop, true);
      var s3 := Next(s2, RelayStop);
      var first := Waiting(s.line, s.entries)[0];
      assert first == s1.relay.todo[0];
      assert first in Waiting(s.line, s.entries) && !Unrequested(s3.entries[first]) && s3.line == s.line;
      LineShortens(s.line, s.entries, s3.entries);
      t, r := RelayReaches(s0, s3, k);
    }
  }

  lemma StandsInLine(s: State, k: Key)
    requires Reachable(s) && k in s.entries
    ensures k in s.line
  {
    hide Reachable;
    ReachableKeeps(s);
  }

  /** A copy in the queue is delivered. */
  lemma Delivered(s0: State, s: State, r: Request, again: bool) returns (t: State)
    requires Reachable(s) && Leads(s0, s, again) && r in s.requested
    ensures Reachable(t) && Leads(s0, t, again) && SameInHiring(s, t) && t.rows == s.rows
    ensures Work(r, Received) in t.working
  {
    hide Reachable, Leads, Enabled, Next;
    Delivers(s, r);
    OneMore(s0, s, Deliver(r), again);
    t := Next(s, Deliver(r));
  }

  /** A copy anywhere can be brought back: a delay runs out, a dead letter is replayed, a delivery is handed back. */
  lemma BroughtBack(s: State, k: Key) returns (t: State, r: Request)
    requires Reachable(s) && HasRequest(s, k)
    ensures Reachable(t) && Leads(s, t, true) && SameInHiring(s, t) && t.rows == s.rows
    ensures Work(r, Received) in t.working && Concerns(r, k)
  {
    hide Reachable, Leads, Enabled, Next, Live, Concerns;
    LeadsNowhere(s, true);
    var s1 := s;
    if q :| q in s.requested && Concerns(q, k) {
      r := q;
    } else if q :| q in s.retrying && Concerns(q, k) {
      ExpiresIt(s, q);
      OneMore(s, s, Expire(q), true);
      s1, r := Next(s, Expire(q)), q;
    } else if q :| q in s.dead && Concerns(q, k) {
      ReplaysIt(s, q, true);
      OneMore(s, s, Replay(q, true), true);
      s1, r := Next(s, Replay(q, true)), q.(attempt := 0);
      SameResume(q, k);
    } else {
      var w :| w in s.working && Live(w) && Concerns(w.request, k);
      RequeuesIt(s, w);
      OneMore(s, s, Requeue(w), true);
      s1, r := Next(s, Requeue(w)), w.request;
    }
    t := Delivered(s, s1, r, true);
  }

  lemma SameResume(r: Request, k: Key)
    ensures Concerns(r.(attempt := 0), k) <==> Concerns(r, k)
  {
  }

  /** An entry that was never requested is requested, and delivered. */
  lemma FirstAsked(s: State, k: Key) returns (t: State, r: Request)
    requires Reachable(s) && k in s.entries && Unrequested(s.entries[k])
    ensures Reachable(t) && Leads(s, t, true) && Onward(s, t, k)
    ensures Work(r, Received) in t.working && Concerns(r, k)
  {
    hide Reachable, Leads, Enabled, Next;
    LeadsNowhere(s, true);
    StopsPass(s);
    OneMore(s, s, RelayStop, true);
    var s1 := Next(s, RelayStop);
    var s2, q := RelayReaches(s, s1, k);
    r := q;
    t := Delivered(s, s2, q, true);
  }

  /** What a delivered copy carries. */
  lemma CarriesTheSnapshot(s: State, k: Key, r: Request)
    requires Reachable(s) && Work(r, Received) in s.working && Concerns(r, k)
    ensures r.body.Some? && KeyOf(r) == k && ValidRequest(r.body.value) && k in s.contexts
    ensures |s.contexts[k].criteria| > 0 && r.body.value.criteria == SentCriteria(s.contexts[k].criteria)
  {
    hide Reachable, ValidRequest;
    DeliveredRequestValid(s, r);
    ReachableKeeps(s);
    WorkingOk(s, Work(r, Received));
    assert HiringEntryOk(s, k);
  }
}
