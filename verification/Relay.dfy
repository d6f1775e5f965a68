/** What a relay pass does to the store and to the requested queue, apart from the loop that does it. */
module Relay {
  import opened Openings
  import opened Screening
  import opened Archive

  const PUBLISH_LIMIT: nat := 500

  /** One waiting resume, with what its batch puts into its request. */
  datatype Item = Item(jobOpeningId: string, criteria: seq<Criterion>, entry: Entry)

  function ItemsOf(b: Batch): (r: seq<Item>)
    ensures |r| == |b.entries| && forall k :: 0 <= k < |r| ==> r[k] == Item(b.jobOpeningId, b.criteria, b.entries[k])
  {
    seq(|b.entries|, k requires 0 <= k < |b.entries| => Item(b.jobOpeningId, b.criteria, b.entries[k]))
  }

  function Items(batches: seq<Batch>): seq<Item> {
    if batches == [] then [] else ItemsOf(batches[0]) + Items(batches[1..])
  }

  function ResumeIds(entries: seq<Entry>): (r: seq<string>)
    ensures |r| == |entries| && forall k :: 0 <= k < |r| ==> r[k] == entries[k].resumeId
  {
    seq(|entries|, k requires 0 <= k < |entries| => entries[k].resumeId)
  }

  lemma {:induction false} ItemsAreFlat(batches: seq<Batch>)
    ensures |Items(batches)| == |Flat(batches)|
    ensures forall k :: 0 <= k < |Flat(batches)| ==> Items(batches)[k].entry == Flat(batches)[k]
  {
    if batches != [] {
      ItemsAreFlat(batches[1..]);
    }
  }

  /** How many items come before a batch's. */
  function Offset(batches: seq<Batch>, bi: nat): nat
    requires bi <= |batches|
  {
    if bi == 0 then 0 else |batches[0].entries| + Offset(batches[1..], bi - 1)
  }

  lemma {:induction false} ItemAt(batches: seq<Batch>, bi: nat, k: nat)
    requires bi < |batches| && k < |batches[bi].entries|
    ensures Offset(batches, bi) + k < |Items(batches)|
    ensures Items(batches)[Offset(batches, bi) + k]
        == Item(batches[bi].jobOpeningId, batches[bi].criteria, batches[bi].entries[k])
  {
    if bi > 0 {
      ItemAt(batches[1..], bi - 1, k);
    }
  }

  lemma {:induction false} NextOffset(batches: seq<Batch>, bi: nat)
    requires bi < |batches|
    ensures Offset(batches, bi + 1) == Offset(batches, bi) + |batches[bi].entries|
  {
    if bi > 0 {
      NextOffset(batches[1..], bi - 1);
    }
  }

  lemma {:induction false} OffsetBounded(batches: seq<Batch>, bi: nat)
    requires bi <= |batches|
    ensures Offset(batches, bi) <= |Items(batches)|
  {
    if bi > 0 {
      OffsetBounded(batches[1..], bi - 1);
    }
  }

  lemma {:induction false} AllItems(batches: seq<Batch>)
    ensures Offset(batches, |batches|) == |Items(batches)|
  {
    if batches != [] {
      AllItems(batches[1..]);
    }
  }

  /** No clock reads Go's zero time. */
  ghost predicate Ticks(clock: nat -> Time) {
    forall k: nat :: clock(k) != ZERO_TIME
  }

  function Mark(a: seq<Batch>, r: string, at: Time): seq<Batch> {
    if Stored(a, r) then Replaced(a, EntryOf(a, r).(requestedAt := at)) else a
  }

  /** The archive once the first n of these resumes were marked, the k-th at clock(k). */
  function Marked(a: seq<Batch>, ids: seq<string>, clock: nat -> Time, n: nat): seq<Batch>
    requires n <= |ids|
  {
    if n == 0 then a else Mark(Marked(a, ids, clock, n - 1), ids[n - 1], clock(n - 1))
  }

  lemma MarkedStep(a: seq<Batch>, ids: seq<string>, clock: nat -> Time, n: nat)
    requires 0 < n <= |ids|
    ensures Marked(a, ids, clock, n) == Mark(Marked(a, ids, clock, n - 1), ids[n - 1], clock(n - 1))
  {
  }

  // ---------- A store in which resumes and batches do not get confused ----------

  predicate EntryAt(a: seq<Batch>, i: int, k: int) {
    0 <= i < |a| && 0 <= k < |a[i].entries|
  }

  predicate DistinctIn(entries: seq<Entry>) {
    forall k, l :: 0 <= k < l < |entries| ==> entries[k].resumeId != entries[l].resumeId
  }

  ghost predicate Apart(a: seq<Batch>) {
    forall i, j, k, l :: EntryAt(a, i, k) && EntryAt(a, j, l) && i != j ==>
        a[i].entries[k].resumeId != a[j].entries[l].resumeId
  }

  /** Every resume is in one place, and carries its batch's id. */
  ghost predicate WellFormed(a: seq<Batch>) {
    && Apart(a)
    && (forall i :: 0 <= i < |a| ==> DistinctIn(a[i].entries))
    && (forall i, k :: EntryAt(a, i, k) ==> a[i].entries[k].batchId == a[i].id)
  }

  lemma WellFormedRest(a: seq<Batch>)
    requires WellFormed(a) && a != []
    ensures WellFormed(a[1..])
  {
    assert forall i, k :: EntryAt(a[1..], i, k) ==> EntryAt(a, i + 1, k) && a[1..][i].entries[k] == a[i + 1].entries[k];
  }

  // ---------- Marking the head of the line takes it out, and nothing else ----------

  lemma {:induction false} HeadOfBatch(entries: seq<Entry>, at: Time)
    requires DistinctIn(entries) && WaitingOnly(entries) != [] && at != ZERO_TIME
    ensures
      var e := WaitingOnly(entries)[0];
      var k := IndexOf(entries, e.resumeId);
      && k < |entries| && entries[k] == e
      && WaitingOnly(entries[k := e.(requestedAt := at)]) == WaitingOnly(entries)[1..]
  {
    if Waiting(entries[0]) {
      assert entries[0 := entries[0].(requestedAt := at)][1..] == entries[1..];
    } else {
      assert forall k, l :: 0 <= k < l < |entries[1..]| ==>
          entries[1..][k] == entries[k + 1] && entries[1..][l] == entries[l + 1];
      HeadOfBatch(entries[1..], at);
      var e := WaitingOnly(entries[1..])[0];
      var k := IndexOf(entries[1..], e.resumeId);
      assert entries[k + 1] == e;
      assert IndexOf(entries, e.resumeId) == k + 1;
      assert entries[k + 1 := e.(requestedAt := at)][1..] == entries[1..][k := e.(requestedAt := at)];
    }
  }

  lemma WaitingOfCons(b: Batch, rest: seq<Batch>)
    ensures AllWaiting([b] + rest) == WaitingOnly(b.entries) + AllWaiting(rest)
  {
    assert ([b] + rest)[1..] == rest;
  }

  /** A resume of the first batch is in no other. */
  lemma OnlyInFirst(a: seq<Batch>, r: string)
    requires WellFormed(a) && a != [] && Holds(a[0], r)
    ensures Holder(a, r) == 0
  {
    var k := IndexOf(a[0].entries, r);
    assert EntryAt(a, 0, k) && a[0].entries[k].resumeId == r;
    var j := Holder(a, r);
    var l := IndexOf(a[j].entries, r);
    assert EntryAt(a, j, l) && a[j].entries[l].resumeId == r;
  }

  lemma MarkedFirst(a: seq<Batch>, e: Entry, at: Time)
    requires WellFormed(a) && a != []
    requires
      var k := IndexOf(a[0].entries, e.resumeId);
      k < |a[0].entries| && a[0].entries[k] == e
    ensures Stored(a, e.resumeId) && EntryOf(a, e.resumeId) == e
    ensures Mark(a, e.resumeId, at)
      == [a[0].(entries := a[0].entries[IndexOf(a[0].entries, e.resumeId) := e.(requestedAt := at)])] + a[1..]
  {
    assert Holds(a[0], e.resumeId);
    OnlyInFirst(a, e.resumeId);
  }

  lemma HeadInFirst(a: seq<Batch>, at: Time)
    requires WellFormed(a) && a != [] && WaitingOnly(a[0].entries) != [] && at != ZERO_TIME
    ensures
      var e := AllWaiting(a)[0];
      && Stored(a, e.resumeId) && EntryOf(a, e.resumeId) == e
      && AllWaiting(Mark(a, e.resumeId, at)) == AllWaiting(a)[1..]
  {
    var waiting, rest := WaitingOnly(a[0].entries), AllWaiting(a[1..]);
    var e := waiting[0];
    assert AllWaiting(a) == waiting + rest && DistinctIn(a[0].entries);
    TailOfConcat(waiting, rest);
    hide *;
    HeadOfBatch(a[0].entries, at);
    MarkedFirst(a, e, at);
    var k := IndexOf(a[0].entries, e.resumeId);
    var b := a[0].(entries := a[0].entries[k := e.(requestedAt := at)]);
    WaitingOfCons(b, a[1..]);
  }

  lemma TailOfConcat<T>(x: seq<T>, y: seq<T>)
    requires x != []
    ensures (x + y)[0] == x[0] && (x + y)[1..] == x[1..] + y
  {
  }

  lemma MarkedRest(a: seq<Batch>, r: string, at: Time)
    requires WellFormed(a) && a != [] && Stored(a[1..], r)
    ensures Stored(a, r) && EntryOf(a, r) == EntryOf(a[1..], r)
    ensures Mark(a, r, at) == [a[0]] + Mark(a[1..], r, at)
  {
    NotInFirst(a, r);
  }

  lemma HeadInRest(a: seq<Batch>, at: Time)
    requires WellFormed(a) && a != [] && WaitingOnly(a[0].entries) == [] && AllWaiting(a[1..]) != []
    requires
      var e := AllWaiting(a[1..])[0];
      && Stored(a[1..], e.resumeId) && EntryOf(a[1..], e.resumeId) == e
      && AllWaiting(Mark(a[1..], e.resumeId, at)) == AllWaiting(a[1..])[1..]
    ensures
      var e := AllWaiting(a)[0];
      && Stored(a, e.resumeId) && EntryOf(a, e.resumeId) == e
      && AllWaiting(Mark(a, e.resumeId, at)) == AllWaiting(a)[1..]
  {
    var e := AllWaiting(a[1..])[0];
    assert AllWaiting(a) == AllWaiting(a[1..]);
    hide WellFormed, Mark, EntryOf, Stored, Holder, AllWaiting, WaitingOnly;
    MarkedRest(a, e.resumeId, at);
    WaitingOfCons(a[0], Mark(a[1..], e.resumeId, at));
  }

  lemma {:induction false} HeadOfTheLine(a: seq<Batch>, at: Time)
    requires WellFormed(a) && AllWaiting(a) != [] && at != ZERO_TIME
    ensures
      var e := AllWaiting(a)[0];
      && Stored(a, e.resumeId) && EntryOf(a, e.resumeId) == e
      && AllWaiting(Mark(a, e.resumeId, at)) == AllWaiting(a)[1..]
  {
    if WaitingOnly(a[0].entries) != [] {
      HeadInFirst(a, at);
    } else {
      WellFormedRest(a);
      HeadOfTheLine(a[1..], at);
      HeadInRest(a, at);
    }
  }

  lemma NotInFirst(a: seq<Batch>, r: string)
    requires WellFormed(a) && a != [] && Stored(a[1..], r)
    ensures !Holds(a[0], r) && Holder(a, r) == 1 + Holder(a[1..], r)
  {
    var j := Holder(a[1..], r);
    var l := IndexOf(a[1..][j].entries, r);
    assert EntryAt(a, j + 1, l) && a[j + 1].entries[l].resumeId == r;
    var k := IndexOf(a[0].entries, r);
    assert k < |a[0].entries| ==> EntryAt(a, 0, k);
  }

  /** Storing an entry in its own place, under its own batch's id, confuses nothing. */
  lemma ReplacedKeepsWellFormed(a: seq<Batch>, e: Entry)
    requires WellFormed(a) && Stored(a, e.resumeId) && e.batchId == EntryOf(a, e.resumeId).batchId
    ensures WellFormed(Replaced(a, e))
  {
    var out := Replaced(a, e);
    assert forall i, k :: EntryAt(out, i, k) <==> EntryAt(a, i, k);
    assert forall i, k :: EntryAt(a, i, k) ==>
      out[i].id == a[i].id && out[i].entries[k].resumeId == a[i].entries[k].resumeId
          && out[i].entries[k].batchId == a[i].entries[k].batchId;
    forall i | 0 <= i < |out|
      ensures DistinctIn(out[i].entries)
    {
      assert DistinctIn(a[i].entries);
      forall k, l | 0 <= k < l < |out[i].entries|
        ensures out[i].entries[k].resumeId != out[i].entries[l].resumeId
      {
        assert EntryAt(a, i, k) && EntryAt(a, i, l);
      }
    }
  }

  lemma MarkKeepsWellFormed(a: seq<Batch>, r: string, at: Time)
    requires WellFormed(a)
    ensures WellFormed(Mark(a, r, at))
  {
    if Stored(a, r) {
      ReplacedKeepsWellFormed(a, EntryOf(a, r).(requestedAt := at));
    }
  }

  /** Marking the first n in order leaves exactly the rest waiting. */
  lemma {:induction false} MarkingDrains(a: seq<Batch>, clock: nat -> Time, n: nat)
    requires WellFormed(a) && n <= |AllWaiting(a)| && Ticks(clock)
    ensures
      var out := Marked(a, ResumeIds(AllWaiting(a)), clock, n);
      WellFormed(out) && AllWaiting(out) == AllWaiting(a)[n..]
  {
    hide *;
    if n == 0 {
      NoneMarked(a, clock);
    } else {
      MarkingDrains(a, clock, n - 1);
      OneMoreOf(a, AllWaiting(a), clock, n);
      TickAt(clock, n - 1);
      OneMoreMarked(AllWaiting(a), Marked(a, ResumeIds(AllWaiting(a)), clock, n - 1), clock(n - 1), n);
    }
  }

  lemma TickAt(clock: nat -> Time, n: nat)
    requires Ticks(clock)
    ensures clock(n) != ZERO_TIME
  {
  }

  lemma NoneMarked(a: seq<Batch>, clock: nat -> Time)
    ensures Marked(a, ResumeIds(AllWaiting(a)), clock, 0) == a && AllWaiting(a)[0..] == AllWaiting(a)
  {
  }

  lemma OneMoreOf(a: seq<Batch>, waiting: seq<Entry>, clock: nat -> Time, n: nat)
    requires 0 < n <= |waiting|
    ensures Marked(a, ResumeIds(waiting), clock, n)
         == Mark(Marked(a, ResumeIds(waiting), clock, n - 1), waiting[n - 1].resumeId, clock(n - 1))
  {
  }

  lemma OneMoreMarked(waiting: seq<Entry>, before: seq<Batch>, at: Time, n: nat)
    requires WellFormed(before) && 0 < n <= |waiting| && AllWaiting(before) == waiting[n - 1..] && at != ZERO_TIME
    ensures
      var out := Mark(before, waiting[n - 1].resumeId, at);
      WellFormed(out) && AllWaiting(out) == waiting[n..]
  {
    hide *;
    DropOneMore(waiting, n);
    HeadOfTheLine(before, at);
    MarkKeepsWellFormed(before, waiting[n - 1].resumeId, at);
  }

  lemma DropOneMore<T>(s: seq<T>, n: nat)
    requires 0 < n <= |s|
    ensures s[n - 1..][0] == s[n - 1] && s[n - 1..][1..] == s[n..]
  {
  }

  /** Marking one resume sets the time of its own entry, and touches no other. */
  lemma MarkSays(a: seq<Batch>, r: string, at: Time, i: nat, k: nat)
    requires WellFormed(a) && EntryAt(a, i, k)
    ensures
      var out, e := Mark(a, r, at), a[i].entries[k];
      && |out| == |a| && EntryAt(out, i, k) && out[i].(entries := a[i].entries) == a[i]
      && out[i].entries[k] == if e.resumeId == r then e.(requestedAt := at) else e
  {
    if Stored(a, r) {
      var h := Holder(a, r);
      var p := IndexOf(a[h].entries, r);
      assert EntryAt(a, h, p);
      ReplacedSays(a, EntryOf(a, r).(requestedAt := at), h, p);
      if a[i].entries[k].resumeId == r {
        assert i == h && k == p;
      }
    } else {
      assert !Holds(a[i], r);
    }
    hide Replaced, Holder;
  }

  /** Marking any number of resumes changes request times only, and only theirs. */
  lemma {:induction false} MarkedKeeps(a: seq<Batch>, ids: seq<string>, clock: nat -> Time, n: nat, i: nat, k: nat)
    requires WellFormed(a) && n <= |ids| && EntryAt(a, i, k)
    ensures
      var out, e := Marked(a, ids, clock, n), a[i].entries[k];
      && WellFormed(out) && |out| == |a| && EntryAt(out, i, k) && out[i].(entries := a[i].entries) == a[i]
      && out[i].entries[k] == e.(requestedAt := out[i].entries[k].requestedAt)
      && (e.resumeId !in ids[..n] ==> out[i].entries[k] == e)
  {
    if n > 0 {
      hide *;
      var before := Marked(a, ids, clock, n - 1);
      MarkedStep(a, ids, clock, n);
      MarkedKeeps(a, ids, clock, n - 1, i, k);
      MarkKeepsWellFormed(before, ids[n - 1], clock(n - 1));
      MarkSays(before, ids[n - 1], clock(n - 1), i, k);
      LastOfPrefix(ids, n, a[i].entries[k].resumeId);
    } else {
      assert Marked(a, ids, clock, n) == a;
      hide *;
    }
  }

  lemma LastOfPrefix(ids: seq<string>, n: nat, r: string)
    requires 0 < n <= |ids|
    ensures r in ids[..n] <==> r in ids[..n - 1] || r == ids[n - 1]
  {
    assert ids[..n] == ids[..n - 1] + [ids[n - 1]];
  }

  /** Each of the first n carries the time of its own turn. */
  lemma {:induction false} MarkedAtItsTurn(a: seq<Batch>, ids: seq<string>, clock: nat -> Time, n: nat, j: nat, i: nat,
                                           k: nat)
    requires WellFormed(a) && j < n <= |ids| && EntryAt(a, i, k) && a[i].entries[k].resumeId == ids[j]
    requires forall l :: j < l < n ==> ids[l] != ids[j]
    ensures
      var out := Marked(a, ids, clock, n);
      |out| == |a| && EntryAt(out, i, k) && out[i].entries[k] == a[i].entries[k].(requestedAt := clock(j))
  {
    hide *;
    var before := Marked(a, ids, clock, n - 1);
    MarkedStep(a, ids, clock, n);
    MarkedKeeps(a, ids, clock, n - 1, i, k);
    MarkSays(before, ids[n - 1], clock(n - 1), i, k);
    if j < n - 1 {
      MarkedAtItsTurn(a, ids, clock, n - 1, j, i, k);
    }
  }

  /** Which batch and entry an item of the reading is. */
  lemma {:induction false} ItemIsFrom(batches: seq<Batch>, i: nat) returns (b: nat, k: nat)
    requires i < |Items(batches)|
    ensures EntryAt(batches, b, k)
    ensures
      var item := Items(batches)[i];
      && item.jobOpeningId == batches[b].jobOpeningId && item.criteria == batches[b].criteria
      && item.entry == batches[b].entries[k]
  {
    if i < |batches[0].entries| {
      b, k := 0, i;
    } else {
      var rest;
      rest, k := ItemIsFrom(batches[1..], i - |batches[0].entries|);
      b := rest + 1;
    }
  }

  /** Every item of a pass is an entry of the store, with the opening and the snapshot of its own batch. */
  lemma ItemsAreTheStores(a: seq<Batch>, limit: nat, i: nat)
    requires i < |Items(UnrequestedOf(a, limit))|
    ensures
      var item := Items(UnrequestedOf(a, limit))[i];
      exists b :: 0 <= b < |a| && item.jobOpeningId == a[b].jobOpeningId && item.criteria == a[b].criteria
                  && item.entry in a[b].entries
  {
    var read := UnrequestedOf(a, limit);
    var b, k := ItemIsFrom(read, i);
    UnrequestedAreBatches(a, limit, b);
    var c :| 0 <= c < |a| && read[b] == a[c].(entries := read[b].entries)
        && forall e :: e in read[b].entries ==> e in a[c].entries;
  }

  // ---------- Passes with the broker up ----------

  /** A pass in which everything is confirmed. */
  function Pass(a: seq<Batch>, clock: nat -> Time): seq<Batch> {
    var waiting := AllWaiting(a);
    Marked(a, ResumeIds(waiting), clock, if |waiting| < PUBLISH_LIMIT then |waiting| else PUBLISH_LIMIT)
  }

  function Passes(a: seq<Batch>, clocks: seq<nat -> Time>): seq<Batch>
    decreases |clocks|
  {
    if clocks == [] then a else Passes(Pass(a, clocks[0]), clocks[1..])
  }

  /** How many of n waiting resumes a number of passes takes. */
  function Taken(n: nat, passes: nat): nat {
    if n < PUBLISH_LIMIT * passes then n else PUBLISH_LIMIT * passes
  }

  lemma TakenAll(n: nat, passes: nat)
    ensures Taken(n, 1) <= n && Taken(n, passes) <= n
    ensures Taken(n, passes) == n <==> passes >= (n + PUBLISH_LIMIT - 1) / PUBLISH_LIMIT
    ensures passes > 0 ==> Taken(n, passes) == Taken(n, 1) + Taken(n - Taken(n, 1), passes - 1)
  {
  }

  lemma OnePass(a: seq<Batch>, clock: nat -> Time)
    requires WellFormed(a) && Ticks(clock)
    ensures WellFormed(Pass(a, clock)) && AllWaiting(Pass(a, clock)) == AllWaiting(a)[Taken(|AllWaiting(a)|, 1)..]
  {
    MarkingDrains(a, clock, Taken(|AllWaiting(a)|, 1));
  }

  lemma {:induction false} PassesTake(a: seq<Batch>, clocks: seq<nat -> Time>)
    requires WellFormed(a) && forall i :: 0 <= i < |clocks| ==> Ticks(clocks[i])
    ensures Taken(|AllWaiting(a)|, |clocks|) <= |AllWaiting(a)|
    ensures AllWaiting(Passes(a, clocks)) == AllWaiting(a)[Taken(|AllWaiting(a)|, |clocks|)..]
    decreases |clocks|
  {
    if clocks == [] {
      assert Taken(|AllWaiting(a)|, 0) == 0;
    } else {
      var next := Pass(a, clocks[0]);
      assert Passes(a, clocks) == Passes(next, clocks[1..]);
      hide *;
      OnePass(a, clocks[0]);
      PassesTake(next, clocks[1..]);
      TakesAddUp(AllWaiting(a), |clocks|);
    }
  }

  /** Dropping what one pass takes, and then what the others take of the rest. */
  lemma TakesAddUp(waiting: seq<Entry>, passes: nat)
    requires passes > 0
    ensures
      var n := |waiting|;
      && Taken(n, 1) <= n && Taken(n, passes) <= n && Taken(n - Taken(n, 1), passes - 1) <= n - Taken(n, 1)
      && waiting[Taken(n, 1)..][Taken(n - Taken(n, 1), passes - 1)..] == waiting[Taken(n, passes)..]
  {
    TakenAll(|waiting|, passes);
    TakenAll(|waiting| - Taken(|waiting|, 1), passes - 1);
    hide *;
  }

  /**
   * With n waiting and the broker up, each pass takes the oldest 500, so ceil(n / 500) passes leave none, and no
   * fewer do.
   */
  lemma PassesDrain(a: seq<Batch>, clocks: seq<nat -> Time>)
    requires WellFormed(a) && forall i :: 0 <= i < |clocks| ==> Ticks(clocks[i])
    ensures Taken(|AllWaiting(a)|, |clocks|) <= |AllWaiting(a)|
    ensures AllWaiting(Passes(a, clocks)) == AllWaiting(a)[Taken(|AllWaiting(a)|, |clocks|)..]
    ensures AllWaiting(Passes(a, clocks)) == [] <==> |clocks| >= (|AllWaiting(a)| + 499) / 500
  {
    PassesTake(a, clocks);
    TakenAll(|AllWaiting(a)|, |clocks|);
    hide *;
  }
}
