/** What a screening repository holds and answers, whatever it is built on: batches in submission order. */
module Archive {
  import opened Openings
  import opened Screening

  /** The repository's operations, and what each can answer. */
  datatype Call =
    | SaveBatch(batch: Batch)
    | SaveEntry(entry: Entry)
    | MarkRequested(resumeId: string, at: Time)
    | FindBatch(id: string)
    | FindBatchOfResume(resume: string)
    | ListBatches(jobOpeningId: string)
    | Unrequested(limit: nat)

  datatype Answer = Done | Refused(why: ScreeningError) | Found(batch: Batch) | Listed(batches: seq<Batch>)

  predicate Holds(b: Batch, resumeId: string) {
    IndexOf(b.entries, resumeId) < |b.entries|
  }

  /** The position of the batch with this id, or the number of batches when there is none. */
  function Position(a: seq<Batch>, id: string): (i: nat)
    ensures i <= |a|
    ensures i < |a| ==> a[i].id == id
    ensures forall k :: 0 <= k < i ==> a[k].id != id
  {
    if |a| == 0 || a[0].id == id then 0 else 1 + Position(a[1..], id)
  }

  /** The position of the last batch that holds a resume, or the number of batches when none does. */
  function Holder(a: seq<Batch>, resumeId: string): (i: nat)
    ensures i <= |a|
    ensures i < |a| ==> Holds(a[i], resumeId)
    ensures forall k :: 0 <= k < |a| && (k > i || i == |a|) ==> !Holds(a[k], resumeId)
  {
    if a == [] then 0
    else
      var rest := Holder(a[1..], resumeId);
      if rest < |a| - 1 then 1 + rest else if Holds(a[0], resumeId) then 0 else |a|
  }

  predicate Stored(a: seq<Batch>, resumeId: string) {
    Holder(a, resumeId) < |a|
  }

  function EntryOf(a: seq<Batch>, resumeId: string): (e: Entry)
    requires Stored(a, resumeId)
    ensures e.resumeId == resumeId
  {
    var b := a[Holder(a, resumeId)];
    b.entries[IndexOf(b.entries, resumeId)]
  }

  /** The archive with one resume's entry replaced. */
  function Replaced(a: seq<Batch>, e: Entry): (r: seq<Batch>)
    requires Stored(a, e.resumeId)
    ensures |r| == |a|
  {
    var i := Holder(a, e.resumeId);
    a[i := a[i].(entries := a[i].entries[IndexOf(a[i].entries, e.resumeId) := e])]
  }

  /** Replacing touches one place: the resume's first entry in the last batch that holds it. */
  lemma ReplacedSays(a: seq<Batch>, e: Entry, h: nat, p: nat)
    requires h < |a| && p < |a[h].entries| && a[h].entries[p].resumeId == e.resumeId
    requires forall k :: 0 <= k < p ==> a[h].entries[k].resumeId != e.resumeId
    requires forall i, k :: h < i < |a| && 0 <= k < |a[i].entries| ==> a[i].entries[k].resumeId != e.resumeId
    ensures Stored(a, e.resumeId) && EntryOf(a, e.resumeId) == a[h].entries[p]
    ensures
      var r := Replaced(a, e);
      && (forall i :: 0 <= i < |a| && i != h ==> r[i] == a[i])
      && r[h] == a[h].(entries := r[h].entries) && |r[h].entries| == |a[h].entries|
      && r[h].entries[p] == e && forall k :: 0 <= k < |a[h].entries| && k != p ==> r[h].entries[k] == a[h].entries[k]
  {
    assert IndexOf(a[h].entries, e.resumeId) == p;
    assert Holder(a, e.resumeId) == h;
  }

  predicate Waiting(e: Entry) {
    e.status == Pending && e.requestedAt == ZERO_TIME
  }

  function WaitingOnly(entries: seq<Entry>): seq<Entry> {
    if entries == [] then []
    else (if Waiting(entries[0]) then [entries[0]] else []) + WaitingOnly(entries[1..])
  }

  function Clip<T>(s: seq<T>, limit: nat): seq<T> {
    if |s| <= limit then s else s[..limit]
  }

  /** The batches holding resumes not yet requested, each with only those, at most limit in all. */
  function UnrequestedOf(a: seq<Batch>, limit: nat): seq<Batch>
    decreases |a|
  {
    if a == [] || limit == 0 then []
    else
      var some := Clip(WaitingOnly(a[0].entries), limit);
      (if some == [] then [] else [a[0].(entries := some)]) + UnrequestedOf(a[1..], limit - |some|)
  }

  /** One batch's share of the reading. */
  function Share(b: Batch, limit: nat): seq<Batch> {
    var some := Clip(WaitingOnly(b.entries), limit);
    if some == [] then [] else [b.(entries := some)]
  }

  /**
   * A copy of the batch without the entries already requested, cut to what is left of the limit; none when none is
   * left.
   */
  method TakeShare(b: Batch, left: nat) returns (share: seq<Batch>, taken: nat)
    ensures share == Share(b, left) && taken == |Clip(WaitingOnly(b.entries), left)| <= left
  {
    var entries := WaitingOnly(b.entries); // slices.DeleteFunc
    if |entries| > left {
      entries := entries[..left];
    }
    return if |entries| > 0 then [b.(entries := entries)] else [], |entries|;
  }

  /** The first batch gives its share, and the others what is left of the limit. */
  lemma UnrequestedStep(a: seq<Batch>, limit: nat)
    requires a != []
    ensures
      var left := limit - |Clip(WaitingOnly(a[0].entries), limit)|;
      left >= 0 && UnrequestedOf(a, limit) == Share(a[0], limit) + UnrequestedOf(a[1..], left)
  {
  }

  lemma UnrequestedFrom(a: seq<Batch>, i: nat, out: seq<Batch>, limit: nat)
    requires i < |a| && limit > 0
    ensures out + UnrequestedOf(a[i..], limit)
      == (out + Share(a[i], limit)) + UnrequestedOf(a[i + 1..], limit - |Clip(WaitingOnly(a[i].entries), limit)|)
  {
    UnrequestedStep(a[i..], limit);
    hide UnrequestedOf, Share, Clip, WaitingOnly;
    assert a[i..][1..] == a[i + 1..] && a[i..][0] == a[i];
  }

  lemma UnrequestedDone(a: seq<Batch>, i: nat, limit: nat)
    requires i <= |a| && (i == |a| || limit == 0)
    ensures UnrequestedOf(a[i..], limit) == []
  {
  }

  function Of(a: seq<Batch>, jobOpeningId: string): seq<Batch> {
    if a == [] then []
    else (if a[0].jobOpeningId == jobOpeningId then [a[0]] else []) + Of(a[1..], jobOpeningId)
  }

  function ReadAnswerOf(a: seq<Batch>, call: Call): Answer
    requires !call.SaveBatch? && !call.SaveEntry? && !call.MarkRequested?
  {
    match call
    case FindBatch(id) => if Position(a, id) < |a| then Found(a[Position(a, id)]) else Refused(BatchNotFound)
    case FindBatchOfResume(r) => if Stored(a, r) then Found(a[Holder(a, r)]) else Refused(ResumeNotFound)
    case ListBatches(id) => Listed(Of(a, id))
    case Unrequested(limit) => Listed(UnrequestedOf(a, limit))
  }

  // ---------- The relay's reading order ----------

  function Flat(batches: seq<Batch>): seq<Entry> {
    if batches == [] then [] else batches[0].entries + Flat(batches[1..])
  }

  function AllWaiting(a: seq<Batch>): seq<Entry> {
    if a == [] then [] else WaitingOnly(a[0].entries) + AllWaiting(a[1..])
  }

  lemma FlatOfShare(b: Batch, limit: nat, rest: seq<Batch>)
    ensures Flat(Share(b, limit) + rest) == Clip(WaitingOnly(b.entries), limit) + Flat(rest)
    ensures forall c :: c in Share(b, limit) ==> c.entries != []
  {
    hide WaitingOnly;
    if Share(b, limit) == [] {
      assert [] + rest == rest;
    } else {
      assert (Share(b, limit) + rest)[1..] == rest;
    }
  }

  lemma ClipSplits(x: seq<Entry>, y: seq<Entry>, limit: nat)
    ensures |Clip(x, limit)| <= limit
    ensures Clip(x + y, limit) == Clip(x, limit) + Clip(y, limit - |Clip(x, limit)|)
  {
  }

  lemma NoneUnrequested(a: seq<Batch>, limit: nat)
    requires a == []
    ensures UnrequestedOf(a, limit) == [] && Flat([]) == [] && Clip(AllWaiting(a), limit) == []
  {
  }

  lemma AllWaitingStep(a: seq<Batch>)
    requires a != []
    ensures AllWaiting(a) == WaitingOnly(a[0].entries) + AllWaiting(a[1..])
  {
  }

  /** Unrequested is exactly the first `limit` of every waiting entry, oldest first. */
  lemma {:induction false} UnrequestedIsThePrefix(a: seq<Batch>, limit: nat)
    ensures Flat(UnrequestedOf(a, limit)) == Clip(AllWaiting(a), limit)
    ensures forall b :: b in UnrequestedOf(a, limit) ==> b.entries != []
    decreases |a|
  {
    hide *;
    if a == [] {
      NoneUnrequested(a, limit);
    } else {
      var waiting := WaitingOnly(a[0].entries);
      var left := TakenIsWithin(waiting, limit);
      UnrequestedIsThePrefix(a[1..], left);
      UnrequestedStep(a, limit);
      AllWaitingStep(a);
      FlatOfShare(a[0], limit, UnrequestedOf(a[1..], left));
      ClipSplits(waiting, AllWaiting(a[1..]), limit);
    }
  }

  lemma TakenIsWithin(entries: seq<Entry>, limit: nat) returns (left: nat)
    ensures left == limit - |Clip(entries, limit)|
  {
    left := limit - |Clip(entries, limit)|;
  }

  /** As much as the limit allows, from the start. */
  lemma ClipIs(s: seq<Entry>, limit: nat)
    ensures |Clip(s, limit)| == (if |s| < limit then |s| else limit)
    ensures forall i :: 0 <= i < |Clip(s, limit)| ==> Clip(s, limit)[i] == s[i]
  {
  }

  /** Positions counted from one place earlier. */
  function OneOn(at: seq<nat>): (r: seq<nat>)
    ensures |r| == |at| && forall i :: 0 <= i < |r| ==> r[i] == at[i] + 1
  {
    seq(|at|, i requires 0 <= i < |at| => at[i] + 1)
  }

  lemma InOneOn(at: seq<nat>, k: nat)
    ensures k + 1 in OneOn(at) <==> k in at
    ensures 0 !in OneOn(at)
  {
    if k in at {
      var i :| 0 <= i < |at| && at[i] == k;
      assert OneOn(at)[i] == k + 1;
    }
  }

  /** Which positions of a list a filter keeps: `at` are some positions of it, in order, and `kept` what is there. */
  ghost predicate Picks<T>(list: seq<T>, at: seq<nat>, kept: seq<T>) {
    && |at| == |kept|
    && (forall i :: 0 <= i < |at| ==> at[i] < |list| && kept[i] == list[at[i]])
    && forall i, j :: 0 <= i < j < |at| ==> at[i] < at[j]
  }

  lemma PicksFirst<T>(list: seq<T>, at: seq<nat>, kept: seq<T>, first: bool)
    requires list != [] && Picks(list[1..], at, kept)
    ensures Picks(list, (if first then [0] else []) + OneOn(at), (if first then [list[0]] else []) + kept)
  {
  }

  /** The entries kept are those pending and never requested, in their order. */
  lemma {:induction false} WaitingInOrder(entries: seq<Entry>) returns (at: seq<nat>)
    ensures Picks(entries, at, WaitingOnly(entries))
    ensures forall k: nat :: k < |entries| ==>
      (k in at <==> entries[k].status.Pending? && entries[k].requestedAt == ZERO_TIME)
  {
    at := [];
    if entries != [] {
      var rest := WaitingInOrder(entries[1..]);
      at := (if Waiting(entries[0]) then [0] else []) + OneOn(rest);
      PicksFirst(entries, rest, WaitingOnly(entries[1..]), Waiting(entries[0]));
      hide OneOn, Picks, WaitingOnly;
      forall k: nat | k < |entries|
        ensures k in at <==> entries[k].status.Pending? && entries[k].requestedAt == ZERO_TIME
      {
        if k > 0 {
          InOneOn(rest, k - 1);
          assert entries[k] == entries[1..][k - 1];
        } else {
          InOneOn(rest, 0);
        }
      }
    }
  }

  lemma {:induction false} WaitingOnlyIs(entries: seq<Entry>)
    ensures forall e :: e in WaitingOnly(entries) <==>
      e in entries && e.status.Pending? && e.requestedAt == ZERO_TIME
  {
    if entries != [] {
      WaitingOnlyIs(entries[1..]);
      assert entries == [entries[0]] + entries[1..];
    }
  }

  /** An opening's batches, all of them and in submission order. */
  lemma {:induction false} OfInOrder(a: seq<Batch>, jobOpeningId: string) returns (at: seq<nat>)
    ensures Picks(a, at, Of(a, jobOpeningId))
    ensures forall k: nat :: k < |a| ==> (k in at <==> a[k].jobOpeningId == jobOpeningId)
  {
    at := [];
    if a != [] {
      var rest := OfInOrder(a[1..], jobOpeningId);
      var first := a[0].jobOpeningId == jobOpeningId;
      at := (if first then [0] else []) + OneOn(rest);
      PicksFirst(a, rest, Of(a[1..], jobOpeningId), first);
      hide OneOn, Picks, Of;
      forall k: nat | k < |a| ensures k in at <==> a[k].jobOpeningId == jobOpeningId {
        if k > 0 {
          InOneOn(rest, k - 1);
          assert a[k] == a[1..][k - 1];
        } else {
          InOneOn(rest, 0);
        }
      }
    }
  }

  /** Every batch read for the relay is one of the archive's, with only its entries cut down. */
  lemma {:induction false} UnrequestedAreBatches(a: seq<Batch>, limit: nat, i: nat)
    requires i < |UnrequestedOf(a, limit)|
    ensures exists k ::
        0 <= k < |a| && UnrequestedOf(a, limit)[i] == a[k].(entries := UnrequestedOf(a, limit)[i].entries)
                        && forall e :: e in UnrequestedOf(a, limit)[i].entries ==> e in a[k].entries
    decreases |a|
  {
    var some := Clip(WaitingOnly(a[0].entries), limit);
    var own := Share(a[0], limit);
    UnrequestedStep(a, limit);
    WaitingOnlyIs(a[0].entries);
    if i < |own| {
      assert UnrequestedOf(a, limit)[i] == a[0].(entries := some);
      assert forall e :: e in some ==> e in WaitingOnly(a[0].entries);
    } else {
      var left := limit - |some|;
      UnrequestedAreBatches(a[1..], left, i - |own|);
      assert UnrequestedOf(a, limit)[i] == UnrequestedOf(a[1..], left)[i - |own|];
      var k :| 0 <= k < |a[1..]|
          && UnrequestedOf(a, limit)[i] == a[1..][k].(entries := UnrequestedOf(a, limit)[i].entries)
          && forall e :: e in UnrequestedOf(a, limit)[i].entries ==> e in a[1..][k].entries;
      assert a[k + 1] == a[1..][k];
    }
  }
}
