/** The repository that keeps screening batches in memory: two maps and the submission order. */
module MemoryRepository {
  import opened Prelude
  import opened Openings
  import opened Screening
  import opened Archive

  function Resumes(entries: seq<Entry>): set<string> {
    set k | 0 <= k < |entries| :: entries[k].resumeId
  }

  /** A batch saved later takes over the resumes it holds. */
  lemma HolderAfterAdding(a: seq<Batch>, b: Batch, r: string)
    ensures Holder(a + [b], r) == if Holds(b, r) then |a| else if Stored(a, r) then Holder(a, r) else |a| + 1
  {
    var all := a + [b];
    assert forall k :: 0 <= k < |a| ==> all[k] == a[k];
    assert all[|a|] == b;
  }

  /** Changing a batch without moving a resume moves none. */
  lemma HolderAfterChange(a: seq<Batch>, i: nat, changed: Batch, r: string)
    requires i < |a| && (Holds(changed, r) <==> Holds(a[i], r))
    ensures Holder(a[i := changed], r) == Holder(a, r)
  {
    var out := a[i := changed];
    assert forall k :: 0 <= k < |a| ==> (Holds(out[k], r) <==> Holds(a[k], r));
  }

  lemma OnlyPosition(a: seq<Batch>, i: nat)
    requires i < |a| && forall j :: 0 <= j < |a| && j != i ==> a[j].id != a[i].id
    ensures Position(a, a[i].id) == i
  {
  }

  /** The submission order lists every batch once, under its own id. */
  predicate Ordered(batches: map<string, Batch>, order: seq<string>) {
    && (forall i :: 0 <= i < |order| ==> order[i] in batches && batches[order[i]].id == order[i])
    && (forall i, j :: 0 <= i < j < |order| ==> order[i] != order[j])
    && (forall id :: id in batches ==> id in order)
  }

  ghost function Listing(batches: map<string, Batch>, order: seq<string>): (a: seq<Batch>)
    requires forall i :: 0 <= i < |order| ==> order[i] in batches
    ensures |a| == |order| && forall i :: 0 <= i < |a| ==> a[i] == batches[order[i]]
  {
    seq(|order|, i requires 0 <= i < |order| => batches[order[i]])
  }

  /** The index names the last batch that holds each resume. */
  ghost predicate Indexed(a: seq<Batch>, order: seq<string>, batchOf: map<string, string>)
    requires |a| == |order|
  {
    forall r ::
      && (r in batchOf <==> Stored(a, r))
      && (r in batchOf ==> batchOf[r] == order[Holder(a, r)])
  }

  ghost predicate Consistent(batches: map<string, Batch>, order: seq<string>, batchOf: map<string, string>) {
    Ordered(batches, order) && Indexed(Listing(batches, order), order, batchOf)
  }

  lemma WhereABatchIs(batches: map<string, Batch>, order: seq<string>, batchOf: map<string, string>, id: string)
    requires Consistent(batches, order, batchOf)
    ensures id in batches <==> Position(Listing(batches, order), id) < |order|
    ensures id in batches ==>
      batches[id] == Listing(batches, order)[Position(Listing(batches, order), id)]
      && order[Position(Listing(batches, order), id)] == id
  {
    if id in batches {
      var i :| 0 <= i < |order| && order[i] == id;
      OnlyPosition(Listing(batches, order), i);
    }
  }

  /** The index after a batch was added, resume by resume. */
  ghost predicate Indexes(known: map<string, string>, b: Batch, batchOf: map<string, string>) {
    && (forall r :: r in batchOf <==> r in known || Holds(b, r))
    && (forall r :: r in batchOf ==> batchOf[r] == if Holds(b, r) then b.id else known[r])
  }

  lemma AddingKeepsOrdered(batches: map<string, Batch>, order: seq<string>, b: Batch)
    requires Ordered(batches, order) && b.id !in batches
    ensures Ordered(batches[b.id := b], order + [b.id])
    ensures Listing(batches[b.id := b], order + [b.id]) == Listing(batches, order) + [b]
  {
  }

  lemma AddingKeepsConsistent(batches: map<string, Batch>, order: seq<string>, batchOf: map<string, string>, b: Batch,
                              after: map<string, string>)
    requires Consistent(batches, order, batchOf) && b.id !in batches && Indexes(batchOf, b, after)
    ensures Consistent(batches[b.id := b], order + [b.id], after)
    ensures Listing(batches[b.id := b], order + [b.id]) == Listing(batches, order) + [b]
  {
    AddingKeepsOrdered(batches, order, b);
    var a := Listing(batches, order);
    forall r
      ensures r in after <==> Stored(a + [b], r)
      ensures r in after ==> after[r] == (order + [b.id])[Holder(a + [b], r)]
    {
      HolderAfterAdding(a, b, r);
    }
  }

  /** The entry found through the index is the archive's entry of that resume. */
  lemma FoundEntry(batches: map<string, Batch>, order: seq<string>, batchOf: map<string, string>, resumeId: string)
    requires Consistent(batches, order, batchOf) && resumeId in batchOf
    ensures batchOf[resumeId] in batches && Holds(batches[batchOf[resumeId]], resumeId)
    ensures
      var a, b := Listing(batches, order), batches[batchOf[resumeId]];
      && Stored(a, resumeId) && order[Holder(a, resumeId)] == batchOf[resumeId] && a[Holder(a, resumeId)] == b
      && EntryOf(a, resumeId) == b.entries[IndexOf(b.entries, resumeId)]
  {
    assert Stored(Listing(batches, order), resumeId);
  }

  lemma SettingKeepsOrdered(batches: map<string, Batch>, order: seq<string>, h: nat, changed: Batch)
    requires Ordered(batches, order) && h < |order| && changed.id == order[h]
    ensures Ordered(batches[changed.id := changed], order)
    ensures Listing(batches[changed.id := changed], order) == Listing(batches, order)[h := changed]
  {
  }

  /** A batch that still holds the same resumes is indexed as it was. */
  lemma SettingKeepsIndexed(a: seq<Batch>, order: seq<string>, batchOf: map<string, string>, h: nat, changed: Batch)
    requires |a| == |order| && h < |a| && Indexed(a, order, batchOf)
    requires forall r :: Holds(changed, r) <==> Holds(a[h], r)
    ensures Indexed(a[h := changed], order, batchOf)
  {
    hide Holder, Holds;
    forall r
      ensures Holder(a[h := changed], r) == Holder(a, r)
    {
      HolderAfterChange(a, h, changed, r);
    }
  }

  lemma UpdatingKeepsConsistent(batches: map<string, Batch>, order: seq<string>, batchOf: map<string, string>, e: Entry)
    requires Consistent(batches, order, batchOf) && e.resumeId in batchOf && batchOf[e.resumeId] in batches
    requires Holds(batches[batchOf[e.resumeId]], e.resumeId)
    ensures
      var b := batches[batchOf[e.resumeId]];
      var out := batches[b.id := b.(entries := b.entries[IndexOf(b.entries, e.resumeId) := e])];
      && b.id == batchOf[e.resumeId] && Consistent(out, order, batchOf) && Stored(Listing(batches, order), e.resumeId)
      && Listing(out, order) == Replaced(Listing(batches, order), e)
  {
    FoundEntry(batches, order, batchOf, e.resumeId);
    var a, b := Listing(batches, order), batches[batchOf[e.resumeId]];
    var h, p := Holder(a, e.resumeId), IndexOf(b.entries, e.resumeId);
    var changed := b.(entries := b.entries[p := e]);
    assert b.id == order[h];
    SameResumes(b.entries, p, e);
    assert forall r :: Holds(changed, r) <==> Holds(b, r);
    hide Ordered, Holder, IndexOf, Holds, Indexed;
    SettingKeepsOrdered(batches, order, h, changed);
    SettingKeepsIndexed(a, order, batchOf, h, changed);
  }

  /** Looking a resume up by the index, with Go's empty text for an unknown one, finds it exactly when it is stored. */
  lemma LookupIs(batches: map<string, Batch>, order: seq<string>, batchOf: map<string, string>, r: string)
    requires Consistent(batches, order, batchOf)
    ensures
      var id := if r in batchOf then batchOf[r] else "";
      && (id in batches && Holds(batches[id], r) <==> Stored(Listing(batches, order), r))
      && (Stored(Listing(batches, order), r) ==>
            && r in batchOf && batches[id].id == id
            && EntryOf(Listing(batches, order), r) == batches[id].entries[IndexOf(batches[id].entries, r)])
  {
    if r in batchOf {
      FoundEntry(batches, order, batchOf, r);
    } else if "" in batches {
      var i :| 0 <= i < |order| && order[i] == "";
      assert !Holds(Listing(batches, order)[i], r);
    }
  }

  method ReadWaiting(batches: map<string, Batch>, order: seq<string>, limit: nat) returns (out: seq<Batch>)
    requires forall i :: 0 <= i < |order| ==> order[i] in batches
    ensures out == UnrequestedOf(Listing(batches, order), limit)
  {
    ghost var a := Listing(batches, order);
    hide Listing, UnrequestedOf, Share, Clip, WaitingOnly;
    assert a[0..] == a;
    out := [];
    var i: nat, left: nat := 0, limit;
    while i < |order| && left > 0
      invariant i <= |order|
      invariant out + UnrequestedOf(a[i..], left) == UnrequestedOf(a, limit)
    {
      UnrequestedFrom(a, i, out, left);
      var share, taken := TakeShare(batches[order[i]], left);
      out := out + share;
      left := left - taken;
      i := i + 1;
    }
    UnrequestedDone(a, i, left);
  }

  method ReadOpening(batches: map<string, Batch>, order: seq<string>, jobOpeningId: string) returns (out: seq<Batch>)
    requires forall i :: 0 <= i < |order| ==> order[i] in batches
    ensures out == Of(Listing(batches, order), jobOpeningId)
  {
    ghost var a := Listing(batches, order);
    assert a[0..] == a;
    out := [];
    for i := 0 to |order|
      invariant out + Of(a[i..], jobOpeningId) == Of(a, jobOpeningId)
    {
      assert a[i..][1..] == a[i + 1..] && a[i..][0] == a[i];
      var b := batches[order[i]];
      if b.jobOpeningId == jobOpeningId {
        out := out + [b];
      }
    }
  }

  /** The loop in SaveBatch: the index with this batch's resumes added. */
  method IndexResumes(batchOf: map<string, string>, b: Batch) returns (out: map<string, string>)
    ensures Indexes(batchOf, b, out)
  {
    out := batchOf;
    for i := 0 to |b.entries|
      invariant forall r :: r in out <==> r in batchOf || r in Resumes(b.entries[..i])
      invariant forall r :: r in out ==> out[r] == if r in Resumes(b.entries[..i]) then b.id else batchOf[r]
    {
      assert b.entries[..i + 1] == b.entries[..i] + [b.entries[i]];
      out := out[b.entries[i].resumeId := b.id];
    }
    assert b.entries[..|b.entries|] == b.entries;
    assert forall r :: r in Resumes(b.entries) <==> Holds(b, r);
  }

  /** The loop in update: the first entry of a resume, or the number of entries when there is none. */
  method Seek(entries: seq<Entry>, resumeId: string) returns (i: nat)
    ensures i == IndexOf(entries, resumeId)
  {
    i := 0;
    while i < |entries| && entries[i].resumeId != resumeId
      invariant i <= |entries| && forall k :: 0 <= k < i ==> entries[k].resumeId != resumeId
    {
      i := i + 1;
    }
  }

  class Repository {
    var batches: map<string, Batch>
    var order: seq<string>
    var batchOf: map<string, string>

    ghost predicate Valid()
      reads this
    {
      Consistent(batches, order, batchOf)
    }

    ghost function Value(): seq<Batch>
      requires Valid()
      reads this
    {
      Listing(batches, order)
    }

    constructor ()
      ensures Valid() && Value() == []
    {
      batches, order, batchOf := map[], [], map[];
    }

    method SaveBatch(b: Batch) returns (r: Result<(), ScreeningError>)
      requires Valid()
      modifies this
      ensures Valid()
      ensures
        if Position(old(Value()), b.id) < |old(Value())| then r == Err(StorageError) && Value() == old(Value())
        else r == Ok(()) && Value() == old(Value()) + [b]
    {
      WhereABatchIs(batches, order, batchOf, b.id);
      if b.id in batches {
        return Err(StorageError);
      }
      ghost var known := batchOf;
      hide Indexed, Ordered;
      batchOf := IndexResumes(batchOf, b);
      AddingKeepsConsistent(batches, order, known, b, batchOf);
      batches := batches[b.id := b];
      order := order + [b.id];
      return Ok(());
    }

    method FindBatch(id: string) returns (r: Result<Batch, ScreeningError>)
      requires Valid()
      ensures ReadAnswerOf(Value(), Call.FindBatch(id)) == if r.Ok? then Found(r.value) else Refused(r.error)
    {
      WhereABatchIs(batches, order, batchOf, id);
      if id !in batches {
        return Err(BatchNotFound);
      }
      return Ok(batches[id]);
    }

    method FindBatchOfResume(resumeId: string) returns (r: Result<Batch, ScreeningError>)
      requires Valid()
      ensures ReadAnswerOf(Value(), Call.FindBatchOfResume(resumeId))
              == if r.Ok? then Found(r.value) else Refused(r.error)
    {
      if resumeId !in batchOf {
        assert !Stored(Value(), resumeId);
        return Err(ResumeNotFound);
      }
      FoundEntry(batches, order, batchOf, resumeId);
      var id := batchOf[resumeId];
      WhereABatchIs(batches, order, batchOf, id);
      r := FindBatch(id);
    }

    method ListBatches(jobOpeningId: string) returns (out: seq<Batch>)
      requires Valid()
      ensures out == Of(Value(), jobOpeningId)
    {
      out := ReadOpening(batches, order, jobOpeningId);
    }

    method Unrequested(limit: nat) returns (out: seq<Batch>)
      requires Valid()
      ensures out == UnrequestedOf(Value(), limit)
    {
      out := ReadWaiting(batches, order, limit);
    }

    /** Applies a change to the stored entry of a resume; the change keeps its resume id. */
    method Update(resumeId: string, change: Entry -> Entry) returns (r: Result<(), ScreeningError>)
      requires Valid() && (Stored(Value(), resumeId) ==> change(EntryOf(Value(), resumeId)).resumeId == resumeId)
      modifies this`batches
      ensures Valid()
      ensures
        if Stored(old(Value()), resumeId)
        then r.Ok? && Value() == Replaced(old(Value()), change(EntryOf(old(Value()), resumeId)))
        else r == Err(ResumeNotFound) && Value() == old(Value())
    {
      hide Consistent, Indexed, Ordered, Listing, Replaced, EntryOf, Holder, IndexOf, Stored;
      LookupIs(batches, order, batchOf, resumeId);
      var id := if resumeId in batchOf then batchOf[resumeId] else "";
      if id !in batches {
        return Err(ResumeNotFound);
      }
      var b := batches[id];
      var i := Seek(b.entries, resumeId);
      if i == |b.entries| {
        return Err(ResumeNotFound);
      }
      assert Holds(b, resumeId) && i == IndexOf(b.entries, resumeId);
      hide *;
      UpdatingKeepsConsistent(batches, order, batchOf, change(b.entries[i]));
      batches := batches[id := b.(entries := b.entries[i := change(b.entries[i])])];
      return Ok(());
    }

    method SaveEntry(e: Entry) returns (r: Result<(), ScreeningError>)
      requires Valid()
      modifies this`batches
      ensures Valid()
      ensures
        if Stored(old(Value()), e.resumeId) then r.Ok? && Value() == Replaced(old(Value()), e)
        else r == Err(ResumeNotFound) && Value() == old(Value())
    {
      r := Update(e.resumeId, (stored: Entry) => e);
    }

    method MarkRequested(resumeId: string, at: Time) returns (r: Result<(), ScreeningError>)
      requires Valid()
      modifies this`batches
      ensures Valid()
      ensures
        if Stored(old(Value()), resumeId)
        then r.Ok? && Value() == Replaced(old(Value()), EntryOf(old(Value()), resumeId).(requestedAt := at))
        else r == Err(ResumeNotFound) && Value() == old(Value())
    {
      r := Update(resumeId, (stored: Entry) => stored.(requestedAt := at));
    }
  }

  /** Changing an entry under its own resume id moves no resume. */
  lemma {:induction false} SameResumes(entries: seq<Entry>, i: nat, e: Entry)
    requires i < |entries| && e.resumeId == entries[i].resumeId
    ensures forall r :: IndexOf(entries[i := e], r) == IndexOf(entries, r)
  {
    if i > 0 {
      SameResumes(entries[1..], i - 1, e);
      assert entries[i := e][1..] == entries[1..][i - 1 := e];
    } else {
      assert entries[i := e][1..] == entries[1..];
    }
  }
}
