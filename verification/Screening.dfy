/** Screening batches: one answer per resume, the Recruiter's decisions, and what stays true of an entry. */
module Screening {
  import opened Prelude
  import opened Openings

  const MAX_SCORE := 100

  datatype EntryStatus = Pending | ScreenedOk | NeedsReview | Failed

  datatype ScreeningError =
    | InvalidScreening
    | AlreadyCompleted
    | TransitionRefused
    | ResumeNotFound
    | BatchNotFound
    | StorageError // the repository could not do what was asked

  datatype ScreeningResult = ScreeningResult(
    candidateId: string,
    score: int,
    meetsMustHaves: bool,
    unmetMustHaves: seq<int>,
    reason: string,
    completedAt: Time)

  datatype ScoreOverride = ScoreOverride(score: int, at: Time)

  datatype Entry = Entry(
    resumeId: string,
    batchId: string,
    fileName: string,
    objectKey: string,
    sizeBytes: int,
    status: EntryStatus,
    requestedAt: Time, // zero while the request still waits to be sent
    result: Option<ScreeningResult>,
    correction: Option<ScoreOverride>,
    shortlistedAt: Time)

  datatype NewEntry = NewEntry(resumeId: string, fileName: string, objectKey: string, sizeBytes: int)

  /** A batch as stored and returned: what the class below holds. */
  datatype Batch = Batch(
    id: string,
    jobOpeningId: string,
    submittedAt: Time,
    criteria: seq<Criterion>,
    entries: seq<Entry>)

  /** The score the ranking uses: the Recruiter's when there is one. */
  function Score(e: Entry): int {
    if e.correction.Some? then e.correction.value.score
    else if e.result.Some? then e.result.value.score
    else 0
  }

  predicate IsMustHave(criteria: seq<Criterion>, pos: int) {
    0 <= pos < |criteria| && criteria[pos].classification == MustHave
  }

  ghost predicate NoRepeats(s: seq<int>) {
    forall i, j :: 0 <= i < j < |s| ==> s[i] != s[j]
  }

  /** FR-2.5: a score on the scale and, exactly when the candidate is not qualified, must-haves that say why. */
  ghost predicate AcceptableResult(criteria: seq<Criterion>, r: ScreeningResult) {
    && r.candidateId != ""
    && 0 <= r.score <= MAX_SCORE
    && (forall i :: 0 <= i < |r.unmetMustHaves| ==> IsMustHave(criteria, r.unmetMustHaves[i]))
    && NoRepeats(r.unmetMustHaves)
    && (r.meetsMustHaves <==> |r.unmetMustHaves| == 0)
  }

  /** checkScreened. */
  method CheckScreened(criteria: seq<Criterion>, r: ScreeningResult) returns (ok: bool)
    ensures ok <==> AcceptableResult(criteria, r)
  {
    if r.candidateId == "" {
      return false;
    }
    if r.score < 0 || r.score > MAX_SCORE {
      return false;
    }
    var seen: map<int, bool> := map[];
    for i := 0 to |r.unmetMustHaves|
      invariant forall k :: 0 <= k < i ==> IsMustHave(criteria, r.unmetMustHaves[k])
      invariant NoRepeats(r.unmetMustHaves[..i])
      invariant forall pos :: pos in seen <==> pos in r.unmetMustHaves[..i]
    {
      var pos := r.unmetMustHaves[i];
      if !IsMustHave(criteria, pos) {
        return false;
      }
      if pos in seen {
        var k :| 0 <= k < i && r.unmetMustHaves[..i][k] == pos;
        assert r.unmetMustHaves[k] == r.unmetMustHaves[i];
        return false;
      }
      seen := seen[pos := true];
      assert r.unmetMustHaves[..i + 1] == r.unmetMustHaves[..i] + [pos];
    }
    assert r.unmetMustHaves[..|r.unmetMustHaves|] == r.unmetMustHaves;
    if r.meetsMustHaves && |r.unmetMustHaves| > 0 {
      return false;
    }
    if !r.meetsMustHaves && |r.unmetMustHaves| == 0 {
      return false;
    }
    return true;
  }

  /** The part of an answer that is kept: an unscored one keeps no score and no verdict. */
  function Kept(status: EntryStatus, r: ScreeningResult): ScreeningResult {
    if status == ScreenedOk then r.(reason := "")
    else ScreeningResult(r.candidateId, 0, false, [], TrimSpace(r.reason), r.completedAt)
  }

  /** Whether an answer for a pending resume may be recorded. */
  ghost predicate Recordable(criteria: seq<Criterion>, status: EntryStatus, r: ScreeningResult) {
    status != Pending && (status == ScreenedOk ==> AcceptableResult(criteria, r))
  }

  /** What holds of an entry from the moment it is submitted, whatever is done to it. */
  ghost predicate EntryOk(criteria: seq<Criterion>, e: Entry) {
    && (e.status == Pending <==> e.result == None)
    && (e.status != ScreenedOk ==> e.correction == None && e.shortlistedAt == ZERO_TIME)
    && (e.status == ScreenedOk ==> AcceptableResult(criteria, e.result.value) && e.result.value.reason == "")
    && (e.correction.Some? ==> 0 <= e.correction.value.score <= MAX_SCORE)
    && (e.status in {NeedsReview, Failed} ==>
          && e.result.value.score == 0 && !e.result.value.meetsMustHaves
          && e.result.value.unmetMustHaves == [])
  }

  /** The position of the first entry of a resume, or the number of entries when there is none. */
  function IndexOf(entries: seq<Entry>, resumeId: string): (i: nat)
    ensures i <= |entries|
    ensures i < |entries| ==> entries[i].resumeId == resumeId
    ensures forall k :: 0 <= k < i ==> entries[k].resumeId != resumeId
  {
    if |entries| == 0 || entries[0].resumeId == resumeId then 0 else 1 + IndexOf(entries[1..], resumeId)
  }

  /** The answer RecordResult gives for an answer that names this resume. */
  ghost function Verdict(b: Batch, resumeId: string, status: EntryStatus,
                         r: ScreeningResult): Result<(), ScreeningError> {
    var i := IndexOf(b.entries, resumeId);
    if i == |b.entries| then Err(InvalidScreening)
    else if b.entries[i].status != Pending then Err(AlreadyCompleted)
    else if !Recordable(b.criteria, status, r) then Err(InvalidScreening)
    else Ok(())
  }

  /** What recording an answer does to its entry. */
  function Recorded(e: Entry, status: EntryStatus, r: ScreeningResult): Entry {
    e.(status := status, result := Some(Kept(status, r)))
  }

  /** What recording leaves of the entry: the answer, cut to what its status allows, and all else as it was. */
  ghost predicate RecordedAs(before: Entry, now: Entry, status: EntryStatus, r: ScreeningResult) {
    && now == before.(status := status, result := now.result) && now.result.Some?
    && now.result.value.candidateId == r.candidateId && now.result.value.completedAt == r.completedAt
    && (status.ScreenedOk? ==>
          && now.result.value.score == r.score && now.result.value.meetsMustHaves == r.meetsMustHaves
          && now.result.value.unmetMustHaves == r.unmetMustHaves && now.result.value.reason == "")
    && (!status.ScreenedOk? ==>
          && now.result.value.score == 0 && !now.result.value.meetsMustHaves && now.result.value.unmetMustHaves == []
          && now.result.value.reason == TrimSpace(r.reason))
  }

  /** A resume as it was uploaded, waiting to be sent. */
  ghost predicate JustAsUploaded(batchId: string, n: NewEntry, e: Entry) {
    && e.resumeId == n.resumeId && e.batchId == batchId && e.fileName == n.fileName && e.objectKey == n.objectKey
    && e.sizeBytes == n.sizeBytes && e.status.Pending? && e.requestedAt == ZERO_TIME && e.shortlistedAt == ZERO_TIME
    && e.result == None && e.correction == None
  }

  /** The must-haves of a snapshot, by position. */
  ghost function MustHaves(criteria: seq<Criterion>): set<int> {
    set p: int | 0 <= p < |criteria| && criteria[p].classification.MustHave?
  }

  lemma {:induction false} NoRepeatsIff(s: seq<int>)
    ensures NoRepeats(s) <==> |set i | 0 <= i < |s| :: s[i]| == |s|
    ensures |set i | 0 <= i < |s| :: s[i]| <= |s|
  {
    if s != [] {
      var n := |s| - 1;
      var before := s[..n];
      NoRepeatsIff(before);
      assert (set i | 0 <= i < |s| :: s[i]) == (set i | 0 <= i < n :: before[i]) + {s[n]};
      assert NoRepeats(s) <==> NoRepeats(before) && s[n] !in (set i | 0 <= i < n :: before[i]) by {
        assert forall i :: 0 <= i < n ==> s[i] == before[i];
      }
    }
  }

  /**
   * When an answer is recorded, in the snapshot's own terms: a screened one names a candidate, scores within 0 to
   * 100, and lists unmet must-haves of the snapshot without naming one twice - none exactly when all are met.
   */
  lemma RecordableIff(criteria: seq<Criterion>, status: EntryStatus, r: ScreeningResult)
    ensures
      var unmet := set i | 0 <= i < |r.unmetMustHaves| :: r.unmetMustHaves[i];
      Recordable(criteria, status, r) <==>
        || status.NeedsReview? || status.Failed?
        || (&& status.ScreenedOk? && r.candidateId != "" && 0 <= r.score <= 100
            && unmet <= MustHaves(criteria) && |unmet| == |r.unmetMustHaves| && (r.meetsMustHaves <==> unmet == {}))
  {
    var unmet := set i | 0 <= i < |r.unmetMustHaves| :: r.unmetMustHaves[i];
    NoRepeatsIff(r.unmetMustHaves);
    assert r.unmetMustHaves == [] <==> unmet == {} by {
      assert r.unmetMustHaves != [] ==> r.unmetMustHaves[0] in unmet;
    }
    assert unmet <= MustHaves(criteria) <==>
        forall i :: 0 <= i < |r.unmetMustHaves| ==> r.unmetMustHaves[i] in MustHaves(criteria);
  }

  /** Which answer is taken: the first for the first entry of its resume, when it can be recorded. */
  lemma VerdictIs(b: Batch, resumeId: string, status: EntryStatus, r: ScreeningResult, i: nat)
    requires i < |b.entries| && b.entries[i].resumeId == resumeId
    requires forall k :: 0 <= k < i ==> b.entries[k].resumeId != resumeId
    ensures Verdict(b, resumeId, status, r) == Err(AlreadyCompleted) <==> !b.entries[i].status.Pending?
    ensures Verdict(b, resumeId, status, r).Ok? <==> b.entries[i].status.Pending? && Recordable(b.criteria, status, r)
  {
    hide Recordable;
  }

  class ScreeningBatch {
    const id: string
    const jobOpeningId: string
    const submittedAt: Time
    const criteria: seq<Criterion> // the snapshot, never revised
    var entries: seq<Entry>

    ghost function Value(): Batch
      reads this
    {
      Batch(id, jobOpeningId, submittedAt, criteria, entries)
    }

    ghost predicate Valid()
      reads this
    {
      forall i :: 0 <= i < |entries| ==> EntryOk(criteria, entries[i])
    }

    constructor (b: Batch)
      ensures Value() == b
      ensures id == b.id && jobOpeningId == b.jobOpeningId && submittedAt == b.submittedAt
      ensures criteria == b.criteria && entries == b.entries
    {
      id, jobOpeningId, submittedAt, criteria, entries := b.id, b.jobOpeningId, b.submittedAt, b.criteria, b.entries;
    }

    /** Entry: the entry of a resume, as its position; the number of entries stands for nil. */
    method Find(resumeId: string) returns (i: nat)
      ensures i == IndexOf(entries, resumeId)
    {
      i := 0;
      while i < |entries|
        invariant i <= |entries|
        invariant forall k :: 0 <= k < i ==> entries[k].resumeId != resumeId
      {
        if entries[i].resumeId == resumeId {
          return;
        }
        i := i + 1;
      }
    }

    /** Whether every resume has its final answer. */
    method Complete() returns (complete: bool)
      ensures complete <==> forall i :: 0 <= i < |entries| ==> entries[i].status != Pending
    {
      for i := 0 to |entries|
        invariant forall k :: 0 <= k < i ==> entries[k].status != Pending
      {
        if entries[i].status == Pending {
          return false;
        }
      }
      return true;
    }

    /** Stores screening's answer for one pending resume; a second answer is refused and changes nothing. */
    method RecordResult(resumeId: string, status: EntryStatus,
                        r: ScreeningResult) returns (res: Result<(), ScreeningError>)
      modifies this`entries
      ensures res == Verdict(old(Value()), resumeId, status, r)
      ensures res.Err? ==> entries == old(entries)
      ensures res.Ok? ==>
        var i := IndexOf(old(entries), resumeId);
        entries == old(entries)[i := Recorded(old(entries)[i], status, r)]
            && RecordedAs(old(entries)[i], entries[i], status, r)
      ensures old(Valid()) ==> Valid()
    {
      var i := Find(resumeId);
      if i == |entries| {
        return Err(InvalidScreening);
      }
      if entries[i].status != Pending {
        return Err(AlreadyCompleted);
      }
      var kept := r;
      match status {
        case ScreenedOk =>
          var ok := CheckScreened(criteria, r);
          if !ok {
            return Err(InvalidScreening);
          }
          kept := r.(reason := "");
        case NeedsReview | Failed =>
          kept := ScreeningResult(r.candidateId, 0, false, [], TrimSpace(r.reason), r.completedAt);
        case Pending =>
          return Err(InvalidScreening);
      }
      entries := entries[i := entries[i].(status := status, result := Some(kept))];
      return Ok(());
    }

    /** OverrideScore on the entry at position i. */
    method OverrideScore(i: nat, score: int, at: Time) returns (res: Result<(), ScreeningError>)
      requires i < |entries|
      modifies this`entries
      ensures res.Ok? <==> old(entries)[i].status == ScreenedOk && 0 <= score <= 100
      ensures res.Err? ==>
          res.error == if old(entries)[i].status != ScreenedOk then TransitionRefused else InvalidScreening
      ensures entries == if res.Ok? then old(entries)[i := Overridden(old(entries)[i], score, at)] else old(entries)
      ensures res.Ok? ==>
        && entries[i].correction.Some? && entries[i].correction.value.score == score
            && entries[i].correction.value.at == at
        && entries[i] == old(entries)[i].(correction := entries[i].correction)
      ensures old(Valid()) ==> Valid()
    {
      if entries[i].status != ScreenedOk {
        return Err(TransitionRefused);
      }
      if score < 0 || score > MAX_SCORE {
        return Err(InvalidScreening);
      }
      entries := entries[i := entries[i].(correction := Some(ScoreOverride(score, at)))];
      return Ok(());
    }

    /** Shortlist on the entry at position i. */
    method Shortlist(i: nat, at: Time) returns (res: Result<(), ScreeningError>)
      requires i < |entries|
      modifies this`entries
      ensures res == if old(entries)[i].status == ScreenedOk && old(entries)[i].shortlistedAt == ZERO_TIME then Ok(())
                     else Err(TransitionRefused)
      ensures entries == if res.Ok? then old(entries)[i := Shortlisted(old(entries)[i], at)] else old(entries)
      ensures res.Ok? ==>
        entries[i].shortlistedAt == at && entries[i] == old(entries)[i].(shortlistedAt := entries[i].shortlistedAt)
      ensures old(Valid()) ==> Valid()
    {
      if entries[i].status != ScreenedOk {
        return Err(TransitionRefused);
      }
      if entries[i].shortlistedAt != ZERO_TIME {
        return Err(TransitionRefused);
      }
      entries := entries[i := entries[i].(shortlistedAt := at)];
      return Ok(());
    }
  }

  function Overridden(e: Entry, score: int, at: Time): Entry {
    e.(correction := Some(ScoreOverride(score, at)))
  }

  function Shortlisted(e: Entry, at: Time): Entry {
    e.(shortlistedAt := at)
  }

  /** The entry a newly submitted resume starts as. */
  function Submitted(batchId: string, n: NewEntry): Entry {
    Entry(n.resumeId, batchId, n.fileName, n.objectKey, n.sizeBytes, Pending, ZERO_TIME, None, None, ZERO_TIME)
  }

  /**
   * Accepts resumes against an open opening, taking the snapshot the batch is judged against. The
   * snapshot is the opening's criteria at this moment; a later revision reaches the opening only.
   */
  method NewScreeningBatch(id: string, opening: JobOpening, resumes: seq<NewEntry>, submittedAt: Time)
    returns (r: Result<ScreeningBatch, ScreeningError>)
    ensures r.Ok? <==> opening.status == Open && |resumes| > 0
    ensures r.Err? ==> r.error == if opening.status != Open then TransitionRefused else InvalidScreening
    ensures r.Ok? ==>
      && fresh(r.value) && r.value.Valid()
      && r.value.id == id && r.value.jobOpeningId == opening.id && r.value.submittedAt == submittedAt
      && r.value.criteria == opening.criteria
      && |r.value.entries| == |resumes|
      && forall i :: 0 <= i < |resumes| ==>
           r.value.entries[i] == Submitted(id, resumes[i]) && JustAsUploaded(id, resumes[i], r.value.entries[i])
  {
    if opening.status != Open {
      return Err(TransitionRefused);
    }
    if |resumes| == 0 {
      return Err(InvalidScreening);
    }
    var entries: seq<Entry> := [];
    for i := 0 to |resumes|
      invariant |entries| == i
      invariant forall k :: 0 <= k < i ==> entries[k] == Submitted(id, resumes[k])
    {
      var n := resumes[i];
      entries := entries
          + [Entry(n.resumeId, id, n.fileName, n.objectKey, n.sizeBytes, Pending, ZERO_TIME, None, None, ZERO_TIME)];
    }
    var b := new ScreeningBatch(Batch(id, opening.id, submittedAt, opening.criteria, entries));
    return Ok(b);
  }
}
