/** What a Recruiter sees of a job opening: the ranking, the resumes to review by hand, and how many are pending. */
module RankedResults {
  import opened Prelude
  import opened Screening
  import opened Ranking
  import Archive
  import MemoryRepository

  datatype Results = Results(ranked: seq<Ranked>, needsReview: seq<Ranked>, pending: nat)

  datatype ResultsError = OpeningNotFound

  function Positions(batches: seq<Batch>): set<Ranked> {
    set b, e | 0 <= b < |batches| && 0 <= e < |batches[b].entries| :: Ranked(b, e)
  }

  function PendingIn(batches: seq<Batch>): set<Ranked> {
    set p | p in Positions(batches) && EntryAt(batches, p).status == Pending
  }

  predicate ToReview(batches: seq<Batch>, p: Ranked) {
    At(batches, p) && EntryAt(batches, p).status in {NeedsReview, Failed}
  }

  /** Every resume that waits for a person, each once, oldest first. */
  ghost predicate IsReviewList(batches: seq<Batch>, s: seq<Ranked>) {
    && (forall p :: p in s <==> ToReview(batches, p))
    && (forall i, j :: 0 <= i < j < |s| ==> Earlier(s[i], s[j]))
  }

  /** Already walked over when the loops stand at entry ei of batch bi. */
  predicate Passed(p: Ranked, bi: nat, ei: nat) {
    p.batch < bi || (p.batch == bi && p.entry < ei)
  }

  /** The loops' lists so far: those to review, and (as a ghost) those pending. */
  ghost predicate Sorted(batches: seq<Batch>, review: seq<Ranked>, waiting: seq<Ranked>, bi: nat, ei: nat) {
    && (forall p :: p in review <==> ToReview(batches, p) && Passed(p, bi, ei))
    && (forall p :: p in waiting <==> At(batches, p) && EntryAt(batches, p).status == Pending && Passed(p, bi, ei))
    && (forall i, j :: 0 <= i < j < |review| ==> Earlier(review[i], review[j]))
    && (forall i, j :: 0 <= i < j < |waiting| ==> Earlier(waiting[i], waiting[j]))
  }

  lemma NextSorted(batches: seq<Batch>, review: seq<Ranked>, waiting: seq<Ranked>, bi: nat, ei: nat)
    requires Sorted(batches, review, waiting, bi, ei) && bi < |batches| && ei < |batches[bi].entries|
    ensures
      var p, status := Ranked(bi, ei), batches[bi].entries[ei].status;
      Sorted(batches, if status in {NeedsReview, Failed} then review + [p] else review,
             if status == Pending then waiting + [p] else waiting, bi, ei + 1)
  {
    var p, status := Ranked(bi, ei), batches[bi].entries[ei].status;
    forall q: Ranked
      ensures Passed(q, bi, ei + 1) <==> Passed(q, bi, ei) || q == p
    {
      assert q == Ranked(q.batch, q.entry);
    }
    assert !Passed(p, bi, ei) && forall q :: Passed(q, bi, ei) ==> Earlier(q, p);
    hide Passed, Earlier;
  }

  lemma NextBatch(batches: seq<Batch>, review: seq<Ranked>, waiting: seq<Ranked>, bi: nat)
    requires bi < |batches| && Sorted(batches, review, waiting, bi, |batches[bi].entries|)
    ensures Sorted(batches, review, waiting, bi + 1, 0)
  {
  }

  /** The two loops of GetRankedResults over the loaded batches. */
  method Sort(batches: seq<Batch>, f: RankFilter) returns (r: Results)
    requires Ranking.Valid(batches)
    ensures IsRanking(batches, f, r.ranked) && IsReviewList(batches, r.needsReview) && r.pending == |PendingIn(batches)|
  {
    var ranked := Rank(batches, f);
    var needsReview: seq<Ranked> := [];
    var pending: nat := 0;
    ghost var waiting: seq<Ranked> := [];
    assert Sorted(batches, needsReview, waiting, 0, 0);
    hide IsRanking, Ranking.Valid, Sorted;
    for bi := 0 to |batches|
      invariant pending == |waiting| && Sorted(batches, needsReview, waiting, bi, 0)
    {
      for ei := 0 to |batches[bi].entries|
        invariant pending == |waiting| && Sorted(batches, needsReview, waiting, bi, ei)
      {
        NextSorted(batches, needsReview, waiting, bi, ei);
        match batches[bi].entries[ei].status {
          case Pending =>
            pending := pending + 1;
            waiting := waiting + [Ranked(bi, ei)];
          case NeedsReview | Failed =>
            needsReview := needsReview + [Ranked(bi, ei)];
          case ScreenedOk =>
        }
      }
      NextBatch(batches, needsReview, waiting, bi);
    }
    AllSorted(batches, needsReview, waiting);
    r := Results(ranked, needsReview, pending);
  }

  lemma AllSorted(batches: seq<Batch>, review: seq<Ranked>, waiting: seq<Ranked>)
    requires Sorted(batches, review, waiting, |batches|, 0)
    ensures IsReviewList(batches, review) && |waiting| == |PendingIn(batches)|
  {
    DistinctSize(waiting);
    assert (set p | p in waiting) == PendingIn(batches);
  }

  lemma {:induction false} DistinctSize(s: seq<Ranked>)
    requires forall i, j :: 0 <= i < j < |s| ==> s[i] != s[j]
    ensures |set p | p in s| == |s|
  {
    if s != [] {
      var last := |s| - 1;
      DistinctSize(s[..last]);
      assert s == s[..last] + [s[last]];
      assert (set p | p in s) == (set p | p in s[..last]) + {s[last]};
    }
  }

  /**
   * Nothing is hidden and nothing shown twice: without a filter each resume is ranked, to review or
   * pending, and only one of these.
   */
  lemma EveryResumeIsShownOnce(batches: seq<Batch>, r: Results)
    requires Ranking.Valid(batches)
    requires IsRanking(batches, KEEP_ALL, r.ranked) && IsReviewList(batches, r.needsReview)
        && r.pending == |PendingIn(batches)|
    ensures |r.ranked| + |r.needsReview| + r.pending == |Positions(batches)|
    ensures forall p :: p in Positions(batches) ==>
      (p in r.ranked && p !in r.needsReview && p !in PendingIn(batches))
      || (p !in r.ranked && p in r.needsReview && p !in PendingIn(batches))
      || (p !in r.ranked && p !in r.needsReview && p in PendingIn(batches))
  {
    var ranked, review, pending := (set p | p in r.ranked), (set p | p in r.needsReview), PendingIn(batches);
    AheadIsStrict(batches, KEEP_ALL, r.ranked);
    DistinctSize(r.ranked);
    DistinctSize(r.needsReview);
    forall p
      ensures p in ranked <==> HasStatus(batches, p, ScreenedOk)
    {
      RankedIffScreened(batches, r.ranked, p);
    }
    assert forall p :: p in review <==> ToReview(batches, p);
    hide *;
    OneOfThree(batches, ranked, review);
  }

  predicate HasStatus(batches: seq<Batch>, p: Ranked, status: EntryStatus) {
    At(batches, p) && EntryAt(batches, p).status == status
  }

  lemma OneOfThree(batches: seq<Batch>, ranked: set<Ranked>, review: set<Ranked>)
    requires forall p :: p in ranked <==> HasStatus(batches, p, ScreenedOk)
    requires forall p :: p in review <==> ToReview(batches, p)
    ensures |ranked| + |review| + |PendingIn(batches)| == |Positions(batches)|
    ensures forall p :: p in Positions(batches) ==>
      (p in ranked && p !in review && p !in PendingIn(batches))
      || (p !in ranked && p in review && p !in PendingIn(batches))
      || (p !in ranked && p !in review && p in PendingIn(batches))
  {
    var all, pending := Positions(batches), PendingIn(batches);
    forall p: Ranked
      ensures p in all <==> At(batches, p)
      ensures p in pending <==> HasStatus(batches, p, Pending)
    {
      assert p == Ranked(p.batch, p.entry);
    }
    hide Positions, PendingIn;
    AddUp(all, ranked, review, pending);
  }

  lemma AddUp<T>(all: set<T>, a: set<T>, b: set<T>, c: set<T>)
    requires forall p :: p in all <==> p in a || p in b || p in c
    requires a !! b && a !! c && b !! c
    ensures |a| + |b| + |c| == |all|
  {
    assert all == a + b + c;
  }

  lemma RankedIffScreened(batches: seq<Batch>, ranked: seq<Ranked>, p: Ranked)
    requires Ranking.Valid(batches) && IsRanking(batches, KEEP_ALL, ranked)
    ensures p in ranked <==> HasStatus(batches, p, ScreenedOk)
  {
    if At(batches, p) {
      ScoreOnScale(batches, p);
    }
    assert p in ranked <==> Listed(batches, KEEP_ALL, p);
  }

  lemma {:induction false} OpeningsAreValid(a: seq<Batch>, id: string)
    requires Ranking.Valid(a)
    ensures Ranking.Valid(Archive.Of(a, id))
  {
    OfIsAmong(a, id);
    var s := Archive.Of(a, id);
    forall b, e | 0 <= b < |s| && 0 <= e < |s[b].entries|
      ensures EntryOk(s[b].criteria, s[b].entries[e])
    {
      assert s[b] in a;
      var i :| 0 <= i < |a| && a[i] == s[b];
      assert EntryOk(a[i].criteria, a[i].entries[e]);
    }
  }

  lemma {:induction false} OfIsAmong(a: seq<Batch>, id: string)
    ensures forall b :: b in Archive.Of(a, id) ==> b in a && b.jobOpeningId == id
  {
    if a != [] {
      OfIsAmong(a[1..], id);
    }
  }

  /** GetRankedResults; `known` is whether the opening exists. */
  method GetRankedResults(store: MemoryRepository.Repository, openingId: string, known: bool, f: RankFilter)
    returns (r: Result<Results, ResultsError>)
    requires store.Valid() && Ranking.Valid(store.Value())
    ensures r.Ok? <==> known
    ensures r.Ok? ==>
      var batches := Archive.Of(store.Value(), openingId);
      && Ranking.Valid(batches) && IsRanking(batches, f, r.value.ranked) && IsReviewList(batches, r.value.needsReview)
      && r.value.pending == |PendingIn(batches)|
  {
    if !known {
      return Err(OpeningNotFound);
    }
    var batches := store.ListBatches(openingId);
    OpeningsAreValid(store.Value(), openingId);
    var sorted := Sort(batches, f);
    return Ok(sorted);
  }
}
