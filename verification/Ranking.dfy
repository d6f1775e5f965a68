/** The ranked list of a job opening's screened resumes. */
module Ranking {
  import opened Openings
  import opened Screening

  /** A resume in the list, by the positions of its batch and of its entry. */
  datatype Ranked = Ranked(batch: nat, entry: nat)

  /** The zero value keeps everything. */
  datatype RankFilter = RankFilter(minScore: int, criterion: string)

  predicate At(batches: seq<Batch>, p: Ranked) {
    p.batch < |batches| && p.entry < |batches[p.batch].entries|
  }

  function EntryAt(batches: seq<Batch>, p: Ranked): Entry
    requires At(batches, p)
  {
    batches[p.batch].entries[p.entry]
  }

  /** Lower case of the ASCII letters. */
  function Fold(s: string): string {
    if |s| == 0 then ""
    else [if 'A' <= s[0] <= 'Z' then (s[0] as int + 32) as char else s[0]] + Fold(s[1..])
  }

  /** CriterionPosition: the first criterion of this name, in any case; |criteria| when there is none. */
  function CriterionPosition(criteria: seq<Criterion>, name: string): (i: nat)
    ensures i <= |criteria|
    ensures i < |criteria| ==> Fold(criteria[i].name) == Fold(TrimSpace(name))
    ensures forall k :: 0 <= k < i ==> Fold(criteria[k].name) != Fold(TrimSpace(name))
  {
    if |criteria| == 0 || Fold(criteria[0].name) == Fold(TrimSpace(name)) then 0
    else 1 + CriterionPosition(criteria[1..], name)
  }

  /** Meets: whether the resume was judged to meet the batch's must-have of this name. */
  predicate Meets(b: Batch, e: Entry, criterion: string) {
    var pos := CriterionPosition(b.criteria, criterion);
    pos < |b.criteria| && e.result.Some? && b.criteria[pos].classification == MustHave
    && pos !in e.result.value.unmetMustHaves
  }

  /** Whether a resume belongs in the list under a filter. */
  predicate Listed(batches: seq<Batch>, f: RankFilter, p: Ranked) {
    && At(batches, p)
    && EntryAt(batches, p).status == ScreenedOk
    && Score(EntryAt(batches, p)) >= f.minScore
    && (f.criterion != "" ==> Meets(batches[p.batch], EntryAt(batches, p), f.criterion))
  }

  ghost predicate Valid(batches: seq<Batch>) {
    forall b, e :: 0 <= b < |batches| && 0 <= e < |batches[b].entries| ==>
      EntryOk(batches[b].criteria, batches[b].entries[e])
  }

  /** The resume has a result to compare by, as every screened one has. */
  predicate Rankable(batches: seq<Batch>, p: Ranked) {
    At(batches, p) && EntryAt(batches, p).result.Some?
  }

  /** The comparison Rank sorts by: negative when x goes first. */
  function Compare(batches: seq<Batch>, x: Ranked, y: Ranked): int
    requires Rankable(batches, x) && Rankable(batches, y)
  {
    var xe, ye := EntryAt(batches, x), EntryAt(batches, y);
    var xr, yr := xe.result.value, ye.result.value;
    if xr.meetsMustHaves != yr.meetsMustHaves then (if xr.meetsMustHaves then -1 else 1)
    else if Score(ye) - Score(xe) != 0 then Score(ye) - Score(xe)
    else if xr.completedAt < yr.completedAt then -1
    else if xr.completedAt > yr.completedAt then 1
    else 0
  }

  /** Earlier in submission order: of an earlier batch, or an earlier entry of the same one. */
  predicate Earlier(x: Ranked, y: Ranked) {
    x.batch < y.batch || (x.batch == y.batch && x.entry < y.entry)
  }

  /** Strictly ahead of y: preferred by the comparison, or tied and submitted earlier. */
  predicate Ahead(batches: seq<Batch>, x: Ranked, y: Ranked) {
    Rankable(batches, x) && Rankable(batches, y) &&
    (Compare(batches, x, y) < 0 || (Compare(batches, x, y) == 0 && Earlier(x, y)))
  }

  ghost predicate Ordered(batches: seq<Batch>, s: seq<Ranked>) {
    forall i, j :: 0 <= i < j < |s| ==> Ahead(batches, s[i], s[j])
  }

  /** What Rank returns: exactly the listed resumes, each once, each strictly ahead of all after it. */
  ghost predicate IsRanking(batches: seq<Batch>, f: RankFilter, r: seq<Ranked>) {
    && (forall p :: p in r <==> Listed(batches, f, p))
    && Ordered(batches, r)
  }

  lemma ListedHasResult(batches: seq<Batch>, f: RankFilter, p: Ranked)
    requires Valid(batches) && Listed(batches, f, p)
    ensures Rankable(batches, p)
  {
    assert EntryOk(batches[p.batch].criteria, batches[p.batch].entries[p.entry]);
  }

  /**
   * The order in the Recruiter's terms: nobody who fails a must-have goes ahead of somebody who
   * meets them all, then nobody goes ahead of a higher score, then nobody ahead of an earlier answer.
   */
  lemma RankingOrder(batches: seq<Batch>, f: RankFilter, r: seq<Ranked>, i: nat, j: nat)
    requires Valid(batches) && IsRanking(batches, f, r) && i < j < |r|
    ensures Rankable(batches, r[i]) && Rankable(batches, r[j])
    ensures
      var x, y := EntryAt(batches, r[i]), EntryAt(batches, r[j]);
      var xr, yr := x.result.value, y.result.value;
      && (yr.meetsMustHaves ==> xr.meetsMustHaves)
      && (xr.meetsMustHaves == yr.meetsMustHaves ==> Score(x) >= Score(y))
      && (xr.meetsMustHaves == yr.meetsMustHaves && Score(x) == Score(y) ==> xr.completedAt <= yr.completedAt)
      && (xr.meetsMustHaves == yr.meetsMustHaves && Score(x) == Score(y) && xr.completedAt == yr.completedAt ==>
            Earlier(r[i], r[j]))
  {
    assert Ahead(batches, r[i], r[j]);
  }

  /** Sequences with the same members, each ordered by Ahead, are the same. */
  lemma {:induction false} OrderedByAheadIsUnique(batches: seq<Batch>, r: seq<Ranked>, t: seq<Ranked>)
    requires forall p :: p in r ==> Rankable(batches, p)
    requires forall p :: p in r <==> p in t
    requires Ordered(batches, r) && Ordered(batches, t)
    ensures r == t
  {
    assert |t| > 0 ==> t[0] in t;
    if |r| > 0 {
      assert r[0] in t;
      var j :| 0 <= j < |t| && t[j] == r[0];
      assert t[0] in r;
      var i :| 0 <= i < |r| && r[i] == t[0];
      assert r[0] == t[0];
      forall p ensures p in r[1..] <==> p in t[1..] {
        assert p in r[1..] ==> p in r;
        assert p in t[1..] ==> p in t;
      }
      OrderedByAheadIsUnique(batches, r[1..], t[1..]);
    }
  }

  /** There is only one ranking. */
  lemma RankingIsUnique(batches: seq<Batch>, f: RankFilter, r: seq<Ranked>, t: seq<Ranked>)
    requires Valid(batches) && IsRanking(batches, f, r) && IsRanking(batches, f, t)
    ensures r == t
  {
    forall p | p in r ensures Rankable(batches, p) {
      ListedHasResult(batches, f, p);
    }
    OrderedByAheadIsUnique(batches, r, t);
  }

  /** The listed resumes of s, in the order of s. */
  function Keep(batches: seq<Batch>, f: RankFilter, s: seq<Ranked>): (t: seq<Ranked>)
    ensures forall p :: p in t <==> p in s && Listed(batches, f, p)
  {
    if |s| == 0 then []
    else (if Listed(batches, f, s[0]) then [s[0]] else []) + Keep(batches, f, s[1..])
  }

  lemma {:induction false} KeepStaysOrdered(batches: seq<Batch>, f: RankFilter, s: seq<Ranked>)
    requires forall p :: p in s ==> Rankable(batches, p)
    requires Ordered(batches, s)
    ensures Ordered(batches, Keep(batches, f, s))
  {
    if |s| > 0 {
      KeepStaysOrdered(batches, f, s[1..]);
      var rest := Keep(batches, f, s[1..]);
      forall j | 0 <= j < |rest| ensures Ahead(batches, s[0], rest[j]) {
        assert rest[j] in s[1..];
      }
    }
  }

  const KEEP_ALL := RankFilter(0, "")

  /** Ranking under a filter is the same as ranking everything and filtering the list afterwards. */
  lemma FilteringCommutesWithRanking(batches: seq<Batch>, f: RankFilter, all: seq<Ranked>, r: seq<Ranked>)
    requires Valid(batches)
    requires IsRanking(batches, KEEP_ALL, all) && IsRanking(batches, f, r)
    ensures r == Keep(batches, f, all)
  {
    forall p ensures p in Keep(batches, f, all) <==> Listed(batches, f, p) {
      if Listed(batches, f, p) {
        ScoreOnScale(batches, p);
        assert Listed(batches, KEEP_ALL, p);
      }
    }
    forall p | p in all ensures Rankable(batches, p) {
      ListedHasResult(batches, KEEP_ALL, p);
    }
    KeepStaysOrdered(batches, f, all);
    RankingIsUnique(batches, f, r, Keep(batches, f, all));
  }

  lemma ScoreOnScale(batches: seq<Batch>, p: Ranked)
    requires Valid(batches) && At(batches, p)
    ensures 0 <= Score(EntryAt(batches, p)) <= MAX_SCORE
  {
    assert EntryOk(batches[p.batch].criteria, batches[p.batch].entries[p.entry]);
  }

  // ---------- Raising an override ----------

  /** The batches after the Recruiter overrode the score of p. */
  function Override(batches: seq<Batch>, p: Ranked, score: int, at: Time): seq<Batch>
    requires At(batches, p)
  {
    var b := batches[p.batch];
    batches[p.batch := b.(entries := b.entries[p.entry := Overridden(b.entries[p.entry], score, at)])]
  }

  lemma OverriddenStaysValid(batches: seq<Batch>, p: Ranked, score: int, at: Time)
    requires Valid(batches) && At(batches, p) && EntryAt(batches, p).status == ScreenedOk && 0 <= score <= MAX_SCORE
    ensures Valid(Override(batches, p, score, at))
  {
    assert EntryOk(batches[p.batch].criteria, EntryAt(batches, p));
  }

  lemma {:induction false} DistinctPrefixSize(r: seq<Ranked>, k: nat)
    requires k <= |r| && forall i, j :: 0 <= i < j < |r| ==> r[i] != r[j]
    ensures |set i | 0 <= i < k :: r[i]| == k
  {
    if k > 0 {
      DistinctPrefixSize(r, k - 1);
      assert (set i | 0 <= i < k :: r[i]) == (set i | 0 <= i < k - 1 :: r[i]) + {r[k - 1]};
    }
  }

  /** Raising the override of a listed resume never moves it later in the list. */
  lemma RaisingNeverMovesLater(batches: seq<Batch>, f: RankFilter, p: Ranked, score: int, at: Time,
                               r: seq<Ranked>, k: nat, r': seq<Ranked>, k': nat)
    requires Valid(batches) && Listed(batches, f, p)
    requires Score(EntryAt(batches, p)) <= score <= MAX_SCORE
    requires IsRanking(batches, f, r) && k < |r| && r[k] == p
    requires IsRanking(Override(batches, p, score, at), f, r') && k' < |r'| && r'[k'] == p
    ensures k' <= k
  {
    var raised := Override(batches, p, score, at);
    ScoreOnScale(batches, p);
    OverriddenStaysValid(batches, p, score, at);
    forall i | 0 <= i < k' ensures exists j :: 0 <= j < k && r[j] == r'[i] {
      var q := r'[i];
      assert q in r' && p in r';
      assert Ahead(raised, q, p);
      assert Listed(raised, f, q);
      assert q != p;
      assert EntryAt(raised, q) == EntryAt(batches, q);
      assert Listed(batches, f, q);
      ListedHasResult(batches, f, q);
      ListedHasResult(batches, f, p);
      assert Ahead(batches, q, p);
      assert q in r;
      var j :| 0 <= j < |r| && r[j] == q;
      assert !Ahead(batches, p, q);
    }
    var ahead', ahead := set i | 0 <= i < k' :: r'[i], set i | 0 <= i < k :: r[i];
    assert ahead' <= ahead;
    AheadIsStrict(batches, f, r);
    AheadIsStrict(raised, f, r');
    DistinctPrefixSize(r, k);
    DistinctPrefixSize(r', k');
    SubsetSize(ahead', ahead);
  }

  lemma AheadIsStrict(batches: seq<Batch>, f: RankFilter, r: seq<Ranked>)
    requires Valid(batches) && IsRanking(batches, f, r)
    ensures forall i, j :: 0 <= i < j < |r| ==> r[i] != r[j]
  {
    forall i, j | 0 <= i < j < |r| ensures r[i] != r[j] {
      assert Ahead(batches, r[i], r[j]);
    }
  }

  lemma SubsetSize<T>(a: set<T>, b: set<T>)
    requires a <= b
    ensures |a| <= |b|
  {
    if a != {} {
      var x :| x in a;
      SubsetSize(a - {x}, b - {x});
    }
  }

  // ---------- The list as the Recruiter reads it ----------

  /** The score shown of a screened entry: the Recruiter's, where there is one. */
  ghost function Shown(e: Entry): int
    requires e.result.Some?
  {
    if e.correction.Some? then e.correction.value.score else e.result.value.score
  }

  lemma {:induction false} FoldIs(s: string)
    ensures |Fold(s)| == |s|
    ensures forall i :: 0 <= i < |s| ==> Fold(s)[i] == if 'A' <= s[i] <= 'Z' then (s[i] as int + 32) as char else s[i]
  {
    if s != [] {
      FoldIs(s[1..]);
    }
  }

  /** The criterion a filter names: the first of that name, case and surrounding spaces apart. */
  ghost predicate Names(criteria: seq<Criterion>, name: string, pos: nat) {
    && pos < |criteria| && Fold(criteria[pos].name) == Fold(TrimSpace(name))
    && forall k :: 0 <= k < pos ==> Fold(criteria[k].name) != Fold(TrimSpace(name))
  }

  /**
   * Who is listed: the screened entries whose shown score reaches the least one asked for and, under a named
   * criterion, that the name belongs to a must-have they were not found to miss.
   */
  lemma ListedIff(batches: seq<Batch>, f: RankFilter, r: seq<Ranked>, p: Ranked)
    requires Valid(batches) && IsRanking(batches, f, r) && p.batch < |batches| && p.entry < |batches[p.batch].entries|
    ensures
      var b, e := batches[p.batch], batches[p.batch].entries[p.entry];
      p in r <==>
        && e.status.ScreenedOk? && e.result.Some? && Shown(e) >= f.minScore
        && (f.criterion == "" ||
            exists pos: nat :: Names(b.criteria, f.criterion, pos) && b.criteria[pos].classification.MustHave?
                               && pos !in e.result.value.unmetMustHaves)
  {
    var b, e := batches[p.batch], batches[p.batch].entries[p.entry];
    assert EntryOk(b.criteria, e);
    var first := CriterionPosition(b.criteria, f.criterion);
    if first < |b.criteria| {
      assert Names(b.criteria, f.criterion, first);
    }
    assert forall pos: nat :: Names(b.criteria, f.criterion, pos) ==> pos == first;
    hide EntryOk, CriterionPosition, Fold;
  }

  /** Of two listed, the one who meets every must-have goes first, then the higher shown score, then the earlier. */
  lemma ListedInOrder(batches: seq<Batch>, f: RankFilter, r: seq<Ranked>, i: nat, j: nat)
    requires Valid(batches) && IsRanking(batches, f, r) && i < j < |r|
    ensures Rankable(batches, r[i]) && Rankable(batches, r[j])
    ensures
      var x, y := batches[r[i].batch].entries[r[i].entry], batches[r[j].batch].entries[r[j].entry];
      var xr, yr := x.result.value, y.result.value;
      && (yr.meetsMustHaves ==> xr.meetsMustHaves)
      && (xr.meetsMustHaves == yr.meetsMustHaves ==>
            && Shown(x) >= Shown(y)
            && (Shown(x) == Shown(y) ==>
                  && xr.completedAt <= yr.completedAt
                  && (xr.completedAt == yr.completedAt ==>
                        r[i].batch < r[j].batch || (r[i].batch == r[j].batch && r[i].entry < r[j].entry))))
  {
    RankingOrder(batches, f, r, i, j);
    ShownIsScore(batches[r[i].batch].entries[r[i].entry]);
    ShownIsScore(batches[r[j].batch].entries[r[j].entry]);
  }

  lemma ShownIsScore(e: Entry)
    requires e.result.Some?
    ensures Shown(e) == Score(e)
  {
  }

  /** Overriding an entry's score above another's puts it ahead of it, where both have the same verdict. */
  lemma OverridingLifts(batches: seq<Batch>, f: RankFilter, r: seq<Ranked>, i: nat, j: nat, score: int, at: Time)
    requires i < |r| && j < |r| && At(batches, r[i]) && At(batches, r[j]) && r[i] != r[j]
    requires Valid(Override(batches, r[i], score, at)) && IsRanking(Override(batches, r[i], score, at), f, r)
    requires batches[r[i].batch].entries[r[i].entry].result.Some?
        && batches[r[j].batch].entries[r[j].entry].result.Some?
    requires
      var x, y := batches[r[i].batch].entries[r[i].entry], batches[r[j].batch].entries[r[j].entry];
      x.result.value.meetsMustHaves == y.result.value.meetsMustHaves && Shown(y) < score
    ensures i < j
  {
    var now := Override(batches, r[i], score, at);
    var x, y := now[r[i].batch].entries[r[i].entry], now[r[j].batch].entries[r[j].entry];
    assert y == batches[r[j].batch].entries[r[j].entry] && Shown(x) == score;
    assert x.result == batches[r[i].batch].entries[r[i].entry].result;
    hide Override, Shown;
    if j < i {
      ListedInOrder(now, f, r, j, i);
    }
  }

  // ---------- Rank itself ----------

  lemma AheadIsTransitive(batches: seq<Batch>, x: Ranked, y: Ranked, z: Ranked)
    requires Ahead(batches, x, y) && Ahead(batches, y, z)
    ensures Ahead(batches, x, z)
  {
  }

  lemma InsertedStaysOrdered(batches: seq<Batch>, s: seq<Ranked>, at: nat, x: Ranked)
    requires Ordered(batches, s) && at <= |s|
    requires at > 0 ==> Ahead(batches, s[at - 1], x)
    requires at < |s| ==> Ahead(batches, x, s[at])
    ensures Ordered(batches, s[..at] + [x] + s[at..])
  {
    forall k | 0 <= k < at ensures Ahead(batches, s[k], x) {
      if k < at - 1 {
        AheadIsTransitive(batches, s[k], s[at - 1], x);
      }
    }
    forall k | at <= k < |s| ensures Ahead(batches, x, s[k]) {
      if k > at {
        AheadIsTransitive(batches, x, s[at], s[k]);
      }
    }
  }

  /** Puts x behind everything that is not after it. */
  method Insert(batches: seq<Batch>, sorted: seq<Ranked>, x: Ranked) returns (longer: seq<Ranked>)
    requires Ordered(batches, sorted) && Rankable(batches, x)
    requires forall p :: p in sorted ==> Rankable(batches, p) && Earlier(p, x)
    ensures forall p :: p in longer <==> p == x || p in sorted
    ensures Ordered(batches, longer)
  {
    var at := |sorted|;
    while at > 0 && Compare(batches, x, sorted[at - 1]) < 0
      invariant 0 <= at <= |sorted|
      invariant at < |sorted| ==> Ahead(batches, x, sorted[at])
    {
      at := at - 1;
    }
    assert at > 0 ==> Earlier(sorted[at - 1], x);
    InsertedStaysOrdered(batches, sorted, at, x);
    longer := sorted[..at] + [x] + sorted[at..];
    assert sorted == sorted[..at] + sorted[at..];
  }

  /** slices.SortStableFunc by Compare, on a list in submission order. */
  method SortStable(batches: seq<Batch>, listed: seq<Ranked>) returns (sorted: seq<Ranked>)
    requires forall p :: p in listed ==> Rankable(batches, p)
    requires forall i, j :: 0 <= i < j < |listed| ==> Earlier(listed[i], listed[j])
    ensures forall p :: p in sorted <==> p in listed
    ensures Ordered(batches, sorted)
  {
    sorted := [];
    for n := 0 to |listed|
      invariant forall p :: p in sorted <==> p in listed[..n]
      invariant Ordered(batches, sorted)
    {
      sorted := Insert(batches, sorted, listed[n]);
      assert listed[..n + 1] == listed[..n] + [listed[n]];
    }
    assert listed[..|listed|] == listed;
  }

  /** Rank. */
  method Rank(batches: seq<Batch>, f: RankFilter) returns (ranked: seq<Ranked>)
    requires Valid(batches)
    ensures IsRanking(batches, f, ranked)
  {
    var listed: seq<Ranked> := [];
    for bi := 0 to |batches|
      invariant forall p :: p in listed <==> Listed(batches, f, p) && p.batch < bi
      invariant forall i, j :: 0 <= i < j < |listed| ==> Earlier(listed[i], listed[j])
    {
      var b := batches[bi];
      for ei := 0 to |b.entries|
        invariant forall p :: p in listed <==>
            Listed(batches, f, p) && (p.batch < bi || (p.batch == bi && p.entry < ei))
        invariant forall i, j :: 0 <= i < j < |listed| ==> Earlier(listed[i], listed[j])
      {
        var e := b.entries[ei];
        if e.status != ScreenedOk || Score(e) < f.minScore {
          continue;
        }
        if f.criterion != "" && !Meets(b, e, f.criterion) {
          continue;
        }
        assert forall p :: p in listed ==> Earlier(p, Ranked(bi, ei));
        listed := listed + [Ranked(bi, ei)];
      }
    }
    forall p | p in listed ensures Rankable(batches, p) {
      ListedHasResult(batches, f, p);
    }
    ranked := SortStable(batches, listed);
  }
}
