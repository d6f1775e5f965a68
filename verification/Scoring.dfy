/**
 * AI Service's ScoreAgainstCriteria: matching the model's assessments to the criteria asked about,
 * the must-have gate, and the overall score. Scores and weights are whole numbers, and the mean is
 * an exact real rather than a float.
 */
module Scoring {
  import opened Prelude

  datatype Criterion = Criterion(id: string, text: string, mustHave: bool, weight: nat)

  datatype Assessment = Assessment(criterionId: string, met: bool, score: nat)

  datatype Scored = Scored(score: int, meetsMustHaves: bool, unmetMustHaveIds: seq<string>)

  datatype ScoringError =
    | NoCriteria          // INVALID_ARGUMENT
    | UnusableAnswer      // INTERNAL: the answer does not follow the schema
    | AssessmentsMismatch // INTERNAL: an id missing, or an id invented
    | AssessedTwice       // INTERNAL: more than one assessment for one criterion

  const MAX_SCORE: nat := 100

  // ---------- The overall score ----------

  function Sum(s: seq<Assessment>, f: Assessment -> nat): nat {
    if |s| == 0 then 0 else f(s[0]) + Sum(s[1..], f)
  }

  /** weights.get(id), with a missing id as 0: both are falsy where it is used. */
  function WeightOf(weights: map<string, nat>): Assessment -> nat {
    (a: Assessment) => if a.criterionId in weights then weights[a.criterionId] else 0
  }

  function PointsOf(weights: map<string, nat>): Assessment -> nat {
    var weight := WeightOf(weights);
    (a: Assessment) => Times(a.score, weight(a))
  }

  function Times(score: nat, weight: nat): (points: nat)
    ensures points == score * weight
  {
    score * weight
  }

  function ScoreOf(): Assessment -> nat {
    (a: Assessment) => a.score
  }

  /** The assessments whose criterion carries a weight. */
  function Counted(s: seq<Assessment>, weights: map<string, nat>): seq<Assessment> {
    if |s| == 0 then []
    else (if WeightOf(weights)(s[0]) != 0 then [s[0]] else []) + Counted(s[1..], weights)
  }

  lemma {:induction false} CountedSums(s: seq<Assessment>, weights: map<string, nat>)
    ensures Sum(Counted(s, weights), WeightOf(weights)) == Sum(s, WeightOf(weights))
    ensures Sum(Counted(s, weights), PointsOf(weights)) == Sum(s, PointsOf(weights))
    ensures |Counted(s, weights)| > 0 <==> Sum(s, WeightOf(weights)) > 0
  {
    if |s| > 0 {
      CountedSums(s[1..], weights);
      var rest := Counted(s[1..], weights);
      assert ([s[0]] + rest)[1..] == rest && [] + rest == rest;
      assert WeightOf(weights)(s[0]) == 0 ==> PointsOf(weights)(s[0]) == 0;
    }
  }

  /** The mean the overall score rounds: weighted where there is a weight, plain where there is none. */
  function Mean(s: seq<Assessment>, weights: map<string, nat>): real
    requires |s| > 0
  {
    CountedSums(s, weights);
    var weighted := Counted(s, weights);
    if |weighted| > 0 then
      Sum(weighted, PointsOf(weights)) as real / Sum(weighted, WeightOf(weights)) as real
    else
      Sum(s, ScoreOf()) as real / |s| as real
  }

  /** weighted_total; int() and Floor agree because the mean is never negative. */
  function WeightedTotal(s: seq<Assessment>, weights: map<string, nat>): int
    requires |s| > 0
  {
    Max(0, Min(MAX_SCORE, (Mean(s, weights) + 0.5).Floor))
  }

  function Max(a: int, b: int): int {
    if a < b then b else a
  }

  function Min(a: int, b: int): int {
    if a < b then a else b
  }

  /** An assessment the mean takes into account: every one, once no criterion carries a weight. */
  ghost predicate Counts(a: Assessment, s: seq<Assessment>, weights: map<string, nat>) {
    a in s && (WeightOf(weights)(a) > 0 || Sum(s, WeightOf(weights)) == 0)
  }

  lemma CancelFactor(x: real, y: real, d: real)
    requires d > 0.0 && x * d <= y * d
    ensures x <= y
  {
  }

  lemma TimesBetween(lo: nat, hi: nat, score: nat, w: nat, rest: nat)
    requires w > 0 ==> lo <= score <= hi
    ensures lo * (w + rest) == lo * w + lo * rest && hi * (w + rest) == hi * w + hi * rest
    ensures lo * w <= score * w <= hi * w
  {
  }

  lemma {:induction false} SumBetween(s: seq<Assessment>, weights: map<string, nat>, lo: nat, hi: nat)
    requires forall a :: a in s && WeightOf(weights)(a) > 0 ==> lo <= a.score <= hi
    ensures lo * Sum(s, WeightOf(weights)) <= Sum(s, PointsOf(weights)) <= hi * Sum(s, WeightOf(weights))
  {
    if |s| > 0 {
      assert s[0] in s;
      SumBetween(s[1..], weights, lo, hi);
      TimesBetween(lo, hi, s[0].score, WeightOf(weights)(s[0]), Sum(s[1..], WeightOf(weights)));
    }
  }

  lemma OneMoreTerm(lo: nat, n: nat, first: nat, rest: nat, hi: nat)
    requires n > 0 && lo <= first <= hi && lo * (n - 1) <= rest <= hi * (n - 1)
    ensures lo * n <= first + rest <= hi * n
  {
    assert lo * n == lo + lo * (n - 1) && hi * n == hi + hi * (n - 1);
  }

  lemma {:induction false} PlainSumBetween(s: seq<Assessment>, lo: nat, hi: nat)
    requires forall a :: a in s ==> lo <= a.score <= hi
    ensures lo * |s| <= Sum(s, ScoreOf()) <= hi * |s|
  {
    if |s| > 0 {
      assert s[0] in s && Sum(s, ScoreOf()) == s[0].score + Sum(s[1..], ScoreOf());
      PlainSumBetween(s[1..], lo, hi);
      OneMoreTerm(lo, |s|, s[0].score, Sum(s[1..], ScoreOf()), hi);
      hide *;
    }
  }

  lemma RatioBetween(num: nat, den: nat, lo: nat, hi: nat)
    requires den > 0 && lo * den <= num <= hi * den
    ensures lo as real <= num as real / den as real <= hi as real
  {
    var q := num as real / den as real;
    assert q * den as real == num as real;
    assert (lo * den) as real == lo as real * den as real;
    assert (hi * den) as real == hi as real * den as real;
    CancelFactor(lo as real, q, den as real);
    CancelFactor(q, hi as real, den as real);
  }

  lemma MeanBetween(s: seq<Assessment>, weights: map<string, nat>, lo: nat, hi: nat)
    requires |s| > 0
    requires forall a :: Counts(a, s, weights) ==> lo <= a.score <= hi
    ensures lo as real <= Mean(s, weights) <= hi as real
  {
    CountedSums(s, weights);
    if |Counted(s, weights)| > 0 {
      assert forall a :: a in s && WeightOf(weights)(a) > 0 ==> Counts(a, s, weights);
      SumBetween(s, weights, lo, hi);
      RatioBetween(Sum(s, PointsOf(weights)), Sum(s, WeightOf(weights)), lo, hi);
    } else {
      assert forall a :: a in s ==> Counts(a, s, weights);
      PlainSumBetween(s, lo, hi);
      RatioBetween(Sum(s, ScoreOf()), |s|, lo, hi);
    }
  }

  /**
   * The overall score is the mean rounded half up, and it lies between the least and the greatest
   * counted score: on assessments that follow the schema the clamp to 0..100 changes nothing.
   */
  lemma TotalIsTheRoundedMean(s: seq<Assessment>, weights: map<string, nat>, lo: nat, hi: nat)
    requires |s| > 0 && hi <= MAX_SCORE
    requires forall a :: Counts(a, s, weights) ==> lo <= a.score <= hi
    ensures lo <= WeightedTotal(s, weights) <= hi
    ensures Mean(s, weights) - 0.5 < WeightedTotal(s, weights) as real <= Mean(s, weights) + 0.5
  {
    MeanBetween(s, weights, lo, hi);
  }

  lemma {:induction false} SumSplit(s: seq<Assessment>, t: seq<Assessment>, f: Assessment -> nat)
    ensures Sum(s + t, f) == Sum(s, f) + Sum(t, f)
  {
    if |s| == 0 {
      assert s + t == t;
    } else {
      SumSplit(s[1..], t, f);
      assert (s + t)[1..] == s[1..] + t;
    }
  }

  lemma WithoutOne(s: seq<Assessment>, t: seq<Assessment>, i: nat)
    requires multiset(s) == multiset(t) && s != [] && i < |t| && t[i] == s[0]
    ensures multiset(s[1..]) == multiset(t[..i] + t[i + 1..])
  {
    var before, after := t[..i], t[i + 1..];
    assert t == before + [t[i]] + after;
    assert s == [s[0]] + s[1..];
    assert multiset(s) == multiset{s[0]} + multiset(s[1..]);
    assert multiset(t) == multiset(before) + multiset{t[i]} + multiset(after);
    assert multiset(s[1..]) == multiset(s) - multiset{s[0]};
    assert multiset(before + after) == multiset(t) - multiset{t[i]};
  }

  lemma SumWithoutOne(t: seq<Assessment>, i: nat, f: Assessment -> nat)
    requires i < |t|
    ensures Sum(t, f) == f(t[i]) + Sum(t[..i] + t[i + 1..], f)
  {
    var before, after := t[..i], t[i + 1..];
    SumSplit(before, after, f);
    SumSplit(before, [t[i]] + after, f);
    assert t == before + ([t[i]] + after);
    assert ([t[i]] + after)[1..] == after;
  }

  lemma {:induction false} SumOfReordering(s: seq<Assessment>, t: seq<Assessment>, f: Assessment -> nat)
    requires multiset(s) == multiset(t)
    ensures |s| == |t| && Sum(s, f) == Sum(t, f)
  {
    assert |multiset(s)| == |s| && |multiset(t)| == |t|;
    if |s| > 0 {
      assert s[0] in multiset(t);
      var i :| 0 <= i < |t| && t[i] == s[0];
      WithoutOne(s, t, i);
      SumOfReordering(s[1..], t[..i] + t[i + 1..], f);
      SumWithoutOne(t, i, f);
    }
  }

  /** The order the assessments come in does not matter. */
  lemma TotalIgnoresOrder(s: seq<Assessment>, t: seq<Assessment>, weights: map<string, nat>)
    requires |s| > 0 && multiset(s) == multiset(t)
    ensures |t| > 0 && WeightedTotal(s, weights) == WeightedTotal(t, weights)
  {
    SumOfReordering(s, t, WeightOf(weights));
    SumOfReordering(s, t, PointsOf(weights));
    SumOfReordering(s, t, ScoreOf());
    CountedSums(s, weights);
    CountedSums(t, weights);
  }

  function ScaledWeights(weights: map<string, nat>, k: nat): map<string, nat> {
    map id | id in weights :: k * weights[id]
  }

  lemma TimesScaled(score: nat, w: nat, k: nat, ws: nat, ps: nat)
    ensures score * (k * w) == k * (score * w)
    ensures k * (w + ws) == k * w + k * ws
    ensures k * (score * w + ps) == k * (score * w) + k * ps
  {
  }

  lemma {:induction false} ScaledSums(s: seq<Assessment>, weights: map<string, nat>, k: nat)
    ensures Sum(s, WeightOf(ScaledWeights(weights, k))) == k * Sum(s, WeightOf(weights))
    ensures Sum(s, PointsOf(ScaledWeights(weights, k))) == k * Sum(s, PointsOf(weights))
  {
    if |s| > 0 {
      ScaledSums(s[1..], weights, k);
      var w := WeightOf(weights)(s[0]);
      assert WeightOf(ScaledWeights(weights, k))(s[0]) == k * w;
      TimesScaled(s[0].score, w, k, Sum(s[1..], WeightOf(weights)), Sum(s[1..], PointsOf(weights)));
    }
  }

  lemma RatioOfScaled(num: nat, den: nat, k: nat)
    requires den > 0 && k > 0
    ensures k * den > 0
    ensures (k * num) as real / (k * den) as real == num as real / den as real
  {
    assert k * den > 0;
    var q, n, d, r := num as real / den as real, num as real, den as real, k as real;
    assert q * d == n;
    assert (k * den) as real == r * d && (k * num) as real == r * n;
    assert r * n == q * (r * d);
  }

  /** Only the proportions between the weights matter. */
  lemma TotalIgnoresScale(s: seq<Assessment>, weights: map<string, nat>, k: nat)
    requires |s| > 0 && k > 0
    ensures WeightedTotal(s, ScaledWeights(weights, k)) == WeightedTotal(s, weights)
  {
    ScaledSums(s, weights, k);
    CountedSums(s, weights);
    CountedSums(s, ScaledWeights(weights, k));
    if Sum(s, WeightOf(weights)) > 0 {
      RatioOfScaled(Sum(s, PointsOf(weights)), Sum(s, WeightOf(weights)), k);
    }
  }

  /** t assesses the same criteria as s, scoring those that carry a weight no lower. */
  ghost predicate NoLower(s: seq<Assessment>, t: seq<Assessment>, weights: map<string, nat>, plain: bool) {
    && |s| == |t|
    && forall i :: 0 <= i < |s| ==>
         && s[i].criterionId == t[i].criterionId
         && (plain || WeightOf(weights)(s[i]) > 0 ==> s[i].score <= t[i].score)
  }

  lemma {:induction false} SumsNoLower(s: seq<Assessment>, t: seq<Assessment>, weights: map<string, nat>, plain: bool)
    requires NoLower(s, t, weights, plain)
    ensures Sum(s, WeightOf(weights)) == Sum(t, WeightOf(weights))
    ensures Sum(s, PointsOf(weights)) <= Sum(t, PointsOf(weights))
    ensures plain ==> Sum(s, ScoreOf()) <= Sum(t, ScoreOf())
  {
    if |s| > 0 {
      SumsNoLower(s[1..], t[1..], weights, plain);
      var w := WeightOf(weights)(s[0]);
      assert WeightOf(weights)(t[0]) == w;
      if w > 0 {
        assert s[0].score * w <= t[0].score * w;
      }
    }
  }

  lemma RatioMonotone(num: nat, num': nat, den: nat)
    requires den > 0 && num <= num'
    ensures num as real / den as real <= num' as real / den as real
  {
    var q, q' := num as real / den as real, num' as real / den as real;
    assert q * den as real == num as real && q' * den as real == num' as real;
    CancelFactor(q, q', den as real);
  }

  /**
   * Raising scores never lowers the total. While some criterion carries a weight, the scores of
   * those that carry none - the must-haves - are free to be anything.
   */
  lemma TotalIsMonotone(s: seq<Assessment>, t: seq<Assessment>, weights: map<string, nat>)
    requires |s| > 0 && NoLower(s, t, weights, Sum(s, WeightOf(weights)) == 0)
    ensures WeightedTotal(s, weights) <= WeightedTotal(t, weights)
  {
    SumsNoLower(s, t, weights, Sum(s, WeightOf(weights)) == 0);
    CountedSums(s, weights);
    CountedSums(t, weights);
    if Sum(s, WeightOf(weights)) > 0 {
      RatioMonotone(Sum(s, PointsOf(weights)), Sum(t, PointsOf(weights)), Sum(s, WeightOf(weights)));
    } else {
      RatioMonotone(Sum(s, ScoreOf()), Sum(t, ScoreOf()), |s|);
    }
  }

  /** Two answers that differ only in criteria without a weight give the same total, once one has a weight. */
  lemma TotalIgnoresUnweighted(s: seq<Assessment>, t: seq<Assessment>, weights: map<string, nat>)
    requires Sum(s, WeightOf(weights)) > 0 && |s| == |t|
    requires forall i :: 0 <= i < |s| ==>
      && s[i].criterionId == t[i].criterionId
      && (WeightOf(weights)(s[i]) > 0 ==> s[i].score == t[i].score)
    ensures |s| > 0 && WeightedTotal(s, weights) == WeightedTotal(t, weights)
  {
    assert NoLower(s, t, weights, false) && NoLower(t, s, weights, false);
    SumsNoLower(s, t, weights, false);
    SumsNoLower(t, s, weights, false);
    CountedSums(s, weights);
    CountedSums(t, weights);
  }

  // ---------- ScoreAgainstCriteria ----------

  /** {c.id: c for c in criteria}: the last criterion of an id wins. */
  function ById(criteria: seq<Criterion>): map<string, Criterion> {
    if |criteria| == 0 then map[]
    else ById(criteria[..|criteria| - 1])[criteria[|criteria| - 1].id := criteria[|criteria| - 1]]
  }

  /** The keys of that dict in its own order: each id where it first occurred. */
  function Keys(criteria: seq<Criterion>): seq<string> {
    if |criteria| == 0 then []
    else
      var before, id := criteria[..|criteria| - 1], criteria[|criteria| - 1].id;
      Keys(before) + if id in ById(before) then [] else [id]
  }

  function AssessedById(assessments: seq<Assessment>): map<string, Assessment> {
    if |assessments| == 0 then map[]
    else
      var last := assessments[|assessments| - 1];
      AssessedById(assessments[..|assessments| - 1])[last.criterionId := last]
  }

  /** The weights the total counts: a must-have carries none. */
  function Weights(requested: map<string, Criterion>): map<string, nat> {
    map id | id in requested :: if requested[id].mustHave then 0 else requested[id].weight
  }

  /** What pydantic accepts of the model's answer. */
  predicate FollowsSchema(assessments: seq<Assessment>) {
    && |assessments| > 0
    && forall i :: 0 <= i < |assessments| ==>
         |assessments[i].criterionId| > 0 && assessments[i].score <= MAX_SCORE
  }

  /** The ids of unmet must-haves among keys, in the dict's order. */
  function UnmetAmong(keys: seq<string>, requested: map<string, Criterion>,
                      assessed: map<string, Assessment>): seq<string>
    requires forall k :: k in keys ==> k in requested && k in assessed
  {
    if |keys| == 0 then []
    else
      (if requested[keys[0]].mustHave && !assessed[keys[0]].met then [keys[0]] else [])
      + UnmetAmong(keys[1..], requested, assessed)
  }

  /** Python's string order: by code point, a prefix first. */
  predicate StringLess(s: string, t: string) {
    |t| > 0 && (|s| == 0 || s[0] < t[0] || (s[0] == t[0] && StringLess(s[1..], t[1..])))
  }

  function InsertSorted(id: string, ids: seq<string>): seq<string> {
    if |ids| == 0 || !StringLess(ids[0], id) then [id] + ids
    else [ids[0]] + InsertSorted(id, ids[1..])
  }

  function Sorted(ids: seq<string>): seq<string> {
    if |ids| == 0 then [] else InsertSorted(ids[0], Sorted(ids[1..]))
  }

  lemma {:induction false} KeysCoverById(criteria: seq<Criterion>)
    ensures forall id :: id in Keys(criteria) <==> id in ById(criteria)
    ensures forall i, j :: 0 <= i < j < |Keys(criteria)| ==> Keys(criteria)[i] != Keys(criteria)[j]
    ensures forall id :: id in ById(criteria) ==> ById(criteria)[id] in criteria && ById(criteria)[id].id == id
    ensures forall c :: c in criteria ==> c.id in ById(criteria)
  {
    if |criteria| > 0 {
      KeysCoverById(criteria[..|criteria| - 1]);
    }
  }

  function ScoreAgainstCriteria(criteria: seq<Criterion>, assessments: seq<Assessment>): Result<Scored, ScoringError> {
    if |criteria| == 0 then Err(NoCriteria)
    else if !FollowsSchema(assessments) then Err(UnusableAnswer)
    else
      var requested := ById(criteria);
      var assessed := AssessedById(assessments);
      if assessed.Keys != requested.Keys then Err(AssessmentsMismatch)
      else if |assessments| != |assessed| then Err(AssessedTwice)
      else
        KeysCoverById(criteria);
        var unmet := UnmetAmong(Keys(criteria), requested, assessed);
        Ok(Scored(WeightedTotal(assessments, Weights(requested)), |unmet| == 0, Sorted(unmet)))
  }

  lemma {:induction false} UnmetAmongIs(keys: seq<string>, requested: map<string, Criterion>,
                                        assessed: map<string, Assessment>)
    requires forall k :: k in keys ==> k in requested && k in assessed
    requires forall i, j :: 0 <= i < j < |keys| ==> keys[i] != keys[j]
    ensures forall id :: id in UnmetAmong(keys, requested, assessed) <==>
      id in keys && requested[id].mustHave && !assessed[id].met
    ensures Distinct(UnmetAmong(keys, requested, assessed))
  {
    if |keys| > 0 {
      UnmetAmongIs(keys[1..], requested, assessed);
    }
  }

  ghost predicate Distinct<T>(s: seq<T>) {
    forall i, j :: 0 <= i < j < |s| ==> s[i] != s[j]
  }

  lemma {:induction false} SortedKeeps(ids: seq<string>)
    ensures multiset(Sorted(ids)) == multiset(ids)
    ensures |Sorted(ids)| == |ids|
  {
    if |ids| > 0 {
      SortedKeeps(ids[1..]);
      InsertKeeps(ids[0], Sorted(ids[1..]));
      assert ids == [ids[0]] + ids[1..];
    }
  }

  lemma {:induction false} InsertKeeps(id: string, ids: seq<string>)
    ensures multiset(InsertSorted(id, ids)) == multiset{id} + multiset(ids)
    ensures |InsertSorted(id, ids)| == |ids| + 1
  {
    if |ids| > 0 && StringLess(ids[0], id) {
      InsertKeeps(id, ids[1..]);
      assert ids == [ids[0]] + ids[1..];
    }
  }

  lemma DistinctByCount(s: seq<string>)
    ensures Distinct(s) <==> forall x :: multiset(s)[x] <= 1
  {
    if Distinct(s) {
      forall x ensures multiset(s)[x] <= 1 {
        DistinctCountsOnce(s, x);
      }
    } else {
      var i, j :| 0 <= i < j < |s| && s[i] == s[j];
      assert s == s[..i] + [s[i]] + s[i + 1..j] + [s[j]] + s[j + 1..];
      assert multiset(s)[s[i]] >= 2;
    }
  }

  lemma {:induction false} DistinctCountsOnce(s: seq<string>, x: string)
    requires Distinct(s)
    ensures multiset(s)[x] <= 1
  {
    if |s| > 0 {
      DistinctCountsOnce(s[1..], x);
      assert s == [s[0]] + s[1..];
      assert s[0] !in s[1..];
    }
  }

  /**
   * What an accepted answer says: each must-have judged unmet is named exactly once and nothing
   * else is, the candidate qualifies exactly when none is named, and the score is on the scale.
   */
  lemma AcceptedAnswer(criteria: seq<Criterion>, assessments: seq<Assessment>)
    requires ScoreAgainstCriteria(criteria, assessments).Ok?
    ensures
      var r := ScoreAgainstCriteria(criteria, assessments).value;
      && 0 <= r.score <= MAX_SCORE
      && (r.meetsMustHaves <==> |r.unmetMustHaveIds| == 0)
      && Distinct(r.unmetMustHaveIds)
      && (forall id :: id in r.unmetMustHaveIds <==>
            id in ById(criteria) && ById(criteria)[id].mustHave && !AssessedById(assessments)[id].met)
  {
    var requested, assessed := ById(criteria), AssessedById(assessments);
    KeysCoverById(criteria);
    UnmetAmongIs(Keys(criteria), requested, assessed);
    var unmet := UnmetAmong(Keys(criteria), requested, assessed);
    SortedKeeps(unmet);
    DistinctByCount(unmet);
    DistinctByCount(Sorted(unmet));
    forall id ensures id in Sorted(unmet) <==> id in unmet {
      assert id in multiset(Sorted(unmet)) <==> id in multiset(unmet);
    }
    assert forall a :: a in assessments ==> a.score <= MAX_SCORE;
    TotalIsTheRoundedMean(assessments, Weights(requested), 0, MAX_SCORE);
  }

  /** No criterion is assessed twice. */
  ghost predicate OncePerCriterion(assessments: seq<Assessment>) {
    forall i, j :: 0 <= i < j < |assessments| ==> assessments[i].criterionId != assessments[j].criterionId
  }

  lemma {:induction false} AssessedByIdHolds(assessments: seq<Assessment>)
    ensures forall id :: id in AssessedById(assessments) ==>
      AssessedById(assessments)[id] in assessments && AssessedById(assessments)[id].criterionId == id
    ensures forall i :: 0 <= i < |assessments| ==> assessments[i].criterionId in AssessedById(assessments)
  {
    if |assessments| > 0 {
      AssessedByIdHolds(assessments[..|assessments| - 1]);
    }
  }

  lemma OncePerCriterionExtends(before: seq<Assessment>, last: Assessment)
    ensures OncePerCriterion(before + [last]) <==>
      OncePerCriterion(before) && last.criterionId !in AssessedById(before)
  {
    AssessedByIdHolds(before);
    var all := before + [last];
    if OncePerCriterion(all) {
      forall i, j | 0 <= i < j < |before| ensures before[i].criterionId != before[j].criterionId {
        assert all[i] == before[i] && all[j] == before[j];
      }
    }
    if last.criterionId in AssessedById(before) {
      var i :| 0 <= i < |before| && before[i] == AssessedById(before)[last.criterionId];
      assert all[i].criterionId == all[|before|].criterionId;
    }
  }

  lemma {:induction false} AssessedByIdCounts(assessments: seq<Assessment>)
    ensures |AssessedById(assessments)| <= |assessments|
    ensures |AssessedById(assessments)| == |assessments| <==> OncePerCriterion(assessments)
  {
    if |assessments| > 0 {
      var n := |assessments| - 1;
      var before, last := assessments[..n], assessments[n];
      AssessedByIdCounts(before);
      OncePerCriterionExtends(before, last);
      assert assessments == before + [last];
      var dict := AssessedById(before);
      var id := last.criterionId;
      assert |dict[id := last]| == if id in dict then |dict| else |dict| + 1 by {
        assert dict[id := last].Keys == dict.Keys + {id};
        assert id in dict ==> dict.Keys + {id} == dict.Keys;
      }
    }
  }

  ghost predicate AssessedBy(c: Criterion, assessments: seq<Assessment>) {
    exists i :: 0 <= i < |assessments| && assessments[i].criterionId == c.id
  }

  ghost predicate AskedFor(a: Assessment, criteria: seq<Criterion>) {
    exists i :: 0 <= i < |criteria| && criteria[i].id == a.criterionId
  }

  /**
   * Exactly which answers are accepted: those of the right form that assess every criterion of the request
   * once and nothing else. Neither a dropped assessment nor an invented one ever reaches the total.
   */
  lemma AcceptedExactlyWhenOneAssessmentEach(criteria: seq<Criterion>, assessments: seq<Assessment>)
    ensures ScoreAgainstCriteria(criteria, assessments).Ok? <==>
      && |criteria| > 0 && |assessments| > 0
      && (forall a :: a in assessments ==> a.criterionId != "" && a.score <= 100)
      && (forall c :: c in criteria ==> AssessedBy(c, assessments))
      && (forall a :: a in assessments ==> AskedFor(a, criteria))
      && OncePerCriterion(assessments)
    ensures ScoreAgainstCriteria(criteria, assessments) == Err(NoCriteria) <==> criteria == []
  {
    AssessedByIdCounts(assessments);
    assert FollowsSchema(assessments) <==>
        |assessments| > 0 && forall a :: a in assessments ==> a.criterionId != "" && a.score <= 100;
    SameKeysIff(criteria, assessments);
    hide OncePerCriterion, ById, AssessedById;
  }

  lemma SameKeysIff(criteria: seq<Criterion>, assessments: seq<Assessment>)
    ensures AssessedById(assessments).Keys == ById(criteria).Keys <==>
      && (forall c :: c in criteria ==> AssessedBy(c, assessments))
      && (forall a :: a in assessments ==> AskedFor(a, criteria))
  {
    KeysCoverById(criteria);
    AssessedByIdHolds(assessments);
    hide ById, AssessedById;
    var requested, assessed := ById(criteria), AssessedById(assessments);
    if assessed.Keys == requested.Keys {
      forall c | c in criteria ensures AssessedBy(c, assessments) {
        assert c.id in assessed && assessed[c.id] in assessments;
      }
      forall a | a in assessments ensures AskedFor(a, criteria) {
        assert a.criterionId in requested && requested[a.criterionId] in criteria;
      }
    } else if id :| id in assessed.Keys && id !in requested.Keys {
      assert assessed[id] in assessments && !AskedFor(assessed[id], criteria);
    } else {
      var id :| id in requested.Keys && id !in assessed.Keys;
      assert requested[id] in criteria && !AssessedBy(requested[id], assessments);
    }
  }

  // ---------- What an accepted answer says, in the terms of the request ----------

  /** The criterion an id stands for: the last that carries it. */
  ghost predicate StandsFor(criteria: seq<Criterion>, id: string, p: nat) {
    p < |criteria| && criteria[p].id == id && forall q :: p < q < |criteria| ==> criteria[q].id != id
  }

  lemma {:induction false} ByIdStandsFor(criteria: seq<Criterion>, id: string)
    ensures forall p: nat :: StandsFor(criteria, id, p) ==> id in ById(criteria) && ById(criteria)[id] == criteria[p]
    ensures id in ById(criteria) ==> exists p: nat :: StandsFor(criteria, id, p)
  {
    if |criteria| > 0 {
      var last := |criteria| - 1;
      var before := criteria[..last];
      ByIdStandsFor(before, id);
      if criteria[last].id == id {
        assert StandsFor(criteria, id, last);
      } else {
        forall p: nat | StandsFor(criteria, id, p) ensures StandsFor(before, id, p) {
          assert criteria[p] == before[p];
          forall q | p < q < last ensures before[q].id != id {
            assert criteria[q].id != id;
          }
        }
        if id in ById(before) {
          var p: nat :| StandsFor(before, id, p);
          assert StandsFor(criteria, id, p);
        }
      }
    }
  }

  /** What a criterion's score counts for: its weight when it is nice to have, nothing when it is a must-have. */
  ghost function NiceWeight(criteria: seq<Criterion>, id: string): nat {
    if p: nat :| StandsFor(criteria, id, p) then (if criteria[p].mustHave then 0 else criteria[p].weight) else 0
  }

  ghost function NiceWeights(criteria: seq<Criterion>, s: seq<Assessment>): nat {
    if s == [] then 0 else NiceWeight(criteria, s[0].criterionId) + NiceWeights(criteria, s[1..])
  }

  ghost function NicePoints(criteria: seq<Criterion>, s: seq<Assessment>): nat {
    if s == [] then 0 else s[0].score * NiceWeight(criteria, s[0].criterionId) + NicePoints(criteria, s[1..])
  }

  ghost function PlainPoints(s: seq<Assessment>): nat {
    if s == [] then 0 else s[0].score + PlainPoints(s[1..])
  }

  lemma NiceWeightIs(criteria: seq<Criterion>, a: Assessment)
    ensures WeightOf(Weights(ById(criteria)))(a) == NiceWeight(criteria, a.criterionId)
  {
    ByIdStandsFor(criteria, a.criterionId);
  }

  lemma {:induction false} NiceSumsAre(criteria: seq<Criterion>, s: seq<Assessment>)
    ensures
      var weights := Weights(ById(criteria));
      && Sum(s, WeightOf(weights)) == NiceWeights(criteria, s)
      && Sum(s, PointsOf(weights)) == NicePoints(criteria, s)
    ensures Sum(s, ScoreOf()) == PlainPoints(s)
  {
    if s != [] {
      NiceWeightIs(criteria, s[0]);
      NiceSumsAre(criteria, s[1..]);
    }
  }

  /** Half up: the whole number at most a half above points / weight and less than a half below it. */
  ghost predicate RoundsHalfUp(score: int, points: nat, weight: nat) {
    2 * weight * score <= 2 * points + weight < 2 * weight * (score + 1)
  }

  lemma RoundingIs(score: int, points: nat, weight: nat)
    requires weight > 0
    requires points as real / weight as real - 0.5 < score as real <= points as real / weight as real + 0.5
    ensures RoundsHalfUp(score, points, weight)
  {
    hide Product;
    Divided(points as real, weight as real);
    HalfAround(points as real / weight as real, score as real, weight as real);
    ProductAsReal(score, weight);
    DoubledInts(score * weight, points, weight);
    TwiceProduct(weight, score);
  }

  ghost function Product(a: real, b: real): real {
    a * b
  }

  lemma Divided(p: real, w: real)
    requires w > 0.0
    ensures Product(p / w, w) == p
  {
  }

  lemma HalfAround(mean: real, t: real, w: real)
    requires w > 0.0 && mean - 0.5 < t <= mean + 0.5
    ensures Product(mean, w) - 0.5 * w < Product(t, w) <= Product(mean, w) + 0.5 * w
  {
    hide Product;
    Scaled(t, mean + 0.5, w);
    Scaled(mean - 0.5, t, w);
    Shifted(mean, w);
  }

  lemma Shifted(x: real, w: real)
    ensures Product(x + 0.5, w) == Product(x, w) + 0.5 * w && Product(x - 0.5, w) == Product(x, w) - 0.5 * w
  {
  }

  lemma ProductAsReal(a: int, b: int)
    ensures Product(a as real, b as real) == (a * b) as real
  {
  }

  lemma DoubledInts(product: int, points: nat, weight: nat)
    requires points as real - 0.5 * weight as real < product as real <= points as real + 0.5 * weight as real
    ensures 2 * points - weight < 2 * product <= 2 * points + weight
  {
    assert (2 * points - weight) as real < (2 * product) as real <= (2 * points + weight) as real;
  }

  lemma TwiceProduct(weight: nat, score: int)
    ensures 2 * weight * score == 2 * (score * weight) && 2 * weight * (score + 1) == 2 * (score * weight) + 2 * weight
  {
  }

  lemma Scaled(x: real, y: real, k: real)
    requires k > 0.0
    ensures x <= y ==> Product(x, k) <= Product(y, k)
    ensures x < y ==> Product(x, k) < Product(y, k)
  {
  }

  /**
   * The score of an accepted answer is the mean of the nice-to-haves' scores by their weights, rounded half up:
   * must-haves play no part in it. Where no nice-to-have has a weight it is the plain mean of all scores.
   */
  lemma ScoreIsTheNiceMean(criteria: seq<Criterion>, assessments: seq<Assessment>)
    requires ScoreAgainstCriteria(criteria, assessments).Ok?
    ensures
      var score := ScoreAgainstCriteria(criteria, assessments).value.score;
      if NiceWeights(criteria, assessments) > 0
      then RoundsHalfUp(score, NicePoints(criteria, assessments), NiceWeights(criteria, assessments))
      else RoundsHalfUp(score, PlainPoints(assessments), |assessments|)
  {
    var weights := Weights(ById(criteria));
    ScoreIsTheTotal(criteria, assessments);
    NiceSumsAre(criteria, assessments);
    hide ScoreAgainstCriteria, Sum, NiceWeights, NicePoints, PlainPoints, Weights, RoundsHalfUp, ById;
    TotalRoundsSums(assessments, weights);
  }

  lemma ScoreIsTheTotal(criteria: seq<Criterion>, assessments: seq<Assessment>)
    requires ScoreAgainstCriteria(criteria, assessments).Ok?
    ensures |assessments| > 0 && forall a :: a in assessments ==> a.score <= MAX_SCORE
    ensures ScoreAgainstCriteria(criteria, assessments).value.score
        == WeightedTotal(assessments, Weights(ById(criteria)))
  {
  }

  lemma TotalRoundsSums(s: seq<Assessment>, weights: map<string, nat>)
    requires |s| > 0 && forall a :: a in s ==> a.score <= MAX_SCORE
    ensures
      var weight := Sum(s, WeightOf(weights));
      if weight > 0 then RoundsHalfUp(WeightedTotal(s, weights), Sum(s, PointsOf(weights)), weight)
      else RoundsHalfUp(WeightedTotal(s, weights), Sum(s, ScoreOf()), |s|)
  {
    TotalIsTheRoundedMean(s, weights, 0, MAX_SCORE);
    MeanIs(s, weights);
    hide *;
    if Sum(s, WeightOf(weights)) > 0 {
      RoundingIs(WeightedTotal(s, weights), Sum(s, PointsOf(weights)), Sum(s, WeightOf(weights)));
    } else {
      RoundingIs(WeightedTotal(s, weights), Sum(s, ScoreOf()), |s|);
    }
  }

  lemma MeanIs(s: seq<Assessment>, weights: map<string, nat>)
    requires |s| > 0
    ensures
      var weight := Sum(s, WeightOf(weights));
      Mean(s, weights) ==
        if weight > 0 then Sum(s, PointsOf(weights)) as real / weight as real
        else Sum(s, ScoreOf()) as real / |s| as real
  {
    CountedSums(s, weights);
  }

  lemma {:induction false} SameNiceSums(criteria: seq<Criterion>, s: seq<Assessment>, t: seq<Assessment>)
    requires |s| == |t|
    requires forall i :: 0 <= i < |s| ==>
      && s[i].criterionId == t[i].criterionId
      && (NiceWeight(criteria, s[i].criterionId) > 0 ==> s[i].score == t[i].score)
    ensures NiceWeights(criteria, s) == NiceWeights(criteria, t) && NicePoints(criteria, s) == NicePoints(criteria, t)
  {
    if s != [] {
      SameNiceSums(criteria, s[1..], t[1..]);
    }
  }

  lemma {:induction false} OneWeightIsEnough(criteria: seq<Criterion>, s: seq<Assessment>, i: nat)
    requires i < |s| && NiceWeight(criteria, s[i].criterionId) > 0
    ensures NiceWeights(criteria, s) > 0
  {
    if i > 0 {
      OneWeightIsEnough(criteria, s[1..], i - 1);
    }
  }

  lemma SameRounding(a: int, b: int, points: nat, weight: nat)
    requires weight > 0 && RoundsHalfUp(a, points, weight) && RoundsHalfUp(b, points, weight)
    ensures a == b
  {
    Cancel(2 * weight, a, b + 1);
    Cancel(2 * weight, b, a + 1);
  }

  lemma Cancel(k: nat, x: int, y: int)
    requires k > 0 && k * x < k * y
    ensures x < y
  {
  }

  /** What the must-haves scored does not matter, as soon as some nice-to-have of the request has a weight. */
  lemma MustHavesDoNotCount(criteria: seq<Criterion>, s: seq<Assessment>, t: seq<Assessment>, p: nat)
    requires ScoreAgainstCriteria(criteria, s).Ok? && ScoreAgainstCriteria(criteria, t).Ok? && |s| == |t|
    requires p < |criteria| && StandsFor(criteria, criteria[p].id, p) && !criteria[p].mustHave && criteria[p].weight > 0
    requires forall i :: 0 <= i < |s| ==>
      && s[i].criterionId == t[i].criterionId
      && forall q: nat :: StandsFor(criteria, s[i].criterionId, q) && !criteria[q].mustHave ==> s[i].score == t[i].score
    ensures ScoreAgainstCriteria(criteria, s).value.score == ScoreAgainstCriteria(criteria, t).value.score
  {
    hide ScoreAgainstCriteria, NiceWeights, NicePoints, NiceWeight, RoundsHalfUp, PlainPoints, OncePerCriterion;
    AcceptedExactlyWhenOneAssessmentEach(criteria, s);
    assert AssessedBy(criteria[p], s);
    var i :| 0 <= i < |s| && s[i].criterionId == criteria[p].id;
    NiceWeightOf(criteria, criteria[p].id, p);
    OneWeightIsEnough(criteria, s, i);
    forall j | 0 <= j < |s| && NiceWeight(criteria, s[j].criterionId) > 0 ensures s[j].score == t[j].score {
      var q := WeighedPosition(criteria, s[j].criterionId);
    }
    SameNiceSums(criteria, s, t);
    ScoreIsTheNiceMean(criteria, s);
    ScoreIsTheNiceMean(criteria, t);
    SameRounding(ScoreAgainstCriteria(criteria, s).value.score, ScoreAgainstCriteria(criteria, t).value.score,
                 NicePoints(criteria, s), NiceWeights(criteria, s));
  }

  lemma NiceWeightOf(criteria: seq<Criterion>, id: string, p: nat)
    requires StandsFor(criteria, id, p)
    ensures NiceWeight(criteria, id) == if criteria[p].mustHave then 0 else criteria[p].weight
  {
    OneStandsFor(criteria, id);
  }

  lemma WeighedPosition(criteria: seq<Criterion>, id: string) returns (p: nat)
    requires NiceWeight(criteria, id) > 0
    ensures StandsFor(criteria, id, p) && !criteria[p].mustHave
  {
    p :| StandsFor(criteria, id, p);
    OneStandsFor(criteria, id);
  }

  lemma OneStandsFor(criteria: seq<Criterion>, id: string)
    ensures forall p: nat, q: nat :: StandsFor(criteria, id, p) && StandsFor(criteria, id, q) ==> p == q
  {
  }

  /** Unmet must-haves in the order of their ids: the first difference decides, a prefix comes first. */
  ghost predicate Before(s: string, t: string) {
    exists n: nat :: n <= |s| && n < |t| && s[..n] == t[..n] && (n == |s| || s[n] < t[n])
  }

  lemma {:induction false} StringLessIsBefore(s: string, t: string)
    requires !StringLess(t, s) && s != t
    ensures Before(s, t)
  {
    if s == [] {
      assert s[..0] == t[..0];
    } else if s[0] == t[0] {
      assert s == [s[0]] + s[1..] && t == [t[0]] + t[1..];
      StringLessIsBefore(s[1..], t[1..]);
      var n: nat :| n <= |s[1..]| && n < |t[1..]| && s[1..][..n] == t[1..][..n]
          && (n == |s[1..]| || s[1..][n] < t[1..][n]);
      assert s[..n + 1] == [s[0]] + s[1..][..n] && t[..n + 1] == [t[0]] + t[1..][..n];
    } else {
      assert s[..0] == t[..0];
    }
  }

  ghost predicate NoneLess(ids: seq<string>) {
    forall i :: 0 <= i < |ids| - 1 ==> !StringLess(ids[i + 1], ids[i])
  }

  lemma {:induction false} NotBothLess(s: string, t: string)
    requires StringLess(s, t)
    ensures !StringLess(t, s)
  {
    if s != [] && s[0] == t[0] {
      NotBothLess(s[1..], t[1..]);
    }
  }

  lemma {:induction false} InsertingIsInOrder(id: string, ids: seq<string>)
    requires NoneLess(ids)
    ensures NoneLess(InsertSorted(id, ids))
    ensures InsertSorted(id, ids)[0] == id || (ids != [] && InsertSorted(id, ids)[0] == ids[0])
  {
    if ids != [] && StringLess(ids[0], id) {
      InsertingIsInOrder(id, ids[1..]);
      NotBothLess(ids[0], id);
      var rest := InsertSorted(id, ids[1..]);
      assert InsertSorted(id, ids) == [ids[0]] + rest;
      assert rest[0] == id || (ids[1..] != [] && rest[0] == ids[1]);
    }
  }

  lemma {:induction false} SortedIsInOrder(ids: seq<string>)
    ensures NoneLess(Sorted(ids))
  {
    if ids != [] {
      SortedIsInOrder(ids[1..]);
      InsertingIsInOrder(ids[0], Sorted(ids[1..]));
    }
  }

  /** A must-have that was judged unmet. */
  ghost predicate JudgedUnmet(criteria: seq<Criterion>, assessments: seq<Assessment>, id: string) {
    exists p: nat, i: nat :: StandsFor(criteria, id, p) && criteria[p].mustHave
                             && i < |assessments| && assessments[i].criterionId == id && !assessments[i].met
  }

  lemma JudgedUnmetIs(criteria: seq<Criterion>, assessments: seq<Assessment>, id: string)
    requires OncePerCriterion(assessments) && id in AssessedById(assessments)
    ensures JudgedUnmet(criteria, assessments, id) <==>
      id in ById(criteria) && ById(criteria)[id].mustHave && !AssessedById(assessments)[id].met
  {
    ByIdStandsFor(criteria, id);
    AssessedByIdHolds(assessments);
    var a := AssessedById(assessments)[id];
    var j: nat :| j < |assessments| && assessments[j] == a;
    hide ById, AssessedById;
    if id in ById(criteria) {
      var p: nat :| StandsFor(criteria, id, p);
      OneStandsFor(criteria, id);
      assert forall i: nat :: i < |assessments| && assessments[i].criterionId == id ==> i == j;
    }
  }

  lemma AcceptedIsComplete(criteria: seq<Criterion>, assessments: seq<Assessment>)
    requires ScoreAgainstCriteria(criteria, assessments).Ok?
    ensures OncePerCriterion(assessments) && AssessedById(assessments).Keys == ById(criteria).Keys
    ensures NoneLess(ScoreAgainstCriteria(criteria, assessments).value.unmetMustHaveIds)
  {
    AssessedByIdCounts(assessments);
    KeysCoverById(criteria);
    SortedIsInOrder(UnmetAmong(Keys(criteria), ById(criteria), AssessedById(assessments)));
    hide ById, AssessedById, UnmetAmong, Sorted, Keys, StringLess, OncePerCriterion;
  }

  /** Which must-haves an accepted answer names as unmet, each once and in the order of their ids. */
  lemma UnmetAre(criteria: seq<Criterion>, assessments: seq<Assessment>)
    requires ScoreAgainstCriteria(criteria, assessments).Ok?
    ensures
      var unmet := ScoreAgainstCriteria(criteria, assessments).value.unmetMustHaveIds;
      && (forall id :: id in unmet <==> JudgedUnmet(criteria, assessments, id))
      && forall i :: 0 <= i < |unmet| - 1 ==> Before(unmet[i], unmet[i + 1])
  {
    var unmet := ScoreAgainstCriteria(criteria, assessments).value.unmetMustHaveIds;
    AcceptedAnswer(criteria, assessments);
    AcceptedIsComplete(criteria, assessments);
    AssessedByIdHolds(assessments);
    KeysCoverById(criteria);
    hide ScoreAgainstCriteria, ById, AssessedById, UnmetAmong, Sorted, Keys, Before, StringLess;
    forall id
      ensures id in unmet <==> JudgedUnmet(criteria, assessments, id)
    {
      if id in AssessedById(assessments) {
        JudgedUnmetIs(criteria, assessments, id);
      }
    }
    forall i | 0 <= i < |unmet| - 1 ensures Before(unmet[i], unmet[i + 1]) {
      StringLessIsBefore(unmet[i], unmet[i + 1]);
    }
  }
}
