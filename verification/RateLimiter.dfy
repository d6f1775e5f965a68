/**
 * The gateway's rate limiter: one token bucket per caller, dropped lazily once idle. Rates are exact
 * reals, times whole nanoseconds on a clock that does not run backwards.
 */
module RateLimiter {
  type Time = int

  const IDLE_BUCKET_TTL: Time := 600_000_000_000 // ten minutes

  /** A caller's bucket: the tokens it held at a moment, and when it was last asked. */
  datatype Bucket = Bucket(tokens: real, at: Time, lastUse: Time)

  datatype Settings = Settings(perSecond: real, burst: nat)

  /** Tokens earned over a span of time. */
  function Earned(q: Settings, span: Time): real {
    q.perSecond * (span as real / 1_000_000_000.0)
  }

  function Least(a: real, b: real): real {
    if a < b then a else b
  }

  /** The tokens in a bucket at a later moment, never above the burst. */
  function Level(q: Settings, b: Bucket, now: Time): real {
    Least(q.burst as real, b.tokens + Earned(q, now - b.at))
  }

  /** A bucket that has never been asked is full. */
  function Fresh(q: Settings, now: Time): Bucket {
    Bucket(q.burst as real, now, now)
  }

  function Grants(q: Settings, b: Bucket, now: Time): bool {
    Level(q, b, now) >= 1.0
  }

  /** The bucket after one request: a token lighter if there was one to take. */
  function Asked(q: Settings, b: Bucket, now: Time): Bucket {
    if Grants(q, b, now) then Bucket(Level(q, b, now) - 1.0, now, now) else b.(lastUse := now)
  }

  type Buckets = map<string, Bucket>

  predicate Idle(b: Bucket, now: Time) {
    now - b.lastUse > IDLE_BUCKET_TTL
  }

  /** The buckets used recently enough to keep. */
  function Kept(m: Buckets, now: Time): Buckets {
    map k | k in m && !Idle(m[k], now) :: m[k]
  }

  class Limiter {
    const settings: Settings
    var buckets: Buckets

    constructor (settings: Settings)
      ensures this.settings == settings && buckets == map[]
    {
      this.settings, buckets := settings, map[];
    }

    /** Drops buckets nobody has used recently. */
    method EvictIdle(now: Time)
      modifies this`buckets
      ensures buckets == Kept(old(buckets), now)
      ensures forall k :: k in buckets <==> k in old(buckets) && now - old(buckets)[k].lastUse <= 600_000_000_000
      ensures forall k :: k in buckets ==> buckets[k] == old(buckets)[k]
    {
      var left := buckets.Keys;
      while left != {}
        invariant left <= old(buckets).Keys
        invariant forall k :: k in buckets <==> k in old(buckets) && (k in left || !Idle(old(buckets)[k], now))
        invariant forall k :: k in buckets ==> buckets[k] == old(buckets)[k]
        decreases left
      {
        var key :| key in left;
        left := left - {key};
        if now - buckets[key].lastUse > IDLE_BUCKET_TTL {
          buckets := buckets - {key};
        }
      }
    }

    /** Takes one token for key, reporting whether there was one. Creating a bucket sweeps the idle ones. */
    method Allow(key: string, now: Time) returns (ok: bool)
      modifies this`buckets
      ensures (buckets, ok) == Lazily(settings, old(buckets), key, now)
      ensures key in buckets && buckets[key].lastUse == now
      ensures key in old(buckets) ==> buckets.Keys == old(buckets).Keys
      ensures key !in old(buckets) ==>
        forall k :: k in buckets && k != key <==> k in old(buckets) && now - old(buckets)[k].lastUse <= 600_000_000_000
      ensures forall k :: k in buckets && k != key ==> buckets[k] == old(buckets)[k]
    {
      var b := if key in buckets then buckets[key] else Fresh(settings, now);
      if key !in buckets {
        EvictIdle(now);
      }
      ok := Grants(settings, b, now);
      buckets := buckets[key := Asked(settings, b, now)];
    }
  }

  /** One request against the limiter as it is. */
  function Lazily(q: Settings, m: Buckets, key: string, now: Time): (Buckets, bool) {
    if key in m then (m[key := Asked(q, m[key], now)], Grants(q, m[key], now))
    else (Kept(m, now)[key := Asked(q, Fresh(q, now), now)], Grants(q, Fresh(q, now), now))
  }

  /** One request against a limiter that forgets nothing. */
  function Forever(q: Settings, m: Buckets, key: string, now: Time): (Buckets, bool) {
    var b := if key in m then m[key] else Fresh(q, now);
    (m[key := Asked(q, b, now)], Grants(q, b, now))
  }

  datatype Call = Call(key: string, now: Time)

  predicate Ordered(calls: seq<Call>) {
    forall i, j :: 0 <= i < j < |calls| ==> calls[i].now <= calls[j].now
  }

  function LazyAnswers(q: Settings, m: Buckets, calls: seq<Call>): seq<bool>
    decreases |calls|
  {
    if |calls| == 0 then []
    else
      var (m', ok) := Lazily(q, m, calls[0].key, calls[0].now);
      [ok] + LazyAnswers(q, m', calls[1..])
  }

  function ForeverAnswers(q: Settings, m: Buckets, calls: seq<Call>): seq<bool>
    decreases |calls|
  {
    if |calls| == 0 then []
    else
      var (m', ok) := Forever(q, m, calls[0].key, calls[0].now);
      [ok] + ForeverAnswers(q, m', calls[1..])
  }

  // ---------- Eviction cannot be seen ----------

  /** An idle bucket has filled up by the time it can be dropped, or nothing is ever granted at all. */
  ghost predicate RefillsWhileIdle(q: Settings) {
    q.burst == 0 || q.perSecond * 600.000000001 >= q.burst as real
  }

  /** What holds of a stored bucket. */
  ghost predicate Sound(q: Settings, b: Bucket, now: Time) {
    0.0 <= b.tokens <= q.burst as real && b.at <= b.lastUse <= now
  }

  lemma EarnedGrows(q: Settings, a: Time, b: Time)
    requires q.perSecond >= 0.0 && a <= b
    ensures Earned(q, a) <= Earned(q, b)
    ensures 0 <= a ==> 0.0 <= Earned(q, a)
  {
    Product(q.perSecond, a as real / 1_000_000_000.0, b as real / 1_000_000_000.0);
    if 0 <= a {
      Product(q.perSecond, 0.0, a as real / 1_000_000_000.0);
    }
  }

  lemma Product(r: real, x: real, y: real)
    requires r >= 0.0 && x <= y
    ensures r * x <= r * y
  {
  }

  lemma EarnedAdds(q: Settings, a: Time, b: Time)
    ensures Earned(q, a) + Earned(q, b) == Earned(q, a + b)
  {
  }

  /** The level at a later moment follows from the level now. */
  lemma LevelLater(q: Settings, b: Bucket, now: Time, later: Time)
    requires q.perSecond >= 0.0 && now <= later
    ensures Level(q, b, later) == Least(q.burst as real, Level(q, b, now) + Earned(q, later - now))
  {
    EarnedAdds(q, now - b.at, later - now);
    EarnedGrows(q, 0, later - now);
  }

  lemma IdleIsFull(q: Settings, b: Bucket, now: Time)
    requires q.perSecond >= 0.0 && RefillsWhileIdle(q) && Sound(q, b, b.lastUse) && Idle(b, now)
    ensures Level(q, b, now) == q.burst as real
  {
    EarnedGrows(q, IDLE_BUCKET_TTL + 1, now - b.at);
  }

  /** Kept buckets are at the level they would be at anyway, and a dropped one would be full. */
  ghost predicate Matches(q: Settings, lazy: Buckets, whole: Buckets, now: Time) {
    && (forall k :: k in lazy ==> k in whole)
    && (forall k :: k in whole ==> Sound(q, whole[k], now))
    && (forall k :: k in lazy ==> Sound(q, lazy[k], now) && lazy[k].lastUse == whole[k].lastUse)
    && (forall k :: k in lazy ==> Level(q, lazy[k], now) == Level(q, whole[k], now))
    && (forall k :: k in whole && k !in lazy ==> Level(q, whole[k], now) == q.burst as real)
  }

  lemma MatchesLater(q: Settings, lazy: Buckets, whole: Buckets, now: Time, later: Time)
    requires q.perSecond >= 0.0 && now <= later && Matches(q, lazy, whole, now)
    ensures Matches(q, lazy, whole, later)
  {
    forall k | k in whole ensures k in lazy ==> Level(q, lazy[k], later) == Level(q, whole[k], later)
                          ensures k !in lazy ==> Level(q, whole[k], later) == q.burst as real
    {
      LevelLater(q, whole[k], now, later);
      EarnedGrows(q, 0, later - now);
      if k in lazy {
        LevelLater(q, lazy[k], now, later);
      }
    }
  }

  lemma AskedSound(q: Settings, b: Bucket, now: Time)
    requires q.perSecond >= 0.0 && Sound(q, b, now)
    ensures Sound(q, Asked(q, b, now), now)
    ensures Level(q, Asked(q, b, now), now) == Level(q, b, now) - if Grants(q, b, now) then 1.0 else 0.0
  {
    EarnedGrows(q, 0, now - b.at);
    assert Earned(q, 0) == 0.0;
  }

  /** The bucket a request finds is at the same level in both, so it is answered and left alike. */
  lemma SameBucketAnswers(q: Settings, lb: Bucket, wb: Bucket, now: Time)
    requires q.perSecond >= 0.0 && Sound(q, lb, now) && Sound(q, wb, now) && Level(q, lb, now) == Level(q, wb, now)
    ensures Grants(q, lb, now) == Grants(q, wb, now) && Asked(q, lb, now).lastUse == Asked(q, wb, now).lastUse
    ensures Sound(q, Asked(q, lb, now), now) && Sound(q, Asked(q, wb, now), now)
    ensures Level(q, Asked(q, lb, now), now) == Level(q, Asked(q, wb, now), now)
  {
    AskedSound(q, lb, now);
    AskedSound(q, wb, now);
  }

  lemma FreshIsFull(q: Settings, now: Time)
    ensures Sound(q, Fresh(q, now), now) && Level(q, Fresh(q, now), now) == q.burst as real
  {
    assert Earned(q, 0) == 0.0;
  }

  /** Replacing one key's bucket in both by buckets at the same level. */
  lemma ReplacingMatches(q: Settings, lazy: Buckets, whole: Buckets, key: string, lb: Bucket, wb: Bucket, now: Time)
    requires Matches(q, lazy, whole, now) && Sound(q, lb, now) && Sound(q, wb, now)
    requires lb.lastUse == wb.lastUse && Level(q, lb, now) == Level(q, wb, now)
    ensures Matches(q, lazy[key := lb], whole[key := wb], now)
  {
    hide Sound, Level;
  }

  /** Dropping idle buckets drops only full ones. */
  lemma SweepingMatches(q: Settings, lazy: Buckets, whole: Buckets, now: Time)
    requires q.perSecond >= 0.0 && RefillsWhileIdle(q) && Matches(q, lazy, whole, now)
    ensures Matches(q, Kept(lazy, now), whole, now)
  {
    forall k | k in lazy && Idle(lazy[k], now) ensures Level(q, whole[k], now) == q.burst as real {
      IdleIsFull(q, whole[k], now);
    }
    hide Sound, Level;
  }

  /** One request gets the same answer from both, and they still match afterwards. */
  lemma OneRequest(q: Settings, lazy: Buckets, whole: Buckets, key: string, now: Time)
    requires q.perSecond >= 0.0 && RefillsWhileIdle(q) && Matches(q, lazy, whole, now)
    ensures Lazily(q, lazy, key, now).1 == Forever(q, whole, key, now).1
    ensures Matches(q, Lazily(q, lazy, key, now).0, Forever(q, whole, key, now).0, now)
  {
    var lb := if key in lazy then lazy[key] else Fresh(q, now);
    var wb := if key in whole then whole[key] else Fresh(q, now);
    FreshIsFull(q, now);
    SameBucketAnswers(q, lb, wb, now);
    SweepingMatches(q, lazy, whole, now);
    hide Matches, Sound, Level, Grants, Asked, Fresh;
    ReplacingMatches(q, if key in lazy then lazy else Kept(lazy, now), whole, key, Asked(q, lb, now),
                     Asked(q, wb, now), now);
  }

  lemma {:induction false} SameAnswersFrom(q: Settings, lazy: Buckets, whole: Buckets, calls: seq<Call>, now: Time)
    requires q.perSecond >= 0.0 && RefillsWhileIdle(q) && Matches(q, lazy, whole, now)
    requires Ordered(calls) && (|calls| > 0 ==> now <= calls[0].now)
    ensures LazyAnswers(q, lazy, calls) == ForeverAnswers(q, whole, calls)
    decreases |calls|
  {
    hide RefillsWhileIdle, Matches, Lazily, Forever;
    if |calls| > 0 {
      var c := calls[0];
      MatchesLater(q, lazy, whole, now, c.now);
      OneRequest(q, lazy, whole, c.key, c.now);
      SameAnswersFrom(q, Lazily(q, lazy, c.key, c.now).0, Forever(q, whole, c.key, c.now).0, calls[1..], c.now);
    }
  }

  // ---------- ... and only then ----------

  function Repeated(c: Call, n: nat): seq<Call> {
    if n == 0 then [] else [c] + Repeated(c, n - 1)
  }

  lemma {:induction false} RepeatedIs(c: Call, n: nat)
    ensures |Repeated(c, n)| == n && forall i :: 0 <= i < n ==> Repeated(c, n)[i] == c
  {
    if n > 0 {
      RepeatedIs(c, n - 1);
    }
  }

  /** The buckets after some calls. */
  function LazyAfter(q: Settings, m: Buckets, calls: seq<Call>): Buckets
    decreases |calls|
  {
    if |calls| == 0 then m else LazyAfter(q, Lazily(q, m, calls[0].key, calls[0].now).0, calls[1..])
  }

  function ForeverAfter(q: Settings, m: Buckets, calls: seq<Call>): Buckets
    decreases |calls|
  {
    if |calls| == 0 then m else ForeverAfter(q, Forever(q, m, calls[0].key, calls[0].now).0, calls[1..])
  }

  lemma {:induction false} LazyAnswersSplit(q: Settings, l: Buckets, first: seq<Call>, rest: seq<Call>)
    ensures LazyAnswers(q, l, first + rest) == LazyAnswers(q, l, first) + LazyAnswers(q, LazyAfter(q, l, first), rest)
    ensures |LazyAnswers(q, l, first)| == |first|
    decreases |first|
  {
    hide Lazily;
    if |first| == 0 {
      assert first + rest == rest;
    } else {
      LazyAnswersSplit(q, Lazily(q, l, first[0].key, first[0].now).0, first[1..], rest);
      assert (first + rest)[1..] == first[1..] + rest;
    }
  }

  lemma {:induction false} ForeverAnswersSplit(q: Settings, w: Buckets, first: seq<Call>, rest: seq<Call>)
    ensures ForeverAnswers(q, w, first + rest)
        == ForeverAnswers(q, w, first) + ForeverAnswers(q, ForeverAfter(q, w, first), rest)
    ensures |ForeverAnswers(q, w, first)| == |first|
    decreases |first|
  {
    hide Forever;
    if |first| == 0 {
      assert first + rest == rest;
    } else {
      ForeverAnswersSplit(q, Forever(q, w, first[0].key, first[0].now).0, first[1..], rest);
      assert (first + rest)[1..] == first[1..] + rest;
    }
  }

  lemma AnswersSplit(q: Settings, l: Buckets, w: Buckets, first: seq<Call>, rest: seq<Call>)
    ensures LazyAnswers(q, l, first + rest) == LazyAnswers(q, l, first) + LazyAnswers(q, LazyAfter(q, l, first), rest)
    ensures ForeverAnswers(q, w, first + rest)
        == ForeverAnswers(q, w, first) + ForeverAnswers(q, ForeverAfter(q, w, first), rest)
    ensures |LazyAnswers(q, l, first)| == |first| == |ForeverAnswers(q, w, first)|
  {
    hide *;
    LazyAnswersSplit(q, l, first, rest);
    ForeverAnswersSplit(q, w, first, rest);
  }

  ghost predicate AllGranted(answers: seq<bool>) {
    forall i :: 0 <= i < |answers| ==> answers[i]
  }

  /** n requests at one moment: all granted exactly when the bucket holds that many tokens. */
  lemma {:induction false} Burst(q: Settings, m: Buckets, key: string, now: Time, n: nat)
    requires q.perSecond >= 0.0 && key in m && Sound(q, m[key], now)
    ensures
      var calls := Repeated(Call(key, now), n);
      && LazyAnswers(q, m, calls) == ForeverAnswers(q, m, calls)
      && |LazyAnswers(q, m, calls)| == n
      && (AllGranted(LazyAnswers(q, m, calls)) <==> n == 0 || n as real <= Level(q, m[key], now))
  {
    if n > 0 {
      AskedSound(q, m[key], now);
      var m' := m[key := Asked(q, m[key], now)];
      var calls := Repeated(Call(key, now), n);
      assert calls[0] == Call(key, now) && calls[1..] == Repeated(Call(key, now), n - 1);
      Burst(q, m', key, now, n - 1);
      var rest := LazyAnswers(q, m', calls[1..]);
      assert LazyAnswers(q, m, calls) == [Grants(q, m[key], now)] + rest;
      AllGrantedSplits(Grants(q, m[key], now), rest);
    }
  }

  lemma AllGrantedSplits(first: bool, rest: seq<bool>)
    ensures AllGranted([first] + rest) <==> first && AllGranted(rest)
  {
    var all := [first] + rest;
    assert all[0] == first && all[1..] == rest;
    assert forall i :: 0 <= i < |rest| ==> rest[i] == all[i + 1];
    assert forall i :: 1 <= i < |all| ==> all[i] == rest[i - 1];
  }

  /** Emptying a full bucket at one moment. */
  lemma {:induction false} Emptied(q: Settings, key: string, m: Buckets, n: nat)
    requires q.perSecond >= 0.0 && n <= q.burst
    requires m == map[key := Bucket(n as real, 0, 0)]
    ensures LazyAfter(q, m, Repeated(Call(key, 0), n)) == map[key := Bucket(0.0, 0, 0)]
    ensures ForeverAfter(q, m, Repeated(Call(key, 0), n)) == map[key := Bucket(0.0, 0, 0)]
  {
    if n > 0 {
      var calls := Repeated(Call(key, 0), n);
      assert calls[0] == Call(key, 0) && calls[1..] == Repeated(Call(key, 0), n - 1);
      assert Earned(q, 0) == 0.0;
      assert Asked(q, m[key], 0) == Bucket((n - 1) as real, 0, 0);
      var m' := map[key := Bucket((n - 1) as real, 0, 0)];
      assert m[key := Asked(q, m[key], 0)] == m';
      Emptied(q, key, m', n - 1);
    }
  }

  /** Empty a bucket, wait until it may be dropped, have somebody else arrive, and spend the whole burst again. */
  function Probe(q: Settings): seq<Call> {
    var later := IDLE_BUCKET_TTL + 1;
    Repeated(Call("a", 0), q.burst) + ([Call("b", later)] + Repeated(Call("a", later), q.burst))
  }

  lemma ProbeOrdered(q: Settings)
    ensures Ordered(Probe(q))
  {
    RepeatedIs(Call("a", 0), q.burst);
    RepeatedIs(Call("a", IDLE_BUCKET_TTL + 1), q.burst);
  }

  lemma FirstCallThenEmpty(q: Settings)
    requires q.perSecond >= 0.0 && q.burst > 0
    ensures
      var calls := Repeated(Call("a", 0), q.burst);
      LazyAfter(q, map[], calls) == ForeverAfter(q, map[], calls) == map["a" := Bucket(0.0, 0, 0)]
  {
    var calls := Repeated(Call("a", 0), q.burst);
    assert calls[0] == Call("a", 0) && calls[1..] == Repeated(Call("a", 0), q.burst - 1);
    assert Earned(q, 0) == 0.0;
    var m: Buckets := map["a" := Bucket((q.burst - 1) as real, 0, 0)];
    assert Asked(q, Fresh(q, 0), 0) == m["a"];
    assert Kept(map[], 0) == map[];
    assert Lazily(q, map[], "a", 0).0 == m && Forever(q, map[], "a", 0).0 == m;
    Emptied(q, "a", m, q.burst - 1);
  }

  lemma EvictionShows(q: Settings)
    requires q.perSecond >= 0.0 && !RefillsWhileIdle(q)
    ensures LazyAnswers(q, map[], Probe(q)) != ForeverAnswers(q, map[], Probe(q))
  {
    var later := IDLE_BUCKET_TTL + 1;
    var first, b, again := Repeated(Call("a", 0), q.burst), Call("b", later), Repeated(Call("a", later), q.burst);
    var empty: Buckets := map["a" := Bucket(0.0, 0, 0)];
    FirstCallThenEmpty(q);
    AnswersSplit(q, map[], map[], first, [b] + again);
    AnswersSplit(q, empty, empty, [b], again);
    var lazy, whole := LazyAfter(q, empty, [b]), ForeverAfter(q, empty, [b]);
    AfterTheOther(q, lazy, whole);
    RefilledTooLittle(q, whole);
    FreshBurst(q, lazy, later);
    var n := |first| + 1;
    assert LazyAnswers(q, map[], Probe(q))[n..] == LazyAnswers(q, lazy, again);
    assert ForeverAnswers(q, map[], Probe(q))[n..] == ForeverAnswers(q, whole, again);
  }

  lemma AfterTheOther(q: Settings, lazy: Buckets, whole: Buckets)
    requires lazy == LazyAfter(q, map["a" := Bucket(0.0, 0, 0)], [Call("b", IDLE_BUCKET_TTL + 1)])
    requires whole == ForeverAfter(q, map["a" := Bucket(0.0, 0, 0)], [Call("b", IDLE_BUCKET_TTL + 1)])
    ensures "a" !in lazy && "a" in whole && whole["a"] == Bucket(0.0, 0, 0)
  {
    var c := Call("b", IDLE_BUCKET_TTL + 1);
    assert [c][1..] == [];
    var empty: Buckets := map["a" := Bucket(0.0, 0, 0)];
    assert lazy == Lazily(q, empty, "b", c.now).0;
    assert whole == Forever(q, empty, "b", c.now).0;
  }

  lemma RefilledTooLittle(q: Settings, whole: Buckets)
    requires q.perSecond >= 0.0 && !RefillsWhileIdle(q)
    requires "a" in whole && whole["a"] == Bucket(0.0, 0, 0)
    ensures !AllGranted(ForeverAnswers(q, whole, Repeated(Call("a", IDLE_BUCKET_TTL + 1), q.burst)))
  {
    Burst(q, whole, "a", IDLE_BUCKET_TTL + 1, q.burst);
  }

  /** A caller without a bucket gets the whole burst. */
  lemma FreshBurst(q: Settings, m: Buckets, now: Time)
    requires q.perSecond >= 0.0 && q.burst > 0 && "a" !in m
    ensures AllGranted(LazyAnswers(q, m, Repeated(Call("a", now), q.burst)))
  {
    var calls := Repeated(Call("a", now), q.burst);
    assert calls[0] == Call("a", now) && calls[1..] == Repeated(Call("a", now), q.burst - 1);
    assert Earned(q, 0) == 0.0;
    var m' := Lazily(q, m, "a", now).0;
    AskedSound(q, Fresh(q, now), now);
    Burst(q, m', "a", now, q.burst - 1);
    assert LazyAnswers(q, m, calls) == [true] + LazyAnswers(q, m', calls[1..]);
  }

  /**
   * Dropping idle buckets can be seen by no caller exactly when a bucket left alone for just over the
   * time to live has filled up (or the burst is zero and nothing is ever granted).
   */
  lemma EvictionInvisibleIff(q: Settings)
    requires q.perSecond >= 0.0
    ensures RefillsWhileIdle(q) <==>
      forall calls: seq<Call> :: Ordered(calls) ==> LazyAnswers(q, map[], calls) == ForeverAnswers(q, map[], calls)
  {
    if RefillsWhileIdle(q) {
      forall calls: seq<Call> | Ordered(calls) ensures LazyAnswers(q, map[], calls) == ForeverAnswers(q, map[], calls) {
        SameAnswersFrom(q, map[], map[], calls, if |calls| == 0 then 0 else calls[0].now);
      }
    } else {
      ProbeOrdered(q);
      EvictionShows(q);
    }
  }

  // ---------- How much one caller can get ----------

  /** How many of the calls were one caller's and granted. */
  function Granted(key: string, calls: seq<Call>, answers: seq<bool>): nat
    requires |calls| == |answers|
  {
    if |calls| == 0 then 0
    else (if calls[0].key == key && answers[0] then 1 else 0) + Granted(key, calls[1..], answers[1..])
  }

  ghost predicate AllSound(q: Settings, m: Buckets, now: Time) {
    forall k :: k in m ==> Sound(q, m[k], now)
  }

  lemma AllSoundStays(q: Settings, m: Buckets, key: string, now: Time)
    requires q.perSecond >= 0.0 && AllSound(q, m, now)
    ensures AllSound(q, Forever(q, m, key, now).0, now)
  {
    AskedSound(q, if key in m then m[key] else Fresh(q, now), now);
  }

  /** What a caller may still spend at a moment: the level of their bucket, a full one if they have none. */
  function Purse(q: Settings, m: Buckets, key: string, now: Time): real {
    if key in m then Level(q, m[key], now) else q.burst as real
  }

  lemma PurseSpent(q: Settings, m: Buckets, key: string, c: Call)
    requires q.perSecond >= 0.0 && AllSound(q, m, c.now)
    ensures
      var (m', ok) := Forever(q, m, c.key, c.now);
      Purse(q, m', key, c.now) == Purse(q, m, key, c.now) - (if c.key == key && ok then 1.0 else 0.0)
  {
    assert Earned(q, 0) == 0.0;
    AskedSound(q, if c.key in m then m[c.key] else Fresh(q, c.now), c.now);
  }

  lemma PurseGrows(q: Settings, m: Buckets, key: string, now: Time, later: Time)
    requires q.perSecond >= 0.0 && now <= later
    ensures Purse(q, m, key, later) <= Purse(q, m, key, now) + Earned(q, later - now)
    ensures Purse(q, m, key, later) <= q.burst as real
  {
    EarnedGrows(q, 0, later - now);
    if key in m {
      LevelLater(q, m[key], now, later);
    }
  }

  lemma SoundLater(q: Settings, m: Buckets, now: Time, later: Time)
    requires AllSound(q, m, now) && now <= later
    ensures AllSound(q, m, later)
  {
  }

  /** A caller's grants never exceed what they had and what they earned. */
  lemma {:induction false} GrantsWithinPurse(q: Settings, m: Buckets, key: string, calls: seq<Call>, now: Time,
                                             end: Time)
    requires q.perSecond >= 0.0 && AllSound(q, m, now) && Ordered(calls) && now <= end
    requires forall i :: 0 <= i < |calls| ==> now <= calls[i].now <= end
    ensures |ForeverAnswers(q, m, calls)| == |calls|
    ensures Granted(key, calls, ForeverAnswers(q, m, calls)) as real <= Purse(q, m, key, now) + Earned(q, end - now)
    decreases |calls|
  {
    hide Forever, Purse, Level, Sound;
    if |calls| == 0 {
      PurseGrows(q, m, key, now, now);
      PurseNotNegative(q, m, key, now);
      EarnedGrows(q, 0, end - now);
    } else {
      var c := calls[0];
      SoundLater(q, m, now, c.now);
      AllSoundStays(q, m, c.key, c.now);
      var (m', ok) := Forever(q, m, c.key, c.now);
      GrantsWithinPurse(q, m', key, calls[1..], c.now, end);
      PurseSpent(q, m, key, c);
      PurseGrows(q, m, key, now, c.now);
      EarnedAdds(q, c.now - now, end - c.now);
      assert ForeverAnswers(q, m, calls)[1..] == ForeverAnswers(q, m', calls[1..]);
    }
  }

  lemma PurseNotNegative(q: Settings, m: Buckets, key: string, now: Time)
    requires q.perSecond >= 0.0 && AllSound(q, m, now)
    ensures Purse(q, m, key, now) >= 0.0
  {
    if key in m {
      EarnedGrows(q, 0, now - m[key].at);
    }
  }

  lemma OrderedParts(before: seq<Call>, calls: seq<Call>)
    requires Ordered(before + calls)
    ensures Ordered(before) && Ordered(calls)
  {
    var all, n := before + calls, |before|;
    assert forall i :: 0 <= i < n ==> before[i] == all[i];
    assert forall i :: 0 <= i < |calls| ==> calls[i] == all[n + i];
  }

  /** After any calls, evicting or not makes no difference to the answers of the next. */
  lemma SameAnswersLater(q: Settings, before: seq<Call>, calls: seq<Call>)
    requires q.perSecond >= 0.0 && RefillsWhileIdle(q) && Ordered(before + calls)
    ensures LazyAnswers(q, LazyAfter(q, map[], before), calls)
        == ForeverAnswers(q, ForeverAfter(q, map[], before), calls)
  {
    var all, n := before + calls, |before|;
    hide Lazily, Forever, RefillsWhileIdle;
    SameAnswersFrom(q, map[], map[], all, if |all| == 0 then 0 else all[0].now);
    AnswersSplit(q, map[], map[], before, calls);
    assert LazyAnswers(q, map[], all)[n..] == LazyAnswers(q, LazyAfter(q, map[], before), calls);
    assert ForeverAnswers(q, map[], all)[n..] == ForeverAnswers(q, ForeverAfter(q, map[], before), calls);
  }

  lemma GrantsWithinEarned(q: Settings, before: seq<Call>, calls: seq<Call>, key: string, start: Time, end: Time)
    requires q.perSecond >= 0.0 && RefillsWhileIdle(q) && start <= end && Ordered(before + calls)
    requires forall i :: 0 <= i < |calls| ==> start <= calls[i].now <= end
    requires |before| > 0 ==> before[|before| - 1].now <= start
    ensures
      var answers := LazyAnswers(q, LazyAfter(q, map[], before), calls);
      && |answers| == |calls|
      && Granted(key, calls, answers) as real <= q.burst as real + Earned(q, end - start)
  {
    OrderedParts(before, calls);
    var m := ForeverAfter(q, map[], before);
    assert |before| > 0 ==> before[0].now <= before[|before| - 1].now <= start;
    assert AllSound(q, map[], start);
    hide *;
    SameAnswersLater(q, before, calls);
    SoundFrom(q, before, start);
    GrantsWithinPurse(q, m, key, calls, start, end);
    PurseGrows(q, m, key, start, start);
  }

  lemma SoundFrom(q: Settings, before: seq<Call>, start: Time)
    requires q.perSecond >= 0.0 && Ordered(before) && (|before| > 0 ==> before[|before| - 1].now <= start)
    ensures AllSound(q, ForeverAfter(q, map[], before), start)
  {
    hide ForeverAfter;
    SoundAfter(q, map[], before, if |before| == 0 then start else before[0].now, start);
  }

  /**
   * While idle buckets refill in time, one caller is granted at most the burst and what is earned over
   * the span, in any stretch of calls - whatever came before it, and whoever else calls in between.
   */
  lemma GrantsBounded(q: Settings, before: seq<Call>, calls: seq<Call>, key: string, start: Time, end: Time)
    requires q.perSecond >= 0.0 && RefillsWhileIdle(q) && start <= end && Ordered(before + calls)
    requires forall i :: 0 <= i < |calls| ==> start <= calls[i].now <= end
    requires |before| > 0 ==> before[|before| - 1].now <= start
    ensures
      var answers := LazyAnswers(q, LazyAfter(q, map[], before), calls);
      && |answers| == |calls|
      && Granted(key, calls, answers) as real <= q.burst as real
          + q.perSecond * ((end - start) as real / 1_000_000_000.0)
  {
    hide *;
    GrantsWithinEarned(q, before, calls, key, start, end);
    EarnedIs(q, end - start);
  }

  lemma {:induction false} SoundAfter(q: Settings, m: Buckets, calls: seq<Call>, now: Time, end: Time)
    requires q.perSecond >= 0.0 && AllSound(q, m, now) && Ordered(calls) && now <= end
    requires |calls| > 0 ==> now <= calls[0].now && calls[|calls| - 1].now <= end
    ensures AllSound(q, ForeverAfter(q, m, calls), end)
    decreases |calls|
  {
    hide Forever, Sound;
    if |calls| == 0 {
      SoundLater(q, m, now, end);
    } else {
      var c := calls[0];
      SoundLater(q, m, now, c.now);
      AllSoundStays(q, m, c.key, c.now);
      SoundAfter(q, Forever(q, m, c.key, c.now).0, calls[1..], c.now, end);
    }
  }

  // ---------- What one caller is sure to get ----------

  /** Whoever else calls in between: a caller's bucket, if there is one, was last used no later than they asked. */
  lemma {:induction false} LastUsed(q: Settings, m: Buckets, key: string, calls: seq<Call>, now: Time, last: Time)
    requires q.perSecond >= 0.0 && Ordered(calls) && now <= last
    requires key in m ==> Sound(q, m[key], now)
    requires forall i :: 0 <= i < |calls| ==> now <= calls[i].now && (calls[i].key == key ==> calls[i].now <= last)
    ensures key in LazyAfter(q, m, calls) ==> Sound(q, LazyAfter(q, m, calls)[key], last)
    decreases |calls|
  {
    if |calls| > 0 {
      var c := calls[0];
      var m' := Lazily(q, m, c.key, c.now).0;
      if c.key == key {
        AskedSound(q, if key in m then m[key] else Fresh(q, c.now), c.now);
        LastUsed(q, m', key, calls[1..], c.now, last);
      } else {
        LastUsed(q, m', key, calls[1..], now, last);
      }
    }
  }

  lemma EarnedOne(q: Settings, b: Bucket, last: Time, later: Time)
    requires q.perSecond >= 0.0 && q.burst >= 1 && Sound(q, b, last) && last <= later
    requires q.perSecond * ((later - last) as real / 1_000_000_000.0) >= 1.0
    ensures Grants(q, b, later)
  {
    EarnedIs(q, later - last);
    EarnedAtLeast(q, b, later - last, later);
  }

  lemma EarnedAtLeast(q: Settings, b: Bucket, span: Time, later: Time)
    requires q.perSecond >= 0.0 && q.burst >= 1 && b.tokens >= 0.0 && span <= later - b.at && Earned(q, span) >= 1.0
    ensures Grants(q, b, later)
  {
    hide Earned;
    EarnedGrows(q, span, later - b.at);
  }

  lemma EarnedIs(q: Settings, span: Time)
    ensures Earned(q, span) == q.perSecond * (span as real / 1_000_000_000.0)
  {
  }

  /**
   * A caller who has waited long enough to earn a token is granted, whoever else was served meanwhile and
   * whatever was evicted; so is a caller who never asked before.
   */
  lemma GrantedOnceEarned(q: Settings, before: seq<Call>, key: string, last: Time, later: Time)
    requires q.perSecond >= 0.0 && q.burst >= 1 && Ordered(before + [Call(key, later)])
    requires forall i :: 0 <= i < |before| && before[i].key == key ==> before[i].now <= last <= later
    requires q.perSecond * ((later - last) as real / 1_000_000_000.0) >= 1.0
      || forall i :: 0 <= i < |before| ==> before[i].key != key
    ensures LazyAnswers(q, LazyAfter(q, map[], before), [Call(key, later)]) == [true]
  {
    var all := before + [Call(key, later)];
    assert Ordered(before) by {
      assert forall i :: 0 <= i < |before| ==> before[i] == all[i];
    }
    var m := LazyAfter(q, map[], before);
    if i :| 0 <= i < |before| && before[i].key == key {
      LastUsed(q, map[], key, before, before[0].now, last);
      if key in m {
        EarnedOne(q, m[key], last, later);
      }
    } else {
      NeverSeen(q, map[], key, before);
    }
    assert Earned(q, 0) == 0.0;
    assert [Call(key, later)][1..] == [];
  }

  lemma {:induction false} NeverSeen(q: Settings, m: Buckets, key: string, calls: seq<Call>)
    requires key !in m && forall i :: 0 <= i < |calls| ==> calls[i].key != key
    ensures key !in LazyAfter(q, m, calls)
    decreases |calls|
  {
    if |calls| > 0 {
      NeverSeen(q, Lazily(q, m, calls[0].key, calls[0].now).0, key, calls[1..]);
    }
  }
}
