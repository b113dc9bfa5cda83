/** When the promises of the rate limiter hold: exactly if ten minutes refill a bucket. */
module RateLimitExact {
  import opened RateLimit

  // ---- Redis answers like memory only then ----

  /** A burst at once, and ten minutes later one call more than ten minutes earn. */
  function TwoBursts(r: Rate): seq<Call> {
    seq(r.burst + 10 * r.perMinute + 1, i requires 0 <= i => Call(0, if i < r.burst then 0.0 else 600.0))
  }

  function Left(tokens: int, at: Seconds): Buckets { map[0 := Bucket(tokens as real, at)] }

  lemma NoWaiting(r: Rate, tokens: int, at: Seconds)
    requires 0 <= tokens <= r.burst
    ensures Level(r, Left(tokens, at), 0, at) == tokens as real == StoredLevel(r, Left(tokens, at), 0, at)
  {
    EarnedNothing(r);
    hide Earned;
  }

  lemma OneMore(r: Rate, tokens: int, at: Seconds)
    requires 1 <= tokens <= r.burst
    ensures Memory(r, Left(tokens, at), 0, at) == Left(tokens - 1, at) == Redis(r, Left(tokens, at), 0, at)
  {
    NoWaiting(r, tokens, at);
    hide Level, StoredLevel;
    assert (tokens - 1) as real == tokens as real - 1.0;
  }

  lemma FirstOne(r: Rate, at: Seconds)
    requires Permitted(r)
    ensures Memory(r, map[], 0, at) == Left(r.burst - 1, at) == Redis(r, map[], 0, at)
  {
  }

  lemma {:induction false} FirstBurst(r: Rate, calls: seq<Call>, i: nat)
    requires Permitted(r) && i <= r.burst <= |calls| && forall k :: 0 <= k < r.burst ==> calls[k] == Call(0, 0.0)
    ensures MemoryAfter(r, calls, i) == RedisAfter(r, calls, i) == if i == 0 then map[] else Left(r.burst - i, 0.0)
  {
    if i > 0 {
      FirstBurst(r, calls, i - 1);
      hide Memory, Redis, Left;
      if i > 1 { OneMore(r, r.burst - i + 1, 0.0); } else { FirstOne(r, 0.0); }
    }
  }

  lemma TenMinutesLater(r: Rate)
    requires Permitted(r) && !Harmless(r)
    ensures Level(r, Left(0, 0.0), 0, 600.0) == (10 * r.perMinute) as real
  {
    TenMinutes(r);
    hide Earned;
  }

  /** Memory has counted ten minutes' tokens, Redis has forgotten the key. */
  lemma SecondBurstStarts(r: Rate)
    requires Permitted(r) && !Harmless(r)
    ensures Memory(r, Left(0, 0.0), 0, 600.0) == Left(10 * r.perMinute - 1, 600.0)
    ensures Redis(r, Left(0, 0.0), 0, 600.0) == Left(r.burst - 1, 600.0)
  {
    TenMinutesLater(r);
    hide Refilled;
  }

  ghost predicate AreTwoBursts(r: Rate, calls: seq<Call>) {
    && |calls| == r.burst + 10 * r.perMinute + 1
    && (forall k :: 0 <= k < r.burst ==> calls[k] == Call(0, 0.0))
    && (forall k :: r.burst <= k < |calls| ==> calls[k] == Call(0, 600.0))
  }

  lemma SecondFirst(r: Rate, calls: seq<Call>)
    requires Permitted(r) && !Harmless(r) && AreTwoBursts(r, calls)
    ensures MemoryAfter(r, calls, r.burst + 1) == Left(10 * r.perMinute - 1, 600.0)
    ensures RedisAfter(r, calls, r.burst + 1) == Left(r.burst - 1, 600.0)
  {
    FirstBurst(r, calls, r.burst);
    SecondBurstStarts(r);
    hide Memory, Redis, Left, Harmless;
  }

  lemma {:induction false} SecondBurst(r: Rate, calls: seq<Call>, i: nat)
    requires Permitted(r) && !Harmless(r) && AreTwoBursts(r, calls) && 1 <= i <= 10 * r.perMinute
    ensures MemoryAfter(r, calls, r.burst + i) == Left(10 * r.perMinute - i, 600.0)
    ensures RedisAfter(r, calls, r.burst + i) == Left(r.burst - i, 600.0)
  {
    hide MemoryAfter, RedisAfter, Left;
    if i == 1 {
      SecondFirst(r, calls);
    } else {
      assert 10 * r.perMinute < r.burst;
      hide Harmless;
      SecondBurst(r, calls, i - 1);
      SecondMore(r, calls, r.burst + i - 1, 10 * r.perMinute - (i - 1), r.burst - (i - 1));
    }
  }

  lemma SecondMore(r: Rate, calls: seq<Call>, k: nat, left: int, stored: int)
    requires k < |calls| && calls[k] == Call(0, 600.0) && 1 <= left <= r.burst && 1 <= stored <= r.burst
    requires MemoryAfter(r, calls, k) == Left(left, 600.0) && RedisAfter(r, calls, k) == Left(stored, 600.0)
    ensures MemoryAfter(r, calls, k + 1) == Left(left - 1, 600.0)
      && RedisAfter(r, calls, k + 1) == Left(stored - 1, 600.0)
  {
    OneMore(r, left, 600.0);
    OneMore(r, stored, 600.0);
    hide Memory, Redis, Left;
  }

  lemma HarmfulAnswersDiffer(r: Rate)
    requires Permitted(r) && !Harmless(r)
    ensures !AnswerAlike(r)
  {
    var calls, last := TwoBursts(r), r.burst + 10 * r.perMinute;
    assert AreTwoBursts(r, calls);
    hide TwoBursts;
    SecondBurst(r, calls, 10 * r.perMinute);
    NoWaiting(r, 0, 600.0);
    NoWaiting(r, r.burst - 10 * r.perMinute, 600.0);
    hide Level, StoredLevel;
    assert Ordered(calls) && last < |calls| && calls[last] == Call(0, 600.0);
    assert !MemoryGrants(r, calls, last) && RedisGrants(r, calls, last);
  }

  /** The Redis form answers every sequence of calls as the memory form does if and only if ten minutes refill a
      bucket. */
  lemma AlikeExactly(r: Rate)
    requires Permitted(r)
    ensures AnswerAlike(r) <==> Harmless(r)
  {
    if Harmless(r) { HarmlessAnswersAlike(r); } else { HarmfulAnswersDiffer(r); }
  }

  // ---- the window bound survives pruning only then ----

  ghost predicate AlwaysBounded(r: Rate) {
    forall calls: seq<Call>, key: Key, i: nat, k: nat :: Ordered(calls) && i < k <= |calls| ==>
      WindowBounded(r, calls, key, i, k)
  }

  predicate WindowBounded(r: Rate, calls: seq<Call>, key: Key, i: nat, k: nat)
    requires i < k <= |calls|
  {
    Granted(r, calls, key, i, k) as real <= Burst(r) + Earned(r, calls[k - 1].at - calls[i].at)
  }

  /** Just over ten minutes: half a token more than ten minutes earn. */
  function Later(r: Rate): Seconds
    requires Permitted(r)
  {
    600.0 + 30.0 / r.perMinute as real
  }

  lemma LaterEarns(r: Rate)
    requires Permitted(r)
    ensures Later(r) > 600.0 && Earned(r, Later(r)) == (10 * r.perMinute) as real + 0.5
  {
    var p := r.perMinute as real;
    assert 30.0 / p > 0.0;
    assert (30.0 / p) * (p / 60.0) == 0.5;
    EarnedAdds(r, 600.0, 30.0 / p);
    TenMinutes(r);
  }

  /** One key's burst; a moment more than ten minutes later ten thousand other keys, and then the first key's burst
      again. */
  function Crowd(r: Rate): seq<Call>
    requires Permitted(r)
  {
    seq(r.burst + 10_000 + r.burst, i requires 0 <= i =>
      if i < r.burst then Call(0, 0.0)
      else if i < r.burst + 10_000 then Call(i - r.burst + 1, Later(r))
      else Call(0, Later(r)))
  }

  /** The buckets of keys 1 to `n`, each one token below the burst. */
  function Others(r: Rate, at: Seconds, n: nat): (m: Buckets)
    ensures |m| == n && forall k :: k in m <==> 1 <= k <= n
    ensures forall k :: k in m ==> m[k] == Bucket(Burst(r) - 1.0, at)
  {
    if n == 0 then map[]
    else
      var m := Others(r, at, n - 1);
      KeyAdded(m, n, Bucket(Burst(r) - 1.0, at));
      m[n := Bucket(Burst(r) - 1.0, at)]
  }

  lemma KeyAdded(m: Buckets, key: Key, b: Bucket)
    ensures |m[key := b]| == if key in m then |m| else |m| + 1
  {
    assert m[key := b].Keys == m.Keys + {key};
    assert |m.Keys| == |m| && |m[key := b].Keys| == |m[key := b]|;
  }

  /** The other keys come one by one; the last of them sweeps the first key out. */
  lemma {:induction false} CrowdArrives(r: Rate, calls: seq<Call>, n: nat)
    requires Permitted(r) && calls == Crowd(r) && n <= 10_000
    ensures MemoryAfter(r, calls, r.burst + n) == if n < 10_000 then Others(r, Later(r), n)[0 := Bucket(0.0, 0.0)]
      else Others(r, Later(r), n)
  {
    if n == 0 {
      FirstBurst(r, calls, r.burst);
    } else {
      CrowdArrives(r, calls, n - 1);
      LaterEarns(r);
      hide Later, Level, Earned;
      var m := MemoryAfter(r, calls, r.burst + n - 1);
      assert calls[r.burst + n - 1] == Call(n, Later(r));
      NextArrives(r, Later(r), n);
    }
  }

  lemma NextArrives(r: Rate, at: Seconds, n: nat)
    requires Permitted(r) && 1 <= n <= 10_000 && at > 600.0
    ensures Memory(r, Others(r, at, n - 1)[0 := Bucket(0.0, 0.0)], n, at) ==
      if n < 10_000 then Others(r, at, n)[0 := Bucket(0.0, 0.0)] else Others(r, at, n)
  {
    var m := Others(r, at, n - 1)[0 := Bucket(0.0, 0.0)];
    var m' := m[n := Bucket(Burst(r) - 1.0, at)];
    KeyAdded(Others(r, at, n - 1), 0, Bucket(0.0, 0.0));
    KeyAdded(m, n, Bucket(Burst(r) - 1.0, at));
    hide Refilled;
    assert m' == Others(r, at, n)[0 := Bucket(0.0, 0.0)];
    if n == 10_000 { assert Fresh(m', at) == Others(r, at, n); }
  }

  lemma {:induction false} BurstAgain(r: Rate, calls: seq<Call>, i: nat)
    requires Permitted(r) && calls == Crowd(r) && i <= r.burst
    ensures MemoryAfter(r, calls, r.burst + 10_000 + i) ==
      if i == 0 then Others(r, Later(r), 10_000)
        else Others(r, Later(r), 10_000)[0 := Bucket((r.burst - i) as real, Later(r))]
  {
    if i == 0 {
      CrowdArrives(r, calls, 10_000);
    } else {
      BurstAgain(r, calls, i - 1);
      LaterEarns(r);
      hide Later, Earned;
      assert calls[r.burst + 10_000 + i - 1] == Call(0, Later(r));
      AgainOne(r, Later(r), i);
    }
  }

  function Again(r: Rate, at: Seconds, i: nat): Buckets
    requires i <= r.burst
  {
    if i == 0 then Others(r, at, 10_000) else Others(r, at, 10_000)[0 := Bucket((r.burst - i) as real, at)]
  }

  lemma AgainOne(r: Rate, at: Seconds, i: nat)
    requires Permitted(r) && 1 <= i <= r.burst
    ensures Level(r, Again(r, at, i - 1), 0, at) == (r.burst - (i - 1)) as real
    ensures Memory(r, Again(r, at, i - 1), 0, at) == Again(r, at, i)
  {
    var m := Again(r, at, i - 1);
    EarnedNothing(r);
    hide Earned;
    var m' := m[0 := Bucket((r.burst - i) as real, at)];
    assert m' == Again(r, at, i);
    assert Fresh(m', at) == m';
  }

  /** Both bursts are granted in full. */
  lemma {:induction false} BothGranted(r: Rate, calls: seq<Call>, k: nat)
    requires Permitted(r) && calls == Crowd(r) && 1 <= k <= |calls|
    ensures Granted(r, calls, 0, 0, k) == if k <= r.burst then k else if k <= r.burst + 10_000 then r.burst
      else k - 10_000
  {
    if k > 1 { BothGranted(r, calls, k - 1); }
    if k <= r.burst {
      FirstBurst(r, calls, k - 1);
      if k > 1 { NoWaiting(r, r.burst - (k - 1), 0.0); }
    } else if k > r.burst + 10_000 {
      BurstAgain(r, calls, k - 1 - r.burst - 10_000);
      AgainOne(r, Later(r), k - r.burst - 10_000);
    }
    hide Level, Memory, Others, Later;
  }

  lemma HarmfulExceeds(r: Rate)
    requires Permitted(r) && !Harmless(r)
    ensures !AlwaysBounded(r)
  {
    var calls := Crowd(r);
    BothGranted(r, calls, |calls|);
    LaterEarns(r);
    hide Later, Earned, Granted;
    assert Ordered(calls);
    assert calls[0] == Call(0, 0.0) && calls[|calls| - 1] == Call(0, Later(r));
    assert !WindowBounded(r, calls, 0, 0, |calls|);
  }

  /** Every window is within its bound, whatever the number of keys, if and only if ten minutes refill a bucket. */
  lemma BoundedExactly(r: Rate)
    requires Permitted(r)
    ensures AlwaysBounded(r) <==> Harmless(r)
  {
    if Harmless(r) {
      forall calls: seq<Call>, key: Key, i: nat, k: nat | Ordered(calls) && i < k <= |calls|
        ensures WindowBounded(r, calls, key, i, k) {
        WindowBound(r, calls, key, i, k);
      }
    } else {
      HarmfulExceeds(r);
    }
  }
}
