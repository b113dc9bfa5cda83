/** `backend/core/rate_limit.py`: token buckets in memory and in Redis. */
module RateLimit {

  type Key = nat
  type Seconds = real

  /** `rate_per_minute` and `burst`, both at least one. */
  datatype Rate = Rate(perMinute: nat, burst: nat)

  predicate Permitted(r: Rate) { 1 <= r.perMinute && 1 <= r.burst }

  datatype Bucket = Bucket(tokens: real, updatedAt: Seconds)

  type Buckets = map<Key, Bucket>

  function Burst(r: Rate): real { r.burst as real }

  /** Tokens earned in a stretch of time. */
  function Earned(r: Rate, time: Seconds): real { time * (r.perMinute as real / 60.0) }

  function Refilled(r: Rate, b: Bucket, now: Seconds): real {
    var elapsed := if now > b.updatedAt then now - b.updatedAt else 0.0;
    if b.tokens + Earned(r, elapsed) < Burst(r) then b.tokens + Earned(r, elapsed) else Burst(r)
  }

  /** The tokens a call for `key` finds. */
  function Level(r: Rate, m: Buckets, key: Key, now: Seconds): real {
    if key in m then Refilled(r, m[key], now) else Burst(r)
  }

  function Fresh(m: Buckets, now: Seconds): Buckets {
    map k | k in m && m[k].updatedAt >= now - 600.0 :: m[k]
  }

  /** The memory limiter's buckets after a call. */
  function Memory(r: Rate, m: Buckets, key: Key, now: Seconds): Buckets {
    var tokens := Level(r, m, key, now);
    if tokens < 1.0 then m[key := Bucket(tokens, now)]
    else
      var m' := m[key := Bucket(tokens - 1.0, now)];
      if |m'| > 10_000 then Fresh(m', now) else m'
  }

  /** The tokens a call for `key` finds in Redis, where a key expires 600 seconds after it was written. */
  function StoredLevel(r: Rate, m: Buckets, key: Key, now: Seconds): real {
    if key in m && now < m[key].updatedAt + 600.0 then Refilled(r, m[key], now) else Burst(r)
  }

  /** Redis is written only when a call is granted. */
  function Redis(r: Rate, m: Buckets, key: Key, now: Seconds): Buckets {
    var tokens := StoredLevel(r, m, key, now);
    if tokens < 1.0 then m else m[key := Bucket(tokens - 1.0, now)]
  }

  // ---- the two limiters ----

  /** Waiting `wait` seconds is just enough for a token. */
  predicate JustEnough(r: Rate, tokens: real, wait: Seconds) {
    tokens + Earned(r, wait) == 1.0 && wait > 0.0
  }

  /** `burst` tokens at first; then what was left, plus a sixtieth of the rate for each second since, up to `burst`. */
  predicate Finds(r: Rate, b: Bucket, now: Seconds, tokens: real) {
    var grown := if now > b.updatedAt then b.tokens + (now - b.updatedAt) * (r.perMinute as real / 60.0) else b.tokens;
    tokens == if grown < r.burst as real then grown else r.burst as real
  }

  /** A refused call is told to wait until the rate has earned the rest of a token. */
  predicate Waits(r: Rate, tokens: real, allowed: bool, wait: Seconds) {
    if allowed then wait == 0.0 else wait > 0.0 && tokens + wait * (r.perMinute as real / 60.0) == 1.0
  }

  /** What a call leaves in memory: its key's bucket is settled and, if granted, pays a token; with more than ten
      thousand keys a granted call drops exactly the buckets that ten minutes have not touched. */
  predicate MemoryLeft(r: Rate, m: Buckets, m': Buckets, key: Key, now: Seconds, allowed: bool, wait: Seconds) {
    && m'.Keys <= m.Keys + {key} && key in m' && m'[key].updatedAt == now
    && var tokens := m'[key].tokens + if allowed then 1.0 else 0.0;
    && (allowed <==> tokens >= 1.0) && Waits(r, tokens, allowed, wait)
    && (if key in m then Finds(r, m[key], now, tokens) else tokens == r.burst as real)
    && forall k | k in m :: k != key ==>
         && (k in m' ==> m'[k] == m[k])
         && (k !in m' <==> allowed && |m.Keys + {key}| > 10_000 && m[k].updatedAt < now - 600.0)
  }

  /** What a call leaves in Redis: nothing unless it is granted; a key read ten minutes after it was written counts as
      absent. */
  ghost predicate RedisLeft(r: Rate, m: Buckets, m': Buckets, key: Key, now: Seconds, allowed: bool, wait: Seconds) {
    exists tokens: real :: RedisHeld(r, m, m', key, now, allowed, wait, tokens)
  }

  predicate RedisHeld(r: Rate, m: Buckets, m': Buckets, key: Key, now: Seconds, allowed: bool, wait: Seconds,
                      tokens: real) {
    && (allowed <==> tokens >= 1.0) && Waits(r, tokens, allowed, wait)
    && (if key in m && now - m[key].updatedAt < 600.0 then Finds(r, m[key], now, tokens)
        else tokens == r.burst as real)
    && m' == if allowed then m[key := Bucket(tokens - 1.0, now)] else m
  }

  lemma RefilledIsFound(r: Rate, b: Bucket, now: Seconds)
    ensures Finds(r, b, now, Refilled(r, b, now))
  {
    EarnedNothing(r);
  }

  lemma MemoryEffect(r: Rate, m: Buckets, key: Key, now: Seconds, allowed: bool, wait: Seconds)
    requires Permitted(r) && (allowed <==> Level(r, m, key, now) >= 1.0)
    requires if allowed then wait == 0.0 else JustEnough(r, Level(r, m, key, now), wait)
    ensures MemoryLeft(r, m, Memory(r, m, key, now), key, now, allowed, wait)
  {
    var tokens := Level(r, m, key, now);
    assert Waits(r, tokens, allowed, wait);
    if key in m { RefilledIsFound(r, m[key], now); }
    hide Refilled, Finds, Waits, JustEnough;
    var m1 := m[key := Bucket(tokens - 1.0, now)];
    assert m1.Keys == m.Keys + {key} && |m1| == |m1.Keys|;
  }

  lemma RedisEffect(r: Rate, m: Buckets, key: Key, now: Seconds, allowed: bool, wait: Seconds)
    requires allowed <==> StoredLevel(r, m, key, now) >= 1.0
    requires if allowed then wait == 0.0 else JustEnough(r, StoredLevel(r, m, key, now), wait)
    ensures RedisLeft(r, m, Redis(r, m, key, now), key, now, allowed, wait)
  {
    var tokens := StoredLevel(r, m, key, now);
    assert Waits(r, tokens, allowed, wait);
    if key in m { RefilledIsFound(r, m[key], now); }
    hide Refilled, Finds, Waits, JustEnough;
    assert RedisHeld(r, m, Redis(r, m, key, now), key, now, allowed, wait, tokens);
  }

  class MemoryRateLimiter {
    const rate: Rate
    var buckets: Buckets

    constructor (rate: Rate)
      ensures this.rate == rate && buckets == map[]
    {
      this.rate := rate;
      buckets := map[];
    }

    method Consume(key: Key, now: Seconds) returns (allowed: bool, retryAfter: Seconds)
      requires Permitted(rate)
      modifies this
      ensures buckets == Memory(rate, old(buckets), key, now)
      ensures allowed <==> Level(rate, old(buckets), key, now) >= 1.0
      ensures if allowed then retryAfter == 0.0 else JustEnough(rate, Level(rate, old(buckets), key, now), retryAfter)
      ensures MemoryLeft(rate, old(buckets), buckets, key, now, allowed, retryAfter)
    {
      ghost var was := buckets;
      hide MemoryLeft;
      if key !in buckets {
        buckets := buckets[key := Bucket(Burst(rate), now)];
      }
      var bucket := buckets[key];
      var elapsed := if now > bucket.updatedAt then now - bucket.updatedAt else 0.0;
      var tokens := bucket.tokens + Earned(rate, elapsed);
      if tokens > Burst(rate) { tokens := Burst(rate); }
      EarnedNothing(rate);
      assert tokens == Level(rate, old(buckets), key, now);
      buckets := buckets[key := Bucket(tokens, now)];
      if tokens < 1.0 {
        WaitIsEnough(rate, tokens);
        MemoryEffect(rate, was, key, now, false, (1.0 - tokens) / (rate.perMinute as real / 60.0));
        return false, (1.0 - tokens) / (rate.perMinute as real / 60.0);
      }
      MemoryEffect(rate, was, key, now, true, 0.0);
      buckets := buckets[key := Bucket(tokens - 1.0, now)];
      if |buckets| > 10_000 {
        var cutoff := now - 600.0;
        buckets := map k | k in buckets && buckets[k].updatedAt >= cutoff :: buckets[k];
      }
      return true, 0.0;
    }
  }

  class RedisRateLimiter {
    const rate: Rate
    var store: Buckets     // what the server holds; expired keys read as absent

    constructor (rate: Rate)
      ensures this.rate == rate && store == map[]
    {
      this.rate := rate;
      store := map[];
    }

    method Consume(key: Key, now: Seconds) returns (allowed: bool, retryAfter: Seconds)
      requires Permitted(rate)
      modifies this
      ensures store == Redis(rate, old(store), key, now)
      ensures allowed <==> StoredLevel(rate, old(store), key, now) >= 1.0
      ensures if allowed then retryAfter == 0.0
        else JustEnough(rate, StoredLevel(rate, old(store), key, now), retryAfter)
      ensures RedisLeft(rate, old(store), store, key, now, allowed, retryAfter)
    {
      ghost var was := store;
      hide RedisLeft;
      var found := key in store && now < store[key].updatedAt + 600.0;
      var tokens, updatedAt := Burst(rate), now;
      if found { tokens, updatedAt := store[key].tokens, store[key].updatedAt; }
      tokens := tokens + Earned(rate, if now > updatedAt then now - updatedAt else 0.0);
      if tokens > Burst(rate) { tokens := Burst(rate); }
      EarnedNothing(rate);
      assert tokens == StoredLevel(rate, old(store), key, now);
      if tokens < 1.0 {
        WaitIsEnough(rate, tokens);
        RedisEffect(rate, was, key, now, false, (1.0 - tokens) / (rate.perMinute as real / 60.0));
        return false, (1.0 - tokens) / (rate.perMinute as real / 60.0);
      }
      RedisEffect(rate, was, key, now, true, 0.0);
      store := store[key := Bucket(tokens - 1.0, now)];
      return true, 0.0;
    }
  }

  lemma EarnedNothing(r: Rate)
    ensures Earned(r, 0.0) == 0.0
  {
  }

  lemma WaitIsEnough(r: Rate, tokens: real)
    requires Permitted(r) && tokens < 1.0
    ensures JustEnough(r, tokens, (1.0 - tokens) / (r.perMinute as real / 60.0))
  {
    var speed := r.perMinute as real / 60.0;
    assert speed > 0.0;
    assert ((1.0 - tokens) / speed) * speed == 1.0 - tokens;
  }

  // ---- refilling ----

  lemma EarnedAdds(r: Rate, a: Seconds, b: Seconds)
    ensures Earned(r, a + b) == Earned(r, a) + Earned(r, b)
  {
  }

  lemma EarnedGrows(r: Rate, a: Seconds, b: Seconds)
    requires a <= b
    ensures Earned(r, a) <= Earned(r, b)
  {
    EarnedAdds(r, a, b - a);
    assert (b - a) * (r.perMinute as real / 60.0) >= 0.0;
  }

  /** Settling a bucket in between changes nothing. */
  lemma RefillTwice(r: Rate, b: Bucket, now: Seconds, later: Seconds)
    requires b.updatedAt <= now <= later && b.tokens <= Burst(r)
    ensures Refilled(r, Bucket(Refilled(r, b, now), now), later) == Refilled(r, b, later)
  {
    EarnedAdds(r, now - b.updatedAt, later - now);
    EarnedNothing(r);
    EarnedGrows(r, 0.0, later - now);
    EarnedGrows(r, 0.0, now - b.updatedAt);
    hide Earned;
    assert (now - b.updatedAt) + (later - now) == later - b.updatedAt;
  }

  lemma RefillBounds(r: Rate, b: Bucket, now: Seconds, later: Seconds)
    requires now <= later && 0.0 <= b.tokens <= Burst(r)
    ensures 0.0 <= Refilled(r, b, now) <= Refilled(r, b, later) <= Burst(r)
    ensures Refilled(r, b, later) <= Refilled(r, b, now) + Earned(r, later - now)
  {
    EarnedNothing(r);
    var a := if now > b.updatedAt then now - b.updatedAt else 0.0;
    var d := if later > b.updatedAt then later - b.updatedAt else 0.0;
    EarnedGrows(r, 0.0, a);
    EarnedGrows(r, a, d);
    EarnedAdds(r, a, d - a);
    EarnedGrows(r, d - a, later - now);
    hide Earned;
    assert a + (d - a) == d;
  }

  /** Ten minutes refill any bucket. */
  predicate Harmless(r: Rate) { r.burst <= 10 * r.perMinute }

  lemma TenMinutes(r: Rate)
    ensures Earned(r, 600.0) == 10.0 * r.perMinute as real
    ensures Harmless(r) <==> Burst(r) <= Earned(r, 600.0)
  {
    var p := r.perMinute as real;
    assert 600.0 * (p / 60.0) == 10.0 * p;
    assert (10 * r.perMinute) as real == 10.0 * p;
  }

  lemma IdleIsFull(r: Rate, b: Bucket, now: Seconds)
    requires Harmless(r) && 0.0 <= b.tokens && now >= b.updatedAt + 600.0
    ensures Refilled(r, b, now) == Burst(r)
  {
    TenMinutes(r);
    EarnedGrows(r, 600.0, now - b.updatedAt);
    hide Earned;
  }

  // ---- one call ----

  predicate Sound(r: Rate, m: Buckets, now: Seconds) {
    forall k | k in m :: 0.0 <= m[k].tokens <= Burst(r) && m[k].updatedAt <= now
  }

  /** Tokens stay between zero and the burst. */
  lemma MemorySound(r: Rate, m: Buckets, key: Key, now: Seconds)
    requires Permitted(r) && Sound(r, m, now)
    ensures Sound(r, Memory(r, m, key, now), now)
  {
    if key in m { RefillBounds(r, m[key], now, now); }
    hide Refilled;
  }

  lemma RedisSound(r: Rate, m: Buckets, key: Key, now: Seconds)
    requires Permitted(r) && Sound(r, m, now)
    ensures Sound(r, Redis(r, m, key, now), now)
  {
    if key in m { RefillBounds(r, m[key], now, now); }
    hide Refilled;
  }

  /** Nobody is pruned while ten minutes refill a bucket, or while there are few keys. */
  predicate PruningHarmless(r: Rate, m: Buckets) { Harmless(r) || |m| < 10_000 }

  lemma FreshLevel(r: Rate, m: Buckets, k: Key, now: Seconds, later: Seconds)
    requires Harmless(r) && Sound(r, m, now) && now <= later
    ensures Level(r, Fresh(m, now), k, later) == Level(r, m, k, later)
  {
    if k in m && k !in Fresh(m, now) {
      IdleIsFull(r, m[k], later);
    }
  }

  /** A granted call costs its key one token; nothing else changes any level, now or later. */
  lemma MemoryLevels(r: Rate, m: Buckets, key: Key, now: Seconds, k: Key, later: Seconds)
    requires Permitted(r) && Sound(r, m, now) && now <= later && PruningHarmless(r, m)
    ensures var m' := Memory(r, m, key, now);
      Level(r, m', k, later) == if k != key then Level(r, m, k, later)
        else if Level(r, m, key, now) < 1.0 then Level(r, m, key, later)
        else Refilled(r, Bucket(Level(r, m, key, now) - 1.0, now), later)
  {
    var tokens := Level(r, m, key, now);
    if key in m {
      RefillBounds(r, m[key], now, now);
      RefillTwice(r, m[key], now, later);
    } else if tokens < 1.0 {
      assert false;
    }
    hide Refilled, Earned;
    if tokens >= 1.0 {
      var m' := m[key := Bucket(tokens - 1.0, now)];
      CountKeys(m, key, Bucket(tokens - 1.0, now));
      if |m'| > 10_000 {
        FreshLevel(r, m', k, now, later);
      }
    }
  }

  lemma CountKeys(m: Buckets, key: Key, b: Bucket)
    ensures |m[key := b]| <= |m| + 1
  {
    assert m[key := b].Keys == m.Keys + {key};
    assert |m.Keys| == |m| && |m[key := b].Keys| == |m[key := b]|;
  }

  // ---- sequences of calls ----

  datatype Call = Call(key: Key, at: Seconds)

  predicate Ordered(calls: seq<Call>) {
    forall i, j :: 0 <= i <= j < |calls| ==> calls[i].at <= calls[j].at
  }

  function MemoryAfter(r: Rate, calls: seq<Call>, i: nat): Buckets
    requires i <= |calls|
  {
    if i == 0 then map[] else Memory(r, MemoryAfter(r, calls, i - 1), calls[i - 1].key, calls[i - 1].at)
  }

  predicate MemoryGrants(r: Rate, calls: seq<Call>, i: nat)
    requires i < |calls|
  {
    Level(r, MemoryAfter(r, calls, i), calls[i].key, calls[i].at) >= 1.0
  }

  function RedisAfter(r: Rate, calls: seq<Call>, i: nat): Buckets
    requires i <= |calls|
  {
    if i == 0 then map[] else Redis(r, RedisAfter(r, calls, i - 1), calls[i - 1].key, calls[i - 1].at)
  }

  predicate RedisGrants(r: Rate, calls: seq<Call>, i: nat)
    requires i < |calls|
  {
    StoredLevel(r, RedisAfter(r, calls, i), calls[i].key, calls[i].at) >= 1.0
  }

  lemma SoundLater(r: Rate, m: Buckets, now: Seconds, later: Seconds)
    requires Sound(r, m, now) && now <= later
    ensures Sound(r, m, later)
  {
  }

  /** Whatever the calls, every bucket holds between zero and `burst` tokens. */
  lemma {:induction false} TokensBounded(r: Rate, calls: seq<Call>, i: nat, now: Seconds)
    requires Permitted(r) && Ordered(calls) && i <= |calls| && (i > 0 ==> calls[i - 1].at <= now)
    ensures Sound(r, MemoryAfter(r, calls, i), now) && Sound(r, RedisAfter(r, calls, i), now)
  {
    if i > 0 {
      TokensBounded(r, calls, i - 1, calls[i - 1].at);
      hide Sound, Memory, Redis;
      MemorySound(r, MemoryAfter(r, calls, i - 1), calls[i - 1].key, calls[i - 1].at);
      RedisSound(r, RedisAfter(r, calls, i - 1), calls[i - 1].key, calls[i - 1].at);
      SoundLater(r, MemoryAfter(r, calls, i), calls[i - 1].at, now);
      SoundLater(r, RedisAfter(r, calls, i), calls[i - 1].at, now);
    }
  }

  // ---- how much a window grants ----

  /** Calls for `key` granted from index `i` up to `k`. */
  function Granted(r: Rate, calls: seq<Call>, key: Key, i: nat, k: nat): nat
    requires i <= k <= |calls|
    decreases k
  {
    if i == k then 0
    else Granted(r, calls, key, i, k - 1) + if calls[k - 1].key == key && MemoryGrants(r, calls, k - 1) then 1 else 0
  }

  /** Pruning changes no level on the way. */
  predicate NeverHarmed(r: Rate, calls: seq<Call>) {
    forall i | 0 <= i < |calls| :: PruningHarmless(r, MemoryAfter(r, calls, i))
  }

  lemma CallSpends(r: Rate, m: Buckets, call: Call, key: Key)
    requires Permitted(r) && Sound(r, m, call.at) && PruningHarmless(r, m)
    ensures var m' := Memory(r, m, call.key, call.at);
      Level(r, m', key,
            call.at) + (if call.key == key && Level(r, m, key, call.at) >= 1.0 then 1.0 else 0.0) == Level(r, m, key,
            call.at)
  {
    MemoryLevels(r, m, call.key, call.at, key, call.at);
    EarnedNothing(r);
    if key in m { RefillBounds(r, m[key], call.at, call.at); }
    hide Memory, Earned;
  }

  lemma LevelGrows(r: Rate, m: Buckets, key: Key, now: Seconds, later: Seconds)
    requires Permitted(r) && Sound(r, m, now) && now <= later
    ensures 0.0 <= Level(r, m, key, later) <= Level(r, m, key, now) + Earned(r, later - now)
    ensures Level(r, m, key, later) <= Burst(r)
  {
    EarnedNothing(r);
    EarnedGrows(r, 0.0, later - now);
    if key in m { RefillBounds(r, m[key], now, later); }
    hide Refilled, Earned;
  }

  lemma {:induction false} WindowSpends(r: Rate, calls: seq<Call>, key: Key, i: nat, k: nat)
    requires Permitted(r) && Ordered(calls) && NeverHarmed(r, calls) && i < k <= |calls|
    ensures Granted(r, calls, key, i, k) as real + Level(r, MemoryAfter(r, calls, k), key, calls[k - 1].at)
      <= Burst(r) + Earned(r, calls[k - 1].at - calls[i].at)
    decreases k
  {
    hide Level, Memory, Earned, Sound;
    var m, call := MemoryAfter(r, calls, k - 1), calls[k - 1];
    TokensBounded(r, calls, k - 1, call.at);
    CallSpends(r, m, call, key);
    if i == k - 1 {
      LevelGrows(r, m, key, call.at, call.at);
      EarnedNothing(r);
    } else {
      WindowSpends(r, calls, key, i, k - 1);
      TokensBounded(r, calls, k - 1, calls[k - 2].at);
      LevelGrows(r, m, key, calls[k - 2].at, call.at);
      EarnedAdds(r, calls[k - 2].at - calls[i].at, call.at - calls[k - 2].at);
      hide NeverHarmed;
      assert (calls[k - 2].at - calls[i].at) + (call.at - calls[k - 2].at) == call.at - calls[i].at;
    }
  }

  /** Any stretch of calls grants a key at most `burst` requests plus what the rate earns in that time. */
  lemma WindowBound(r: Rate, calls: seq<Call>, key: Key, i: nat, k: nat)
    requires Permitted(r) && Ordered(calls) && NeverHarmed(r, calls) && i < k <= |calls|
    ensures Granted(r, calls, key, i, k) as real <= Burst(r) + Earned(r, calls[k - 1].at - calls[i].at)
  {
    WindowSpends(r, calls, key, i, k);
    TokensBounded(r, calls, k, calls[k - 1].at);
    LevelGrows(r, MemoryAfter(r, calls, k), key, calls[k - 1].at, calls[k - 1].at);
  }

  // ---- memory and Redis answer alike ----

  /** Both stores promise every key the same, now and later. */
  ghost predicate Alike(r: Rate, m: Buckets, s: Buckets, now: Seconds) {
    forall k: Key, later: Seconds {:trigger Level(r, m, k, later)} :: now <= later ==>
      Level(r, m, k, later) == StoredLevel(r, s, k, later)
  }

  lemma RedisLevels(r: Rate, s: Buckets, key: Key, now: Seconds, k: Key, later: Seconds)
    requires Permitted(r) && Sound(r, s, now) && now <= later && Harmless(r)
    ensures var s' := Redis(r, s, key, now);
      StoredLevel(r, s', k, later) == if k != key || StoredLevel(r, s, key, now) < 1.0 then StoredLevel(r, s, k, later)
        else Refilled(r, Bucket(StoredLevel(r, s, key, now) - 1.0, now), later)
  {
    if key in s { RefillBounds(r, s[key], now, now); }
    var tokens := StoredLevel(r, s, key, now);
    if tokens >= 1.0 && k == key && later >= now + 600.0 {
      IdleIsFull(r, Bucket(tokens - 1.0, now), later);
    }
    hide Refilled;
  }

  lemma CallKeepsAlike(r: Rate, m: Buckets, s: Buckets, key: Key, now: Seconds)
    requires Permitted(r) && Harmless(r) && Sound(r, m, now) && Sound(r, s, now) && Alike(r, m, s, now)
    ensures Alike(r, Memory(r, m, key, now), Redis(r, s, key, now), now)
  {
    assert Level(r, m, key, now) == StoredLevel(r, s, key, now);
    forall k: Key, later: Seconds | now <= later
      ensures Level(r, Memory(r, m, key, now), k, later) == StoredLevel(r, Redis(r, s, key, now), k, later)
    {
      MemoryLevels(r, m, key, now, k, later);
      RedisLevels(r, s, key, now, k, later);
      assert Level(r, m, k, later) == StoredLevel(r, s, k, later);
    }
    hide Memory, Redis, Level, StoredLevel;
  }

  lemma AlikeLater(r: Rate, m: Buckets, s: Buckets, now: Seconds, later: Seconds)
    requires Alike(r, m, s, now) && now <= later
    ensures Alike(r, m, s, later)
  {
    hide Level, StoredLevel;
  }

  lemma {:induction false} StoresAlike(r: Rate, calls: seq<Call>, i: nat, now: Seconds)
    requires Permitted(r) && Harmless(r) && Ordered(calls) && i <= |calls| && (i > 0 ==> calls[i - 1].at <= now)
    ensures Alike(r, MemoryAfter(r, calls, i), RedisAfter(r, calls, i), now)
  {
    if i > 0 {
      var at := calls[i - 1].at;
      StoresAlike(r, calls, i - 1, at);
      TokensBounded(r, calls, i - 1, at);
      hide Alike, Memory, Redis, Sound, Harmless;
      CallKeepsAlike(r, MemoryAfter(r, calls, i - 1), RedisAfter(r, calls, i - 1), calls[i - 1].key, at);
      AlikeLater(r, MemoryAfter(r, calls, i), RedisAfter(r, calls, i), at, now);
    }
  }

  /** The limiters answer every call of every sequence alike. */
  ghost predicate AnswerAlike(r: Rate) {
    forall calls: seq<Call>, i: nat :: Ordered(calls) && i < |calls| ==>
      (MemoryGrants(r, calls, i) <==> RedisGrants(r, calls, i))
  }

  lemma HarmlessAnswersAlike(r: Rate)
    requires Permitted(r) && Harmless(r)
    ensures AnswerAlike(r)
  {
    forall calls: seq<Call>, i: nat | Ordered(calls) && i < |calls|
      ensures MemoryGrants(r, calls, i) <==> RedisGrants(r, calls, i) {
      StoresAlike(r, calls, i, calls[i].at);
      assert Level(r, MemoryAfter(r, calls, i), calls[i].key, calls[i].at)
        == StoredLevel(r, RedisAfter(r, calls, i), calls[i].key, calls[i].at);
    }
  }
}
