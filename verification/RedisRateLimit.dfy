/** RedisRateLimiter and RateLimitMiddleware._check_limit of app/core/rate_limit.py, on one shared clock:
    fixed-window counters that outlive their bucket, and the fallback to the process-local limiter. */
module RedisRateLimit {
  import opened RateLimit
  import opened Wrappers

  // ---- Buckets ----

  /** int(now // window). */
  function Bucket(now: real, window: int): int
    requires window >= 1
  {
    (now / window as real).Floor
  }

  function BucketStart(bucket: int, window: int): real {
    bucket as real * window as real
  }

  function BucketEnd(bucket: int, window: int): real {
    BucketStart(bucket, window) + window as real
  }

  lemma Scale(a: real, b: real, w: real)
    requires w > 0.0
    ensures a <= b ==> a * w <= b * w
    ensures a < b ==> a * w < b * w
  {
  }

  lemma BucketHolds(now: real, window: int)
    requires window >= 1
    ensures BucketStart(Bucket(now, window), window) <= now < BucketEnd(Bucket(now, window), window)
  {
    QuotientBounds(now, now / window as real, Bucket(now, window) as real, window as real);
  }

  lemma QuotientBounds(t: real, q: real, b: real, w: real)
    requires w > 0.0 && q * w == t && b <= q < b + 1.0
    ensures b * w <= t < b * w + w
  {
    Products(b, q, w, b * w, t);
    Products(q, b + 1.0, w, t, b * w + w);
  }

  lemma Products(a: real, b: real, w: real, aw: real, bw: real)
    requires w > 0.0 && aw == a * w && bw == b * w
    ensures a <= b ==> aw <= bw
    ensures a < b ==> aw < bw
  {
    Scale(a, b, w);
  }

  lemma BucketsInOrder(b: int, c: int, window: int)
    requires window >= 1
    ensures b < c ==> BucketEnd(b, window) <= BucketStart(c, window)
  {
    Scale((b + 1) as real, c as real, window as real);
  }

  /** The bucket of a time is the only one that holds it. */
  lemma BucketIs(t: real, window: int, b: int)
    requires window >= 1 && BucketStart(b, window) <= t < BucketEnd(b, window)
    ensures Bucket(t, window) == b
  {
    BucketHolds(t, window);
    BucketsInOrder(b, Bucket(t, window), window);
    BucketsInOrder(Bucket(t, window), b, window);
  }

  lemma BucketsMonotone(a: real, b: real, window: int)
    requires window >= 1 && a <= b
    ensures Bucket(a, window) <= Bucket(b, window)
  {
    BucketHolds(a, window);
    BucketHolds(b, window);
    BucketsInOrder(Bucket(b, window), Bucket(a, window), window);
  }

  /** A window-length span meets at most two buckets. */
  lemma TwoBuckets(from: real, t: real, window: int)
    requires window >= 1 && from <= t < from + window as real
    ensures Bucket(t, window) == Bucket(from, window) || Bucket(t, window) == Bucket(from, window) + 1
  {
    var b := Bucket(from, window);
    BucketHolds(from, window);
    if t < BucketEnd(b, window) {
      BucketIs(t, window, b);
    } else {
      BucketIs(t, window, b + 1);
    }
  }

  function CountBucket(h: seq<real>, window: int, bucket: int): (n: nat)
    requires window >= 1
    ensures n <= |h|
  {
    if h == [] then 0
    else CountBucket(h[..|h| - 1], window, bucket) + if Bucket(h[|h| - 1], window) == bucket then 1 else 0
  }

  lemma {:induction false} SpanWithinBuckets(h: seq<real>, window: int, from: real)
    requires window >= 1
    ensures CountIn(h, from, from + window as real)
      <= CountBucket(h, window, Bucket(from, window)) + CountBucket(h, window, Bucket(from, window) + 1)
  {
    if h != [] {
      var t := h[|h| - 1];
      SpanWithinBuckets(h[..|h| - 1], window, from);
      if from <= t < from + window as real { TwoBuckets(from, t, window); }
    }
  }

  ghost predicate BucketsBounded(limit: nat, window: int, h: seq<real>)
    requires window >= 1
  {
    forall b: int :: CountBucket(h, window, b) <= limit
  }

  /** At most limit per bucket is at most twice the limit per window-length span. */
  lemma SpanHoldsAtMostTwice(limit: nat, window: int, h: seq<real>, from: real)
    requires window >= 1 && BucketsBounded(limit, window, h)
    ensures CountIn(h, from, from + window as real) <= 2 * limit
  {
    SpanWithinBuckets(h, window, from);
    assert CountBucket(h, window, Bucket(from, window)) <= limit;
  }

  // ---- The counters ----

  /** A Redis counter; without an expiry it is kept forever. */
  datatype Counter = Counter(count: nat, expires: Option<real>) {
    predicate Live(now: real) { expires.None? || now < expires.value }
  }

  /** Where a Redis error strikes: before or after INCR or EXPIRE took effect. */
  datatype Fault = NoFault | BeforeIncr | AfterIncr | AfterExpire

  type Slot = (string, int)

  /** INCR at `now`. */
  function Incremented(counters: map<Slot, Counter>, slot: Slot, now: real): Counter {
    if slot in counters && counters[slot].Live(now) then Counter(counters[slot].count + 1, counters[slot].expires)
    else Counter(1, None)
  }

  /** For one bucket of one key: the accepted checks were counted, and are no more than allowed. */
  ghost predicate SlotOk(limit: nat, window: int, counters: map<Slot, Counter>, h: seq<real>, slot: Slot)
    requires window >= 1
  {
    var n := CountBucket(h, window, slot.1);
    n <= limit && (n > 0 ==> slot in counters && n <= counters[slot].count)
  }

  ghost predicate SlotsOk(limit: nat, window: int, counters: map<Slot, Counter>, accepted: map<string, seq<real>>)
    requires window >= 1
  {
    forall key: string, b: int :: SlotOk(limit, window, counters, At(accepted, key), (key, b))
  }

  /** A counter lives for a second after the end of its bucket. */
  ghost predicate OutliveBuckets(window: int, counters: map<Slot, Counter>) {
    forall slot <- counters :: Outlives(window, counters[slot], slot.1)
  }

  predicate Outlives(window: int, c: Counter, bucket: int) {
    c.expires.Some? ==> BucketEnd(bucket, window) + 1.0 <= c.expires.value
  }

  lemma OutliveUpdated(window: int, counters: map<Slot, Counter>, slot: Slot, c: Counter)
    requires OutliveBuckets(window, counters) && Outlives(window, c, slot.1)
    ensures OutliveBuckets(window, counters[slot := c])
  {
  }

  /** An INCR at `at` finds the counter of its slot expired, and counts from one again. */
  predicate Restarts(counters: map<Slot, Counter>, slot: Slot, at: real) {
    slot in counters && !counters[slot].Live(at)
  }

  /** Unless it restarts, the counter after an INCR covers all accepted checks of its bucket. */
  lemma IncrementCounts(limit: nat, window: int, counters: map<Slot, Counter>, h: seq<real>, slot: Slot, at: real)
    requires window >= 1 && !Restarts(counters, slot, at) && SlotOk(limit, window, counters, h, slot)
    ensures CountBucket(h, window, slot.1) + 1 <= Incremented(counters, slot, at).count
  {
  }

  /** A first count with its expiry, set at `at`. */
  function Expiring(at: real, window: int): Counter { Counter(1, Some(at + (window + 1) as real)) }

  lemma SlotIsOk(limit: nat, window: int, counters: map<Slot, Counter>, accepted: map<string, seq<real>>, slot: Slot)
    requires window >= 1 && SlotsOk(limit, window, counters, accepted)
    ensures SlotOk(limit, window, counters, At(accepted, slot.0), slot)
  {
    assert slot == (slot.0, slot.1);
  }

  /** The new counter of a slot, and an accepted time if the counter allows it. */
  lemma SlotUpdated(limit: nat, window: int, counters: map<Slot, Counter>, accepted: map<string, seq<real>>,
                    key: string, now: real, c: Counter, record: bool)
    requires window >= 1 && SlotsOk(limit, window, counters, accepted)
    requires CountBucket(At(accepted, key), window, Bucket(now, window)) + 1 <= c.count
    requires record ==> c.count <= limit
    ensures SlotsOk(limit, window, counters[(key, Bucket(now, window)) := c],
                    if record then accepted[key := At(accepted, key) + [now]] else accepted)
  {
    var b := Bucket(now, window);
    var h := At(accepted, key);
    var counters', accepted' := counters[(key, b) := c], if record then accepted[key := h + [now]] else accepted;
    forall k: string, i: int ensures SlotOk(limit, window, counters', At(accepted', k), (k, i)) {
      assert SlotOk(limit, window, counters, At(accepted, k), (k, i));
    }
  }

  /** max(1, window - int(now % window)). */
  function BucketRetry(now: real, window: int): int
    requires window >= 1
  {
    var into := now - BucketStart(Bucket(now, window), window);
    var wait := window - into.Floor;
    if wait < 1 then 1 else wait
  }

  /** A rejected caller that waits for the announced time is in a later bucket. */
  lemma RetryIsInLaterBucket(now: real, window: int, later: real)
    requires window >= 1 && later >= now + BucketRetry(now, window) as real
    ensures Bucket(later, window) > Bucket(now, window)
  {
    BucketHolds(now, window);
    var b := Bucket(now, window);
    var end := BucketEnd(b, window);
    BucketsMonotone(end, later, window);
    BucketIs(end, window, b + 1);
  }

  /** The announced time is the least whole number of seconds, at least one, that leads to a later bucket. */
  lemma RetryIsLeast(now: real, window: int, seconds: int)
    requires window >= 1 && 1 <= seconds < BucketRetry(now, window)
    ensures Bucket(now + seconds as real, window) == Bucket(now, window)
  {
    BucketHolds(now, window);
    BucketIs(now + seconds as real, window, Bucket(now, window));
  }

  /** The check raises: INCR fails, or the EXPIRE that follows the first INCR of a counter does. */
  predicate Raises(fault: Fault, count: int) {
    fault.BeforeIncr? || fault.AfterIncr? || (fault.AfterExpire? && count == 1)
  }

  /** `grace` is how long after the end of its bucket an INCR may run and still be called prompt. */
  class RedisRateLimiter {
    const limit: nat
    const window: int
    ghost const grace: real
    var counters: map<Slot, Counter>
    ghost var accepted: map<string, seq<real>>
    ghost var prompt: bool   // every INCR ran within the grace
    ghost var steady: bool   // no INCR has restarted a counter

    ghost predicate Valid()
      reads this
    {
      && limit >= 1 && window >= 1 && OutliveBuckets(window, counters)
      && (steady ==> SlotsOk(limit, window, counters, accepted))
      && (prompt && grace <= 1.0 ==> steady)
    }

    constructor (limit: nat, window: int, ghost grace: real)
      requires limit >= 1 && window >= 1
      ensures Valid() && accepted == map[] && counters == map[] && prompt && steady
      ensures this.limit == limit && this.window == window && this.grace == grace
    {
      this.limit, this.window, this.grace := limit, window, grace;
      counters, accepted, prompt, steady := map[], map[], true, true;
    }

    /** check(): the bucket is that of `now`, INCR runs `wait` later and EXPIRE `delay` after it. A check that
        raises has accepted nothing. */
    method Check(key: string, now: real, wait: real, delay: real, fault: Fault) returns (r: Option<(bool, int, int)>)
      requires Valid() && wait >= 0.0 && delay >= 0.0
      modifies this
      ensures Valid()
      ensures prompt ==
        (old(prompt) && (fault.BeforeIncr? || now + wait < BucketEnd(Bucket(now, window), window) + grace))
      ensures steady ==
        (old(steady) && (fault.BeforeIncr? || !Restarts(old(counters), (key, Bucket(now, window)), now + wait)))
      ensures r.None? <==> Raises(fault, Incremented(old(counters), (key, Bucket(now, window)), now + wait).count)
      ensures r.None? ==> accepted == old(accepted)
      ensures var slot := (key, Bucket(now, window));
        var c := Incremented(old(counters), slot, now + wait);
        counters == if fault.BeforeIncr? then old(counters)
                    else if c.count == 1 && !fault.AfterIncr? then old(counters)[slot := Expiring(now + wait + delay, window)]
                    else old(counters)[slot := c]
      ensures r.Some? ==>
        var c := Incremented(old(counters), (key, Bucket(now, window)), now + wait);
        && accepted == (if r.value.0 then old(accepted)[key := At(old(accepted), key) + [now]] else old(accepted))
        && (r.value.0 <==> c.count <= limit)
        && r.value.1 == (if c.count <= limit then limit - c.count else 0)
        && r.value.2 == (if c.count <= limit then 0 else BucketRetry(now, window))
    {
      hide SlotsOk, OutliveBuckets, Outlives, BucketEnd;
      if fault.BeforeIncr? { return None; }
      var bucket := Bucket(now, window);
      var slot := (key, bucket);
      var c := Incremented(counters, slot, now + wait);
      Counted(key, now, wait, delay);
      prompt := prompt && now + wait < BucketEnd(bucket, window) + grace;
      steady := steady && !Restarts(counters, slot, now + wait);
      var expiring := c.count == 1;
      if fault.AfterIncr? || (fault.AfterExpire? && expiring) {
        if expiring && fault.AfterExpire? { c := Expiring(now + wait + delay, window); }
        OutliveUpdated(window, counters, slot, c);
        counters := counters[slot := c];
        return None;
      }
      if expiring { c := Expiring(now + wait + delay, window); }
      OutliveUpdated(window, counters, slot, c);
      counters := counters[slot := c];
      if c.count <= limit {
        accepted := accepted[key := At(accepted, key) + [now]];
        return Some((true, limit - c.count, 0));
      }
      return Some((false, 0, BucketRetry(now, window)));
    }

    /** However a check ends, its counter outlives its bucket, and covers what it accepted if it did not
        restart. */
    lemma Counted(key: string, now: real, wait: real, delay: real)
      requires Valid() && wait >= 0.0 && delay >= 0.0
      ensures var slot, c := (key, Bucket(now, window)), Incremented(counters, (key, Bucket(now, window)), now + wait);
              var expiring := Expiring(now + wait + delay, window);
              && Outlives(window, c, slot.1) && Outlives(window, expiring, slot.1)
              && (Restarts(counters, slot, now + wait) ==> BucketEnd(slot.1, window) + 1.0 <= now + wait)
              && (steady && !Restarts(counters, slot, now + wait) ==>
                    && SlotsOk(limit, window, counters[slot := c], accepted)
                    && (c.count == 1 ==> SlotsOk(limit, window, counters[slot := expiring], accepted))
                    && (c.count <= limit ==>
                          SlotsOk(limit, window, counters[slot := if c.count == 1 then expiring else c],
                                  accepted[key := At(accepted, key) + [now]])))
    {
      hide SlotsOk;
      var slot := (key, Bucket(now, window));
      BucketHolds(now, window);
      if steady && !Restarts(counters, slot, now + wait) {
        var c, expiring := Incremented(counters, slot, now + wait), Expiring(now + wait + delay, window);
        SlotIsOk(limit, window, counters, accepted, slot);
        IncrementCounts(limit, window, counters, At(accepted, key), slot, now + wait);
        SlotUpdated(limit, window, counters, accepted, key, now, c, false);
        var kept := if c.count == 1 then expiring else c;
        SlotUpdated(limit, window, counters, accepted, key, now, kept, false);
        if c.count <= limit { SlotUpdated(limit, window, counters, accepted, key, now, kept, true); }
      }
    }

    /** Whatever checks were made, if none restarted a counter: at most twice the limit per key and
        window-length span. */
    lemma SteadySpanBound(key: string, from: real)
      requires Valid() && steady
      ensures CountIn(At(accepted, key), from, from + window as real) <= 2 * limit
    {
      forall b: int ensures CountBucket(At(accepted, key), window, b) <= limit {
        assert SlotOk(limit, window, counters, At(accepted, key), (key, b));
      }
      SpanHoldsAtMostTwice(limit, window, At(accepted, key), from);
    }

    /** The same if every INCR ran within a second after its bucket. */
    lemma SpanBound(key: string, from: real)
      requires Valid() && prompt && grace <= 1.0
      ensures CountIn(At(accepted, key), from, from + window as real) <= 2 * limit
    {
      SteadySpanBound(key, from);
    }
  }

  // ---- No longer deadline suffices ----

  lemma CountInSum(a: seq<real>, b: seq<real>, from: real, to: real)
    ensures CountIn(a + b, from, to) == CountIn(a, from, to) + CountIn(b, from, to)
    decreases |b|
  {
    if b == [] {
      assert a + b == a;
    } else {
      CountInSum(a, b[..|b| - 1], from, to);
      assert (a + b)[..|a + b| - 1] == a + b[..|b| - 1];
    }
  }

  function Times(n: nat, t: real): seq<real> { seq(n, i => t) }

  lemma {:induction false} CountTimes(n: nat, t: real, from: real, to: real)
    requires from <= t < to
    ensures CountIn(Times(n, t), from, to) == n
  {
    if n > 0 {
      CountTimes(n - 1, t, from, to);
      assert Times(n, t)[..n - 1] == Times(n - 1, t);
    }
  }

  /** As many checks at `now` as the limit allows, all accepted because their counter starts afresh. */
  method Burst(redis: RedisRateLimiter, key: string, now: real, wait: real)
    requires redis.Valid() && wait >= 0.0
    requires var slot := (key, Bucket(now, redis.window));
             slot !in redis.counters || Restarts(redis.counters, slot, now + wait)
    modifies redis
    ensures redis.Valid()
    ensures redis.accepted == old(redis.accepted)[key := At(old(redis.accepted), key) + Times(redis.limit, now)]
    ensures redis.counters == old(redis.counters)[
      (key, Bucket(now, redis.window)) := Counter(redis.limit, Some(now + wait + (redis.window + 1) as real))]
    ensures redis.prompt ==
      (old(redis.prompt) && now + wait < BucketEnd(Bucket(now, redis.window), redis.window) + redis.grace)
  {
    hide SlotsOk, BucketEnd, OutliveBuckets;
    ghost var h := At(redis.accepted, key);
    ghost var expires := now + wait + (redis.window + 1) as real;
    var slot := (key, Bucket(now, redis.window));
    var first := redis.Check(key, now, wait, 0.0, NoFault);
    assert h + [now] == h + Times(1, now);
    var i := 1;
    while i < redis.limit
      invariant 1 <= i <= redis.limit && redis.Valid()
      invariant redis.accepted == old(redis.accepted)[key := h + Times(i, now)]
      invariant redis.counters == old(redis.counters)[slot := Counter(i, Some(expires))]
      invariant redis.prompt ==
        (old(redis.prompt) && now + wait < BucketEnd(Bucket(now, redis.window), redis.window) + redis.grace)
    {
      var next := redis.Check(key, now, wait, 0.0, NoFault);
      assert h + Times(i, now) + [now] == h + Times(i + 1, now);
      i := i + 1;
    }
  }

  /** With any deadline of more than a second, an INCR may find its counter expired and count from one again:
      a key is accepted three times the limit within one window-length span, though every INCR was prompt. */
  method LateIncrementsExceed(limit: nat, window: int, grace: real) returns (redis: RedisRateLimiter, from: real)
    requires limit >= 1 && window >= 1 && grace > 1.0
    ensures redis.Valid() && redis.limit == limit && redis.window == window && redis.grace == grace && redis.prompt
    ensures CountIn(At(redis.accepted, "key"), from, from + window as real) == 3 * limit
  {
    hide SlotsOk, OutliveBuckets, CountIn, Times, Bucket, BucketEnd;
    var w := window as real;
    from := (if grace - 1.0 < w then grace - 1.0 else w) / 4.0;
    TwoStarts(window, from);
    redis := new RedisRateLimiter(limit, window, grace);
    Burst(redis, "key", from, 0.0);
    Burst(redis, "key", w, 0.0);
    Burst(redis, "key", from, w + 1.0);
    assert redis.accepted["key"] == [] + Times(limit, from) + Times(limit, w) + Times(limit, from);
    ThreeBursts(limit, from, w);
  }

  lemma TwoStarts(window: int, from: real)
    requires window >= 1 && 0.0 < from < window as real
    ensures Bucket(from, window) == 0 && BucketEnd(0, window) == window as real
    ensures Bucket(window as real, window) == 1 && BucketEnd(1, window) == window as real + window as real
  {
    BucketIs(from, window, 0);
    BucketIs(window as real, window, 1);
  }

  lemma ThreeBursts(limit: nat, from: real, w: real)
    requires 0.0 < from < w
    ensures CountIn([] + Times(limit, from) + Times(limit, w) + Times(limit, from), from, from + w) == 3 * limit
  {
    hide CountIn, Times;
    CountTimes(limit, from, from, from + w);
    CountTimes(limit, w, from, from + w);
    CountInSum(Times(limit, from) + Times(limit, w), Times(limit, from), from, from + w);
    CountInSum(Times(limit, from), Times(limit, w), from, from + w);
    assert [] + Times(limit, from) == Times(limit, from);
  }

  // ---- The middleware ----

  class RateLimitMiddleware {
    const redis: RedisRateLimiter?     // none if Redis is disabled
    const local: InMemoryRateLimiter   // this process's limiter for the path's limit

    ghost predicate Valid()
      reads this, redis, local
    {
      && local.Valid()
      && (redis != null ==> redis.Valid() && redis.limit == local.limit && redis.window == local.window)
    }

    constructor (redis: RedisRateLimiter?, local: InMemoryRateLimiter)
      ensures this.redis == redis && this.local == local
    {
      this.redis, this.local := redis, local;
    }

    /** _check_limit: Redis decides, or if it raises this process does. An accepted request is recorded by
        exactly one of them, a rejected one by none. */
    method CheckLimit(key: string, now: real, wait: real, delay: real, fault: Fault)
      returns (allowed: bool, remaining: int, retryAfter: int)
      requires Valid() && local.clock <= now && wait >= 0.0 && delay >= 0.0
      modifies redis, local
      ensures Valid()
      ensures var raises := redis == null || Raises(fault, Incremented(old(redis.counters), (key, Bucket(now, redis.window)), now + wait).count);
        if raises then
          var before := At(old(local.accepted), key);
          && (redis != null ==> redis.accepted == old(redis.accepted))
          && (allowed <==> CountAfter(before, now - local.window as real) < local.limit)
          && local.accepted == (if allowed then old(local.accepted)[key := before + [now]] else old(local.accepted))
          && retryAfter == (if allowed then 0 else RetryAfter(before, local.window, now))
        else
          var c := Incremented(old(redis.counters), (key, Bucket(now, redis.window)), now + wait);
          && local.accepted == old(local.accepted)
          && (allowed <==> c.count <= redis.limit)
          && redis.accepted == (if allowed then old(redis.accepted)[key := At(old(redis.accepted), key) + [now]] else old(redis.accepted))
          && remaining == (if allowed then redis.limit - c.count else 0)
          && retryAfter == (if allowed then 0 else BucketRetry(now, redis.window))
    {
      hide SlotsOk, AllOk;
      if redis != null {
        var r := redis.Check(key, now, wait, delay, fault);
        if r.Some? {
          var (a, b, c) := r.value;
          return a, b, c;
        }
      }
      allowed, remaining, retryAfter := local.Check(key, now);
    }
  }

  /** The accepted checks of a key in all processes. */
  ghost function LocalCount(locals: seq<InMemoryRateLimiter>, key: string, from: real, to: real): nat
    reads set l | l in locals
  {
    if locals == [] then 0
    else LocalCount(locals[1..], key, from, to) + CountIn(At(locals[0].accepted, key), from, to)
  }

  lemma {:induction false} LocalBound(locals: seq<InMemoryRateLimiter>, limit: nat, window: int, key: string,
                                      from: real)
    requires forall l <- locals :: l.Valid() && l.limit == limit && l.window == window
    ensures LocalCount(locals, key, from, from + window as real) <= |locals| * limit
  {
    hide AllOk, CountIn;
    if locals != [] {
      assert locals[0] in locals;
      locals[0].WindowBound(key, from);
      forall l | l in locals[1..] ensures l in locals {}
      LocalBound(locals[1..], limit, window, key, from);
      NextMultiple(|locals| - 1, limit);
    }
  }

  lemma NextMultiple(n: nat, m: nat)
    ensures (n + 1) * m == n * m + m
  {
  }

  /** With p processes falling back on their own limiters, a key is accepted at most (2 + p) * limit times
      in any span of the window's length. */
  lemma FleetBound(redis: RedisRateLimiter, locals: seq<InMemoryRateLimiter>, key: string, from: real)
    requires redis.Valid() && redis.prompt && redis.grace <= 1.0
    requires forall l <- locals :: l.Valid() && l.limit == redis.limit && l.window == redis.window
    ensures CountIn(At(redis.accepted, key), from, from + redis.window as real)
        + LocalCount(locals, key, from, from + redis.window as real)
      <= (2 + |locals|) * redis.limit
  {
    redis.SpanBound(key, from);
    LocalBound(locals, redis.limit, redis.window, key, from);
  }
}
