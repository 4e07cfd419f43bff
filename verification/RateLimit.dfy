/** InMemoryRateLimiter of app/core/rate_limit.py: popping old events and dropping idle keys never change
    an answer, compared with a reference that keeps every accepted time of every key. */
module RateLimit {

  // ---- The reference ----

  predicate Sorted(h: seq<real>) {
    forall i, j :: 0 <= i < j < |h| ==> h[i] <= h[j]
  }

  predicate UpTo(h: seq<real>, t: real) {
    forall i :: 0 <= i < |h| ==> h[i] <= t
  }

  /** How many times lie after the cutoff. */
  function CountAfter(h: seq<real>, cutoff: real): (n: nat)
    ensures n <= |h|
  {
    if h == [] then 0
    else CountAfter(h[..|h| - 1], cutoff) + if h[|h| - 1] > cutoff then 1 else 0
  }

  /** How many times lie in the half-open window [from, to). */
  function CountIn(h: seq<real>, from: real, to: real): (n: nat)
    ensures n <= |h|
  {
    if h == [] then 0
    else CountIn(h[..|h| - 1], from, to) + if from <= h[|h| - 1] < to then 1 else 0
  }

  /** The first time after the cutoff. */
  function Oldest(h: seq<real>, cutoff: real): real
    requires CountAfter(h, cutoff) > 0
  {
    if CountAfter(h[..|h| - 1], cutoff) > 0 then Oldest(h[..|h| - 1], cutoff) else h[|h| - 1]
  }

  function Ceil(x: real): (n: int)
    ensures x <= n as real < x + 1.0
  {
    -((-x).Floor)
  }

  function RetryAfter(h: seq<real>, window: int, now: real): int
    requires CountAfter(h, now - window as real) > 0
  {
    var wait := Ceil(Oldest(h, now - window as real) + window as real - now);
    if wait < 1 then 1 else wait
  }

  // ---- Facts about counting ----

  lemma {:induction false} CountAfterSum(a: seq<real>, b: seq<real>, cutoff: real)
    ensures CountAfter(a + b, cutoff) == CountAfter(a, cutoff) + CountAfter(b, cutoff)
    decreases |b|
  {
    if b == [] {
      assert a + b == a;
    } else {
      assert (a + b)[..|a + b| - 1] == a + b[..|b| - 1];
      CountAfterSum(a, b[..|b| - 1], cutoff);
    }
  }

  lemma {:induction false} NoneAfter(h: seq<real>, cutoff: real)
    requires UpTo(h, cutoff)
    ensures CountAfter(h, cutoff) == 0
  {
    if h != [] {
      var init := h[..|h| - 1];
      forall i | 0 <= i < |init| ensures init[i] <= cutoff { assert init[i] == h[i]; }
      NoneAfter(init, cutoff);
    }
  }

  predicate AllAfter(h: seq<real>, cutoff: real) {
    forall i :: 0 <= i < |h| ==> h[i] > cutoff
  }

  lemma {:induction false} AllCount(h: seq<real>, cutoff: real)
    requires AllAfter(h, cutoff)
    ensures CountAfter(h, cutoff) == |h|
    ensures h != [] ==> Oldest(h, cutoff) == h[0]
  {
    if h != [] {
      var init := h[..|h| - 1];
      forall i | 0 <= i < |init| ensures init[i] > cutoff { assert init[i] == h[i]; }
      AllCount(init, cutoff);
    }
  }

  lemma {:induction false} OldestSum(a: seq<real>, b: seq<real>, cutoff: real)
    requires CountAfter(a, cutoff) == 0 && CountAfter(b, cutoff) > 0
    ensures CountAfter(a + b, cutoff) > 0 && Oldest(a + b, cutoff) == Oldest(b, cutoff)
    decreases |b|
  {
    CountAfterSum(a, b, cutoff);
    var init := b[..|b| - 1];
    assert (a + b)[..|a + b| - 1] == a + init;
    CountAfterSum(a, init, cutoff);
    if CountAfter(init, cutoff) > 0 { OldestSum(a, init, cutoff); }
  }

  // ---- What the limiter keeps ----

  /** `kept` is the end of the history; what was dropped lies at or before the cutoff. */
  predicate Remembers(h: seq<real>, kept: seq<real>, cutoff: real) {
    |kept| <= |h| && h == h[..|h| - |kept|] + kept && UpTo(h[..|h| - |kept|], cutoff)
  }

  /** After popping, the length of what is left is the reference's count. */
  lemma PoppedCount(h: seq<real>, kept: seq<real>, cutoff: real)
    requires Sorted(h) && Remembers(h, kept, cutoff) && (kept == [] || kept[0] > cutoff)
    ensures CountAfter(h, cutoff) == |kept|
    ensures kept != [] ==> Oldest(h, cutoff) == kept[0]
  {
    var dropped := h[..|h| - |kept|];
    forall i | 0 <= i < |kept| ensures kept[i] > cutoff {
      assert h[|dropped| + i] == kept[i] && h[|dropped|] == kept[0];
    }
    NoneAfter(dropped, cutoff);
    AllCount(kept, cutoff);
    CountAfterSum(dropped, kept, cutoff);
    if kept != [] { OldestSum(dropped, kept, cutoff); }
  }

  lemma RemembersMore(h: seq<real>, kept: seq<real>, cutoff: real, now: real)
    requires Remembers(h, kept, cutoff)
    ensures Remembers(h + [now], kept + [now], cutoff)
  {
    var dropped := h[..|h| - |kept|];
    assert (h + [now])[..|dropped|] == dropped;
    assert h + [now] == dropped + (kept + [now]);
  }

  // ---- Spacing ----

  /** Events `limit` apart are at least one window apart. */
  ghost predicate Spaced(limit: nat, window: int, h: seq<real>) {
    forall i, j :: 0 <= i && j == i + limit && j < |h| ==> h[i] + window as real <= h[j]
  }

  lemma {:induction false} TailCounts(h: seq<real>, i: nat, cutoff: real)
    requires Sorted(h) && i < |h|
    ensures h[i] <= cutoff || CountAfter(h, cutoff) >= |h| - i
    decreases |h|
  {
    var init := h[..|h| - 1];
    assert h[i] <= h[|h| - 1];
    if i < |init| {
      assert init[i] == h[i];
      assert Sorted(init);
      TailCounts(init, i, cutoff);
    }
  }

  lemma SpacedNext(limit: nat, window: int, h: seq<real>, now: real)
    requires limit >= 1 && Sorted(h) && UpTo(h, now) && Spaced(limit, window, h)
    requires CountAfter(h, now - window as real) < limit
    ensures Sorted(h + [now]) && Spaced(limit, window, h + [now])
  {
    hide CountAfter;
    if limit <= |h| { TailCounts(h, |h| - limit, now - window as real); }
  }

  lemma {:induction false} CountInBound(h: seq<real>, from: real, to: real, m: nat)
    requires m <= |h| && forall i :: 0 <= i < m ==> h[i] < from
    ensures CountIn(h, from, to) <= |h| - m
  {
    if m < |h| {
      var init := h[..|h| - 1];
      assert forall i :: 0 <= i < m ==> init[i] == h[i];
      CountInBound(init, from, to, m);
    } else if h != [] {
      var init := h[..|h| - 1];
      assert forall i :: 0 <= i < m - 1 ==> init[i] == h[i];
      CountInBound(init, from, to, m - 1);
    }
  }

  /** No half-open window holds more than `limit` accepted events. */
  lemma {:induction false} WindowHoldsAtMostLimit(limit: nat, window: int, h: seq<real>, from: real)
    requires limit >= 1 && Sorted(h) && Spaced(limit, window, h)
    ensures CountIn(h, from, from + window as real) <= limit
  {
    if |h| > limit {
      var last := |h| - 1;
      if from <= h[last] < from + window as real {
        var i := last - limit;
        assert h[i] + window as real <= h[last];
        CountInBound(h, from, from + window as real, i + 1);
      } else {
        var init := h[..last];
        assert forall i :: 0 <= i < last ==> init[i] == h[i];
        WindowHoldsAtMostLimit(limit, window, init, from);
      }
    }
  }

  // ---- The retry time ----

  lemma {:induction false} FewerLater(h: seq<real>, cutoff: real, cutoff': real)
    requires cutoff <= cutoff'
    ensures CountAfter(h, cutoff') <= CountAfter(h, cutoff)
  {
    if h != [] { FewerLater(h[..|h| - 1], cutoff, cutoff'); }
  }

  lemma {:induction false} OldestGone(h: seq<real>, cutoff: real, cutoff': real)
    requires cutoff <= cutoff' && CountAfter(h, cutoff) > 0 && Oldest(h, cutoff) <= cutoff'
    ensures CountAfter(h, cutoff') < CountAfter(h, cutoff)
  {
    var init := h[..|h| - 1];
    if CountAfter(init, cutoff) > 0 {
      OldestGone(init, cutoff, cutoff');
    } else {
      FewerLater(init, cutoff, cutoff');
    }
  }

  lemma CountAtMostLimit(limit: nat, window: int, h: seq<real>, now: real)
    requires limit >= 1 && Sorted(h) && UpTo(h, now) && Spaced(limit, window, h)
    ensures CountAfter(h, now - window as real) <= limit
  {
    var cutoff := now - window as real;
    if |h| > limit {
      var m := |h| - limit;
      forall i | 0 <= i < m ensures h[i] <= cutoff { assert h[i] + window as real <= h[i + limit]; }
      assert h == h[..m] + h[m..];
      NoneAfter(h[..m], cutoff);
      CountAfterSum(h[..m], h[m..], cutoff);
    }
  }

  /** A caller rejected at `now` that waits for the announced time is accepted if nobody was meanwhile. */
  lemma RetryIsAccepted(limit: nat, window: int, h: seq<real>, now: real, later: real)
    requires limit >= 1 && window >= 1 && Sorted(h) && UpTo(h, now) && Spaced(limit, window, h)
    requires CountAfter(h, now - window as real) >= limit
    requires later >= now + RetryAfter(h, window, now) as real
    ensures CountAfter(h, later - window as real) < limit
  {
    CountAtMostLimit(limit, window, h, now);
    OldestGone(h, now - window as real, later - window as real);
  }

  lemma {:induction false} NoneBeforeOldest(h: seq<real>, cutoff: real, cutoff': real)
    requires Sorted(h) && CountAfter(h, cutoff) > 0 && cutoff <= cutoff' < Oldest(h, cutoff)
    ensures CountAfter(h, cutoff') == CountAfter(h, cutoff) && Oldest(h, cutoff) <= h[|h| - 1]
  {
    var init := h[..|h| - 1];
    if CountAfter(init, cutoff) > 0 {
      NoneBeforeOldest(init, cutoff, cutoff');
      assert init[|init| - 1] <= h[|h| - 1];
    } else {
      FewerLater(init, cutoff, cutoff');
    }
  }

  /** The announced time is the least whole number of seconds, at least one, after which the caller is accepted:
      after fewer it is still rejected. */
  lemma RetryIsLeast(limit: nat, window: int, h: seq<real>, now: real, seconds: int)
    requires limit >= 1 && Sorted(h) && CountAfter(h, now - window as real) >= limit
    requires 1 <= seconds < RetryAfter(h, window, now)
    ensures CountAfter(h, now + seconds as real - window as real) >= limit
  {
    NoneBeforeOldest(h, now - window as real, now + seconds as real - window as real);
  }

  // ---- All keys ----

  function At(m: map<string, seq<real>>, key: string): seq<real> {
    if key in m then m[key] else []
  }

  ghost predicate KeyOk(limit: nat, window: int, h: seq<real>, kept: seq<real>, clock: real) {
    Sorted(h) && UpTo(h, clock) && Spaced(limit, window, h) && Remembers(h, kept, clock - window as real)
  }

  ghost predicate AllOk(limit: nat, window: int, accepted: map<string, seq<real>>, events: map<string, seq<real>>,
                        clock: real) {
    forall key :: KeyOk(limit, window, At(accepted, key), At(events, key), clock)
  }

  lemma KeptOrDropped(limit: nat, window: int, h: seq<real>, kept: seq<real>, kept': seq<real>, clock: real, now: real)
    requires KeyOk(limit, window, h, kept, clock) && clock <= now
    requires kept' == kept || (kept' == [] && kept[|kept| - 1] <= now - window as real)
    ensures KeyOk(limit, window, h, kept', now)
  {
  }

  /** The dict comprehension of the cleanup. */
  function Recent(events: map<string, seq<real>>, cutoff: real): map<string, seq<real>> {
    map key | key in events && events[key] != [] && events[key][|events[key]| - 1] > cutoff :: events[key]
  }

  lemma CleanupKeeps(limit: nat, window: int, accepted: map<string, seq<real>>, events: map<string, seq<real>>,
                     clock: real, now: real)
    requires AllOk(limit, window, accepted, events, clock) && clock <= now
    ensures AllOk(limit, window, accepted, Recent(events, now - window as real), now)
    ensures AllOk(limit, window, accepted, events, now)
  {
    hide KeyOk;
    var after := Recent(events, now - window as real);
    forall key
      ensures KeyOk(limit, window, At(accepted, key), At(after, key), now)
      ensures KeyOk(limit, window, At(accepted, key), At(events, key), now)
    {
      KeptOrDropped(limit, window, At(accepted, key), At(events, key), At(after, key), clock, now);
      KeptOrDropped(limit, window, At(accepted, key), At(events, key), At(events, key), clock, now);
    }
  }

  lemma Recorded(limit: nat, window: int, h: seq<real>, kept: seq<real>, now: real)
    requires limit >= 1 && window >= 1 && KeyOk(limit, window, h, kept, now)
    requires CountAfter(h, now - window as real) == |kept| < limit
    ensures KeyOk(limit, window, h + [now], kept + [now], now)
    ensures CountAfter(h + [now], now - window as real) == |kept| + 1
  {
    SpacedNext(limit, window, h, now);
    RemembersMore(h, kept, now - window as real, now);
  }

  lemma UpdateKeeps(limit: nat, window: int, accepted: map<string, seq<real>>, events: map<string, seq<real>>,
                    now: real, key: string, h: seq<real>, kept: seq<real>)
    requires AllOk(limit, window, accepted, events, now) && KeyOk(limit, window, h, kept, now)
    ensures h == At(accepted, key) ==> AllOk(limit, window, accepted, events[key := kept], now)
    ensures AllOk(limit, window, accepted[key := h], events[key := kept], now)
  {
    hide KeyOk;
    var accepted', events' := accepted[key := h], events[key := kept];
    forall k
      ensures KeyOk(limit, window, At(accepted', k), At(events', k), now)
      ensures h == At(accepted, key) ==> KeyOk(limit, window, At(accepted, k), At(events', k), now)
    {
      assert KeyOk(limit, window, At(accepted, k), At(events, k), now);
    }
  }

  /** Popping from the left. */
  method Pop(kept0: seq<real>, cutoff: real, ghost limit: nat, ghost window: int, ghost h: seq<real>, ghost now: real)
    returns (kept: seq<real>)
    requires KeyOk(limit, window, h, kept0, now) && cutoff == now - window as real
    ensures KeyOk(limit, window, h, kept, now) && CountAfter(h, cutoff) == |kept|
    ensures kept != [] ==> Oldest(h, cutoff) == kept[0]
  {
    kept := kept0;
    while kept != [] && kept[0] <= cutoff
      invariant KeyOk(limit, window, h, kept, now)
      decreases |kept|
    {
      kept := kept[1..];
    }
    PoppedCount(h, kept, cutoff);
  }

  // ---- The limiter ----

  class InMemoryRateLimiter {
    const limit: nat
    const window: int
    var events: map<string, seq<real>>
    var nextCleanup: real
    ghost var accepted: map<string, seq<real>>   // the reference: every accepted time of every key
    ghost var clock: real                        // the time of the latest check

    ghost predicate Valid()
      reads this
    {
      limit >= 1 && window >= 1 && AllOk(limit, window, accepted, events, clock)
    }

    constructor (limit: nat, window: int, ghost start: real)
      requires limit >= 1 && window >= 1
      ensures Valid() && accepted == map[] && clock == start && this.limit == limit && this.window == window
    {
      this.limit, this.window := limit, window;
      events, nextCleanup := map[], 0.0;
      accepted, clock := map[], start;
    }

    /** check(): the answer is the reference's, and an accepted time is recorded under its key. */
    method Check(key: string, now: real) returns (allowed: bool, remaining: int, retryAfter: int)
      requires Valid() && clock <= now
      modifies this
      ensures Valid() && clock == now
      ensures var before := At(old(accepted), key);
              && (allowed <==> CountAfter(before, now - window as real) < limit)
              && accepted == (if allowed then old(accepted)[key := before + [now]] else old(accepted))
              && remaining == (if allowed then limit - CountAfter(before + [now], now - window as real) else 0)
              && retryAfter == (if allowed then 0 else RetryAfter(before, window, now))
    {
      hide KeyOk, CountAfter, Oldest;
      var cutoff := now - window as real;
      ghost var h := At(accepted, key);
      CleanupKeeps(limit, window, accepted, events, clock, now);
      if now >= nextCleanup {
        events := Recent(events, cutoff);
        nextCleanup := now + window as real;
      }
      clock := now;
      var kept := Pop(At(events, key), cutoff, limit, window, h, now);
      events := events[key := kept];
      if |kept| >= limit {
        UpdateKeeps(limit, window, accepted, events, now, key, h, kept);
        var wait := Ceil(kept[0] + window as real - now);
        return false, 0, if wait < 1 then 1 else wait;
      }
      Recorded(limit, window, h, kept, now);
      UpdateKeeps(limit, window, accepted, events, now, key, h + [now], kept + [now]);
      events := events[key := kept + [now]];
      accepted := accepted[key := h + [now]];
      return true, limit - (|kept| + 1), 0;
    }

    /** Whatever checks were made: no key was accepted more than `limit` times in a window. */
    lemma WindowBound(key: string, from: real)
      requires Valid()
      ensures CountIn(At(accepted, key), from, from + window as real) <= limit
    {
      assert KeyOk(limit, window, At(accepted, key), At(events, key), clock);
      WindowHoldsAtMostLimit(limit, window, At(accepted, key), from);
    }
  }
}
