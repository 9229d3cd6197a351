/**
 The sliding-window rate limiter: per client and path, the times of the accepted requests that may still
 count. The clock is a parameter and does not run backwards.
 */
module RateLimit {
  import opened Options

  datatype Key = Key(ip: string, path: string)

  /** `maxRequests` per `window` seconds. */
  datatype Limit = Limit(maxRequests: int, window: int)

  datatype Verdict = Unlimited | Accepted | Refused(retryAfter: int) | IndexError

  predicate Sorted(times: seq<real>) {
    forall i, j :: 0 <= i < j < |times| ==> times[i] <= times[j]
  }

  predicate Within(t: real, from: real, to: real) {
    from <= t <= to
  }

  /** How many of the times lie in a closed interval. */
  function CountIn(times: seq<real>, from: real, to: real): nat {
    if times == [] then 0
    else CountIn(times[..|times| - 1], from, to) + if Within(times[|times| - 1], from, to) then 1 else 0
  }

  /** Times that are `max` places apart are more than a window apart. */
  predicate Spaced(times: seq<real>, max: nat, window: int) {
    forall i, j :: 0 <= i < j < |times| && j - i >= max ==> times[j] - times[i] > window as real
  }

  /** If nothing before `lo` lies in the interval, at most the rest does. */
  lemma {:induction false} CountFrom(times: seq<real>, from: real, to: real, lo: nat)
    requires lo <= |times| && forall i :: 0 <= i < lo ==> !Within(times[i], from, to)
    ensures CountIn(times, from, to) <= |times| - lo
    decreases |times|
  {
    if lo < |times| {
      CountFrom(times[..|times| - 1], from, to, lo);
    } else if times != [] {
      CountFrom(times[..|times| - 1], from, to, lo - 1);
    }
  }

  /** In spaced times no closed interval of the length of the window holds more than `max`. */
  lemma {:induction false} SpacedCount(times: seq<real>, max: nat, window: int, from: real)
    requires 0 < max && Spaced(times, max, window)
    ensures CountIn(times, from, from + window as real) <= max
    decreases |times|
  {
    var to := from + window as real;
    if times != [] {
      var n := |times| - 1;
      if !Within(times[n], from, to) {
        SpacedCount(times[..n], max, window, from);
      } else {
        var lo := if n + 1 > max then n + 1 - max else 0;
        forall i | 0 <= i < lo ensures !Within(times[i], from, to) {
          assert times[n] - times[i] > window as real;
        }
        CountFrom(times, from, to, lo);
      }
    }
  }

  /** The times from the cutoff on. */
  function Recent(times: seq<real>, cutoff: real): seq<real> {
    if times == [] || times[0] >= cutoff then times else Recent(times[1..], cutoff)
  }

  lemma {:induction false} RecentPart(times: seq<real>, cutoff: real) returns (k: nat)
    ensures k <= |times| && Recent(times, cutoff) == times[k..]
    ensures forall i :: 0 <= i < k ==> times[i] < cutoff
    ensures k < |times| ==> times[k] >= cutoff
    decreases |times|
  {
    k := 0;
    if times != [] && times[0] < cutoff {
      k := RecentPart(times[1..], cutoff);
      assert times[1..][k..] == times[k + 1..];
      assert forall i :: 0 < i < k + 1 ==> times[i] == times[1..][i - 1];
      k := k + 1;
    }
  }

  lemma {:induction false} CountSuffix(times: seq<real>, from: real, to: real, lo: nat)
    requires lo <= |times| && forall i :: 0 <= i < |times| ==> (Within(times[i], from, to) <==> lo <= i)
    ensures CountIn(times, from, to) == |times| - lo
    decreases |times|
  {
    if times != [] {
      CountSuffix(times[..|times| - 1], from, to, if lo < |times| then lo else lo - 1);
    }
  }

  /** All of the recent times count, and no others. */
  lemma CountRecent(times: seq<real>, cutoff: real, now: real)
    requires Sorted(times) && forall i :: 0 <= i < |times| ==> times[i] <= now
    ensures CountIn(times, cutoff, now) == |Recent(times, cutoff)|
  {
    var lo := RecentPart(times, cutoff);
    forall i | lo <= i < |times| ensures Within(times[i], cutoff, now) {
      assert times[lo] <= times[i];
    }
    CountSuffix(times, cutoff, now, lo);
  }

  /** A front part before the cutoff does not matter. */
  lemma {:induction false} RecentOfEnd(h: seq<real>, k: nat, cutoff: real)
    requires k <= |h| && forall i :: 0 <= i < k ==> h[i] < cutoff
    ensures Recent(h[k..], cutoff) == Recent(h, cutoff)
    decreases k
  {
    if k > 0 {
      RecentOfEnd(h[1..], k - 1, cutoff);
      assert h[1..][k - 1..] == h[k..];
    } else {
      assert h[0..] == h;
    }
  }

  predicate AllUpTo(times: seq<real>, t: real) {
    forall i :: 0 <= i < |times| ==> times[i] <= t
  }

  predicate AllBefore(times: seq<real>, t: real) {
    forall i :: 0 <= i < |times| ==> times[i] < t
  }

  /** What is stored for a key is the end of its history, and what is gone is out of every later window. */
  ghost predicate KeyOk(h: seq<real>, s: seq<real>, clock: real, limit: Option<Limit>) {
    && Sorted(h) && AllUpTo(h, clock)
    && |s| <= |h| && s == h[|h| - |s|..]
    && (limit.Some? ==>
          && AllBefore(h[..|h| - |s|], clock - limit.value.window as real)
          && (limit.value.maxRequests > 0 ==>
                Spaced(h, limit.value.maxRequests, limit.value.window) && |s| <= limit.value.maxRequests))
  }

  lemma KeyLater(h: seq<real>, s: seq<real>, clock: real, now: real, limit: Option<Limit>)
    requires KeyOk(h, s, clock, limit) && clock <= now
    ensures KeyOk(h, s, now, limit)
  {
  }

  /** Popping what is before the window leaves the recent times. */
  lemma KeyCleaned(h: seq<real>, s: seq<real>, now: real, limit: Limit)
    requires KeyOk(h, s, now, Some(limit))
    ensures var r := Recent(h, now - limit.window as real);
            KeyOk(h, r, now, Some(limit)) && r == Recent(s, now - limit.window as real)
            && |r| == CountIn(h, now - limit.window as real, now)
  {
    var cutoff := now - limit.window as real;
    CountRecent(h, cutoff, now);
    RecentOfEnd(h, |h| - |s|, cutoff);
    var m := RecentPart(h, cutoff);
    hide Recent, CountIn;
    assert Recent(h, cutoff) == h[m..] && m >= |h| - |s|;
  }

  lemma KeyAccepted(h: seq<real>, s: seq<real>, now: real, limit: Limit)
    requires KeyOk(h, s, now, Some(limit)) && |s| < limit.maxRequests
    ensures KeyOk(h + [now], s + [now], now, Some(limit))
  {
    var h', s', max := h + [now], s + [now], limit.maxRequests;
    assert s' == h'[|h'| - |s'|..];
    forall i, j | 0 <= i < j < |h'| && j - i >= max ensures h'[j] - h'[i] > limit.window as real {
      if j == |h| {
        assert i < |h| - |s|;
      }
    }
  }

  /** The advertised waiting time: whole seconds, at least one. */
  function RetryAfter(window: int, now: real, first: real): int {
    var left := (window as real - (now - first)).Floor;
    if left < 1 then 1 else left
  }

  class RateLimiter {
    const limits: map<string, Limit>
    var requests: map<Key, seq<real>>
    /** All accepted times, and the time of the last request. */
    ghost var accepted: map<Key, seq<real>>
    ghost var clock: real

    constructor (limits: map<string, Limit>)
      ensures Valid() && this.limits == limits && accepted == map[] && clock == 0.0
    {
      this.limits, requests, accepted, clock := limits, map[], map[], 0.0;
    }

    ghost function History(key: Key): seq<real>
      reads `accepted
    {
      if key in accepted then accepted[key] else []
    }

    function Stored(key: Key): seq<real>
      reads `requests
    {
      if key in requests then requests[key] else []
    }

    function LimitFor(path: string): Option<Limit> {
      if path in limits then Some(limits[path]) else None
    }

    ghost predicate Valid()
      reads this
    {
      forall key :: KeyOk(History(key), Stored(key), clock, LimitFor(key.path))
    }

    /** `before_request`. On a limited path a request is refused if and only if as many as the limit were
        accepted in the window that ends now; a limit below one fails on the first request. */
    method BeforeRequest(key: Key, now: real) returns (r: Verdict)
      requires Valid() && clock <= now
      modifies this
      ensures Valid() && (r != Unlimited ==> clock == now)
      ensures accepted == if r == Accepted then old(accepted)[key := old(History(key)) + [now]] else old(accepted)
      ensures r == Unlimited <==> key.path !in limits
      ensures r != Unlimited ==>
                var max, window := limits[key.path].maxRequests, limits[key.path].window;
                var count := CountIn(old(History(key)), now - window as real, now);
                && (r.Refused? <==> count >= max && count > 0)
                && (r == IndexError <==> count == 0 && max <= 0)
                && (r.Refused? ==> |Stored(key)| == count && Stored(key)[0] >= now - window as real
                                   && r.retryAfter == RetryAfter(window, now, Stored(key)[0]))
    {
      if key.path !in limits {
        return Unlimited;
      }
      var limit := limits[key.path];
      Cleanup(key, now, limit.window);
      var times := Stored(key);
      if |times| >= limit.maxRequests {
        if times == [] {
          return IndexError;
        }
        return Refused(RetryAfter(limit.window, now, times[0]));
      }
      Accept(key, now);
      r := Accepted;
    }

    /** Pops what is before the window. */
    method Cleanup(key: Key, now: real, window: int)
      requires Valid() && clock <= now && key.path in limits && limits[key.path].window == window
      modifies this
      ensures Valid() && clock == now && accepted == old(accepted)
      ensures |Stored(key)| == CountIn(History(key), now - window as real, now)
      ensures Stored(key) != [] ==> Stored(key)[0] >= now - window as real
    {
      hide KeyOk, CountIn;
      Advance(now);
      PopKey(key, now, limits[key.path]);
    }

    method PopKey(key: Key, now: real, limit: Limit)
      requires Valid() && clock == now && LimitFor(key.path) == Some(limit)
      modifies `requests
      ensures Valid()
      ensures |Stored(key)| == CountIn(History(key), clock - limit.window as real, clock)
      ensures Stored(key) != [] ==> Stored(key)[0] >= clock - limit.window as real
    {
      assert KeyOk(History(key), Stored(key), clock, LimitFor(key.path));
      hide KeyOk, CountIn, Recent;
      var times := PopOld(Stored(key), limit, now, History(key));
      Store(key, times);
    }

    ghost method Advance(now: real)
      requires Valid() && clock <= now
      modifies `clock
      ensures Valid() && clock == now
    {
      forall k ensures KeyOk(History(k), Stored(k), now, LimitFor(k.path)) {
        KeyLater(History(k), Stored(k), clock, now, LimitFor(k.path));
      }
      clock := now;
    }

    /** A key without times has no entry. */
    method Store(key: Key, times: seq<real>)
      requires Valid() && KeyOk(History(key), times, clock, LimitFor(key.path))
      modifies `requests
      ensures Valid() && Stored(key) == times
    {
      ghost var before := requests;
      requests := if times == [] then requests - {key} else requests[key := times];
      forall k ensures KeyOk(History(k), Stored(k), clock, LimitFor(k.path)) {
        if k != key {
          assert Stored(k) == if k in before then before[k] else [];
        }
      }
    }

    method PopOld(times: seq<real>, limit: Limit, now: real, ghost h: seq<real>) returns (r: seq<real>)
      requires KeyOk(h, times, now, Some(limit))
      ensures KeyOk(h, r, now, Some(limit)) && |r| == CountIn(h, now - limit.window as real, now)
      ensures r != [] ==> r[0] >= now - limit.window as real
    {
      var cutoff := now - limit.window as real;
      r := times;
      while r != [] && r[0] < cutoff
        invariant Recent(r, cutoff) == Recent(times, cutoff)
      {
        r := r[1..];
      }
      KeyCleaned(h, times, now, limit);
    }

    method Accept(key: Key, now: real)
      requires Valid() && clock == now && key.path in limits
      requires |Stored(key)| < limits[key.path].maxRequests
      modifies `requests, `accepted
      ensures Valid() && accepted == old(accepted)[key := old(History(key)) + [now]]
    {
      assert KeyOk(History(key), Stored(key), clock, LimitFor(key.path));
      KeyAccepted(History(key), Stored(key), now, limits[key.path]);
      hide KeyOk;
      requests, accepted := requests[key := Stored(key) + [now]], accepted[key := History(key) + [now]];
    }
  }

  /** Over the whole history, no closed window holds more accepted requests than the limit. */
  lemma AtMostLimitPerWindow(limiter: RateLimiter, key: Key, from: real)
    requires limiter.Valid() && key.path in limiter.limits && limiter.limits[key.path].maxRequests > 0
    ensures var limit := limiter.limits[key.path];
            CountIn(limiter.History(key), from, from + limit.window as real) <= limit.maxRequests
  {
    assert KeyOk(limiter.History(key), limiter.Stored(key), limiter.clock, limiter.LimitFor(key.path));
    var limit := limiter.limits[key.path];
    SpacedCount(limiter.History(key), limit.maxRequests, limit.window, from);
  }

  /** A client that is refused and waits exactly as long as it is told gets through if and only if less than a
      second was left: whole seconds are rounded down. */
  lemma RetryAfterSuffices(times: seq<real>, window: int, now: real)
    requires times != [] && Sorted(times) && now - window as real <= times[0] <= now
    ensures var wait := RetryAfter(window, now, times[0]) as real;
            |Recent(times, now + wait - window as real)| < |times| <==> window as real - (now - times[0]) < 1.0
  {
    var wait := RetryAfter(window, now, times[0]) as real;
    var k := RecentPart(times, now + wait - window as real);
    assert k > 0 <==> times[0] < now + wait - window as real;
  }
}
