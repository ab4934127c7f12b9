/** The request gate of the collection server: the per-address sliding
    window rate limiter and the admin-key check. */
module ServerSecurity {
  import opened Wrappers

  /** Seconds a request stays in an address's window. */
  const RateLimitWindow: real := 60.0
  /** Requests per window for public endpoints. */
  const RateLimitMaxRequests: int := 30
  /** Requests per window for admin endpoints. */
  const RateLimitMaxAdmin: int := 10

  /** A request made at `t` is still inside the window at `now`. */
  predicate InWindow(t: real, now: real) {
    now - t < RateLimitWindow
  }

  /** The request times of one address still inside the window at `now`,
      in their original order. */
  function Prune(times: seq<real>, now: real): (kept: seq<real>)
    ensures |kept| <= |times|
    ensures forall i :: 0 <= i < |kept| ==> kept[i] in times && InWindow(kept[i], now)
    ensures forall i :: 0 <= i < |times| && InWindow(times[i], now) ==> times[i] in kept
    ensures multiset(kept) <= multiset(times)
  {
    if times == [] then []
    else
      var tail := times[1..];
      var rest := Prune(tail, now);
      assert times == [times[0]] + tail;
      assert multiset(times) == multiset{times[0]} + multiset(tail);
      assert forall x :: x in tail ==> x in times;
      if InWindow(times[0], now) then [times[0]] + rest else rest
  }

  /** Pruning keeps every occurrence of each in-window time and drops every
      other time, so the pruned count is the number of in-window requests. */
  lemma {:induction false} PruneCounts(times: seq<real>, now: real)
    ensures forall x :: multiset(Prune(times, now))[x] == if InWindow(x, now) then multiset(times)[x] else 0
  {
    if times != [] {
      PruneCounts(times[1..], now);
      assert times == [times[0]] + times[1..];
      assert multiset(times) == multiset{times[0]} + multiset(times[1..]);
    }
  }

  /** Request times by client address; an address not yet seen has none. */
  class RateLimiter {
    var store: map<string, seq<real>>

    constructor ()
      ensures store == map[]
    {
      store := map[];
    }

    function TimesOf(ip: string): seq<real>
      reads this
    {
      if ip in store then store[ip] else []
    }

    /** Every address holds at most `limit` request times. */
    ghost predicate Bounded(limit: int)
      reads this
    {
      StoreBounded(store, limit)
    }

    /** Admits or rejects a request from `ip` at time `now`. The address's
        list is first pruned to the window, and the pruned list is kept even
        when the request is rejected; an admitted request appends `now`. */
    method Allow(ip: string, now: real, maxRequests: int) returns (allowed: bool)
      modifies this
      ensures allowed <==> |Prune(old(TimesOf(ip)), now)| < maxRequests
      ensures store == old(store)[ip := Prune(old(TimesOf(ip)), now) + (if allowed then [now] else [])]
      ensures allowed ==> |store[ip]| <= maxRequests
      ensures !allowed ==> |store[ip]| <= |old(TimesOf(ip))|
      ensures forall limit: nat :: old(Bounded(limit)) && maxRequests <= limit ==> Bounded(limit)
    {
      var times := TimesOf(ip);
      var pruned := Prune(times, now);
      allowed := |pruned| < maxRequests;
      var updated := pruned + (if allowed then [now] else []);
      forall limit: nat | StoreBounded(store, limit) && maxRequests <= limit
        ensures StoreBounded(store[ip := updated], limit)
      {
        assert |times| <= limit;
        StoreBoundKept(store, ip, updated, limit);
      }
      store := store[ip := updated];
    }
  }

  /** Every list in the store has at most `limit` entries. */
  ghost predicate StoreBounded(store: map<string, seq<real>>, limit: int) {
    forall ip :: ip in store ==> |store[ip]| <= limit
  }

  /** Replacing one address's list by a list within the bound keeps the bound. */
  lemma StoreBoundKept(store: map<string, seq<real>>, ip: string, times: seq<real>, limit: int)
    requires StoreBounded(store, limit) && |times| <= limit
    ensures StoreBounded(store[ip := times], limit)
  {
  }

  /** The admin-key gate: open when no key is configured; otherwise the
      supplied key (missing counts as empty) must be non-empty and equal to
      the configured one. */
  function AdminAllowed(adminKey: string, suppliedKey: Option<string>): (allowed: bool)
    ensures adminKey == "" ==> allowed
    ensures adminKey != "" ==> (allowed <==> suppliedKey == Some(adminKey))
  {
    var key := suppliedKey.GetOr("");
    if adminKey == "" then true
    else !(key == "" || key != adminKey)
  }
}
