/**
 * The per-source token bucket (packages/gateway/src/rate-limit.ts), over exact reals: times in
 * milliseconds, `refill` in tokens per second.
 */
module RateLimit {
  import opened Common

  datatype Bucket = Bucket(tokens: real, updatedAt: real)

  type Buckets = map<string, Bucket>

  datatype Limit = Limit(capacity: real, refill: real)

  ghost predicate Sensible(limit: Limit) {
    limit.capacity >= 0.0 && limit.refill >= 0.0
  }

  function Min(a: real, b: real): real {
    if a < b then a else b
  }

  /** Tokens that come in over some milliseconds. */
  function Refill(limit: Limit, ms: real): real {
    ms / 1000.0 * limit.refill
  }

  /** Tokens a key could spend at this moment; one not seen yet has a full bucket. */
  function Available(limit: Limit, buckets: Buckets, key: string, at: real): real {
    if key in buckets
    then Min(limit.capacity, buckets[key].tokens + Refill(limit, at - buckets[key].updatedAt))
    else Min(limit.capacity, limit.capacity + Refill(limit, at - at))
  }

  function Taken(limit: Limit, buckets: Buckets, key: string, at: real): (Buckets, bool) {
    var refilled := Available(limit, buckets, key, at);
    if refilled < 1.0 then (buckets[key := Bucket(refilled, at)], false)
    else (buckets[key := Bucket(refilled - 1.0, at)], true)
  }

  class TokenBucket {
    const limit: Limit
    var buckets: Buckets

    constructor (limit: Limit)
      ensures this.limit == limit && buckets == map[]
    {
      this.limit := limit;
      buckets := map[];
    }

    /** take, at the time the clock shows */
    method Take(key: string, at: real) returns (granted: bool)
      modifies this
      ensures (buckets, granted) == Taken(limit, old(buckets), key, at)
      ensures forall other :: other in old(buckets) && other != key ==> other in buckets && buckets[other] == old(buckets)[other]
    {
      var bucket := if key in buckets then buckets[key] else Bucket(limit.capacity, at);
      var refilled := Min(limit.capacity, bucket.tokens + (at - bucket.updatedAt) / 1000.0 * limit.refill);
      if refilled < 1.0 {
        buckets := buckets[key := Bucket(refilled, at)];
        return false;
      }
      buckets := buckets[key := Bucket(refilled - 1.0, at)];
      granted := true;
    }
  }

  // ---- call sequences ----

  datatype Call = Call(key: string, at: real)

  function After(limit: Limit, buckets: Buckets, calls: seq<Call>): Buckets
    decreases calls
  {
    if calls == [] then buckets else After(limit, Taken(limit, buckets, calls[0].key, calls[0].at).0, calls[1..])
  }

  /** How often this key was granted a token. */
  function Granted(limit: Limit, buckets: Buckets, calls: seq<Call>, key: string): nat
    decreases calls
  {
    if calls == [] then 0
    else
      var (next, granted) := Taken(limit, buckets, calls[0].key, calls[0].at);
      (if granted && calls[0].key == key then 1 else 0) + Granted(limit, next, calls[1..], key)
  }

  /** Calls come at non-decreasing times between these two. */
  predicate Within(calls: seq<Call>, from: real, to: real) {
    if calls == [] then from <= to else from <= calls[0].at && Within(calls[1..], calls[0].at, to)
  }

  ghost predicate BucketsOk(limit: Limit, buckets: Buckets, now: real) {
    forall key :: key in buckets ==> 0.0 <= buckets[key].tokens <= limit.capacity && buckets[key].updatedAt <= now
  }

  lemma RefillAdds(limit: Limit, a: real, b: real)
    requires Sensible(limit)
    ensures Refill(limit, a + b) == Refill(limit, a) + Refill(limit, b)
    ensures a >= 0.0 ==> Refill(limit, a) >= 0.0
  {
    var x, y, r := a / 1000.0, b / 1000.0, limit.refill;
    assert (a + b) / 1000.0 == x + y;
    assert (x + y) * r == x * r + y * r;
  }

  /** Waiting adds no more than the refill. */
  lemma AvailableLater(limit: Limit, buckets: Buckets, key: string, now: real, later: real)
    requires Sensible(limit) && BucketsOk(limit, buckets, now) && now <= later
    ensures 0.0 <= Available(limit, buckets, key, later) <= limit.capacity
    ensures Available(limit, buckets, key, later) <= Available(limit, buckets, key, now) + Refill(limit, later - now)
  {
    RefillAdds(limit, later - now, 0.0);
    if key in buckets {
      RefillAdds(limit, now - buckets[key].updatedAt, later - now);
      RefillAdds(limit, later - buckets[key].updatedAt, 0.0);
      assert (now - buckets[key].updatedAt) + (later - now) == later - buckets[key].updatedAt;
    }
  }

  /** One take keeps every bucket between empty and full, and touches no other key. */
  lemma TakeIsOk(limit: Limit, buckets: Buckets, key: string, now: real, at: real)
    requires Sensible(limit) && BucketsOk(limit, buckets, now) && now <= at
    ensures var (next, granted) := Taken(limit, buckets, key, at);
      && BucketsOk(limit, next, at)
      && Available(limit, next, key, at) == Available(limit, buckets, key, at) - (if granted then 1.0 else 0.0)
      && key in next && next[key].updatedAt == at
      && forall other, t :: other != key ==> Available(limit, next, other, t) == Available(limit, buckets, other, t)
  {
    hide Refill;
    AvailableLater(limit, buckets, key, now, at);
    NoTimeNoRefill(limit);
    assert at - at == 0.0;
  }

  lemma NoTimeNoRefill(limit: Limit)
    ensures Refill(limit, 0.0) == 0.0
  {
  }

  /** From any state on, however the calls of all keys interleave: a key is granted no more than it has at the
      start of a window plus what the window refills. */
  lemma {:induction false} RateBound(limit: Limit, buckets: Buckets, calls: seq<Call>, key: string, from: real, to: real)
    requires Sensible(limit) && BucketsOk(limit, buckets, from) && Within(calls, from, to)
    ensures Granted(limit, buckets, calls, key) as real <= Available(limit, buckets, key, from) + Refill(limit, to - from)
    ensures BucketsOk(limit, After(limit, buckets, calls), to)
    decreases calls
  {
    if calls == [] {
      AvailableLater(limit, buckets, key, from, from);
      RefillAdds(limit, to - from, 0.0);
    } else {
      hide Refill, Available;
      var at := calls[0].at;
      var next := Taken(limit, buckets, calls[0].key, at).0;
      TakeIsOk(limit, buckets, calls[0].key, from, at);
      RateBound(limit, next, calls[1..], key, at, to);
      AvailableLater(limit, buckets, key, from, at);
      RefillAdds(limit, at - from, to - at);
      assert (at - from) + (to - at) == to - from;
    }
  }

  /** Over any window of any call sequence from the start, grants to one key never pass the capacity plus the
      window's refill, and tokens stay between nothing and the capacity. */
  lemma WindowBound(limit: Limit, before: seq<Call>, window: seq<Call>, key: string, start: real, from: real, to: real)
    requires Sensible(limit) && Within(before, start, from) && Within(window, from, to)
    ensures var buckets := After(limit, map[], before);
      && Granted(limit, buckets, window, key) as real <= limit.capacity + Refill(limit, to - from)
      && BucketsOk(limit, After(limit, buckets, window), to)
  {
    RateBound(limit, map[], before, key, start, from);
    var buckets := After(limit, map[], before);
    AvailableLater(limit, buckets, key, from, from);
    RateBound(limit, buckets, window, key, from, to);
  }

  /** A key that waits long enough for one token is granted one, if the bucket can hold one at all. */
  lemma WaitingHelps(limit: Limit, buckets: Buckets, key: string, now: real, at: real)
    requires Sensible(limit) && BucketsOk(limit, buckets, now) && limit.capacity >= 1.0 && limit.refill > 0.0
    requires at >= now + 1000.0 / limit.refill
    ensures Taken(limit, buckets, key, at).1
  {
    if key in buckets {
      var ms := at - buckets[key].updatedAt;
      var wait := 1000.0 / limit.refill;
      assert ms >= wait;
      OneToken(limit.refill, ms);
      assert Refill(limit, ms) >= 1.0;
      hide Refill;
      assert buckets[key].tokens + Refill(limit, ms) >= 1.0;
    } else {
      assert at - at == 0.0;
      NoTimeNoRefill(limit);
    }
  }

  lemma OneToken(r: real, ms: real)
    requires r > 0.0 && ms >= 1000.0 / r
    ensures ms / 1000.0 * r >= 1.0
  {
    var q := 1000.0 / r;
    assert q * r == 1000.0;
    assert (ms - q) * r >= 0.0;
    assert ms * r >= 1000.0;
    assert ms / 1000.0 * r == ms * r / 1000.0;
  }

  // ---- nothing is withheld ----

  /** A key not seen before has a full bucket. */
  lemma FirstIsFull(limit: Limit, buckets: Buckets, key: string, at: real)
    requires key !in buckets
    ensures Available(limit, buckets, key, at) == limit.capacity
    ensures Taken(limit, buckets, key, at).1 <==> limit.capacity >= 1.0
  {
    assert at - at == 0.0;
    NoTimeNoRefill(limit);
  }

  function Repeated(n: nat, key: string, at: real): seq<Call> {
    if n == 0 then [] else [Call(key, at)] + Repeated(n - 1, key, at)
  }

  /** Calls at one moment are granted as long as a whole token is left, and then no longer. */
  lemma {:induction false} BurstExactly(limit: Limit, buckets: Buckets, key: string, now: real, at: real, n: nat)
    requires Sensible(limit) && BucketsOk(limit, buckets, now) && now <= at
    ensures var whole := Available(limit, buckets, key, at).Floor;
      whole >= 0 && Granted(limit, buckets, Repeated(n, key, at), key) == if n < whole then n else whole
    decreases n
  {
    AvailableLater(limit, buckets, key, now, at);
    if n > 0 {
      hide Available, Refill;
      TakeIsOk(limit, buckets, key, now, at);
      BurstExactly(limit, Taken(limit, buckets, key, at).0, key, at, at, n - 1);
      assert Repeated(n, key, at)[1..] == Repeated(n - 1, key, at);
      if Available(limit, buckets, key, at) >= 1.0 { OneLess(Available(limit, buckets, key, at)); }
      assert Taken(limit, buckets, key, at).1 <==> Available(limit, buckets, key, at) >= 1.0;
    }
  }

  lemma OneLess(x: real)
    requires x >= 1.0
    ensures (x - 1.0).Floor == x.Floor - 1
  {
  }

  /** The key's bucket is there and no call of the key finds it full to the brim. */
  predicate NeverSpills(limit: Limit, buckets: Buckets, calls: seq<Call>, key: string)
    decreases calls
  {
    && key in buckets
    && (calls != [] ==>
          && (calls[0].key == key ==>
                buckets[key].tokens + Refill(limit, calls[0].at - buckets[key].updatedAt) <= limit.capacity)
          && NeverSpills(limit, Taken(limit, buckets, calls[0].key, calls[0].at).0, calls[1..], key))
  }

  /** Tokens are conserved: as long as a bucket does not spill, what a key had and what came in is what it was
      granted and what is left. */
  lemma {:induction false} TokensAreConserved(limit: Limit, buckets: Buckets, calls: seq<Call>, key: string)
    requires Sensible(limit) && NeverSpills(limit, buckets, calls, key)
    ensures var after := After(limit, buckets, calls);
      && key in after
      && buckets[key].tokens + Refill(limit, after[key].updatedAt - buckets[key].updatedAt)
           == Granted(limit, buckets, calls, key) as real + after[key].tokens
    decreases calls
  {
    if calls == [] {
      assert buckets[key].updatedAt - buckets[key].updatedAt == 0.0;
      NoTimeNoRefill(limit);
    } else {
      hide Refill;
      var next := Taken(limit, buckets, calls[0].key, calls[0].at).0;
      TokensAreConserved(limit, next, calls[1..], key);
      var after := After(limit, next, calls[1..]);
      RefillAdds(limit, next[key].updatedAt - buckets[key].updatedAt, after[key].updatedAt - next[key].updatedAt);
      assert (next[key].updatedAt - buckets[key].updatedAt) + (after[key].updatedAt - next[key].updatedAt)
          == after[key].updatedAt - buckets[key].updatedAt;
      if calls[0].key != key {
        assert buckets[key].updatedAt - buckets[key].updatedAt == 0.0;
        NoTimeNoRefill(limit);
      }
    }
  }

  /** A bucket smaller than one token never grants anything. */
  lemma {:induction false} SmallBucketsGrantNothing(limit: Limit, buckets: Buckets, calls: seq<Call>, key: string)
    requires limit.capacity < 1.0
    ensures Granted(limit, buckets, calls, key) == 0
    decreases calls
  {
    if calls != [] {
      SmallBucketsGrantNothing(limit, Taken(limit, buckets, calls[0].key, calls[0].at).0, calls[1..], key);
    }
  }
}
