/** The shared token bucket of `app/infra/ratelimit/redis_limiter.py`: a Lua script over a Redis hash
    that expires, run atomically by Redis, and the `RedisRateLimiter` in front of it.

    A check samples the clock before it sends the script, so a script run knows two moments: the stamp it
    was sent with, which measures the refill, and its own, at which Redis drops hashes.  The bucket that
    Redis may drop is indistinguishable from the in-memory one, which is never dropped;
    `ExpiryUnobservableIffSixty` says for exactly which expiry times that is so. */
module RedisBuckets {
  import opened Options
  import opened Sequences
  import opened TokenBuckets
  import opened RedisCommands

  /** A Redis hash with the fields `tokens` and `ts`, and the time at which Redis drops it. */
  datatype Entry = Entry(tokens: real, ts: real, expireAt: real)

  datatype Reply = Verdict(verdict: Verdict) | Unavailable

  const TTL := 120.0

  /** What HMGET reads at time `now`. */
  function Live(entry: Option<Entry>, now: real): Option<Entry> {
    if entry.Some? && now < entry.value.expireAt then entry else None
  }

  /** The in-memory bucket that a stored hash stands for when a script with this stamp reads it at `now`; a
      stamp before the stored one counts as no time passed. */
  function AsBucket(entry: Option<Entry>, stamp: real, now: real): Option<Bucket> {
    match Live(entry, now)
    case None => None
    case Some(e) => Some(Bucket(e.tokens, Min(e.ts, stamp)))
  }

  /** The hash and verdict one script run leaves. */
  function Evaluate(entry: Option<Entry>, rpm: nat, stamp: real, now: real, ttl: real): (Entry, Verdict)
    requires rpm >= 1
  {
    var (b, v) := Decide(AsBucket(entry, stamp, now), rpm, stamp);
    (Entry(b.tokens, stamp, now + ttl), v)
  }

  class RedisRateLimiter {
    var entries: map<Key, Entry>

    constructor ()
      ensures entries == map[]
    {
      entries := map[];
    }

    /** The Lua script, run by Redis at the moment `clock`. */
    method RunScript(key: Key, capacity: real, rate: real, now: real, ttl: real, clock: real, ghost rpm: nat)
      returns (allowed: int, retryAfter: real)
      requires rpm >= 1 && capacity == rpm as real && rate == rpm as real / 60.0
      modifies this
      ensures var (e, v) := Evaluate(Lookup(old(entries), key), rpm, now, clock, ttl);
              && entries == old(entries)[key := e]
              && allowed == (if v.Allowed? then 1 else 0)
              && (v.Exceeded? ==> retryAfter == v.retryAfter)
    {
      var state := Live(Lookup(entries, key), clock);
      var tokens, ts;
      if state.None? {
        tokens, ts := capacity, now;
      } else {
        tokens, ts := state.value.tokens, state.value.ts;
      }
      var elapsed := now - ts;
      if elapsed < 0.0 {
        elapsed := 0.0;
      }
      assert Level(AsBucket(Lookup(entries, key), now, clock), rpm, now) == Min(capacity, tokens + rate * elapsed);
      tokens := Min(capacity, tokens + rate * elapsed);
      allowed, retryAfter := 0, 0.0;
      if tokens >= 1.0 {
        tokens := tokens - 1.0;
        allowed := 1;
      } else {
        retryAfter := (1.0 - tokens) / rate;
      }
      entries := entries[key := Entry(tokens, now, clock + ttl)];
    }

    /** `now` is the moment the check samples, `arrived` the one at which Redis runs its script. */
    method Check(key: Key, rpm: nat, now: real, arrived: real, network: Network) returns (reply: Reply)
      requires rpm >= 1
      modifies this
      ensures var (e, v) := Evaluate(Lookup(old(entries), key), rpm, now, arrived, TTL);
              && entries == (if network.NeverRan? then old(entries) else old(entries)[key := e])
              && reply == if network.Answered? then Verdict(v) else Unavailable
    {
      var capacity := rpm as real;
      var refillRate := rpm as real / 60.0;
      if network.NeverRan? {
        return Unavailable;
      }
      var allowed, retryAfterRaw := RunScript(key, capacity, refillRate, now, TTL, arrived, rpm);
      if network.AnswerLost? {
        return Unavailable;
      }
      if allowed == 0 {
        return Verdict(Exceeded(retryAfterRaw));
      }
      return Verdict(Allowed);
    }
  }

  // ---------------------------------------------------------------- the two limiters agree

  /** One check of one caller: when it was stamped, when its script ran, and the caller's limit, which may
      differ from check to check. */
  datatype Request = Request(stamp: real, arrived: real, rpm: nat)

  /** The checks arrive in the order of their stamps, each at most `lag` after its own. */
  ghost predicate Ordered(requests: seq<Request>, lag: real) {
    && (forall i :: 0 <= i < |requests| ==>
          requests[i].rpm >= 1 && requests[i].stamp <= requests[i].arrived <= requests[i].stamp + lag)
    && (forall i, j :: 0 <= i <= j < |requests| ==> requests[i].stamp <= requests[j].stamp)
    && (forall i, j :: 0 <= i <= j < |requests| ==> requests[i].arrived <= requests[j].arrived)
  }

  ghost function MemoryBucket(requests: seq<Request>): Option<Bucket>
    requires forall i :: 0 <= i < |requests| ==> requests[i].rpm >= 1
  {
    if requests == [] then None
    else Some(Decide(MemoryBucket(Front(requests)), Last(requests).rpm, Last(requests).stamp).0)
  }

  ghost function RedisEntry(requests: seq<Request>, ttl: real): Option<Entry>
    requires forall i :: 0 <= i < |requests| ==> requests[i].rpm >= 1
  {
    if requests == [] then None
    else
      var last := Last(requests);
      Some(Evaluate(RedisEntry(Front(requests), ttl), last.rpm, last.stamp, last.arrived, ttl).0)
  }

  ghost function MemoryVerdict(requests: seq<Request>): Verdict
    requires requests != [] && forall i :: 0 <= i < |requests| ==> requests[i].rpm >= 1
  {
    Decide(MemoryBucket(Front(requests)), Last(requests).rpm, Last(requests).stamp).1
  }

  ghost function RedisVerdict(requests: seq<Request>, ttl: real): Verdict
    requires requests != [] && forall i :: 0 <= i < |requests| ==> requests[i].rpm >= 1
  {
    var last := Last(requests);
    Evaluate(RedisEntry(Front(requests), ttl), last.rpm, last.stamp, last.arrived, ttl).1
  }

  /** A stored hash holds the same tokens as the in-memory bucket, whether or not Redis has dropped it. */
  ghost predicate Corresponds(memory: Option<Bucket>, entry: Option<Entry>, ttl: real) {
    match (memory, entry)
    case (None, None) => true
    case (Some(b), Some(e)) => b.tokens == e.tokens >= 0.0 && b.lastRefill == e.ts && e.expireAt >= e.ts + ttl
    case _ => false
  }

  /** After a minute without a check a bucket is full for every limit, so forgetting it is harmless. */
  lemma MinuteFills(b: Bucket, rpm: nat, now: real)
    requires rpm >= 1 && b.tokens >= 0.0 && now >= b.lastRefill + 60.0
    ensures Level(Some(b), rpm, now) == Level(None, rpm, now)
  {
    RefillGrows(rpm, 60.0, now - b.lastRefill);
    assert Refill(rpm, 60.0) == rpm as real;
  }

  lemma CorrespondenceStep(memory: Option<Bucket>, entry: Option<Entry>, ttl: real, rpm: nat, stamp: real,
                           arrived: real)
    requires rpm >= 1 && stamp <= arrived && ttl >= 60.0 + (arrived - stamp)
    requires Corresponds(memory, entry, ttl) && (memory.Some? ==> memory.value.lastRefill <= stamp)
    ensures Level(memory, rpm, stamp) == Level(AsBucket(entry, stamp, arrived), rpm, stamp) >= 0.0
    ensures Decide(memory, rpm, stamp).1 == Evaluate(entry, rpm, stamp, arrived, ttl).1
    ensures Corresponds(Some(Decide(memory, rpm, stamp).0), Some(Evaluate(entry, rpm, stamp, arrived, ttl).0), ttl)
  {
    if memory.Some? {
      RefillGrows(rpm, 0.0, stamp - memory.value.lastRefill);
      if Live(entry, arrived).None? {
        MinuteFills(memory.value, rpm, stamp);
      }
    }
  }

  lemma {:induction false} BucketsCorrespond(requests: seq<Request>, lag: real, ttl: real)
    requires Ordered(requests, lag) && ttl >= 60.0 + lag
    ensures Corresponds(MemoryBucket(requests), RedisEntry(requests, ttl), ttl)
    ensures requests != [] ==> MemoryBucket(requests).value.lastRefill == Last(requests).stamp
    ensures requests != [] ==> MemoryVerdict(requests) == RedisVerdict(requests, ttl)
  {
    if requests != [] {
      var was, last := Front(requests), Last(requests);
      BucketsCorrespond(was, lag, ttl);
      assert was != [] ==> Last(was).stamp <= last.stamp;
      assert last == requests[|requests| - 1];
      CorrespondenceStep(MemoryBucket(was), RedisEntry(was, ttl), ttl, last.rpm, last.stamp, last.arrived);
    }
  }

  /** Two requests that tell an expiry time below a minute plus the lag: the second, late one finds the
      hash dropped. */
  lemma EarlyExpiryShows(ttl: real, lag: real)
    requires 0.0 <= ttl < 60.0 + lag && lag >= 0.0
    ensures var late := if ttl <= lag then ttl else lag;
            var requests := [Request(0.0, 0.0, 1), Request(ttl - late, ttl, 1)];
            Ordered(requests, lag) && MemoryVerdict(requests) != RedisVerdict(requests, ttl)
  {
    var stamp := ttl - if ttl <= lag then ttl else lag;
    var first := Request(0.0, 0.0, 1);
    var requests := [first, Request(stamp, ttl, 1)];
    assert Front(requests) == [first] && Front([first]) == [];
    assert MemoryBucket([first]) == Some(Bucket(0.0, 0.0));
    assert RedisEntry([first], ttl) == Some(Entry(0.0, 0.0, ttl));
    assert Refill(1, stamp) < 1.0;
  }

  /** Both limiters give the same verdicts and waits on every sequence of checks that arrive in order at
      most `lag` after their stamps, with limits that may change per check, if and only if hashes are kept
      for at least sixty seconds longer than the lag. */
  lemma ExpiryUnobservableIffSixty(ttl: real, lag: real)
    requires ttl >= 0.0 && lag >= 0.0
    ensures ttl >= 60.0 + lag <==>
            forall requests | Ordered(requests, lag) && requests != [] ::
              MemoryVerdict(requests) == RedisVerdict(requests, ttl)
  {
    if ttl >= 60.0 + lag {
      forall requests | Ordered(requests, lag) && requests != []
        ensures MemoryVerdict(requests) == RedisVerdict(requests, ttl)
      {
        BucketsCorrespond(requests, lag, ttl);
      }
    } else {
      EarlyExpiryShows(ttl, lag);
    }
  }
}
