/** The in-memory token bucket of `app/core/ratelimit/token_bucket.py`, with exact arithmetic.

    `Decide` is one locked `check` as a function; the class updates its dictionary in place and is
    proved against it.  What a sequence of checks adds up to is in BucketWindows. */
module TokenBuckets {
  import opened Options

  type Key = nat

  datatype Bucket = Bucket(tokens: real, lastRefill: real)

  datatype Verdict = Allowed | Exceeded(retryAfter: real)

  function Min(x: real, y: real): real {
    if x <= y then x else y
  }

  /** The tokens that `seconds` of refilling at `rpm` per minute bring. */
  function Refill(rpm: nat, seconds: real): real {
    rpm as real / 60.0 * seconds
  }

  lemma RefillAdds(rpm: nat, x: real, y: real)
    ensures Refill(rpm, x) + Refill(rpm, y) == Refill(rpm, x + y)
  {
  }

  lemma RefillGrows(rpm: nat, x: real, y: real)
    requires x <= y
    ensures Refill(rpm, x) <= Refill(rpm, y)
    ensures rpm >= 1 && x < y ==> Refill(rpm, x) < Refill(rpm, y)
  {
    var d := y - x;
    assert Refill(rpm, y) == Refill(rpm, x) + Refill(rpm, d);
    assert Refill(rpm, d) >= 0.0;
    if rpm >= 1 && d > 0.0 {
      assert rpm as real / 60.0 > 0.0;
    }
  }

  /** The tokens a check at `now` finds; a caller without a bucket finds a full one. */
  function Level(bucket: Option<Bucket>, rpm: nat, now: real): real {
    match bucket
    case None => rpm as real
    case Some(b) => Min(rpm as real, b.tokens + Refill(rpm, now - b.lastRefill))
  }

  /** One check: the bucket it leaves and its verdict. */
  function Decide(bucket: Option<Bucket>, rpm: nat, now: real): (Bucket, Verdict)
    requires rpm >= 1
  {
    var level := Level(bucket, rpm, now);
    if level >= 1.0 then (Bucket(level - 1.0, now), Allowed)
    else (Bucket(level, now), Exceeded((1.0 - level) / (rpm as real / 60.0)))
  }

  function Lookup<T>(m: map<Key, T>, key: Key): Option<T> {
    if key in m then Some(m[key]) else None
  }

  class InMemoryRateLimiter {
    var buckets: map<Key, Bucket>

    constructor ()
      ensures buckets == map[]
    {
      buckets := map[];
    }

    method Check(key: Key, rpm: nat, now: real) returns (verdict: Verdict)
      requires rpm >= 1
      modifies this
      ensures verdict == Decide(Lookup(old(buckets), key), rpm, now).1
      ensures buckets == old(buckets)[key := Decide(Lookup(old(buckets), key), rpm, now).0]
    {
      var capacity := rpm as real;
      var refillRate := rpm as real / 60.0;
      var bucket;
      if key in buckets {
        bucket := buckets[key];
      } else {
        bucket := Bucket(capacity, now);
        buckets := buckets[key := bucket];
      }
      var elapsed := now - bucket.lastRefill;
      assert bucket.tokens + refillRate * elapsed
          == match Lookup(old(buckets), key) case None => capacity case Some(b) => b.tokens + Refill(rpm, elapsed);
      bucket := bucket.(tokens := Min(capacity, bucket.tokens + refillRate * elapsed));
      bucket := bucket.(lastRefill := now);
      if bucket.tokens >= 1.0 {
        bucket := bucket.(tokens := bucket.tokens - 1.0);
        buckets := buckets[key := bucket];
        return Allowed;
      }
      buckets := buckets[key := bucket];
      var retryAfter := (1.0 - bucket.tokens) / refillRate;
      return Exceeded(retryAfter);
    }
  }
}
