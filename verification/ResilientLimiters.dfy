/** The composed limiter of `app/core/ratelimit/resilient.py`: Redis first, an in-memory bucket as the
    fallback, a circuit breaker in front of Redis.  One `check`, other checks coming in between wherever it
    awaits something. */
module ResilientLimiters {
  import opened Options
  import opened CircuitBreakers
  import opened TokenBuckets
  import opened RedisBuckets
  import opened RedisCommands

  /** The moments at which one check asks its breaker, samples the stamp it sends to Redis, has its script
      run, reports to its breaker and turns to its fallback. */
  datatype Instants = Instants(asked: real, sampled: real, arrived: real, recorded: real, fallen: real)

  /** What other checks have left when a step of this one comes: the hashes when its script runs, the
      breaker when it reports, and the fallback's buckets when it turns to them. */
  datatype Met = Met(entries: map<Key, Entry>, breaker: Breaker, buckets: map<Key, Bucket>)

  class ResilientRateLimiter {
    const primary: RedisRateLimiter
    const fallback: InMemoryRateLimiter
    const breaker: CircuitBreaker

    constructor (primary: RedisRateLimiter, fallback: InMemoryRateLimiter, breaker: CircuitBreaker)
      ensures this.primary == primary && this.fallback == fallback && this.breaker == breaker
    {
      this.primary, this.fallback, this.breaker := primary, fallback, breaker;
    }

    /** The check of the fallback, on the buckets as others have left them. */
    method FallBack(key: Key, rpm: nat, now: real, buckets: map<Key, Bucket>) returns (verdict: Verdict)
      requires rpm >= 1
      modifies fallback
      ensures verdict == Decide(Lookup(buckets, key), rpm, now).1
      ensures fallback.buckets == buckets[key := Decide(Lookup(buckets, key), rpm, now).0]
    {
      fallback.buckets := buckets;
      verdict := fallback.Check(key, rpm, now);
    }

    /** Redis is consulted exactly when the breaker admits the call; its answer is final when there is
        one; otherwise the fallback decides.  Refusals count as a healthy Redis, a lost answer or an
        unreachable Redis as a failure. */
    method Check(key: Key, rpm: nat, at: Instants, network: Network, met: Met) returns (verdict: Verdict)
      requires rpm >= 1
      modifies primary, fallback, breaker
      ensures var asked := Allow(breaker.cfg, old(breaker.Value()), at.asked);
              var consulted := Admits(breaker.cfg, old(breaker.Value()), at.asked);
              var (entry, answer) := Evaluate(Lookup(met.entries, key), rpm, at.sampled, at.arrived, TTL);
              var (bucket, local) := Decide(Lookup(met.buckets, key), rpm, at.fallen);
              var answered := consulted && network.Answered?;
              && primary.entries == (if !consulted then old(primary.entries)
                                     else if network.NeverRan? then met.entries
                                     else met.entries[key := entry])
              && fallback.buckets == (if answered then old(fallback.buckets) else met.buckets[key := bucket])
              && breaker.Value() == (if !consulted then asked
                                     else if answered then OnSuccess(met.breaker, asked.generation)
                                     else OnFailure(breaker.cfg, met.breaker, asked.generation, at.recorded))
              && verdict == if answered then answer else local
    {
      var allowed, generation := breaker.Ask(at.asked);
      if !allowed {
        verdict := FallBack(key, rpm, at.fallen, met.buckets);
        return;
      }
      primary.entries := met.entries;
      var reply := primary.Check(key, rpm, at.sampled, at.arrived, network);
      Meanwhile(breaker, met.breaker);
      match reply {
        case Unavailable =>
          breaker.RecordFailure(generation, at.recorded);
          verdict := FallBack(key, rpm, at.fallen, met.buckets);
        case Verdict(v) =>
          breaker.RecordSuccess(generation);
          verdict := v;
      }
    }
  }
}
