/** What late stamps do to a fleet, with one perfect clock and no command lost to them: a check samples its
    stamp before it sends its script.  Runs are built step by step to show for exactly which delays and
    steps back the bounds of FleetBounds can be read without their excess, or exist at all. */
module LateStamps {
  import opened Options
  import opened CircuitBreakers
  import opened TokenBuckets
  import opened RedisBuckets
  import opened RedisCommands
  import opened LimiterFleets
  import opened FleetBounds

  /** The runs considered: the caller, its limit, the beginning of the window, how long scripts may run
      after they were stamped, and by how much a stamp may set back the stored one. */
  datatype Regime = Regime(key: Key, rpm: nat, from: real, lag: real, setBack: real)

  ghost predicate Obeys(cfg: Config, h: History, r: Regime) {
    && Legal(cfg, h) && OneLimit(h, r.key, r.rpm)
    && Delayed(cfg, h, r.key, r.from, r.lag) && SetBackWithin(cfg, h, r.key, r.setBack)
  }

  // ---------------------------------------------------------------- building runs

  /** `n` processes that have just started. */
  function Started(n: nat): Fleet {
    Fleet(map[], seq(n, i => Worker(INITIAL, map[])), map[], 0.0)
  }

  /** The step is possible and stays within the regime. */
  ghost predicate Permits(f: Fleet, r: Regime, e: Event) {
    && WellFormed(f) && Enabled(f, e)
    && (e.move.Begin? && e.move.key == r.key ==> e.move.rpm == r.rpm)
    && (RunsScript(f, e, r.key) ==>
          && e.at <= f.calls[e.id].phase.stamp + r.lag
          && (r.key in f.redis ==> f.redis[r.key].ts <= f.calls[e.id].phase.stamp + r.setBack))
  }

  lemma Append(cfg: Config, h: History, r: Regime, e: Event) returns (g: History)
    requires Obeys(cfg, h, r) && Permits(State(cfg, h), r, e)
    ensures Obeys(cfg, g, r) && Size(g) == Size(h) && Began(g) == Began(h)
    ensures State(cfg, g) == Step(cfg, State(cfg, h), e)
    ensures var paid := Pays(State(cfg, h), e, r.key, r.from);
            && Passed(cfg, g, r.key, r.from) == Passed(cfg, h, r.key, r.from) + (if paid then 1 else 0)
            && Paid(cfg, g, r.key, r.from, 0)
               == Paid(cfg, h, r.key, r.from, 0) + (if paid && Decides(State(cfg, h), e).bucket == 0 then 1 else 0)
  {
    g := Then(h, e);
  }

  /** Two runs with the same passes. */
  ghost predicate SamePasses(cfg: Config, h: History, g: History, r: Regime)
    requires Legal(cfg, h) && Legal(cfg, g)
  {
    && Passed(cfg, g, r.key, r.from) == Passed(cfg, h, r.key, r.from)
    && Paid(cfg, g, r.key, r.from, 0) == Paid(cfg, h, r.key, r.from, 0)
  }

  /** Nothing has been reported to the first process's breaker, and checks are numbered below `next`. */
  ghost predicate Healthy(f: Fleet, next: nat) {
    && |f.workers| >= 1 && f.workers[0].breaker == INITIAL
    && forall id | id in f.calls :: id < next
  }

  /** In this state `n` checks, numbered from `first`, have sampled their stamp and are on their way to Redis. */
  ghost predicate OnTheWay(f: Fleet, r: Regime, stamp: real, first: nat, n: nat) {
    forall id: nat | first <= id < first + n ::
      id in f.calls && f.calls[id] == Call(0, r.key, r.rpm, AtRedis(0, stamp))
  }

  lemma BeginsHealthy(cfg: Config, f: Fleet, r: Regime, id: nat, at: real)
    requires WellFormed(f) && r.rpm >= 1 && Healthy(f, id) && f.now <= at
    ensures Step(cfg, f, Event(id, Begin(0, r.key, r.rpm), at))
            == f.(calls := f.calls[id := Call(0, r.key, r.rpm, AtPrimary(0))], now := at)
  {
    assert f.workers[0 := f.workers[0].(breaker := INITIAL)] == f.workers;
  }

  /** One more check begins and samples its stamp. */
  lemma SendOne(cfg: Config, h: History, r: Regime, at: real, id: nat) returns (g: History)
    requires Obeys(cfg, h, r) && r.rpm >= 1 && Healthy(State(cfg, h), id) && State(cfg, h).now <= at
    ensures Obeys(cfg, g, r) && Size(g) == Size(h) && SamePasses(cfg, h, g, r)
    ensures var f := State(cfg, h);
            State(cfg, g) == f.(calls := f.calls[id := Call(0, r.key, r.rpm, AtRedis(0, at))], now := at)
  {
    var f := State(cfg, h);
    BeginsHealthy(cfg, f, r, id, at);
    g := Append(cfg, h, r, Event(id, Begin(0, r.key, r.rpm), at));
    g := Append(cfg, g, r, Event(id, Sample, at));
    assert State(cfg, g).calls == f.calls[id := Call(0, r.key, r.rpm, AtRedis(0, at))];
  }

  /** From state `f` to state `k`, `n` checks have been sent. */
  ghost predicate Sent(f: Fleet, k: Fleet, r: Regime, at: real, first: nat, n: nat) {
    && Healthy(k, first + n) && OnTheWay(k, r, at, first, n)
    && k.redis == f.redis && k.workers == f.workers && f.now <= k.now <= at
    && forall id | id in f.calls :: id in k.calls && k.calls[id] == f.calls[id]
  }

  lemma SentOneMore(f: Fleet, k: Fleet, r: Regime, at: real, first: nat, n: nat)
    requires Sent(f, k, r, at, first, n) && forall id | id in f.calls :: id < first
    ensures Sent(f, k.(calls := k.calls[first + n := Call(0, r.key, r.rpm, AtRedis(0, at))], now := at), r, at, first,
                 n + 1)
  {
  }

  lemma {:induction false} SendMany(cfg: Config, h: History, r: Regime, at: real, first: nat, n: nat)
    returns (g: History)
    requires Obeys(cfg, h, r) && r.rpm >= 1 && Healthy(State(cfg, h), first) && State(cfg, h).now <= at
    ensures Obeys(cfg, g, r) && Size(g) == Size(h) && SamePasses(cfg, h, g, r)
    ensures Sent(State(cfg, h), State(cfg, g), r, at, first, n)
    decreases n
  {
    g := h;
    if n > 0 {
      g := SendMany(cfg, h, r, at, first, n - 1);
      SentOneMore(State(cfg, h), State(cfg, g), r, at, first, n - 1);
      g := SendOne(cfg, g, r, at, first + n - 1);
    }
  }

  /** The script of one check that is on its way runs and is answered. */
  lemma Deliver(cfg: Config, h: History, r: Regime, stamp: real, id: nat, at: real) returns (g: History)
    requires Obeys(cfg, h, r) && r.rpm >= 1 && State(cfg, h).now <= at && r.from <= at <= stamp + r.lag
    requires OnTheWay(State(cfg, h), r, stamp, id, 1)
    requires r.key in State(cfg, h).redis ==> State(cfg, h).redis[r.key].ts <= stamp + r.setBack
    ensures Obeys(cfg, g, r) && Size(g) == Size(h)
    ensures var f, k := State(cfg, h), State(cfg, g);
            var (entry, verdict) := Evaluate(Lookup(f.redis, r.key), r.rpm, stamp, at, TTL);
            var passed := if verdict.Allowed? then 1 else 0;
            && Passed(cfg, g, r.key, r.from) == Passed(cfg, h, r.key, r.from) + passed
            && Paid(cfg, g, r.key, r.from, 0) == Paid(cfg, h, r.key, r.from, 0) + passed
            && Lookup(k.redis, r.key) == Some(entry) && k.now == at && k.workers == f.workers
            && k.calls.Keys == f.calls.Keys
            && forall other | other in f.calls && other != id :: k.calls[other] == f.calls[other]
  {
    assert State(cfg, h).calls[id] == Call(0, r.key, r.rpm, AtRedis(0, stamp));
    g := Append(cfg, h, r, Event(id, RunPrimary(Answered), at));
  }

  // ---------------------------------------------------------------- one token too many

  /** The hash after `n` passes of a burst that was stamped at 0 and runs at `at`. */
  function BurstHash(rpm: nat, at: real, n: nat): Option<Entry>
    requires n <= rpm
  {
    if n == 0 then None else Some(Entry((rpm - n) as real, 0.0, at + TTL))
  }

  lemma BurstStep(rpm: nat, at: real, n: nat)
    requires n < rpm
    ensures Evaluate(BurstHash(rpm, at, n), rpm, 0.0, at, TTL) == (BurstHash(rpm, at, n + 1).value, Allowed)
  {
    assert Refill(rpm, 0.0) == 0.0;
  }

  /** `n` checks of the burst have passed, and the others are on their way. */
  ghost predicate InBurst(f: Fleet, r: Regime, at: real, n: nat) {
    && n <= r.rpm && Healthy(f, r.rpm) && f.now <= at
    && Lookup(f.redis, r.key) == BurstHash(r.rpm, at, n)
    && OnTheWay(f, r, 0.0, n, r.rpm - n)
  }

  lemma DeliverOneOfBurst(cfg: Config, h: History, r: Regime, at: real, n: nat) returns (g: History)
    requires Obeys(cfg, h, r) && r.rpm >= 1 && r.setBack >= 0.0 && r.from <= at <= r.lag
    requires InBurst(State(cfg, h), r, at, n) && n < r.rpm
    ensures Obeys(cfg, g, r) && Size(g) == Size(h)
    ensures Passed(cfg, g, r.key, r.from) == Passed(cfg, h, r.key, r.from) + 1
    ensures Paid(cfg, g, r.key, r.from, 0) == Paid(cfg, h, r.key, r.from, 0) + 1
    ensures InBurst(State(cfg, g), r, at, n + 1) && State(cfg, g).workers == State(cfg, h).workers
  {
    BurstStep(r.rpm, at, n);
    g := Deliver(cfg, h, r, 0.0, n, at);
  }

  /** Checks that were stamped at 0, one after the other, use up the full hash. */
  lemma {:induction false} DeliverBurst(cfg: Config, h: History, r: Regime, at: real, n: nat) returns (g: History)
    requires Obeys(cfg, h, r) && r.rpm >= 1 && r.setBack >= 0.0 && r.from <= at <= r.lag
    requires InBurst(State(cfg, h), r, at, n)
    ensures Obeys(cfg, g, r) && Size(g) == Size(h)
    ensures Passed(cfg, g, r.key, r.from) == Passed(cfg, h, r.key, r.from) + (r.rpm - n)
    ensures Paid(cfg, g, r.key, r.from, 0) == Paid(cfg, h, r.key, r.from, 0) + (r.rpm - n)
    ensures InBurst(State(cfg, g), r, at, r.rpm) && State(cfg, g).workers == State(cfg, h).workers
    decreases r.rpm - n
  {
    if n == r.rpm {
      g := h;
    } else {
      g := DeliverOneOfBurst(cfg, h, r, at, n);
      g := DeliverBurst(cfg, g, r, at, n + 1);
    }
  }

  /** The seconds in which one token is refilled. */
  function TokenTime(rpm: nat): real
    requires rpm >= 1
  {
    60.0 / rpm as real
  }

  lemma TokenTimeRefills(rpm: nat, lag: real)
    requires rpm >= 1 && lag > 0.0
    ensures 0.0 < TokenTime(rpm) <= 60.0 && Refill(rpm, TokenTime(rpm)) == 1.0
    ensures Refill(rpm, lag) <= 1.0 <==> lag <= TokenTime(rpm)
  {
    var t := TokenTime(rpm);
    assert t * rpm as real == 60.0;
    assert Refill(rpm, t) == 1.0;
    if lag <= t { RefillGrows(rpm, lag, t); } else { RefillGrows(rpm, t, lag); }
  }

  /** How late the checks of the burst are: as late as the lag allows, but no longer than a token takes. */
  function Lateness(rpm: nat, lag: real): real
    requires rpm >= 1
  {
    Min(lag, TokenTime(rpm))
  }

  lemma LatenessIsShort(rpm: nat, lag: real)
    requires rpm >= 1 && lag > 0.0
    ensures 0.0 < Lateness(rpm, lag) <= TokenTime(rpm) && Lateness(rpm, lag) <= lag
    ensures Share(rpm, TokenTime(rpm) - Lateness(rpm, lag)) == rpm as real + (1.0 - Refill(rpm, Lateness(rpm, lag)))
    ensures Refill(rpm, Lateness(rpm, lag)) > 0.0
  {
    TokenTimeRefills(rpm, lag);
    RefillAdds(rpm, TokenTime(rpm) - Lateness(rpm, lag), Lateness(rpm, lag));
    RefillGrows(rpm, 0.0, Lateness(rpm, lag));
    assert Refill(rpm, 0.0) == 0.0;
  }

  /** The checks of a late burst, all stamped at 0, have used up the hash. */
  lemma Burst(cfg: Config, r: Regime, n: nat) returns (h: History)
    requires r.rpm >= 1 && n >= 1 && 0.0 <= r.from <= r.lag && r.setBack >= 0.0
    ensures Obeys(cfg, h, r) && Size(h) == n
    ensures Passed(cfg, h, r.key, r.from) == r.rpm && Paid(cfg, h, r.key, r.from, 0) == r.rpm
    ensures InBurst(State(cfg, h), r, r.from, r.rpm) && State(cfg, h).workers == Started(n).workers
  {
    h := Start(Started(n));
    h := SendMany(cfg, h, r, 0.0, 0, r.rpm);
    h := DeliverBurst(cfg, h, r, r.from, 0);
  }

  lemma AfterBurst(rpm: nat, at: real, later: real)
    requires rpm >= 1 && at <= later <= 60.0 && 0.0 <= at && Refill(rpm, later) == 1.0
    ensures Evaluate(BurstHash(rpm, at, rpm), rpm, later, later, TTL).1.Allowed?
  {
    assert Refill(rpm, later - 0.0) == 1.0;
  }

  /** A burst that is late, and then one check that is not: stamps arrive in order, and the hash lets through
      `rpm + 1` checks in a window that refills less than a token. */
  lemma LateBurst(cfg: Config, r: Regime, n: nat, later: real) returns (h: History)
    requires r.rpm >= 1 && n >= 1 && 0.0 <= r.from <= r.lag && r.setBack == 0.0
    requires r.from <= later <= 60.0 && Refill(r.rpm, later) == 1.0
    ensures Obeys(cfg, h, r) && Size(h) == n
    ensures Passed(cfg, h, r.key, r.from) == r.rpm + 1 && Paid(cfg, h, r.key, r.from, 0) == r.rpm + 1
    ensures State(cfg, h).now == later && State(cfg, h).workers == Started(n).workers
    ensures forall id | id in State(cfg, h).calls :: id < r.rpm + 1
  {
    AfterBurst(r.rpm, r.from, later);
    h := Burst(cfg, r, n);
    h := SendOne(cfg, h, r, later, r.rpm);
    h := Deliver(cfg, h, r, later, r.rpm, later);
  }

  lemma LateBurstExceedsShare(cfg: Config, r: Regime, later: real) returns (h: History)
    requires r.rpm >= 1 && 0.0 <= r.from <= r.lag && r.setBack == 0.0
    requires r.from <= later <= 60.0 && Refill(r.rpm, later) == 1.0
    requires Share(r.rpm, later - r.from) < r.rpm as real + 1.0
    ensures Obeys(cfg, h, r) && r.from <= State(cfg, h).now
    ensures Paid(cfg, h, r.key, r.from, 0) as real > Share(r.rpm, State(cfg, h).now - r.from)
  {
    h := LateBurst(cfg, r, 1, later);
  }

  lemma NoLagNoExcess(cfg: Config, h: History, key: Key, rpm: nat, from: real)
    requires Obeys(cfg, h, Regime(key, rpm, from, 0.0, 0.0)) && rpm >= 1 && from <= State(cfg, h).now
    ensures Paid(cfg, h, key, from, 0) as real <= Share(rpm, State(cfg, h).now - from)
  {
    OrderedFleetBound(cfg, h, key, rpm, from, 0.0);
    assert Refill(rpm, 0.0) == 0.0;
  }

  /** The shared bucket lets through its own share only, in every window of every run whose stamps arrive in
      order and at most `lag` late, if and only if the lag is nothing. */
  lemma SharedShareHoldsIffNoLag(cfg: Config, key: Key, rpm: nat, lag: real)
    requires rpm >= 1 && lag >= 0.0
    ensures lag == 0.0 <==>
            forall h: History, from: real
              | Obeys(cfg, h, Regime(key, rpm, from, lag, 0.0)) && from <= State(cfg, h).now ::
              Paid(cfg, h, key, from, 0) as real <= Share(rpm, State(cfg, h).now - from)
  {
    if lag == 0.0 {
      forall h: History, from: real
        | Obeys(cfg, h, Regime(key, rpm, from, lag, 0.0)) && from <= State(cfg, h).now
        ensures Paid(cfg, h, key, from, 0) as real <= Share(rpm, State(cfg, h).now - from)
      {
        NoLagNoExcess(cfg, h, key, rpm, from);
      }
    } else {
      var r := Regime(key, rpm, Lateness(rpm, lag), lag, 0.0);
      LatenessIsShort(rpm, lag);
      TokenTimeRefills(rpm, lag);
      var h := LateBurstExceedsShare(cfg, r, TokenTime(rpm));
      assert !(Paid(cfg, h, key, r.from, 0) as real <= Share(rpm, State(cfg, h).now - r.from));
    }
  }

  // ---------------------------------------------------------------- the whole fleet

  /** The check is at its fallback, and nothing but its own process's breaker has changed. */
  ghost predicate AtTheFallback(f: Fleet, k: Fleet, r: Regime, worker: nat, id: nat, at: real) {
    && worker < |f.workers| == |k.workers| && k.now == at
    && k.calls.Keys == f.calls.Keys + {id} && k.calls[id] == Call(worker, r.key, r.rpm, AtFallback)
    && k.workers == f.workers[worker := f.workers[worker].(breaker := k.workers[worker].breaker)]
  }

  /** A check that Redis does not answer. */
  lemma LoseAnswer(cfg: Config, h: History, r: Regime, worker: nat, id: nat, at: real) returns (g: History)
    requires Obeys(cfg, h, r) && r.rpm >= 1 && worker < |State(cfg, h).workers|
    requires State(cfg, h).now == at && id in State(cfg, h).calls && State(cfg, h).calls[id].phase.AtPrimary?
    requires State(cfg, h).calls[id] == Call(worker, r.key, r.rpm, State(cfg, h).calls[id].phase)
    ensures Obeys(cfg, g, r) && Size(g) == Size(h) && Began(g) == Began(h) && SamePasses(cfg, h, g, r)
    ensures var f, k := State(cfg, h), State(cfg, g);
            && k.now == at && k.workers == f.workers
            && k.calls == SetPhase(f, id, Failed(f.calls[id].phase.ticket))
  {
    var f := State(cfg, h);
    var ticket := f.calls[id].phase.ticket;
    g := Append(cfg, h, r, Event(id, Sample, at));
    assert State(cfg, g).calls == SetPhase(f, id, AtRedis(ticket, at));
    g := Append(cfg, g, r, Event(id, RunPrimary(NeverRan), at));
    assert State(cfg, g).calls == SetPhase(f, id, Failed(ticket));
  }

  lemma RecordFailure(cfg: Config, h: History, r: Regime, worker: nat, id: nat, at: real) returns (g: History)
    requires Obeys(cfg, h, r) && r.rpm >= 1 && worker < |State(cfg, h).workers|
    requires State(cfg, h).now == at && id in State(cfg, h).calls && State(cfg, h).calls[id].phase.Failed?
    requires State(cfg, h).calls[id] == Call(worker, r.key, r.rpm, State(cfg, h).calls[id].phase)
    ensures Obeys(cfg, g, r) && Size(g) == Size(h) && Began(g) == Began(h) && SamePasses(cfg, h, g, r)
    ensures AtTheFallback(State(cfg, h), State(cfg, g), r, worker, id, at)
    ensures var f := State(cfg, h);
            State(cfg, g).workers[worker].breaker
            == OnFailure(cfg, f.workers[worker].breaker, f.calls[id].phase.ticket, at)
  {
    g := Append(cfg, h, r, Event(id, Record, at));
  }

  lemma BeginsSomewhere(cfg: Config, f: Fleet, r: Regime, worker: nat, id: nat, at: real)
    requires WellFormed(f) && r.rpm >= 1 && worker < |f.workers| && f.now <= at && id !in f.calls
    ensures var k := Step(cfg, f, Event(id, Begin(worker, r.key, r.rpm), at));
            && k.now == at && |k.workers| == |f.workers| && k.calls.Keys == f.calls.Keys + {id}
            && k.calls[id] == Call(worker, r.key, r.rpm, k.calls[id].phase)
            && (k.calls[id].phase.AtPrimary? || k.calls[id].phase.AtFallback?)
            && k.workers == f.workers[worker := f.workers[worker].(breaker := k.workers[worker].breaker)]
  {
  }

  /** A check that uses its fallback, whether its breaker admits it and Redis does not answer, or not. */
  lemma ReachFallback(cfg: Config, h: History, r: Regime, worker: nat, id: nat, at: real) returns (g: History)
    requires Obeys(cfg, h, r) && r.rpm >= 1 && worker < |State(cfg, h).workers|
    requires State(cfg, h).now <= at && id !in State(cfg, h).calls
    ensures Obeys(cfg, g, r) && Size(g) == Size(h) && SamePasses(cfg, h, g, r)
    ensures AtTheFallback(State(cfg, h), State(cfg, g), r, worker, id, at)
  {
    BeginsSomewhere(cfg, State(cfg, h), r, worker, id, at);
    g := Append(cfg, h, r, Event(id, Begin(worker, r.key, r.rpm), at));
    if State(cfg, g).calls[id].phase.AtPrimary? {
      g := LoseAnswer(cfg, g, r, worker, id, at);
      g := RecordFailure(cfg, g, r, worker, id, at);
    }
  }

  lemma FallBackOnce(cfg: Config, h: History, r: Regime, worker: nat, id: nat, at: real) returns (g: History)
    requires Obeys(cfg, h, r) && r.rpm >= 1 && worker < |State(cfg, h).workers|
    requires State(cfg, h).now <= at && r.from <= at && id !in State(cfg, h).calls
    ensures Obeys(cfg, g, r) && Size(g) == Size(h)
    ensures var f, k := State(cfg, h), State(cfg, g);
            && k.now == at && k.calls.Keys == f.calls.Keys + {id} && |k.workers| == |f.workers|
            && var (bucket, verdict) := Decide(LocalBucket(f, r.key, worker), r.rpm, at);
               && LocalBucket(k, r.key, worker) == Some(bucket)
               && (forall w | 0 <= w < |f.workers| && w != worker :: k.workers[w] == f.workers[w])
               && Passed(cfg, g, r.key, r.from)
                  == Passed(cfg, h, r.key, r.from) + (if verdict.Allowed? then 1 else 0)
  {
    g := ReachFallback(cfg, h, r, worker, id, at);
    assert LocalBucket(State(cfg, g), r.key, worker) == LocalBucket(State(cfg, h), r.key, worker);
    g := Append(cfg, g, r, Event(id, RunFallback, at));
  }

  /** A full fallback bucket lets through `n` checks, up to the limit. */
  lemma {:induction false} FallBackMany(cfg: Config, h: History, r: Regime, worker: nat, next: nat, at: real, n: nat)
    returns (g: History)
    requires Obeys(cfg, h, r) && r.rpm >= 1 && n <= r.rpm && worker < |State(cfg, h).workers|
    requires State(cfg, h).now <= at && r.from <= at && LocalBucket(State(cfg, h), r.key, worker).None?
    requires forall id | id in State(cfg, h).calls :: id < next
    ensures Obeys(cfg, g, r) && Size(g) == Size(h)
    ensures Passed(cfg, g, r.key, r.from) == Passed(cfg, h, r.key, r.from) + n
    ensures var f, k := State(cfg, h), State(cfg, g);
            && f.now <= k.now <= at && |k.workers| == |f.workers|
            && LocalBucket(k, r.key, worker) == (if n == 0 then None else Some(Bucket((r.rpm - n) as real, at)))
            && (forall w | 0 <= w < |f.workers| && w != worker :: k.workers[w] == f.workers[w])
            && forall id | id in k.calls :: id < next + n
    decreases n
  {
    g := h;
    if n > 0 {
      g := FallBackMany(cfg, h, r, worker, next, at, n - 1);
      assert Refill(r.rpm, 0.0) == 0.0;
      assert Decide(LocalBucket(State(cfg, g), r.key, worker), r.rpm, at)
          == (Bucket((r.rpm - n) as real, at), Allowed);
      g := FallBackOnce(cfg, g, r, worker, next + n - 1, at);
    }
  }

  /** The first `n` processes let their full fallback buckets through. */
  lemma {:induction false} EveryoneFallsBack(cfg: Config, h: History, r: Regime, at: real, n: nat)
    returns (g: History, next: nat)
    requires Obeys(cfg, h, r) && r.rpm >= 1 && n <= |State(cfg, h).workers|
    requires State(cfg, h).now <= at && r.from <= at
    requires forall i | 0 <= i < |State(cfg, h).workers| :: State(cfg, h).workers[i].buckets == map[]
    requires forall id | id in State(cfg, h).calls :: id < r.rpm + 1
    ensures Obeys(cfg, g, r) && Size(g) == Size(h)
    ensures Passed(cfg, g, r.key, r.from) == Passed(cfg, h, r.key, r.from) + n * r.rpm
    ensures var f, k := State(cfg, h), State(cfg, g);
            && f.now <= k.now <= at && |k.workers| == |f.workers|
            && (forall w | n <= w < |f.workers| :: k.workers[w].buckets == map[])
            && forall id | id in k.calls :: id < next
    decreases n
  {
    g, next := h, r.rpm + 1;
    if n > 0 {
      g, next := EveryoneFallsBack(cfg, h, r, at, n - 1);
      g := FallBackMany(cfg, g, r, n - 1, next, at, r.rpm);
      next := next + r.rpm;
      assert n * r.rpm == (n - 1) * r.rpm + r.rpm;
    }
  }

  lemma SharesSplit(n: nat, x: real, y: real)
    ensures Shares(n, x + y) == Shares(n, x) + Shares(n, y)
  {
  }

  lemma SharesGrow(n: nat, x: real, y: real)
    requires x <= y
    ensures Shares(n, x) <= Shares(n, y)
  {
    SharesSplit(n, x, y - x);
    assert Shares(n, y - x) >= 0.0;
  }

  lemma WholeSharesCount(n: nat, x: int)
    ensures Shares(n, x as real) == (n * x) as real
  {
  }

  lemma MoreThanShares(n: nat, rpm: nat, refill: real)
    requires Shares(n + 1, refill) > n as real
    ensures (rpm + 1 + n * rpm) as real > Shares(n + 1, rpm as real + (1.0 - refill))
  {
    SharesSplit(n + 1, (rpm + 1) as real, -refill);
    SharesSplit(n + 1, refill, -refill);
    WholeSharesCount(n + 1, rpm + 1);
    assert Shares(n + 1, 0.0) == 0.0;
    assert (n + 1) * (rpm + 1) == n * rpm + n + rpm + 1;
  }

  lemma LatenessIsTooLong(n: nat, rpm: nat, lag: real)
    requires rpm >= 1 && lag > 0.0 && Shares(n + 1, Refill(rpm, lag)) > n as real
    ensures (rpm + 1 + n * rpm) as real > Shares(n + 1, Share(rpm, TokenTime(rpm) - Lateness(rpm, lag)))
  {
    var refill := Refill(rpm, Lateness(rpm, lag));
    TokenTimeRefills(rpm, lag);
    LatenessIsShort(rpm, lag);
    assert refill == Refill(rpm, lag) || refill == 1.0;
    WholeSharesCount(n + 1, 1);
    MoreThanShares(n, rpm, refill);
  }

  /** A late burst at Redis and full fallback buckets together. */
  lemma LateFleet(cfg: Config, r: Regime, n: nat, later: real) returns (h: History)
    requires r.rpm >= 1 && n >= 1 && 0.0 <= r.from <= r.lag && r.setBack == 0.0
    requires r.from <= later <= 60.0 && Refill(r.rpm, later) == 1.0
    ensures Obeys(cfg, h, r) && Size(h) == n && State(cfg, h).now == later
    ensures Passed(cfg, h, r.key, r.from) == r.rpm + 1 + n * r.rpm
  {
    h := LateBurst(cfg, r, n, later);
    var next;
    h, next := EveryoneFallsBack(cfg, h, r, later, n);
  }

  /** A sum of whole numbers below N + 1 shares stays below them all if the extra share is small enough. */
  lemma WholeShares(n: nat, share: real, extra: real, shared: int, local: int)
    requires 0.0 <= extra < 1.0 && Shares(n + 1, extra) <= n as real
    requires shared as real <= share + extra && local == share.Floor
    ensures (shared + n * local) as real <= Shares(n + 1, share)
  {
    var rest := share - local as real;
    SharesSplit(n + 1, local as real, rest);
    WholeSharesCount(n + 1, local);
    assert (n + 1) * local == local + n * local;
    if shared <= local {
      SharesGrow(n + 1, 0.0, rest);
    } else {
      SharesGrow(n + 1, 1.0 - extra, rest);
      SharesSplit(n + 1, 1.0 - extra, extra);
      WholeSharesCount(n + 1, 1);
    }
  }

  lemma {:induction false} FirstBucketsAreWhole(cfg: Config, h: History, key: Key, from: real, n: nat, shared: nat,
                                                local: nat)
    requires Legal(cfg, h) && n <= Size(h)
    requires Paid(cfg, h, key, from, 0) <= shared
    requires forall b: nat | 1 <= b <= Size(h) :: Paid(cfg, h, key, from, b) <= local
    ensures PaidByFirst(cfg, h, key, from, n + 1) <= shared + n * local
  {
    if n > 0 {
      FirstBucketsAreWhole(cfg, h, key, from, n - 1, shared, local);
      assert n * local == (n - 1) * local + local;
    }
  }

  lemma SmallLagIsShort(n: nat, rpm: nat, lag: real)
    requires rpm >= 1 && lag >= 0.0 && Shares(n + 1, Refill(rpm, lag)) <= n as real
    ensures 0.0 <= Refill(rpm, lag) < 1.0 && lag <= 60.0
  {
    var refill := Refill(rpm, lag);
    WholeSharesCount(n + 1, 1);
    assert Refill(rpm, 0.0) == 0.0 && Refill(rpm, 60.0) == rpm as real;
    RefillGrows(rpm, 0.0, lag);
    assert refill < 1.0 by {
      if refill >= 1.0 { SharesGrow(n + 1, 1.0, refill); }
    }
    if lag > 60.0 { RefillGrows(rpm, 60.0, lag); }
  }

  lemma SharedIsNearlyWhole(cfg: Config, h: History, key: Key, rpm: nat, from: real, lag: real)
    requires Obeys(cfg, h, Regime(key, rpm, from, lag, 0.0)) && rpm >= 1
    requires 0.0 <= lag <= 60.0 && from <= State(cfg, h).now
    ensures Paid(cfg, h, key, from, 0) as real <= Share(rpm, State(cfg, h).now - from) + Refill(rpm, lag)
  {
    OrderedFleetBound(cfg, h, key, rpm, from, lag);
  }

  /** Passes come in whole numbers, so every pass but the shared bucket's keeps to a whole share. */
  lemma PassesInWholeShares(cfg: Config, h: History, key: Key, rpm: nat, from: real, local: nat)
    requires Legal(cfg, h) && OneLimit(h, key, rpm) && rpm >= 1 && from <= State(cfg, h).now
    requires local == Share(rpm, State(cfg, h).now - from).Floor
    ensures Passed(cfg, h, key, from) <= Paid(cfg, h, key, from, 0) + Size(h) * local
  {
    forall b: nat | 1 <= b <= Size(h)
      ensures Paid(cfg, h, key, from, b) <= local
    {
      LocalBucketShare(cfg, h, key, rpm, from, b - 1);
    }
    EveryPassIsPaid(cfg, h, key, from);
    FirstBucketsAreWhole(cfg, h, key, from, Size(h), Paid(cfg, h, key, from, 0), local);
  }

  /** So a small lag does not show. */
  lemma SmallLagDoesNotShow(cfg: Config, h: History, key: Key, rpm: nat, from: real, lag: real)
    requires Obeys(cfg, h, Regime(key, rpm, from, lag, 0.0)) && rpm >= 1
    requires lag >= 0.0 && from <= State(cfg, h).now && Shares(Size(h) + 1, Refill(rpm, lag)) <= Size(h) as real
    ensures Passed(cfg, h, key, from) as real <= Shares(Size(h) + 1, Share(rpm, State(cfg, h).now - from))
  {
    var n, share, shared := Size(h), Share(rpm, State(cfg, h).now - from), Paid(cfg, h, key, from, 0);
    RefillGrows(rpm, 0.0, State(cfg, h).now - from);
    assert Refill(rpm, 0.0) == 0.0;
    SmallLagIsShort(n, rpm, lag);
    SharedIsNearlyWhole(cfg, h, key, rpm, from, lag);
    PassesInWholeShares(cfg, h, key, rpm, from, share.Floor);
    WholeShares(n, share, Refill(rpm, lag), shared, share.Floor);
  }

  lemma NoLagIsSmall(n: nat, rpm: nat)
    ensures Shares(n + 1, Refill(rpm, 0.0)) <= n as real
  {
    assert Refill(rpm, 0.0) == 0.0 && Shares(n + 1, 0.0) == 0.0;
  }

  /** N processes keep to (N + 1) * (rpm + rpm * T / 60) in every window of every run whose stamps arrive in
      order and at most `lag` late, if and only if the lag refills no more than N / (N + 1) of a token. */
  lemma FleetSharesHoldIffLagIsSmall(cfg: Config, key: Key, rpm: nat, n: nat, lag: real)
    requires rpm >= 1 && n >= 1 && lag >= 0.0
    ensures Shares(n + 1, Refill(rpm, lag)) <= n as real <==>
            forall h: History, from: real
              | Obeys(cfg, h, Regime(key, rpm, from, lag, 0.0)) && Size(h) == n && from <= State(cfg, h).now ::
              Passed(cfg, h, key, from) as real <= Shares(n + 1, Share(rpm, State(cfg, h).now - from))
  {
    if Shares(n + 1, Refill(rpm, lag)) <= n as real {
      forall h: History, from: real
        | Obeys(cfg, h, Regime(key, rpm, from, lag, 0.0)) && Size(h) == n && from <= State(cfg, h).now
        ensures Passed(cfg, h, key, from) as real <= Shares(n + 1, Share(rpm, State(cfg, h).now - from))
      {
        SmallLagDoesNotShow(cfg, h, key, rpm, from, lag);
      }
    } else {
      NoLagIsSmall(n, rpm);
      var r := Regime(key, rpm, Lateness(rpm, lag), lag, 0.0);
      LatenessIsShort(rpm, lag);
      TokenTimeRefills(rpm, lag);
      LatenessIsTooLong(n, rpm, lag);
      var h := LateFleet(cfg, r, n, TokenTime(rpm));
      assert !(Passed(cfg, h, key, r.from) as real <= Shares(n + 1, Share(rpm, State(cfg, h).now - r.from)));
    }
  }
}
