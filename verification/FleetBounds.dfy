/** How many checks of one caller a fleet lets pass in a window of time, a pass counted at the moment it is
    decided.  What the shared bucket gives away to stamps that run late or out of order is counted in
    seconds of refill. */
module FleetBounds {
  import opened Options
  import opened CircuitBreakers
  import opened TokenBuckets
  import opened RedisBuckets
  import opened RedisCommands
  import opened LimiterFleets

  /** The fallback bucket that a caller has at one worker. */
  ghost function LocalBucket(f: Fleet, key: Key, worker: nat): Option<Bucket>
    requires worker < |f.workers|
  {
    Lookup(f.workers[worker].buckets, key)
  }

  /** No bucket is in debt or ahead of the clock, and a hash is kept for `TTL` from its last script. */
  ghost predicate Sound(f: Fleet, key: Key) {
    && (forall i | 0 <= i < |f.workers| && LocalBucket(f, key, i).Some? ::
          LocalBucket(f, key, i).value.tokens >= 0.0 && LocalBucket(f, key, i).value.lastRefill <= f.now)
    && (key in f.redis ==>
          && f.redis[key].tokens >= 0.0
          && f.redis[key].ts + TTL <= f.redis[key].expireAt <= f.now + TTL)
    && (forall id | id in f.calls && f.calls[id].phase.AtRedis? :: f.calls[id].phase.stamp <= f.now)
  }

  ghost predicate Limited(f: Fleet, key: Key, rpm: nat) {
    forall id | id in f.calls && f.calls[id].key == key :: f.calls[id].rpm == rpm
  }

  /** Since `from` a bucket has let through `passed` checks and still holds what the window leaves. */
  ghost predicate WithinWindow(bucket: Option<Bucket>, rpm: nat, now: real, from: real, passed: nat) {
    if now < from then passed == 0
    else Level(bucket, rpm, now) + passed as real <= rpm as real + Refill(rpm, now - from)
  }

  lemma WaitingKeepsWindow(bucket: Option<Bucket>, rpm: nat, now: real, later: real, from: real, passed: nat)
    requires now <= later && WithinWindow(bucket, rpm, now, from, passed)
    ensures WithinWindow(bucket, rpm, later, from, passed)
  {
    if now >= from {
      RefillGrows(rpm, 0.0, later - now);
      RefillAdds(rpm, now - from, later - now);
      if bucket.Some? { RefillAdds(rpm, now - bucket.value.lastRefill, later - now); }
    } else if later >= from {
      RefillGrows(rpm, 0.0, later - from);
    }
  }

  lemma DecidingKeepsWindow(bucket: Option<Bucket>, rpm: nat, now: real, from: real, passed: nat)
    requires rpm >= 1 && WithinWindow(bucket, rpm, now, from, passed)
    requires bucket.Some? ==> bucket.value.tokens >= 0.0 && bucket.value.lastRefill <= now
    ensures var (after, v) := Decide(bucket, rpm, now);
            && after.tokens >= 0.0 && after.lastRefill == now
            && WithinWindow(Some(after), rpm, now, from, if v.Allowed? && now >= from then passed + 1 else passed)
  {
    if bucket.Some? { RefillGrows(rpm, 0.0, now - bucket.value.lastRefill); }
  }

  /** By how much a script run sets the bucket's clock back, in the seconds of refill that this gives away:
      a stamp before the stored one is refilled for again, and a hash that is dropped less than a minute
      after its stamp is replaced by a full one. */
  function Slip(entry: Option<Entry>, stamp: real, now: real): (seconds: real)
    ensures seconds >= 0.0
  {
    match entry
    case None => 0.0
    case Some(e) =>
      var ahead := if Live(entry, now).Some? then e.ts - stamp else e.ts + 60.0 - stamp;
      if ahead > 0.0 then ahead else 0.0
  }

  /** A script of the caller's runs in this step, whether or not its answer arrives. */
  ghost predicate RunsScript(f: Fleet, e: Event, key: Key)
    requires Enabled(f, e)
  {
    e.move.RunPrimary? && !e.move.network.NeverRan? && f.calls[e.id].key == key
  }

  ghost function SlipOf(f: Fleet, e: Event, key: Key, from: real): (seconds: real)
    requires Enabled(f, e)
    ensures seconds >= 0.0
  {
    if RunsScript(f, e, key) && e.at >= from then Slip(Lookup(f.redis, key), f.calls[e.id].phase.stamp, e.at) else 0.0
  }

  /** The seconds given away on the caller's hash since `from`. */
  ghost function Slips(cfg: Config, h: History, key: Key, from: real): (seconds: real)
    requires Legal(cfg, h)
    ensures seconds >= 0.0
  {
    match h
    case Start(_) => 0.0
    case Then(before, e) => Slips(cfg, before, key, from) + SlipOf(State(cfg, before), e, key, from)
  }

  /** The caller's scripts that ran since `from` ran at most `lag` after they were stamped. */
  ghost predicate Delayed(cfg: Config, h: History, key: Key, from: real, lag: real)
    requires Legal(cfg, h)
  {
    h.Then? ==>
      && Delayed(cfg, h.before, key, from, lag)
      && var f, e := State(cfg, h.before), h.event;
         RunsScript(f, e, key) && e.at >= from ==> e.at <= f.calls[e.id].phase.stamp + lag
  }

  /** Every script of the caller's finds a stamp at most `setBack` later than its own. */
  ghost predicate SetBackWithin(cfg: Config, h: History, key: Key, setBack: real)
    requires Legal(cfg, h)
  {
    h.Then? ==>
      && SetBackWithin(cfg, h.before, key, setBack)
      && var f, e := State(cfg, h.before), h.event;
         RunsScript(f, e, key) && key in f.redis ==> f.redis[key].ts <= f.calls[e.id].phase.stamp + setBack
  }

  /** The caller's stamps arrive in order. */
  ghost predicate InOrder(cfg: Config, h: History, key: Key)
    requires Legal(cfg, h)
  {
    SetBackWithin(cfg, h, key, 0.0)
  }

  /** The hash has let through `passed` checks stamped at or after `origin`, and holds what is left of the
      window from there to its stamp, extended by the seconds given away. */
  ghost predicate SharedWithin(entry: Option<Entry>, rpm: nat, origin: real, slips: real, passed: nat) {
    passed > 0 ==>
      && entry.Some?
      && entry.value.tokens + passed as real <= rpm as real + Refill(rpm, entry.value.ts - origin + slips)
  }

  /** What a script run finds, in terms of the stamp it leaves and the seconds it gives away. */
  lemma ScriptLevel(e: Entry, rpm: nat, stamp: real, now: real)
    requires rpm >= 1 && e.tokens >= 0.0
    ensures var level := Level(AsBucket(Some(e), stamp, now), rpm, stamp);
            && 0.0 <= level <= rpm as real
            && level <= e.tokens + Refill(rpm, stamp - e.ts + Slip(Some(e), stamp, now))
  {
    var slip := Slip(Some(e), stamp, now);
    if Live(Some(e), now).Some? {
      assert stamp - Min(e.ts, stamp) == stamp - e.ts + slip;
      RefillGrows(rpm, 0.0, stamp - Min(e.ts, stamp));
    } else {
      RefillGrows(rpm, 60.0, stamp - e.ts + slip);
      assert Refill(rpm, 60.0) == rpm as real;
    }
  }

  /** One script run; if its answer got lost, no check passed for the token it may have taken. */
  lemma ScriptKeepsWindow(entry: Option<Entry>, rpm: nat, stamp: real, now: real, origin: real, slips: real,
                          passed: nat)
    requires rpm >= 1 && slips >= 0.0 && SharedWithin(entry, rpm, origin, slips, passed)
    requires entry.Some? ==> entry.value.tokens >= 0.0
    ensures var ((after, v), more) := (Evaluate(entry, rpm, stamp, now, TTL), slips + Slip(entry, stamp, now));
            && after.tokens >= 0.0 && after.ts == stamp && after.expireAt == now + TTL
            && SharedWithin(Some(after), rpm, origin, more, passed)
            && (v.Allowed? && stamp >= origin ==> SharedWithin(Some(after), rpm, origin, more, passed + 1))
  {
    var more := slips + Slip(entry, stamp, now);
    if entry.Some? {
      var e := entry.value;
      ScriptLevel(e, rpm, stamp, now);
      RefillAdds(rpm, e.ts - origin + slips, stamp - e.ts + Slip(entry, stamp, now));
      assert e.ts - origin + slips + (stamp - e.ts + Slip(entry, stamp, now)) == stamp - origin + more;
    }
    if stamp >= origin {
      RefillGrows(rpm, 0.0, stamp - origin + more);
    }
  }

  // ---------------------------------------------------------------- steps, seen from the buckets

  lemma LimitStep(cfg: Config, f: Fleet, e: Event, key: Key, rpm: nat)
    requires WellFormed(f) && Enabled(f, e) && Limited(f, key, rpm)
    requires e.move.Begin? && e.move.key == key ==> e.move.rpm == rpm
    ensures var g := Step(cfg, f, e); Limited(g, key, rpm) && g.now == e.at && |g.workers| == |f.workers|
  {
  }

  /** What one step does to one worker's bucket: nothing, or one decision at the caller's limit. */
  lemma LocalStep(cfg: Config, f: Fleet, e: Event, key: Key, rpm: nat, worker: nat)
    requires WellFormed(f) && Enabled(f, e) && worker < |f.workers| && Limited(f, key, rpm)
    ensures |Step(cfg, f, e).workers| == |f.workers|
    ensures var mine, next, d := LocalBucket(f, key, worker), LocalBucket(Step(cfg, f, e), key, worker), Decides(f, e);
            if d.By? && d.key == key && d.bucket == worker + 1
            then
              && rpm >= 1
              && next == Some(Decide(mine, rpm, e.at).0) && d.verdict == Decide(mine, rpm, e.at).1
            else next == mine
  {
  }

  lemma LocalWindowStep(cfg: Config, f: Fleet, e: Event, key: Key, rpm: nat, from: real, worker: nat, passed: nat)
    requires WellFormed(f) && Enabled(f, e) && worker < |f.workers|
    requires Sound(f, key) && Limited(f, key, rpm)
    requires WithinWindow(LocalBucket(f, key, worker), rpm, f.now, from, passed)
    ensures |Step(cfg, f, e).workers| == |f.workers|
    ensures var next := LocalBucket(Step(cfg, f, e), key, worker);
            && (next.Some? ==> next.value.tokens >= 0.0 && next.value.lastRefill <= e.at)
            && WithinWindow(next, rpm, e.at, from,
                            if Pays(f, e, key, from) && Decides(f, e).bucket == worker + 1 then passed + 1 else passed)
  {
    var mine, d := LocalBucket(f, key, worker), Decides(f, e);
    WaitingKeepsWindow(mine, rpm, f.now, e.at, from, passed);
    LocalStep(cfg, f, e, key, rpm, worker);
    if d.By? && d.key == key && d.bucket == worker + 1 {
      DecidingKeepsWindow(mine, rpm, e.at, from, passed);
    }
  }

  /** What one step does to the hash: nothing, or one script run with its stamp. */
  lemma SharedStep(cfg: Config, f: Fleet, e: Event, key: Key, rpm: nat)
    requires WellFormed(f) && Enabled(f, e) && Limited(f, key, rpm)
    ensures var (mine, next, d) := (Lookup(f.redis, key), Lookup(Step(cfg, f, e).redis, key), Decides(f, e));
            var paid := d.By? && d.key == key && d.bucket == 0;
            if RunsScript(f, e, key) then
              var stamp := f.calls[e.id].phase.stamp;
              && rpm >= 1
              && next == Some(Evaluate(mine, rpm, stamp, e.at, TTL).0)
              && (paid ==> d.verdict == Evaluate(mine, rpm, stamp, e.at, TTL).1)
            else next == mine && !paid
  {
  }

  lemma SharedSoundStep(cfg: Config, f: Fleet, e: Event, key: Key, rpm: nat)
    requires WellFormed(f) && Enabled(f, e) && Sound(f, key) && Limited(f, key, rpm)
    ensures var next := Lookup(Step(cfg, f, e).redis, key);
            next.Some? ==>
              next.value.tokens >= 0.0 && next.value.ts + TTL <= next.value.expireAt <= e.at + TTL
  {
    SharedStep(cfg, f, e, key, rpm);
    if RunsScript(f, e, key) {
      ScriptKeepsWindow(Lookup(f.redis, key), rpm, f.calls[e.id].phase.stamp, e.at, 0.0, 0.0, 0);
    }
  }

  lemma SharedWindowStep(cfg: Config, f: Fleet, e: Event, key: Key, rpm: nat, from: real, lag: real, slips: real,
                         passed: nat)
    requires WellFormed(f) && Enabled(f, e) && Sound(f, key) && Limited(f, key, rpm) && slips >= 0.0
    requires f.now < from ==> passed == 0
    requires RunsScript(f, e, key) && e.at >= from ==> e.at <= f.calls[e.id].phase.stamp + lag
    requires SharedWithin(Lookup(f.redis, key), rpm, from - lag, slips, passed)
    ensures SharedWithin(Lookup(Step(cfg, f, e).redis, key), rpm, from - lag, slips + SlipOf(f, e, key, from),
                         if Pays(f, e, key, from) && Decides(f, e).bucket == 0 then passed + 1 else passed)
  {
    SharedStep(cfg, f, e, key, rpm);
    if RunsScript(f, e, key) {
      ScriptKeepsWindow(Lookup(f.redis, key), rpm, f.calls[e.id].phase.stamp, e.at, from - lag, slips, passed);
    }
  }

  lemma SoundStep(cfg: Config, f: Fleet, e: Event, key: Key, rpm: nat)
    requires WellFormed(f) && Enabled(f, e) && Limited(f, key, rpm) && Sound(f, key)
    requires e.move.Begin? && e.move.key == key ==> e.move.rpm == rpm
    ensures Sound(Step(cfg, f, e), key)
  {
    var g := Step(cfg, f, e);
    LimitStep(cfg, f, e, key, rpm);
    SharedSoundStep(cfg, f, e, key, rpm);
    forall i | 0 <= i < |g.workers| && LocalBucket(g, key, i).Some?
      ensures LocalBucket(g, key, i).value.tokens >= 0.0 && LocalBucket(g, key, i).value.lastRefill <= g.now
    {
      LocalWindowStep(cfg, f, e, key, rpm, e.at + 1.0, i, 0);
    }
  }

  // ---------------------------------------------------------------- every run

  lemma {:induction false} RunsAreSound(cfg: Config, h: History, key: Key, rpm: nat)
    requires Legal(cfg, h) && OneLimit(h, key, rpm)
    ensures Sound(State(cfg, h), key) && Limited(State(cfg, h), key, rpm)
  {
    if h.Then? {
      RunsAreSound(cfg, h.before, key, rpm);
      LimitStep(cfg, State(cfg, h.before), h.event, key, rpm);
      SoundStep(cfg, State(cfg, h.before), h.event, key, rpm);
    }
  }

  lemma {:induction false} NothingPaidYet(cfg: Config, h: History, key: Key, from: real, bucket: nat)
    requires Legal(cfg, h) && State(cfg, h).now < from
    ensures Paid(cfg, h, key, from, bucket) == 0
  {
    if h.Then? {
      assert State(cfg, h).now == h.event.at >= State(cfg, h.before).now;
      NothingPaidYet(cfg, h.before, key, from, bucket);
    }
  }

  /** The shared bucket stays within its window, up to the lag and the seconds that were given away. */
  lemma {:induction false} SharedBucketIsBounded(cfg: Config, h: History, key: Key, rpm: nat, from: real, lag: real)
    requires Legal(cfg, h) && OneLimit(h, key, rpm) && rpm >= 1 && Delayed(cfg, h, key, from, lag)
    ensures SharedWithin(Lookup(State(cfg, h).redis, key), rpm, from - lag, Slips(cfg, h, key, from),
                         Paid(cfg, h, key, from, 0))
  {
    if h.Then? {
      var f, e := State(cfg, h.before), h.event;
      var slips, passed := Slips(cfg, h.before, key, from), Paid(cfg, h.before, key, from, 0);
      SharedBucketIsBounded(cfg, h.before, key, rpm, from, lag);
      RunsAreSound(cfg, h.before, key, rpm);
      if f.now < from { NothingPaidYet(cfg, h.before, key, from, 0); }
      SharedWindowStep(cfg, f, e, key, rpm, from, lag, slips, passed);
      assert State(cfg, h) == Step(cfg, f, e);
      assert Slips(cfg, h, key, from) == slips + SlipOf(f, e, key, from);
    }
  }

  /** Every fallback bucket stays within its window. */
  lemma {:induction false} LocalBucketIsBounded(cfg: Config, h: History, key: Key, rpm: nat, from: real, worker: nat)
    requires Legal(cfg, h) && OneLimit(h, key, rpm) && rpm >= 1 && worker < Size(h)
    ensures |State(cfg, h).workers| == Size(h)
    ensures var f := State(cfg, h);
            WithinWindow(LocalBucket(f, key, worker), rpm, f.now, from, Paid(cfg, h, key, from, worker + 1))
  {
    SizeIsWorkers(cfg, h);
    if h.Start? {
      if h.fleet.now >= from { RefillGrows(rpm, 0.0, h.fleet.now - from); }
    } else {
      var f, e, passed := State(cfg, h.before), h.event, Paid(cfg, h.before, key, from, worker + 1);
      LocalBucketIsBounded(cfg, h.before, key, rpm, from, worker);
      RunsAreSound(cfg, h.before, key, rpm);
      assert State(cfg, h) == Step(cfg, f, e);
      LocalWindowStep(cfg, f, e, key, rpm, from, worker, passed);
    }
  }

  /** What one bucket admits at most in a window of the given length. */
  function Share(rpm: nat, seconds: real): real {
    rpm as real + Refill(rpm, seconds)
  }

  function Shares(n: nat, share: real): real {
    n as real * share
  }

  lemma OneMoreShare(n: nat, share: real)
    ensures Shares(n + 1, share) == Shares(n, share) + share
  {
  }

  lemma LevelIsNotNegative(bucket: Option<Bucket>, rpm: nat, now: real)
    requires bucket.Some? ==> bucket.value.tokens >= 0.0 && bucket.value.lastRefill <= now
    ensures Level(bucket, rpm, now) >= 0.0
  {
    if bucket.Some? { RefillGrows(rpm, 0.0, now - bucket.value.lastRefill); }
  }

  lemma HashShare(entry: Option<Entry>, rpm: nat, now: real, from: real, lag: real, slips: real, passed: nat)
    requires SharedWithin(entry, rpm, from - lag, slips, passed) && from <= now && slips >= 0.0 && lag >= 0.0
    requires entry.Some? ==> entry.value.tokens >= 0.0 && entry.value.ts <= now
    ensures passed as real <= Share(rpm, now - from) + Refill(rpm, lag + slips)
  {
    RefillAdds(rpm, now - from, lag + slips);
    RefillGrows(rpm, 0.0, now - from + (lag + slips));
    if entry.Some? { RefillGrows(rpm, entry.value.ts - (from - lag) + slips, now - from + (lag + slips)); }
  }

  lemma SharedBucketShare(cfg: Config, h: History, key: Key, rpm: nat, from: real, lag: real)
    requires Legal(cfg, h) && OneLimit(h, key, rpm) && rpm >= 1
    requires Delayed(cfg, h, key, from, lag) && lag >= 0.0 && from <= State(cfg, h).now
    ensures Paid(cfg, h, key, from, 0) as real
            <= Share(rpm, State(cfg, h).now - from) + Refill(rpm, lag + Slips(cfg, h, key, from))
  {
    var f := State(cfg, h);
    SharedBucketIsBounded(cfg, h, key, rpm, from, lag);
    RunsAreSound(cfg, h, key, rpm);
    HashShare(Lookup(f.redis, key), rpm, f.now, from, lag, Slips(cfg, h, key, from), Paid(cfg, h, key, from, 0));
  }

  lemma LocalBucketShare(cfg: Config, h: History, key: Key, rpm: nat, from: real, worker: nat)
    requires Legal(cfg, h) && OneLimit(h, key, rpm) && rpm >= 1 && worker < Size(h)
    requires from <= State(cfg, h).now
    ensures Paid(cfg, h, key, from, worker + 1) as real <= Share(rpm, State(cfg, h).now - from)
  {
    LocalBucketIsBounded(cfg, h, key, rpm, from, worker);
    RunsAreSound(cfg, h, key, rpm);
    LevelIsNotNegative(LocalBucket(State(cfg, h), key, worker), rpm, State(cfg, h).now);
  }

  /** What every single bucket let pass in the window. */
  lemma EveryBucketIsBounded(cfg: Config, h: History, key: Key, rpm: nat, from: real, lag: real, bucket: nat)
    requires Legal(cfg, h) && OneLimit(h, key, rpm) && rpm >= 1 && bucket <= Size(h)
    requires Delayed(cfg, h, key, from, lag) && lag >= 0.0 && from <= State(cfg, h).now
    ensures Paid(cfg, h, key, from, bucket) as real
            <= Share(rpm, State(cfg, h).now - from)
               + if bucket == 0 then Refill(rpm, lag + Slips(cfg, h, key, from)) else 0.0
  {
    if bucket == 0 {
      SharedBucketShare(cfg, h, key, rpm, from, lag);
    } else {
      LocalBucketShare(cfg, h, key, rpm, from, bucket - 1);
    }
  }

  lemma {:induction false} FirstBucketsAreBounded(cfg: Config, h: History, key: Key, from: real, n: nat, share: real,
                                                  extra: real)
    requires Legal(cfg, h) && n <= Size(h) + 1 && extra >= 0.0
    requires forall b: nat | b <= Size(h) ::
               Paid(cfg, h, key, from, b) as real <= share + if b == 0 then extra else 0.0
    ensures PaidByFirst(cfg, h, key, from, n) as real <= Shares(n, share) + extra
  {
    if n > 0 {
      FirstBucketsAreBounded(cfg, h, key, from, n - 1, share, extra);
      OneMoreShare(n - 1, share);
      assert Paid(cfg, h, key, from, n - 1) as real <= share + if n == 1 then extra else 0.0;
    }
  }

  /** N processes sharing one Redis let at most (N + 1) * (rpm + rpm * T / 60) checks of a caller pass
      in any window of T seconds, and the refill of the time that scripts ran behind their stamps and of the
      seconds that were given away to stamps out of order, across any pattern of outages, lost answers,
      cancellations and breaker states. */
  lemma FleetBound(cfg: Config, h: History, key: Key, rpm: nat, from: real, lag: real)
    requires Legal(cfg, h) && OneLimit(h, key, rpm) && rpm >= 1
    requires Delayed(cfg, h, key, from, lag) && lag >= 0.0 && from <= State(cfg, h).now
    ensures Passed(cfg, h, key, from) as real
            <= Shares(Size(h) + 1, Share(rpm, State(cfg, h).now - from)) + Refill(rpm, lag + Slips(cfg, h, key, from))
  {
    var share, extra := Share(rpm, State(cfg, h).now - from), Refill(rpm, lag + Slips(cfg, h, key, from));
    EveryPassIsPaid(cfg, h, key, from);
    RefillGrows(rpm, 0.0, lag + Slips(cfg, h, key, from));
    forall b: nat | b <= Size(h)
      ensures Paid(cfg, h, key, from, b) as real <= share + if b == 0 then extra else 0.0
    {
      EveryBucketIsBounded(cfg, h, key, rpm, from, lag, b);
    }
    FirstBucketsAreBounded(cfg, h, key, from, Size(h) + 1, share, extra);
  }

  // ---------------------------------------------------------------- stamps in order

  /** When stamps arrive in order, each within a minute, no second is given away. */
  lemma {:induction false} NothingSlips(cfg: Config, h: History, key: Key, rpm: nat, from: real, lag: real)
    requires Legal(cfg, h) && OneLimit(h, key, rpm) && InOrder(cfg, h, key)
    requires Delayed(cfg, h, key, from, lag) && lag <= 60.0
    ensures Slips(cfg, h, key, from) == 0.0
  {
    if h.Then? {
      NothingSlips(cfg, h.before, key, rpm, from, lag);
      RunsAreSound(cfg, h.before, key, rpm);
    }
  }

  /** Then the N + 1 buckets and the refill of the lag are all there is. */
  lemma OrderedFleetBound(cfg: Config, h: History, key: Key, rpm: nat, from: real, lag: real)
    requires Legal(cfg, h) && OneLimit(h, key, rpm) && rpm >= 1 && InOrder(cfg, h, key)
    requires Delayed(cfg, h, key, from, lag) && 0.0 <= lag <= 60.0 && from <= State(cfg, h).now
    ensures Passed(cfg, h, key, from) as real
            <= Shares(Size(h) + 1, Share(rpm, State(cfg, h).now - from)) + Refill(rpm, lag)
    ensures Paid(cfg, h, key, from, 0) as real <= Share(rpm, State(cfg, h).now - from) + Refill(rpm, lag)
  {
    FleetBound(cfg, h, key, rpm, from, lag);
    SharedBucketShare(cfg, h, key, rpm, from, lag);
    NothingSlips(cfg, h, key, rpm, from, lag);
  }

  /** However late they are, stamps in order give away a minute per two minutes at most: only hashes that
      were dropped in between. */
  lemma {:induction false} OrderedSlipsAreFew(cfg: Config, h: History, key: Key, rpm: nat, from: real)
    requires Legal(cfg, h) && OneLimit(h, key, rpm) && InOrder(cfg, h, key)
    ensures var slips, f := Slips(cfg, h, key, from), State(cfg, h);
            slips > 0.0 ==>
              && key in f.redis && from <= f.redis[key].expireAt - TTL <= f.now
              && slips <= 60.0 + (f.redis[key].expireAt - TTL - from) / 2.0
  {
    if h.Then? {
      var f, e := State(cfg, h.before), h.event;
      OrderedSlipsAreFew(cfg, h.before, key, rpm, from);
      RunsAreSound(cfg, h.before, key, rpm);
      assert State(cfg, h) == Step(cfg, f, e);
      SharedStep(cfg, f, e, key, rpm);
      if RunsScript(f, e, key) && key in f.redis {
        assert Slip(Some(f.redis[key]), f.calls[e.id].phase.stamp, e.at) <= 60.0;
      }
    }
  }
}
