/** Trial checks of a half-open breaker in front of Redis.  The composed limiter reports a trial that Redis
    answers or fails, and makes no report on one that is cancelled: that process never asks Redis again. */
module FleetTrials {
  import opened Options
  import opened CircuitBreakers
  import opened TokenBuckets
  import opened RedisBuckets
  import opened RedisCommands
  import opened LimiterFleets
  import opened FleetBounds
  import opened LateStamps

  /** Does a check in this phase still have a report to make? */
  predicate Reports(p: Phase) {
    p.AtPrimary? || p.AtRedis? || p.Succeeded? || p.Failed?
  }

  /** The check will report to the process's breaker, under its live generation. */
  predicate HoldsTrial(f: Fleet, worker: nat, id: nat)
    requires worker < |f.workers|
  {
    && id in f.calls && f.calls[id].worker == worker && Reports(f.calls[id].phase)
    && f.calls[id].phase.ticket == f.workers[worker].breaker.generation
  }

  /** No ticket is newer than the breaker; no check holds an open breaker's generation, and one at most holds
      a half-open one's, only while a trial is in flight. */
  ghost predicate TrialsAgree(f: Fleet, worker: nat)
    requires worker < |f.workers|
  {
    var b := f.workers[worker].breaker;
    && (forall id | id in f.calls && f.calls[id].worker == worker && Reports(f.calls[id].phase) ::
          f.calls[id].phase.ticket <= b.generation)
    && (b.state.Open? || (b.state.HalfOpen? && !b.trialInFlight) ==> forall id: nat :: !HoldsTrial(f, worker, id))
    && (b.state.HalfOpen? ==>
          forall i: nat, j: nat :: HoldsTrial(f, worker, i) && HoldsTrial(f, worker, j) ==> i == j)
  }

  /** What one step does to the checks of one process: nothing, except to the check that moves. */
  lemma OthersStay(cfg: Config, f: Fleet, e: Event)
    requires WellFormed(f) && Enabled(f, e)
    ensures var g := Step(cfg, f, e);
            && |g.workers| == |f.workers| && g.calls.Keys == f.calls.Keys + {e.id}
            && forall id | id in f.calls && id != e.id :: g.calls[id] == f.calls[id]
  {
  }

  lemma BeginKeepsTrials(cfg: Config, f: Fleet, e: Event, worker: nat)
    requires WellFormed(f) && Enabled(f, e) && e.move.Begin? && worker < |f.workers| && TrialsAgree(f, worker)
    ensures |Step(cfg, f, e).workers| == |f.workers| && TrialsAgree(Step(cfg, f, e), worker)
  {
    var g := Step(cfg, f, e);
    OthersStay(cfg, f, e);
    forall id: nat | HoldsTrial(g, worker, id) && id != e.id
      ensures g.workers[worker].breaker.generation == f.workers[worker].breaker.generation
      ensures HoldsTrial(f, worker, id)
    {
      assert f.calls[id] == g.calls[id];
    }
  }

  lemma RecordKeepsTrials(cfg: Config, f: Fleet, e: Event, worker: nat)
    requires WellFormed(f) && Enabled(f, e) && e.move.Record? && worker < |f.workers| && TrialsAgree(f, worker)
    ensures |Step(cfg, f, e).workers| == |f.workers| && TrialsAgree(Step(cfg, f, e), worker)
  {
    var g := Step(cfg, f, e);
    OthersStay(cfg, f, e);
    assert !Reports(g.calls[e.id].phase);
    forall id: nat | HoldsTrial(g, worker, id)
      ensures HoldsTrial(f, worker, id)
      ensures g.workers[worker].breaker.generation == f.workers[worker].breaker.generation
    {
      assert f.calls[id] == g.calls[id];
    }
  }

  lemma OtherMoveKeepsTrials(cfg: Config, f: Fleet, e: Event, worker: nat)
    requires WellFormed(f) && Enabled(f, e) && !e.move.Begin? && !e.move.Record?
    requires worker < |f.workers| && TrialsAgree(f, worker)
    ensures |Step(cfg, f, e).workers| == |f.workers| && TrialsAgree(Step(cfg, f, e), worker)
  {
    var g := Step(cfg, f, e);
    OthersStay(cfg, f, e);
    assert g.workers[worker].breaker == f.workers[worker].breaker;
    forall id: nat | HoldsTrial(g, worker, id)
      ensures HoldsTrial(f, worker, id)
    {
      assert id != e.id ==> f.calls[id] == g.calls[id];
    }
  }

  /** Over every run, from any state of the breakers, a half-open breaker has one trial at most. */
  lemma {:induction false} OneTrialAtATime(cfg: Config, h: History, worker: nat)
    requires Legal(cfg, h) && worker < Size(h)
    ensures |State(cfg, h).workers| == Size(h) && TrialsAgree(State(cfg, h), worker)
  {
    SizeIsWorkers(cfg, h);
    if h.Then? {
      OneTrialAtATime(cfg, h.before, worker);
      var f, e := State(cfg, h.before), h.event;
      if e.move.Begin? {
        BeginKeepsTrials(cfg, f, e, worker);
      } else if e.move.Record? {
        RecordKeepsTrials(cfg, f, e, worker);
      } else {
        OtherMoveKeepsTrials(cfg, f, e, worker);
      }
    }
  }

  /** While a trial is in flight, the breaker changes on exactly one kind of step: the trial's own report. */
  lemma OnlyTheTrialDecides(cfg: Config, h: History, worker: nat)
    requires Legal(cfg, h) && h.Then? && worker < Size(h)
    ensures |State(cfg, h.before).workers| == |State(cfg, h).workers| == Size(h)
    ensures var f, b := State(cfg, h.before), State(cfg, h.before).workers[worker].breaker;
            b.state.HalfOpen? && b.trialInFlight ==>
              (State(cfg, h).workers[worker].breaker != b <==>
                 h.event.move.Record? && HoldsTrial(f, worker, h.event.id))
  {
    SizeIsWorkers(cfg, h);
    SizeIsWorkers(cfg, h.before);
  }

  // ---------------------------------------------------------------- a lost trial

  /** The breaker waits for the report of a trial that no check will make. */
  ghost predicate Lost(f: Fleet, worker: nat)
    requires worker < |f.workers|
  {
    var b := f.workers[worker].breaker;
    && b.state.HalfOpen? && b.trialInFlight
    && forall id: nat :: !HoldsTrial(f, worker, id)
  }

  /** Cancelling a trial loses it, wherever it was. */
  lemma CancelledTrialIsLost(cfg: Config, h: History, worker: nat)
    requires Legal(cfg, h) && h.Then? && h.event.move.Cancel? && worker < Size(h)
    ensures |State(cfg, h.before).workers| == |State(cfg, h).workers| == Size(h)
    ensures var f := State(cfg, h.before);
            f.workers[worker].breaker.state.HalfOpen? && HoldsTrial(f, worker, h.event.id) ==>
              Lost(State(cfg, h), worker)
  {
    OneTrialAtATime(cfg, h.before, worker);
    SizeIsWorkers(cfg, h);
    var f, g := State(cfg, h.before), State(cfg, h);
    OthersStay(cfg, f, h.event);
    if f.workers[worker].breaker.state.HalfOpen? && HoldsTrial(f, worker, h.event.id) {
      forall id: nat ensures !HoldsTrial(g, worker, id) {
        if HoldsTrial(g, worker, id) {
          assert g.calls[id] == f.calls[id];
          assert HoldsTrial(f, worker, id);
        }
      }
    }
  }

  lemma LostStep(cfg: Config, f: Fleet, e: Event, worker: nat)
    requires WellFormed(f) && Enabled(f, e) && worker < |f.workers| && Lost(f, worker)
    ensures |Step(cfg, f, e).workers| == |f.workers| && Lost(Step(cfg, f, e), worker)
    ensures Step(cfg, f, e).workers[worker].breaker == f.workers[worker].breaker
    ensures e.move.Begin? && e.move.worker == worker ==> Step(cfg, f, e).calls[e.id].phase.AtFallback?
  {
    var g := Step(cfg, f, e);
    OthersStay(cfg, f, e);
    assert g.workers[worker].breaker == f.workers[worker].breaker by {
      assert !HoldsTrial(f, worker, e.id);
    }
    forall id: nat ensures !HoldsTrial(g, worker, id) {
      assert !HoldsTrial(f, worker, id);
      if id in f.calls && id != e.id { assert g.calls[id] == f.calls[id]; }
    }
  }

  /** The check never reached Redis. */
  predicate Local(p: Phase) {
    p.AtFallback? || p.Done? || p.Gone?
  }

  /** A lost trial is lost for the rest of the run: the breaker of that process never changes again, and none
      of the checks that begin there since gets to Redis. */
  lemma {:induction false} LostForever(cfg: Config, h: History, earlier: History, worker: nat)
    requires Legal(cfg, h) && Extends(h, earlier) && Legal(cfg, earlier) && worker < Size(h)
    requires Size(earlier) == |State(cfg, earlier).workers| == Size(h) && Lost(State(cfg, earlier), worker)
    ensures |State(cfg, h).workers| == Size(h) && Lost(State(cfg, h), worker)
    ensures State(cfg, h).workers[worker].breaker == State(cfg, earlier).workers[worker].breaker
    ensures forall id | id in State(cfg, h).calls && id !in State(cfg, earlier).calls ::
              State(cfg, h).calls[id].worker == worker ==> Local(State(cfg, h).calls[id].phase)
  {
    if h != earlier {
      LostForever(cfg, h.before, earlier, worker);
      var f, e := State(cfg, h.before), h.event;
      LostStep(cfg, f, e, worker);
      OthersStay(cfg, f, e);
      assert State(cfg, h) == Step(cfg, f, e);
    }
  }

  // ---------------------------------------------------------------- a run that loses a trial

  /** A check of an admitting, closed breaker that Redis does not answer. */
  lemma FailOnce(cfg: Config, h: History, r: Regime, id: nat, at: real) returns (g: History)
    requires Obeys(cfg, h, r) && r.rpm >= 1 && |State(cfg, h).workers| == 1
    requires State(cfg, h).workers[0].breaker.state.Closed? && State(cfg, h).now <= at && id !in State(cfg, h).calls
    ensures Obeys(cfg, g, r) && Began(g) == Began(h)
    ensures var f, k, b := State(cfg, h), State(cfg, g), State(cfg, h).workers[0].breaker;
            && |k.workers| == 1 && k.workers[0].breaker == OnFailure(cfg, b, b.generation, at)
            && k.now == at && k.calls.Keys == f.calls.Keys + {id}
  {
    BeginsSomewhere(cfg, State(cfg, h), r, 0, id, at);
    g := Append(cfg, h, r, Event(id, Begin(0, r.key, r.rpm), at));
    assert State(cfg, g).calls[id].phase == AtPrimary(State(cfg, h).workers[0].breaker.generation);
    g := LoseAnswer(cfg, g, r, 0, id, at);
    g := RecordFailure(cfg, g, r, 0, id, at);
  }

  /** `n` failures at the beginning, up to the one that trips the breaker. */
  lemma {:induction false} FailMany(cfg: Config, r: Regime, n: nat) returns (h: History)
    requires cfg.failThreshold >= 1 && r.rpm >= 1 && n <= cfg.failThreshold
    ensures Obeys(cfg, h, r) && Began(h) == Started(1)
    ensures var k := State(cfg, h);
            && |k.workers| == 1 && k.now == 0.0
            && k.workers[0].breaker == (if n < cfg.failThreshold then Breaker(Closed, n, 0.0, false, 0)
                                        else Breaker(Open, n, 0.0, false, 1))
            && forall id | id in k.calls :: id < n
    decreases n
  {
    if n == 0 {
      h := Start(Started(1));
    } else {
      h := FailMany(cfg, r, n - 1);
      h := FailOnce(cfg, h, r, n - 1, 0.0);
    }
  }

  lemma {:induction false} WorkersAre(h: History, n: nat)
    requires |Began(h).workers| == n
    ensures Size(h) == n
  {
    if h.Then? { WorkersAre(h.before, n); }
  }

  /** The breaker trips, its reset time passes, and a trial is admitted. */
  lemma BeginTrial(cfg: Config, r: Regime) returns (h: History)
    requires cfg.failThreshold >= 1 && cfg.resetTimeout >= 0.0 && r.rpm >= 1
    ensures Obeys(cfg, h, r) && Began(h) == Started(1) && |State(cfg, h).workers| == 1
    ensures State(cfg, h).now == cfg.resetTimeout && HoldsTrial(State(cfg, h), 0, cfg.failThreshold)
    ensures State(cfg, h).workers[0].breaker.state.HalfOpen?
  {
    h := FailMany(cfg, r, cfg.failThreshold);
    h := Append(cfg, h, r, Event(cfg.failThreshold, Begin(0, r.key, r.rpm), cfg.resetTimeout));
  }

  /** For every configuration there is a run of a fresh process that loses a trial: the breaker trips, its
      reset time passes, and the check that is admitted then is cancelled. */
  lemma TrialsCanBeLost(cfg: Config, key: Key, rpm: nat) returns (h: History)
    requires cfg.failThreshold >= 1 && cfg.resetTimeout >= 0.0 && rpm >= 1
    ensures Legal(cfg, h) && Began(h) == Started(1) && |State(cfg, h).workers| == 1
    ensures Lost(State(cfg, h), 0)
  {
    var r := Regime(key, rpm, 0.0, 0.0, 0.0);
    var begun := BeginTrial(cfg, r);
    h := Then(begun, Event(cfg.failThreshold, Cancel, cfg.resetTimeout));
    WorkersAre(h, 1);
    CancelledTrialIsLost(cfg, h, 0);
  }
}
