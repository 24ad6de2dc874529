/** Whole runs of one circuit breaker shared by unboundedly many callers.

    A run is a log of atomic actions at non-decreasing times.  Every admitted call holds a ticket
    (the generation it was admitted under) until it records its outcome; a call records at most
    once, and any order and any delay between admission and outcome is allowed. */
module BreakerRuns {
  import opened CircuitBreakers
  import opened Sequences

  datatype Kind = Ask | Succeed(ticket: nat) | Fail(ticket: nat) | Abort(ticket: nat)

  datatype Action = Action(kind: Kind, at: real)

  /** The breaker, the tickets of the admitted calls that have not recorded yet, and the clock. */
  datatype World = World(b: Breaker, tickets: multiset<nat>, now: real)

  const START := World(INITIAL, multiset{}, 0.0)

  ghost predicate Enabled(w: World, a: Action) {
    a.at >= w.now && (a.kind.Ask? || a.kind.ticket in w.tickets)
  }

  ghost function Step(cfg: Config, w: World, a: Action): World {
    match a.kind
    case Ask =>
      var b := Allow(cfg, w.b, a.at);
      World(b, if Admits(cfg, w.b, a.at) then w.tickets + multiset{b.generation} else w.tickets, a.at)
    case Succeed(g) => World(OnSuccess(w.b, g), w.tickets - multiset{g}, a.at)
    case Fail(g) => World(OnFailure(cfg, w.b, g, a.at), w.tickets - multiset{g}, a.at)
    case Abort(g) => World(OnAbort(w.b, g), w.tickets - multiset{g}, a.at)
  }

  ghost function Run(cfg: Config, w: World, log: seq<Action>): World {
    if log == [] then w else Step(cfg, Run(cfg, w, Front(log)), Last(log))
  }

  /** Every action of the log was possible when it happened. */
  ghost predicate Valid(cfg: Config, w: World, log: seq<Action>) {
    log == [] || (Valid(cfg, w, Front(log)) && Enabled(Run(cfg, w, Front(log)), Last(log)))
  }

  lemma PrefixStep(cfg: Config, w: World, log: seq<Action>, a: Action)
    ensures Run(cfg, w, log + [a]) == Step(cfg, Run(cfg, w, log), a)
    ensures Valid(cfg, w, log + [a]) <==> Valid(cfg, w, log) && Enabled(Run(cfg, w, log), a)
  {
    assert Front(log + [a]) == log;
  }

  // ---------------------------------------------------------------- the ticket invariant

  ghost predicate TicketsAgree(cfg: Config, w: World) {
    && (w.b.state.Open? ==> w.tickets[w.b.generation] == 0)
    && (w.b.state.HalfOpen? ==> w.tickets[w.b.generation] == if w.b.trialInFlight then 1 else 0)
    && (w.b.trialInFlight ==> w.b.state.HalfOpen?)
    && (forall g :: g in w.tickets ==> g <= w.b.generation)
    && (w.b.state.Closed? <==> w.b.failures < cfg.failThreshold)
  }

  lemma StepKeepsTickets(cfg: Config, w: World, a: Action)
    requires cfg.failThreshold >= 1 && TicketsAgree(cfg, w) && Enabled(w, a)
    ensures TicketsAgree(cfg, Step(cfg, w, a))
    ensures w.b.generation <= Step(cfg, w, a).b.generation
  {
    var g := w.b.generation;
    match a.kind
    case Ask =>
      var t := Allow(cfg, w.b, a.at).generation;
      assert t in w.tickets ==> t <= g;
      assert (w.tickets + multiset{t})[t] == w.tickets[t] + 1;
    case Succeed(t) =>
      assert w.tickets[g + 1] == 0 by { assert g + 1 !in w.tickets; }
    case Fail(t) =>
      assert w.tickets[g + 1] == 0 by { assert g + 1 !in w.tickets; }
    case Abort(t) =>
  }

  /** Over every run: while open, no outstanding call holds the current generation; while half-open,
      the trial flag is set exactly when one outstanding call holds it; the flag is never set in
      another state; the breaker is closed exactly while the count is below the threshold. */
  lemma {:induction false} TicketInvariant(cfg: Config, w: World, log: seq<Action>)
    requires cfg.failThreshold >= 1 && TicketsAgree(cfg, w) && Valid(cfg, w, log)
    ensures TicketsAgree(cfg, Run(cfg, w, log))
    ensures w.b.generation <= Run(cfg, w, log).b.generation
    ensures w.now <= Run(cfg, w, log).now
  {
    if log != [] {
      TicketInvariant(cfg, w, Front(log));
      StepKeepsTickets(cfg, Run(cfg, w, Front(log)), Last(log));
    }
  }

  // ---------------------------------------------------------------- cool-down

  lemma FrozenStep(cfg: Config, w: World, a: Action)
    requires TicketsAgree(cfg, w) && Enabled(w, a)
    requires w.b.state.Open? && a.at < w.b.openedAt + cfg.resetTimeout
    ensures Step(cfg, w, a).b == w.b && Step(cfg, w, a).tickets <= w.tickets
  {
    assert !a.kind.Ask? ==> a.kind.ticket != w.b.generation;
  }

  /** Until `resetTimeout` has passed since the breaker opened, nothing in any run changes it: every
      call is refused and outcomes of calls admitted earlier neither close it nor move its deadline. */
  lemma {:induction false} CoolDownIsFrozen(cfg: Config, w: World, log: seq<Action>)
    requires cfg.failThreshold >= 1 && TicketsAgree(cfg, w) && Valid(cfg, w, log)
    requires w.b.state.Open?
    requires forall i :: 0 <= i < |log| ==> log[i].at < w.b.openedAt + cfg.resetTimeout
    ensures Run(cfg, w, log).b == w.b
    ensures Run(cfg, w, log).tickets <= w.tickets
  {
    if log != [] {
      CoolDownIsFrozen(cfg, w, Front(log));
      TicketInvariant(cfg, w, Front(log));
      FrozenStep(cfg, Run(cfg, w, Front(log)), Last(log));
    }
  }

  lemma {:induction false} RunsCompose(cfg: Config, w: World, log: seq<Action>, more: seq<Action>)
    ensures Run(cfg, w, log + more) == Run(cfg, Run(cfg, w, log), more)
    ensures Valid(cfg, w, log + more) <==> Valid(cfg, w, log) && Valid(cfg, Run(cfg, w, log), more)
  {
    if more == [] {
      assert log + more == log;
    } else {
      assert Front(log + more) == log + Front(more);
      RunsCompose(cfg, w, log, Front(more));
    }
  }

  /** Is the breaker open after the first `n` actions of the log? */
  ghost predicate OpenAfter(cfg: Config, log: seq<Action>, n: nat)
    requires n <= |log|
  {
    Run(cfg, START, log[..n]).b.state.Open?
  }

  /** Action `k` of the log tripped the breaker, and it has been open ever since. */
  ghost predicate TrippedBy(cfg: Config, log: seq<Action>, k: nat) {
    && k < |log| && !OpenAfter(cfg, log, k)
    && forall n :: k < n <= |log| ==> OpenAfter(cfg, log, n)
  }

  lemma PrefixOpen(cfg: Config, log: seq<Action>, n: nat)
    requires log != [] && n < |log|
    ensures OpenAfter(cfg, log, n) <==> OpenAfter(cfg, Front(log), n)
  {
    assert Front(log)[..n] == log[..n];
  }

  lemma OpeningStep(cfg: Config, w: World, a: Action)
    requires TicketsAgree(cfg, w) && Enabled(w, a) && Step(cfg, w, a).b.state.Open?
    ensures Step(cfg, w, a).b.openedAt == if w.b.state.Open? then w.b.openedAt else a.at
  {
  }

  /** The last action tripped the breaker. */
  lemma JustTripped(cfg: Config, log: seq<Action>)
    requires cfg.failThreshold >= 1 && Valid(cfg, START, log) && log != []
    requires !Run(cfg, START, Front(log)).b.state.Open? && Run(cfg, START, log).b.state.Open?
    ensures TrippedBy(cfg, log, |log| - 1) && Run(cfg, START, log).b.openedAt == Last(log).at
  {
    assert log[..|log| - 1] == Front(log) && log[..|log|] == log;
    TicketInvariant(cfg, START, Front(log));
    OpeningStep(cfg, Run(cfg, START, Front(log)), Last(log));
  }

  /** The breaker stays tripped. */
  lemma StillTripped(cfg: Config, log: seq<Action>, k: nat)
    requires cfg.failThreshold >= 1 && Valid(cfg, START, log) && log != [] && TrippedBy(cfg, Front(log), k)
    requires Run(cfg, START, Front(log)).b.state.Open? && Run(cfg, START, log).b.state.Open?
    ensures TrippedBy(cfg, log, k) && Run(cfg, START, log).b.openedAt == Run(cfg, START, Front(log)).b.openedAt
  {
    assert log[..|log|] == log;
    PrefixOpen(cfg, log, k);
    forall n | k < n <= |log| ensures OpenAfter(cfg, log, n) {
      if n < |log| { PrefixOpen(cfg, log, n); }
    }
    TicketInvariant(cfg, START, Front(log));
    OpeningStep(cfg, Run(cfg, START, Front(log)), Last(log));
  }

  /** Over every run: an open breaker was tripped by some action, and `openedAt` is that action's time. */
  lemma {:induction false} OpenedAtTheTrip(cfg: Config, log: seq<Action>) returns (k: nat)
    requires cfg.failThreshold >= 1 && Valid(cfg, START, log) && Run(cfg, START, log).b.state.Open?
    ensures TrippedBy(cfg, log, k) && Run(cfg, START, log).b.openedAt == log[k].at
  {
    if Run(cfg, START, Front(log)).b.state.Open? {
      k := OpenedAtTheTrip(cfg, Front(log));
      StillTripped(cfg, log, k);
    } else {
      JustTripped(cfg, log);
      k := |log| - 1;
    }
  }

  lemma TripIsUnique(cfg: Config, log: seq<Action>, j: nat, k: nat)
    requires TrippedBy(cfg, log, j) && TrippedBy(cfg, log, k)
    ensures j == k
  {
  }

  /** From the action that trips a breaker until `resetTimeout` later, nothing changes it and nobody is
      admitted. */
  lemma CoolDownFollowsTrip(cfg: Config, log: seq<Action>, more: seq<Action>)
    requires cfg.failThreshold >= 1 && Valid(cfg, START, log + more) && log != []
    requires !Run(cfg, START, Front(log)).b.state.Open? && Run(cfg, START, log).b.state.Open?
    requires forall i :: 0 <= i < |more| ==> more[i].at < Last(log).at + cfg.resetTimeout
    ensures Run(cfg, START, log + more).b == Run(cfg, START, log).b
    ensures Run(cfg, START, log + more).tickets <= Run(cfg, START, log).tickets
  {
    RunsCompose(cfg, START, log, more);
    JustTripped(cfg, log);
    TicketInvariant(cfg, START, log);
    CoolDownIsFrozen(cfg, Run(cfg, START, log), more);
  }

  /** Over every run, an ask is admitted exactly by a closed breaker, by one that was tripped at least
      `resetTimeout` ago, or by a half-open one of whose generation no call is outstanding. */
  lemma AdmittedExactlyWhen(cfg: Config, log: seq<Action>, at: real, k: nat)
    requires cfg.failThreshold >= 1 && Valid(cfg, START, log + [Action(Ask, at)])
    requires Run(cfg, START, log).b.state.Open? ==> TrippedBy(cfg, log, k)
    ensures var w, v := Run(cfg, START, log), Run(cfg, START, log + [Action(Ask, at)]);
            && (|v.tickets| > |w.tickets| <==> match w.b.state
                                               case Closed => true
                                               case Open => at >= log[k].at + cfg.resetTimeout
                                               case HalfOpen => w.tickets[w.b.generation] == 0)
            && (|v.tickets| > |w.tickets| ==> v.tickets == w.tickets + multiset{v.b.generation})
            && (|v.tickets| <= |w.tickets| ==> v.tickets == w.tickets && v.b == w.b)
  {
    var w := Run(cfg, START, log);
    PrefixStep(cfg, START, log, Action(Ask, at));
    TicketInvariant(cfg, START, log);
    if w.b.state.Open? {
      var j := OpenedAtTheTrip(cfg, log);
      TripIsUnique(cfg, log, j, k);
    }
  }

  /** A trial that aborts leaves the breaker half-open and its slot free: the next ask is admitted. */
  lemma AbortedTrialFreesTheSlot(cfg: Config, log: seq<Action>, abort: Action, at: real)
    requires cfg.failThreshold >= 1 && Valid(cfg, START, log + [abort, Action(Ask, at)])
    requires Run(cfg, START, log).b.state.HalfOpen? && abort.kind == Abort(Run(cfg, START, log).b.generation)
    ensures var w, v := Run(cfg, START, log), Run(cfg, START, log + [abort, Action(Ask, at)]);
            v.b == w.b && v.b.trialInFlight && v.tickets == w.tickets
  {
    var w, u := Run(cfg, START, log), Run(cfg, START, log + [abort]);
    assert log + [abort, Action(Ask, at)] == (log + [abort]) + [Action(Ask, at)];
    PrefixStep(cfg, START, log + [abort], Action(Ask, at));
    PrefixStep(cfg, START, log, abort);
    TicketInvariant(cfg, START, log);
    var g := w.b.generation;
    assert g in w.tickets;
    assert w.tickets - multiset{g} + multiset{g} == w.tickets;
  }

  // ---------------------------------------------------------------- how often a tripped breaker probes

  ghost function HalfOpenPeriods(cfg: Config, w: World, log: seq<Action>): nat {
    if log == [] then 0
    else
      HalfOpenPeriods(cfg, w, Front(log)) +
      (if Run(cfg, w, Front(log)).b.state.Open? && Run(cfg, w, log).b.state.HalfOpen? then 1 else 0)
  }

  ghost predicate NeverCloses(cfg: Config, w: World, log: seq<Action>) {
    !Run(cfg, w, log).b.state.Closed? && (log != [] ==> NeverCloses(cfg, w, Front(log)))
  }

  /** What one action of a breaker that is not closed does to the time at which it opened. */
  lemma ProbeStep(cfg: Config, w: World, a: Action)
    requires TicketsAgree(cfg, w) && Enabled(w, a)
    ensures var v := Step(cfg, w, a);
            && (w.b.state.Open? && v.b.state.Open? ==> v.b == w.b)
            && (w.b.state.Open? && v.b.state.HalfOpen? ==> a.at >= w.b.openedAt + cfg.resetTimeout)
            && (w.b.state.HalfOpen? && v.b.state.Open? ==> v.b.openedAt == a.at)
            && (v.b.state.Open? ==> v.b.openedAt == w.b.openedAt || v.b.openedAt == a.at)
  {
  }

  /** The length of `n` periods of `r` seconds. */
  ghost function Periods(n: nat, r: real): real {
    if n == 0 then 0.0 else Periods(n - 1, r) + r
  }

  lemma {:induction false} PeriodsAreProduct(n: nat, r: real)
    ensures Periods(n, r) == n as real * r
  {
    if n > 0 {
      PeriodsAreProduct(n - 1, r);
      assert n as real * r == (n - 1) as real * r + r;
    }
  }

  function WholePeriods(r: real, span: real): int
    requires r > 0.0
  {
    (span / r).Floor
  }

  /** `n` periods of `r` seconds fit into the span: `n` is at most the floor of `span / r`. */
  ghost predicate Fits(n: nat, r: real, span: real) {
    Periods(n, r) <= span
  }

  lemma FitsIsFloor(n: nat, r: real, span: real)
    requires r > 0.0
    ensures Fits(n, r, span) <==> n <= WholePeriods(r, span)
  {
    PeriodsAreProduct(n, r);
    var q := span / r;
    assert span == q * r;
    if n as real <= q {
      assert n as real * r <= q * r;
    } else {
      assert n as real * r > q * r;
    }
  }

  /** `n` periods have begun since `origin` and their cool-downs have all passed. */
  ghost predicate OnSchedule(cfg: Config, origin: real, n: nat, w: World) {
    && Fits(n, cfg.resetTimeout, w.now - origin)
    && (w.b.state.Open? ==> Fits(n, cfg.resetTimeout, w.b.openedAt - origin))
  }

  lemma ProbeKeepsSchedule(cfg: Config, origin: real, n: nat, w: World, a: Action)
    requires TicketsAgree(cfg, w) && Enabled(w, a) && OnSchedule(cfg, origin, n, w)
    requires !w.b.state.Closed? && !Step(cfg, w, a).b.state.Closed?
    ensures var v := Step(cfg, w, a);
            OnSchedule(cfg, origin, if w.b.state.Open? && v.b.state.HalfOpen? then n + 1 else n, v)
  {
    ProbeStep(cfg, w, a);
  }

  lemma {:induction false} PeriodsTakeTime(cfg: Config, w: World, log: seq<Action>)
    requires cfg.failThreshold >= 1 && TicketsAgree(cfg, w) && Valid(cfg, w, log)
    requires w.b.state.Open? && w.b.openedAt <= w.now
    requires NeverCloses(cfg, w, log)
    ensures OnSchedule(cfg, w.b.openedAt, HalfOpenPeriods(cfg, w, log), Run(cfg, w, log))
  {
    if log != [] {
      var u, v := Run(cfg, w, Front(log)), Run(cfg, w, log);
      PeriodsTakeTime(cfg, w, Front(log));
      TicketInvariant(cfg, w, Front(log));
      assert v == Step(cfg, u, Last(log));
      var n := HalfOpenPeriods(cfg, w, Front(log));
      ProbeKeepsSchedule(cfg, w.b.openedAt, n, u, Last(log));
      assert HalfOpenPeriods(cfg, w, log) == if u.b.state.Open? && v.b.state.HalfOpen? then n + 1 else n;
    }
  }

  /** A breaker that opened at `openedAt` and has not closed since has begun at most
      floor((now - openedAt) / resetTimeout) half-open periods (`FitsIsFloor`). */
  lemma ProbeBound(cfg: Config, w: World, log: seq<Action>)
    requires cfg.failThreshold >= 1 && cfg.resetTimeout > 0.0
    requires TicketsAgree(cfg, w) && Valid(cfg, w, log)
    requires w.b.state.Open? && w.b.openedAt <= w.now
    requires NeverCloses(cfg, w, log)
    ensures Fits(HalfOpenPeriods(cfg, w, log), cfg.resetTimeout, Run(cfg, w, log).now - w.b.openedAt)
  {
    PeriodsTakeTime(cfg, w, log);
  }

  /** Since the action that tripped a breaker, which has not closed again, at most as many half-open periods
      have begun as reset times have passed. */
  lemma ProbesFollowTrip(cfg: Config, log: seq<Action>, more: seq<Action>)
    requires cfg.failThreshold >= 1 && cfg.resetTimeout > 0.0 && Valid(cfg, START, log + more) && log != []
    requires !Run(cfg, START, Front(log)).b.state.Open? && Run(cfg, START, log).b.state.Open?
    requires NeverCloses(cfg, Run(cfg, START, log), more)
    ensures Fits(HalfOpenPeriods(cfg, Run(cfg, START, log), more), cfg.resetTimeout,
                 Run(cfg, START, log + more).now - Last(log).at)
  {
    RunsCompose(cfg, START, log, more);
    JustTripped(cfg, log);
    TicketInvariant(cfg, START, log);
    ProbeBound(cfg, Run(cfg, START, log), more);
  }

  /** How many calls the log admitted under generation `g`. */
  ghost function AdmittedUnder(cfg: Config, w: World, log: seq<Action>, g: nat): nat {
    if log == [] then 0
    else
      var u := Run(cfg, w, Front(log));
      AdmittedUnder(cfg, w, Front(log), g) +
      (if Last(log).kind.Ask? && Admits(cfg, u.b, Last(log).at) && Run(cfg, w, log).b.generation == g then 1 else 0)
  }

  function AbortsOf(log: seq<Action>, g: nat): nat {
    if log == [] then 0
    else AbortsOf(Front(log), g) + (if Last(log).kind == Abort(g) then 1 else 0)
  }

  /** What an action reports under generation `g`, if anything. */
  function Reported(kind: Kind, g: nat): seq<bool> {
    match kind
    case Succeed(t) => if t == g then [true] else []
    case Fail(t) => if t == g then [false] else []
    case _ => []
  }

  /** The successes (`true`) and failures (`false`) reported under generation `g`, oldest first:
      a filter of the log that knows nothing of the breaker. */
  function LiveOutcomes(log: seq<Action>, g: nat): seq<bool> {
    if log == [] then []
    else LiveOutcomes(Front(log), g) + Reported(Last(log).kind, g)
  }

  lemma {:induction false} FutureGenerationsAreUnused(cfg: Config, log: seq<Action>, g: nat)
    requires cfg.failThreshold >= 1 && Valid(cfg, START, log)
    requires g > Run(cfg, START, log).b.generation
    ensures AdmittedUnder(cfg, START, log, g) == 0 && AbortsOf(log, g) == 0 && LiveOutcomes(log, g) == []
  {
    if log != [] {
      TicketInvariant(cfg, START, Front(log));
      StepKeepsTickets(cfg, Run(cfg, START, Front(log)), Last(log));
      FutureGenerationsAreUnused(cfg, Front(log), g);
    }
  }

  /** What one action does to the trial flag of a half-open period it stays in. */
  lemma TrialStep(cfg: Config, w: World, a: Action)
    requires TicketsAgree(cfg, w) && Enabled(w, a)
    requires Step(cfg, w, a).b.state.HalfOpen?
    ensures var v := Step(cfg, w, a);
            var admitted := a.kind.Ask? && Admits(cfg, w.b, a.at);
            if w.b.state.HalfOpen? then
              && v.b.generation == w.b.generation
              && (a.kind == Abort(w.b.generation) <==> w.b.trialInFlight && !v.b.trialInFlight)
              && (admitted <==> !w.b.trialInFlight && v.b.trialInFlight)
            else
              v.b.generation > w.b.generation && admitted && v.b.trialInFlight
  {
  }

  /** A half-open period admits one call at a time: at every moment the calls it has admitted are
      the ones that aborted, plus the one in flight if any. */
  lemma {:induction false} OneProbePlusAborts(cfg: Config, log: seq<Action>)
    requires cfg.failThreshold >= 1 && Valid(cfg, START, log)
    requires Run(cfg, START, log).b.state.HalfOpen?
    ensures var b := Run(cfg, START, log).b;
            AdmittedUnder(cfg, START, log, b.generation)
            == AbortsOf(log, b.generation) + (if b.trialInFlight then 1 else 0)
  {
    var u := Run(cfg, START, Front(log));
    TicketInvariant(cfg, START, Front(log));
    TrialStep(cfg, u, Last(log));
    if u.b.state.HalfOpen? {
      OneProbePlusAborts(cfg, Front(log));
    } else {
      FutureGenerationsAreUnused(cfg, Front(log), Run(cfg, START, log).b.generation);
    }
  }

  /** The action is a report under generation `g`. */
  predicate ReportsUnder(kind: Kind, g: nat) {
    !kind.Ask? && kind.ticket == g
  }

  lemma SilentStep(cfg: Config, w: World, a: Action)
    requires w.b.state.HalfOpen? && w.b.trialInFlight && Enabled(w, a) && !ReportsUnder(a.kind, w.b.generation)
    ensures Step(cfg, w, a).b == w.b && Step(cfg, w, a).tickets <= w.tickets
  {
  }

  /** A half-open breaker waits for its trial: until that call reports, no run of any length changes the
      breaker or admits another call. */
  lemma {:induction false} SilentTrialBlocks(cfg: Config, w: World, log: seq<Action>)
    requires Valid(cfg, w, log) && w.b.state.HalfOpen? && w.b.trialInFlight
    requires forall i :: 0 <= i < |log| ==> !ReportsUnder(log[i].kind, w.b.generation)
    ensures Run(cfg, w, log).b == w.b && Run(cfg, w, log).tickets <= w.tickets
  {
    if log != [] {
      SilentTrialBlocks(cfg, w, Front(log));
      SilentStep(cfg, Run(cfg, w, Front(log)), Last(log));
    }
  }

  // ---------------------------------------------------------------- the counter and the history

  ghost predicate LastAllFailures(outcomes: seq<bool>, k: nat) {
    k <= |outcomes| && forall i :: |outcomes| - k <= i < |outcomes| ==> !outcomes[i]
  }

  /** `n` is the length of the run of failures that ends the history `h`. */
  ghost predicate TailIs(h: seq<bool>, n: nat) {
    forall k: nat :: LastAllFailures(h, k) <==> k <= n
  }

  /** What one outcome does to the counter of a breaker that is closed afterwards. */
  lemma CounterStep(cfg: Config, w: World, a: Action)
    requires TicketsAgree(cfg, w) && Enabled(w, a)
    ensures var v := Step(cfg, w, a);
            var live := Reported(a.kind, w.b.generation);
            if w.b.state.Closed? then
              && !v.b.state.HalfOpen?
              && (v.b.state.Closed? ==> v.b.generation == w.b.generation)
              && v.b.failures == (if live == [] then w.b.failures else if live[0] then 0 else w.b.failures + 1)
              && (v.b.state.Open? <==> v.b.failures >= cfg.failThreshold)
            else
              v.b.state.Closed? ==>
                v.b.generation > w.b.generation && v.b.failures == 0 && Reported(a.kind, v.b.generation) == []
  {
  }

  /** What one more report does to the run of failures at the end of a history. */
  lemma ExtendHistory(h: seq<bool>, n: nat, live: seq<bool>)
    requires TailIs(h, n) && |live| <= 1
    ensures TailIs(h + live, if live == [] then n else if live[0] then 0 else n + 1)
  {
    var f := h + live;
    if live == [] {
      assert f == h;
    } else {
      assert f[|f| - 1] == live[0];
      forall k: nat | k >= 1
        ensures LastAllFailures(f, k) <==> !live[0] && LastAllFailures(h, k - 1)
      {
        if LastAllFailures(f, k) {
          forall i | |h| - (k - 1) <= i < |h| ensures !h[i] { assert f[i] == h[i]; }
        }
      }
      forall k: nat
        ensures LastAllFailures(f, k) <==> k <= if live[0] then 0 else n + 1
      {
        if k >= 1 {
          assert LastAllFailures(h, k - 1) <==> k - 1 <= n;
        }
      }
    }
  }

  /** Over every run: while the breaker is closed, its O(1) counter is the exact length of the run of
      failures that ends the history of the current generation. */
  lemma {:induction false} CounterIsHistory(cfg: Config, log: seq<Action>)
    requires cfg.failThreshold >= 1 && Valid(cfg, START, log)
    requires Run(cfg, START, log).b.state.Closed?
    ensures var b := Run(cfg, START, log).b;
            var h := LiveOutcomes(log, b.generation);
            TailIs(h, b.failures)
  {
    if log != [] {
      var u, b := Run(cfg, START, Front(log)), Run(cfg, START, log).b;
      TicketInvariant(cfg, START, Front(log));
      CounterStep(cfg, u, Last(log));
      if u.b.state.Closed? {
        CounterIsHistory(cfg, Front(log));
        ExtendHistory(LiveOutcomes(Front(log), b.generation), u.b.failures, Reported(Last(log).kind, b.generation));
      } else {
        FutureGenerationsAreUnused(cfg, Front(log), b.generation);
      }
    }
  }

  lemma TripStep(cfg: Config, w: World, a: Action, h: seq<bool>)
    requires cfg.failThreshold >= 1 && TicketsAgree(cfg, w) && Enabled(w, a)
    requires w.b.state.Closed? && TailIs(h, w.b.failures)
    ensures var v := Step(cfg, w, a);
            && !v.b.state.HalfOpen?
            && (v.b.state.Open? <==> LastAllFailures(h + Reported(a.kind, w.b.generation), cfg.failThreshold))
  {
    CounterStep(cfg, w, a);
    ExtendHistory(h, w.b.failures, Reported(a.kind, w.b.generation));
  }

  lemma HistoryStep(log: seq<Action>, a: Action, g: nat)
    ensures LiveOutcomes(log + [a], g) == LiveOutcomes(log, g) + Reported(a.kind, g)
  {
    assert Front(log + [a]) == log;
  }

  /** A closed breaker trips on exactly those actions after which the last `failThreshold` live
      outcomes of the current closed period are all failures. */
  lemma TripsExactlyOnThreshold(cfg: Config, log: seq<Action>, a: Action)
    requires cfg.failThreshold >= 1 && Valid(cfg, START, log + [a])
    requires Run(cfg, START, log).b.state.Closed?
    ensures var g := Run(cfg, START, log).b.generation;
            Run(cfg, START, log + [a]).b.state.Open?
            <==> LastAllFailures(LiveOutcomes(log + [a], g), cfg.failThreshold)
    ensures !Run(cfg, START, log + [a]).b.state.HalfOpen?
  {
    var w := Run(cfg, START, log);
    PrefixStep(cfg, START, log, a);
    TicketInvariant(cfg, START, log);
    CounterIsHistory(cfg, log);
    TripStep(cfg, w, a, LiveOutcomes(log, w.b.generation));
    HistoryStep(log, a, w.b.generation);
  }
}
