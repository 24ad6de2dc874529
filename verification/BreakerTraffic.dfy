/** Unboundedly many calls and streams of one provider sharing its breaker: each asks for admission and,
    if admitted, makes the reports that the resilience wrapper makes for it, whenever it ends. */
module BreakerTraffic {
  import opened Options
  import opened Sequences
  import opened CircuitBreakers
  import opened BreakerRuns
  import opened Chat
  import opened Streams
  import opened ProviderAdapters
  import opened ResilientAdapters
  import opened IdempotencyServices
  import opened StreamPipelines

  /** How an admitted use of the provider ends: a call, or a stream that the gateway drained for the given
      consumer. */
  datatype Use = CallEnds(call: ProviderCall) | StreamEnds(provider: ProviderStream, consumer: Consumer)

  /** A call that returns a reply which can be parsed. */
  predicate Succeeds(use: Use) {
    use.CallEnds? && use.call.end.Finished? && Parses(use.call.reply)
  }

  /** The provider's stream is read to its end, past its last delta. */
  predicate ReadToEnd(provider: ProviderStream, consumer: Consumer) {
    var n := |SourceOf(provider).deltas|;
    n == 0 || consumer.Exhausts? || (consumer.ClosesWith? && consumer.at >= n)
  }

  /** A call that errs, hangs, raises what no adapter expects or cannot be parsed; or a stream that is read to
      an error, a stall or an unexpected exception. */
  predicate Errs(use: Use) {
    match use
    case CallEnds(call) =>
      call.end.Errored? || call.end.Hangs? || call.end.Escapes? || (call.end.Finished? && !Parses(call.reply))
    case StreamEnds(provider, consumer) =>
      (provider.ending.Errored? || provider.ending.Hangs? || provider.ending.Escapes?) && ReadToEnd(provider, consumer)
  }

  datatype Event = Begin(id: nat, at: real) | Finish(id: nat, use: Use, at: real)

  datatype Traffic = Quiet | Then(before: Traffic, event: Event)

  /** The report on an ended use of the provider. */
  function Report(ticket: nat, use: Use): (k: Kind)
    ensures k != Ask && k.ticket == ticket
    ensures use.StreamEnds? ==> !k.Succeed?
  {
    match use
    case CallEnds(call) => CallReport(ticket, AwaitCall(call))
    case StreamEnds(provider, consumer) =>
      GatewayReport(SourceOf(provider), ticket, consumer);
      StreamReports(ticket, SourceOf(provider), GatewayCloseIndex(GuardedStream(true, SourceOf(provider)), consumer))[0]
  }

  /** A use reports a success exactly if it succeeds, a failure exactly if it errs, and else an abort. */
  lemma ReportFollowsUse(ticket: nat, use: Use)
    ensures Report(ticket, use) == Succeed(ticket) <==> Succeeds(use)
    ensures Report(ticket, use) == Fail(ticket) <==> Errs(use)
    ensures Report(ticket, use) == Abort(ticket) <==> !Succeeds(use) && !Errs(use)
  {
    match use
    case CallEnds(call) =>
      TranslatesFieldByField(call.reply);
      CallFailures(true, call);
    case StreamEnds(provider, consumer) =>
      var inner := SourceOf(provider);
      var closeAt := GatewayCloseIndex(GuardedStream(true, inner), consumer);
      GatewayReport(inner, ticket, consumer);
      assert CutShort(inner, closeAt) == ClosesEarly(provider, closeAt);
      OneReportPerStream(true, ticket, provider, closeAt);
  }

  /** The breaker actions of the traffic, in order. */
  ghost function Log(cfg: Config, t: Traffic): seq<Action>
    decreases t, 0
  {
    match t
    case Quiet => []
    case Then(before, Begin(_, at)) => Log(cfg, before) + [Action(Ask, at)]
    case Then(before, Finish(id, use, at)) =>
      var inFlight := InFlight(cfg, before);
      Log(cfg, before) + (if id in inFlight then [Action(Report(inFlight[id], use), at)] else [])
  }

  ghost function Final(cfg: Config, t: Traffic): World
    decreases t, 1
  {
    Run(cfg, START, Log(cfg, t))
  }

  /** The admitted uses that have not ended, with their tickets. */
  ghost function InFlight(cfg: Config, t: Traffic): map<nat, nat>
    decreases t, 2
  {
    match t
    case Quiet => map[]
    case Then(before, Begin(id, at)) =>
      if Admits(cfg, Final(cfg, before).b, at) then InFlight(cfg, before)[id := Final(cfg, t).b.generation]
      else InFlight(cfg, before)
    case Then(before, Finish(id, _, _)) => InFlight(cfg, before) - {id}
  }

  ghost predicate Orderly(cfg: Config, t: Traffic) {
    match t
    case Quiet => true
    case Then(before, e) =>
      && Orderly(cfg, before)
      && e.at >= Final(cfg, before).now
      && (e.Begin? <==> e.id !in InFlight(cfg, before))
  }

  function Holders(inFlight: map<nat, nat>, ticket: nat): set<nat> {
    set id | id in inFlight && inFlight[id] == ticket
  }

  lemma HoldersGrow(inFlight: map<nat, nat>, id: nat, ticket: nat, g: nat)
    requires id !in inFlight
    ensures |Holders(inFlight[id := ticket], g)| == |Holders(inFlight, g)| + (if g == ticket then 1 else 0)
  {
    var more := inFlight[id := ticket];
    assert Holders(more, g) == if g == ticket then Holders(inFlight, g) + {id} else Holders(inFlight, g);
  }

  lemma HoldersShrink(inFlight: map<nat, nat>, id: nat, g: nat)
    requires id in inFlight
    ensures |Holders(inFlight - {id}, g)| == |Holders(inFlight, g)| - (if g == inFlight[id] then 1 else 0)
  {
    assert Holders(inFlight - {id}, g) == Holders(inFlight, g) - {id};
  }

  /** The tickets outstanding are those of the uses in flight. */
  ghost predicate Held(w: World, inFlight: map<nat, nat>) {
    forall g: nat :: w.tickets[g] == |Holders(inFlight, g)|
  }

  lemma BeginHolds(cfg: Config, w: World, inFlight: map<nat, nat>, id: nat, at: real)
    requires Held(w, inFlight) && id !in inFlight
    ensures var v := Step(cfg, w, Action(Ask, at));
            Held(v, if Admits(cfg, w.b, at) then inFlight[id := v.b.generation] else inFlight)
  {
    var v := Step(cfg, w, Action(Ask, at));
    if Admits(cfg, w.b, at) {
      forall g: nat ensures v.tickets[g] == |Holders(inFlight[id := v.b.generation], g)| {
        HoldersGrow(inFlight, id, v.b.generation, g);
      }
    }
  }

  lemma FinishHolds(cfg: Config, w: World, inFlight: map<nat, nat>, id: nat, kind: Kind, at: real)
    requires Held(w, inFlight) && id in inFlight && kind != Ask && kind.ticket == inFlight[id]
    ensures kind.ticket in w.tickets
    ensures Held(Step(cfg, w, Action(kind, at)), inFlight - {id})
  {
    var v, ticket := Step(cfg, w, Action(kind, at)), inFlight[id];
    assert id in Holders(inFlight, ticket);
    assert w.tickets[ticket] > 0;
    assert v.tickets == w.tickets - multiset{ticket};
    forall g: nat ensures v.tickets[g] == |Holders(inFlight - {id}, g)| {
      HoldersShrink(inFlight, id, g);
    }
  }

  /** Any traffic is a run in which every admitted use reports once at most, and the tickets outstanding
      are those of the uses in flight. */
  lemma {:induction false} TrafficIsARun(cfg: Config, t: Traffic)
    requires Orderly(cfg, t)
    ensures Valid(cfg, START, Log(cfg, t))
    ensures Held(Final(cfg, t), InFlight(cfg, t))
  {
    match t
    case Quiet =>
      assert forall g: nat :: Holders(InFlight(cfg, t), g) == {};
    case Then(before, e) =>
      var w, inFlight, log := Final(cfg, before), InFlight(cfg, before), Log(cfg, before);
      TrafficIsARun(cfg, before);
      match e
      case Begin(id, at) =>
        PrefixStep(cfg, START, log, Action(Ask, at));
        assert Log(cfg, t) == log + [Action(Ask, at)];
        BeginHolds(cfg, w, inFlight, id, at);
        assert Final(cfg, t) == Step(cfg, w, Action(Ask, at));
      case Finish(id, use, at) =>
        var kind := Report(inFlight[id], use);
        PrefixStep(cfg, START, log, Action(kind, at));
        assert Log(cfg, t) == log + [Action(kind, at)];
        FinishHolds(cfg, w, inFlight, id, kind, at);
        assert Final(cfg, t) == Step(cfg, w, Action(kind, at));
  }

  /** At every moment: no use in flight holds an open breaker's generation, and a half-open breaker has
      its trial flag set exactly when one use in flight holds its generation. */
  lemma TrialIsTheUseInFlight(cfg: Config, t: Traffic)
    requires cfg.failThreshold >= 1 && Orderly(cfg, t)
    ensures var b := Final(cfg, t).b;
            && (b.state.Open? ==> Holders(InFlight(cfg, t), b.generation) == {})
            && (b.state.HalfOpen? ==> |Holders(InFlight(cfg, t), b.generation)| == if b.trialInFlight then 1 else 0)
            && (b.trialInFlight ==> b.state.HalfOpen?)
  {
    TrafficIsARun(cfg, t);
    TicketInvariant(cfg, START, Log(cfg, t));
    var b := Final(cfg, t).b;
    assert |Holders(InFlight(cfg, t), b.generation)| == Final(cfg, t).tickets[b.generation];
  }

  // ---------------------------------------------------------------- what recovers a breaker

  /** The last event of the traffic is a plain call that responds under the breaker's live generation. */
  ghost predicate CallResponds(cfg: Config, t: Traffic)
    requires t.Then? && Orderly(cfg, t)
  {
    && t.event.Finish? && Succeeds(t.event.use)
    && InFlight(cfg, t.before)[t.event.id] == Final(cfg, t.before).b.generation
  }

  /** The breaker action that an event amounts to. */
  ghost function ActionOf(cfg: Config, t: Traffic): Action
    requires t.Then? && Orderly(cfg, t)
    ensures Final(cfg, t) == Step(cfg, Final(cfg, t.before), ActionOf(cfg, t))
  {
    var e := t.event;
    var a := if e.Begin? then Action(Ask, e.at) else Action(Report(InFlight(cfg, t.before)[e.id], e.use), e.at);
    PrefixStep(cfg, START, Log(cfg, t.before), a);
    a
  }

  lemma RecoveryStep(cfg: Config, w: World, a: Action)
    ensures var v, live := Step(cfg, w, a), a.kind == Succeed(w.b.generation);
            && (v.b.failures < w.b.failures <==> live && w.b.failures > 0)
            && (!w.b.state.Closed? ==> (v.b.state.Closed? <==> live))
  {
  }

  /** A breaker that is not closed closes on exactly one kind of event: the end of a plain call that
      responds while holding the live generation; and nothing else ever lowers its failure count. */
  lemma OnlyCallsRecover(cfg: Config, t: Traffic)
    requires t.Then? && Orderly(cfg, t)
    ensures var b, after := Final(cfg, t.before).b, Final(cfg, t).b;
            && (!b.state.Closed? ==> (after.state.Closed? <==> CallResponds(cfg, t)))
            && (after.failures < b.failures <==> CallResponds(cfg, t) && b.failures > 0)
  {
    RecoveryStep(cfg, Final(cfg, t.before), ActionOf(cfg, t));
    if t.event.Finish? { ReportFollowsUse(InFlight(cfg, t.before)[t.event.id], t.event.use); }
  }

  // ---------------------------------------------------------------- what trips a breaker

  /** Whether an ended use counts as a success (`true`), as a failure (`false`), or not at all. */
  function OutcomeOf(use: Use): seq<bool> {
    if Succeeds(use) then [true] else if Errs(use) then [false] else []
  }

  lemma ReportIsOutcome(ticket: nat, use: Use, g: nat)
    ensures Reported(Report(ticket, use), g) == if ticket == g then OutcomeOf(use) else []
  {
    ReportFollowsUse(ticket, use);
  }

  /** The outcomes of the uses that ended under generation `g`, oldest first. */
  ghost function Outcomes(cfg: Config, t: Traffic, g: nat): seq<bool> {
    match t
    case Quiet => []
    case Then(before, Begin(_, _)) => Outcomes(cfg, before, g)
    case Then(before, Finish(id, use, _)) =>
      Outcomes(cfg, before, g) +
      (if id in InFlight(cfg, before) && InFlight(cfg, before)[id] == g then OutcomeOf(use) else [])
  }

  lemma {:induction false} OutcomesAreLogged(cfg: Config, t: Traffic, g: nat)
    requires Orderly(cfg, t)
    ensures LiveOutcomes(Log(cfg, t), g) == Outcomes(cfg, t, g)
  {
    match t
    case Quiet =>
    case Then(before, Begin(_, at)) =>
      OutcomesAreLogged(cfg, before, g);
      HistoryStep(Log(cfg, before), Action(Ask, at), g);
      assert Log(cfg, t) == Log(cfg, before) + [Action(Ask, at)];
    case Then(before, Finish(id, use, at)) =>
      var ticket := InFlight(cfg, before)[id];
      OutcomesAreLogged(cfg, before, g);
      HistoryStep(Log(cfg, before), Action(Report(ticket, use), at), g);
      ReportIsOutcome(ticket, use, g);
      assert Log(cfg, t) == Log(cfg, before) + [Action(Report(ticket, use), at)];
  }

  /** Over all traffic: while a breaker is closed, its count is the number of uses of this closed period that
      erred in a row, up to now. */
  lemma CountIsErrorsInARow(cfg: Config, t: Traffic)
    requires cfg.failThreshold >= 1 && Orderly(cfg, t) && Final(cfg, t).b.state.Closed?
    ensures TailIs(Outcomes(cfg, t, Final(cfg, t).b.generation), Final(cfg, t).b.failures)
  {
    TrafficIsARun(cfg, t);
    CounterIsHistory(cfg, Log(cfg, t));
    OutcomesAreLogged(cfg, t, Final(cfg, t).b.generation);
  }

  lemma CountStep(cfg: Config, w: World, a: Action)
    requires TicketsAgree(cfg, w) && Enabled(w, a) && w.b.state.Closed?
    ensures var v, live := Step(cfg, w, a), a.kind == Fail(w.b.generation);
            && (v.b.failures > w.b.failures <==> live)
            && (live ==> v.b.failures == w.b.failures + 1)
            && (v.b.state.Open? <==> live && w.b.failures + 1 >= cfg.failThreshold)
            && !v.b.state.HalfOpen?
  {
  }

  /** The last event of the traffic is the end of a use that errs under the breaker's live generation. */
  ghost predicate UseErrs(cfg: Config, t: Traffic)
    requires t.Then? && Orderly(cfg, t)
  {
    t.event.Finish? && Errs(t.event.use) && InFlight(cfg, t.before)[t.event.id] == Final(cfg, t.before).b.generation
  }

  /** The count of a closed breaker rises, by one, on exactly the end of a use that errs while holding the live
      generation, and the breaker trips on exactly those that make `failThreshold` in a row. */
  lemma OnlyErrorsCount(cfg: Config, t: Traffic)
    requires cfg.failThreshold >= 1 && t.Then? && Orderly(cfg, t) && Final(cfg, t.before).b.state.Closed?
    ensures var b, after := Final(cfg, t.before).b, Final(cfg, t).b;
            && (after.failures > b.failures <==> UseErrs(cfg, t))
            && (UseErrs(cfg, t) ==> after.failures == b.failures + 1)
            && (after.state.Open? <==> LastAllFailures(Outcomes(cfg, t, b.generation), cfg.failThreshold))
            && !after.state.HalfOpen?
  {
    var w, a := Final(cfg, t.before), ActionOf(cfg, t);
    TrafficIsARun(cfg, t.before);
    TrafficIsARun(cfg, t);
    TicketInvariant(cfg, START, Log(cfg, t.before));
    PrefixStep(cfg, START, Log(cfg, t.before), a);
    CountStep(cfg, w, a);
    TripsExactlyOnThreshold(cfg, Log(cfg, t.before), a);
    OutcomesAreLogged(cfg, t, w.b.generation);
    if t.event.Finish? { ReportFollowsUse(InFlight(cfg, t.before)[t.event.id], t.event.use); }
  }

  lemma TrialEndStep(cfg: Config, w: World, a: Action)
    requires TicketsAgree(cfg, w) && Enabled(w, a) && w.b.state.HalfOpen?
    ensures var v := Step(cfg, w, a);
            && (v.b.state.Closed? <==> a.kind == Succeed(w.b.generation))
            && (v.b.state.Open? <==> a.kind == Fail(w.b.generation))
            && (v.b.state.HalfOpen? && w.b.trialInFlight && !v.b.trialInFlight <==> a.kind == Abort(w.b.generation))
  {
  }

  /** A half-open breaker is decided by its trial alone: it closes exactly when the trial succeeds, opens again
      exactly when it errs, and is free for another trial exactly when it ends in any other way. */
  lemma TrialDecides(cfg: Config, t: Traffic)
    requires cfg.failThreshold >= 1 && t.Then? && Orderly(cfg, t) && Final(cfg, t.before).b.state.HalfOpen?
    ensures var b, after := Final(cfg, t.before).b, Final(cfg, t).b;
            var trialEnds := t.event.Finish? && InFlight(cfg, t.before)[t.event.id] == b.generation;
            && (after.state.Closed? <==> trialEnds && Succeeds(t.event.use))
            && (after.state.Open? <==> trialEnds && Errs(t.event.use))
            && (after.state.HalfOpen? && b.trialInFlight && !after.trialInFlight <==>
                  trialEnds && !Succeeds(t.event.use) && !Errs(t.event.use))
  {
    var w, a := Final(cfg, t.before), ActionOf(cfg, t);
    TrafficIsARun(cfg, t.before);
    TrafficIsARun(cfg, t);
    TicketInvariant(cfg, START, Log(cfg, t.before));
    PrefixStep(cfg, START, Log(cfg, t.before), a);
    TrialEndStep(cfg, w, a);
    if t.event.Finish? { ReportFollowsUse(InFlight(cfg, t.before)[t.event.id], t.event.use); }
  }

  // ---------------------------------------------------------------- traffic of streams only

  ghost predicate OnlyStreamsSince(t: Traffic, earlier: Traffic) {
    t == earlier || (t.Then? && (t.event.Finish? ==> t.event.use.StreamEnds?) && OnlyStreamsSince(t.before, earlier))
  }

  /** Traffic of streams alone never lowers the failure count and never closes a breaker that is not
      closed, however many streams it delivers to their end. */
  lemma {:induction false} StreamsNeverRecover(cfg: Config, t: Traffic, earlier: Traffic)
    requires Orderly(cfg, t) && OnlyStreamsSince(t, earlier)
    ensures Final(cfg, earlier).b.failures <= Final(cfg, t).b.failures
    ensures !Final(cfg, earlier).b.state.Closed? ==> !Final(cfg, t).b.state.Closed?
  {
    if t != earlier {
      StreamsNeverRecover(cfg, t.before, earlier);
      OnlyCallsRecover(cfg, t);
    }
  }
}
