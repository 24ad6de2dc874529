/** The wrapper of `app/core/resilience/resilient_adapter.py`: a timeout and a circuit breaker around a
    provider adapter.  Other callers share the breaker: between the admission of a use and its report they
    may leave the breaker in any state. */
module ResilientAdapters {
  import opened Options
  import opened Sequences
  import opened CircuitBreakers
  import opened BreakerRuns
  import opened Chat
  import opened Streams
  import opened ProviderAdapters

  const CIRCUIT_OPEN := UpstreamUnavailable("circuit open")
  const TIMED_OUT := "timed out"
  const STALLED := "stalled mid-stream"

  /** What a candidate's call comes to, breaker and timeout included. */
  function Guarded(allowed: bool, inner: Awaited): Outcome {
    if !allowed then Raises(CIRCUIT_OPEN)
    else match inner
      case NeverSettles => Raises(UpstreamAmbiguous(TIMED_OUT))
      case Settles(outcome) => outcome
  }

  /** The one report on an admitted call. */
  function CallReport(generation: nat, inner: Awaited): Kind {
    match Guarded(true, inner)
    case Responds(_) => Succeed(generation)
    case Raises(f) => if f.Cancelled? then Abort(generation) else Fail(generation)
  }

  /** The breaker after some reports at time `at`. */
  ghost function AfterReports(cfg: Config, b: Breaker, reports: seq<Kind>, at: real): Breaker {
    if reports == [] then b
    else Step(cfg, World(AfterReports(cfg, b, Front(reports), at), multiset{}, at), Action(Last(reports), at)).b
  }

  /** One `record_*` call, to the breaker as others have left it. */
  method Report(breaker: CircuitBreaker, left: Breaker, kind: Kind, at: real)
    requires kind != Ask
    modifies breaker
    ensures breaker.Value() == AfterReports(breaker.cfg, left, [kind], at)
  {
    assert Front([kind]) == [];
    Meanwhile(breaker, left);
    match kind {
      case Succeed(ticket) => breaker.RecordSuccess(ticket);
      case Fail(ticket) => breaker.RecordFailure(ticket, at);
      case Abort(ticket) => breaker.RecordAbort(ticket);
    }
  }

  /** `complete`: a hang is cut by the timeout and becomes ambiguous; every other outcome passes through
      unchanged; an admitted call reports exactly once, under its own ticket; a refused one neither calls
      the provider nor reports. */
  method Complete(breaker: CircuitBreaker, inner: Awaited, asked: real, left: Breaker, ended: real)
    returns (outcome: Outcome, touched: bool)
    modifies breaker
    ensures touched == Admits(breaker.cfg, old(breaker.Value()), asked)
    ensures outcome == Guarded(touched, inner)
    ensures var b := Allow(breaker.cfg, old(breaker.Value()), asked);
            breaker.Value() == if touched then AfterReports(breaker.cfg, left, [CallReport(b.generation, inner)], ended)
                               else b
  {
    var allowed, generation := breaker.Ask(asked);
    touched := allowed;
    if !allowed {
      return Raises(CIRCUIT_OPEN), touched;
    }
    match inner {
      case NeverSettles =>
        Report(breaker, left, Fail(generation), ended);
        return Raises(UpstreamAmbiguous(TIMED_OUT)), touched;
      case Settles(Raises(f)) =>
        if f.Cancelled? {
          Report(breaker, left, Abort(generation), ended);
        } else {
          Report(breaker, left, Fail(generation), ended);
        }
        return Raises(f), touched;
      case Settles(Responds(response)) =>
        Report(breaker, left, Succeed(generation), ended);
        return Responds(response), touched;
    }
  }

  /** The generator the wrapper is to its consumer. */
  function GuardedStream(allowed: bool, inner: Source): Source {
    if !allowed then Source([], Fails(CIRCUIT_OPEN))
    else if inner.end.Stalls? then
      Source(inner.deltas, Fails(if inner.deltas == [] then UpstreamAmbiguous(TIMED_OUT)
                                 else StreamInterrupted(STALLED, None)))
    else inner
  }

  /** The reports on a started stream: an abort if its consumer closes it, if it is cancelled, or not at
      all if the inner stream stops without a terminal response. */
  function StreamReports(generation: nat, inner: Source, closeAt: Option<nat>): seq<Kind> {
    if CutShort(inner, closeAt) then [Abort(generation)]
    else match inner.end
      case Completes(_) => [Succeed(generation)]
      case Fails(Cancelled) => [Abort(generation)]
      case Fails(_) => [Fail(generation)]
      case Stalls => [Fail(generation)]
      case Stops => []
  }

  function EndingOf(s: Source, closeAt: Option<nat>): Ending {
    if CutShort(s, closeAt) then ClosedByConsumer
    else match s.end
      case Completes(_) => Exhausted
      case Fails(f) => Raised(f)
      case Stalls => Raised(OtherError(TIMED_OUT))
      case Stops => Exhausted
  }

  /** The forwarding loop: a hang is cut by the timeout, ambiguous before the first delta and an
      interruption after it. */
  method Forward(inner: Source, closeAt: Option<nat>) returns (yielded: seq<StreamEvent>, ending: Ending)
    ensures yielded == Received(GuardedStream(true, inner), closeAt)
    ensures ending == EndingOf(GuardedStream(true, inner), closeAt)
  {
    yielded := [];
    var emittedAny := false;
    var p := 0;
    while true
      invariant p <= |inner.deltas| && emittedAny == (p > 0)
      invariant yielded == Events(inner)[..p]
      invariant closeAt.Some? ==> p <= closeAt.value
      decreases |inner.deltas| - p
    {
      var item := Pull(inner, p);
      match item {
        case StopIteration => return yielded, Exhausted;
        case Timeout =>
          return yielded, Raised(if emittedAny then StreamInterrupted(STALLED, None) else UpstreamAmbiguous(TIMED_OUT));
        case Raise(f) => return yielded, Raised(f);
        case Event(event) =>
          yielded := yielded + [event];
          assert yielded == Events(inner)[..p + 1];
          if ClosesAt(closeAt, p) {
            return yielded, ClosedByConsumer;
          }
          if event.Terminal? {
            return yielded, Exhausted;
          }
          emittedAny := true;
      }
      p := p + 1;
    }
  }

  /** The report that the wrapper's handlers make on what has been forwarded. */
  function ReportsOn(generation: nat, yielded: seq<StreamEvent>, ending: Ending): seq<Kind> {
    match ending
    case Raised(f) => if f.Cancelled? then [Abort(generation)] else [Fail(generation)]
    case ClosedByConsumer => [Abort(generation)]
    case Exhausted => if yielded != [] && Last(yielded).Terminal? then [Succeed(generation)] else []
  }

  lemma HandlersReport(generation: nat, inner: Source, closeAt: Option<nat>)
    ensures var s := GuardedStream(true, inner);
            ReportsOn(generation, Received(s, closeAt), EndingOf(s, closeAt))
            == StreamReports(generation, inner, closeAt)
  {
    var s := GuardedStream(true, inner);
    assert |Events(s)| == |Events(inner)|;
    assert CutShort(s, closeAt) == CutShort(inner, closeAt);
    if !CutShort(s, closeAt) && s.end.Stops? && s.deltas != [] {
      assert Last(Events(s)) == Delta(Last(s.deltas));
    }
  }

  /** `stream`: forwards the inner stream until it ends or its consumer closes it, and then reports how
      that went; a refused stream neither starts nor reports. */
  method Stream(breaker: CircuitBreaker, inner: Source, closeAt: Option<nat>, asked: real, left: Breaker, ended: real)
    returns (yielded: seq<StreamEvent>, ending: Ending, touched: bool)
    modifies breaker
    ensures touched == Admits(breaker.cfg, old(breaker.Value()), asked)
    ensures yielded == Received(GuardedStream(touched, inner), closeAt)
    ensures ending == EndingOf(GuardedStream(touched, inner), closeAt)
    ensures var b := Allow(breaker.cfg, old(breaker.Value()), asked);
            breaker.Value() == if touched then
                                 AfterReports(breaker.cfg, left, StreamReports(b.generation, inner, closeAt), ended)
                               else b
  {
    var allowed, generation := breaker.Ask(asked);
    yielded, touched := [], allowed;
    if !allowed {
      return yielded, Raised(CIRCUIT_OPEN), touched;
    }
    yielded, ending := Forward(inner, closeAt);
    HandlersReport(generation, inner, closeAt);
    match ending {
      case Raised(f) =>
        if f.Cancelled? {
          Report(breaker, left, Abort(generation), ended);
        } else {
          Report(breaker, left, Fail(generation), ended);
        }
      case ClosedByConsumer =>
        Report(breaker, left, Abort(generation), ended);
      case Exhausted =>
        if yielded != [] && Last(yielded).Terminal? {
          Report(breaker, left, Succeed(generation), ended);
        } else {
          Meanwhile(breaker, left);
        }
    }
  }

  lemma OneReport(generation: nat, inner: Source, closeAt: Option<nat>)
    requires !inner.end.Stops?
    ensures var records := StreamReports(generation, inner, closeAt);
            && (records == [Succeed(generation)] <==> inner.end.Completes? && !CutShort(inner, closeAt))
            && (records == [Fail(generation)] <==>
                  && !CutShort(inner, closeAt)
                  && (inner.end.Stalls? || (inner.end.Fails? && !inner.end.failure.Cancelled?)))
            && (records == [Abort(generation)] <==>
                  CutShort(inner, closeAt) || (inner.end.Fails? && inner.end.failure.Cancelled?))
  {
  }

  /** The consumer closes the provider's stream at an event it delivers, its terminal response included. */
  predicate ClosesEarly(s: ProviderStream, closeAt: Option<nat>) {
    closeAt.Some? && closeAt.value < |SourceOf(s).deltas| + if s.ending.Finished? then 1 else 0
  }

  /** One report per admitted stream, under its ticket: a success if its consumer resumes past the terminal
      response, a failure if it gets to an SDK error, a stall or an unexpected exception, and an abort if it
      is closed before or cancelled; a refused stream makes none. */
  lemma OneReportPerStream(allowed: bool, generation: nat, s: ProviderStream, closeAt: Option<nat>)
    ensures var records := if allowed then StreamReports(generation, SourceOf(s), closeAt) else [];
            var closed := ClosesEarly(s, closeAt);
            && (!allowed <==> records == [])
            && (records == [Succeed(generation)] <==> allowed && s.ending.Finished? && !closed)
            && (records == [Fail(generation)] <==>
                  allowed && (s.ending.Errored? || s.ending.Hangs? || s.ending.Escapes?) && !closed)
            && (records == [Abort(generation)] <==> allowed && (closed || s.ending.TaskCancelled?))
  {
    var inner := SourceOf(s);
    assert !inner.end.Stops? && (inner.end.Completes? <==> s.ending.Finished?);
    assert CutShort(inner, closeAt) == ClosesEarly(s, closeAt);
    if allowed {
      OneReport(generation, inner, closeAt);
    }
  }

  /** The class of a stream's failure tells what was delivered: the composed adapter raises
      `StreamInterrupted` exactly when at least one delta was yielded, for every stream that ends in an
      SDK error or a stall; a partial response carries exactly the text of the yielded deltas, and a
      stall carries none. */
  lemma FailureTracksDelivery(s: ProviderStream)
    requires s.ending.Errored? || s.ending.Hangs?
    ensures var stream := GuardedStream(true, SourceOf(s));
            && stream.end.Fails?
            && stream.deltas == SourceOf(s).deltas
            && (stream.end.failure.StreamInterrupted? <==> stream.deltas != [])
            && (stream.deltas == [] ==>
                  stream.end.failure.UpstreamUnavailable? || stream.end.failure.UpstreamAmbiguous?)
            && (stream.deltas != [] && s.ending.Errored? ==>
                  stream.end.failure.partial.Some?
                  && stream.end.failure.partial.value.content == DeliveredText(Events(stream)))
            && (stream.deltas != [] && s.ending.Hangs? ==> stream.end.failure.partial.None?)
  {
    AdapterContract(s);
    var stream := GuardedStream(true, SourceOf(s));
    DeltasDeliver(stream.deltas, stream.end);
  }

  /** Which failure a guarded call raises, for every end of the SDK's call. */
  lemma CallFailures(allowed: bool, c: ProviderCall)
    ensures var o := Guarded(allowed, AwaitCall(c));
            && (o.Raises? && o.failure.UpstreamUnavailable? <==> !allowed || Refuses(c.end))
            && (o.Raises? && o.failure.UpstreamAmbiguous? <==>
                  allowed && (c.end.Hangs? || (c.end.Errored? && !Refuses(c.end))
                              || (c.end.Finished? && Translate(c.reply).Raises?)))
            && (o.Raises? && o.failure.Cancelled? <==> allowed && c.end.TaskCancelled?)
            && (o.Raises? && o.failure.OtherError? <==> allowed && c.end.Escapes?)
            && (o.Responds? <==> allowed && c.end.Finished? && Translate(c.reply).Responds?)
            && (allowed && c.end.Finished? ==> o == Translate(c.reply))
            && (allowed && c.end.Errored? ==> o.failure.why == c.end.error.why)
            && (allowed && c.end.Escapes? ==> o.failure.why == c.end.why)
  {
  }

  /** Which failure a guarded stream raises, for every script of SDK events. */
  lemma StreamFailures(allowed: bool, s: ProviderStream)
    ensures var end := GuardedStream(allowed, SourceOf(s)).end;
            && (end.Fails? && end.failure.UpstreamUnavailable? <==> !allowed || (Refuses(s.ending) && !HasText(s)))
            && (end.Fails? && end.failure.StreamInterrupted? <==>
                  allowed && (s.ending.Errored? || s.ending.Hangs?) && HasText(s))
            && (end.Fails? && end.failure.UpstreamAmbiguous? <==>
                  allowed && ((s.ending.Errored? && !Refuses(s.ending)) || s.ending.Hangs?) && !HasText(s))
            && (end.Fails? && end.failure.Cancelled? <==> allowed && s.ending.TaskCancelled?)
            && (end.Fails? && end.failure.OtherError? <==> allowed && s.ending.Escapes?)
            && (end.Completes? <==> allowed && s.ending.Finished?)
            && (end.Fails? || end.Completes?)
            && (allowed && !s.ending.Hangs? ==> end == SourceOf(s).end)
            && GuardedStream(allowed, SourceOf(s)).deltas == if allowed then SourceOf(s).deltas else []
  {
    TextIsDelivered(s);
  }

  /** "Unavailable" is sound for a call: its provider did not run it. */
  lemma UnavailableCallsDidNotRun(allowed: bool, c: ProviderCall)
    requires TruthfulCall(c)
    requires Guarded(allowed, AwaitCall(c)).Raises? && Guarded(allowed, AwaitCall(c)).failure.UpstreamUnavailable?
    ensures !(allowed && c.executed)
  {
    CallFailures(allowed, c);
  }

  /** It is not sound for every stream: the provider of a stream that raises it can have run the request
      exactly if the stream was admitted and broke early, after something arrived and before any text. */
  lemma UnavailableStreamsRanIffBrokenEarly(allowed: bool, s: ProviderStream)
    ensures var end := GuardedStream(allowed, SourceOf(s)).end;
            (exists ran :: TruthfulStream(s, ran) && allowed && ran && end.Fails? && end.failure.UpstreamUnavailable?)
            <==> allowed && BreaksEarly(s)
  {
    StreamFailures(allowed, s);
    assert TruthfulStream(s, true) <==> !Refuses(s.ending) || Arrived(s);
  }

  lemma EndingByEnd(guarded: Source, closeAt: Option<nat>)
    requires guarded.end.Completes? || guarded.end.Fails?
    ensures var ending := EndingOf(guarded, closeAt);
            && (ending.ClosedByConsumer? <==> CutShort(guarded, closeAt))
            && (ending.Exhausted? <==> guarded.end.Completes? && !CutShort(guarded, closeAt))
            && (ending.Raised? <==> guarded.end.Fails? && !CutShort(guarded, closeAt))
            && (ending.Raised? ==> guarded.end == Fails(ending.failure))
  {
  }

  /** How a guarded stream ends for its consumer: exhausted exactly if it finishes and the consumer resumes past
      its terminal response, closed exactly if the consumer closes it at an event it delivers, and otherwise
      with its failure. */
  lemma EndingFollowsConsumer(s: ProviderStream, closeAt: Option<nat>)
    ensures var guarded := GuardedStream(true, SourceOf(s));
            var ending := EndingOf(guarded, closeAt);
            && (ending.ClosedByConsumer? <==> ClosesEarly(s, closeAt))
            && (ending.Exhausted? <==> s.ending.Finished? && !ClosesEarly(s, closeAt))
            && (ending.Raised? <==> !s.ending.Finished? && !ClosesEarly(s, closeAt))
            && (ending.Raised? ==> guarded.end == Fails(ending.failure))
  {
    var guarded := GuardedStream(true, SourceOf(s));
    StreamFailures(true, s);
    assert CutShort(guarded, closeAt) == ClosesEarly(s, closeAt);
    EndingByEnd(guarded, closeAt);
  }
}
