/** At-most-once from the provider call to the idempotency key: the provider adapters, the resilience
    wrapper, failover under at-most-once, and the claim protocol, composed. */
module EndToEnd {
  import opened Options
  import opened Sequences
  import opened Chat
  import opened Streams
  import opened ProviderAdapters
  import opened ResilientAdapters
  import opened Gateways
  import opened StreamPipelines
  import opened IdempotencyStores
  import opened IdempotencyServices
  import opened IdempotencyRuns

  /** A candidate of a plain request: without an adapter, or a provider call behind its breaker. */
  datatype CallCandidate = Unregistered | Registered(admitted: bool, call: ProviderCall)

  function AttemptOf(c: CallCandidate): Attempt {
    match c
    case Unregistered => NotRegistered
    case Registered(admitted, call) => Tried(Guarded(admitted, AwaitCall(call)))
  }

  function CallAttempts(candidates: seq<CallCandidate>): seq<Attempt> {
    seq(|candidates|, i requires 0 <= i < |candidates| => AttemptOf(candidates[i]))
  }

  /** One owner's operation: a plain request, whose usage may fail to be recorded, or a streamed one up
      to its first event, with the candidates whose providers run it. */
  datatype Work =
    | Plain(calls: seq<CallCandidate>, recorded: bool)
    | Streamed(streams: seq<Candidate>, ran: seq<bool>)

  function ClassesOf(w: Work): seq<Class> {
    match w
    case Plain(calls, _) => Classes(CallAttempts(calls))
    case Streamed(streams, _) => StreamClasses(Attempts(streams))
  }

  /** Which candidates' providers run the request if it is tried there. */
  function RanOf(w: Work): seq<bool> {
    match w
    case Plain(calls, _) =>
      seq(|calls|, i requires 0 <= i < |calls| =>
        calls[i].Registered? && calls[i].admitted && calls[i].call.executed)
    case Streamed(_, ran) => ran
  }

  /** A provider that is not asked does not run: nothing runs for a candidate without an adapter or behind
      a breaker that refuses it. */
  predicate Consistent(w: Work) {
    w.Streamed? ==>
      && |w.ran| == |w.streams|
      && forall i :: 0 <= i < |w.ran| && w.ran[i] ==> w.streams[i].Configured? && w.streams[i].admitted
  }

  /** The candidate's provider ran the request, and yet its failure says that it did not: the call was
      refused after all, or the stream was, without any text before that. */
  predicate RanUnseen(w: Work, i: nat)
    requires Consistent(w) && i < |ClassesOf(w)|
  {
    match w
    case Plain(calls, _) => RanOf(w)[i] && Refuses(calls[i].call.end)
    case Streamed(streams, ran) =>
      ran[i] && Refuses(streams[i].provider.ending) && !HasText(streams[i].provider)
  }

  /** How many of the first `n` candidates ran the request unseen. */
  function UnseenRuns(w: Work, n: nat): nat
    requires Consistent(w) && n <= |ClassesOf(w)|
  {
    if n == 0 then 0 else UnseenRuns(w, n - 1) + (if RanUnseen(w, n - 1) then 1 else 0)
  }

  function SelectionOf(w: Work): (s: Selection)
    ensures Selects(ClassesOf(w), AtMostOnce, s)
  {
    Select(ClassesOf(w), AtMostOnce)
  }

  /** How many provider calls the work executes, under at-most-once. */
  function ExecutionsOf(w: Work): nat
    requires Consistent(w)
  {
    Executions(RanOf(w), Reached(ClassesOf(w), SelectionOf(w)))
  }

  /** What the idempotency service sees of the work. */
  function EndOfWork(w: Work): OperationEnd {
    match w
    case Plain(calls, recorded) => OperationEndOf(Recorded(Failover(CallAttempts(calls), AtMostOnce), recorded))
    case Streamed(streams, _) => CommitmentEnd(Commit(Attempts(streams), AtMostOnce))
  }

  /** The deciding candidate's provider ran the request. */
  predicate DeciderRan(w: Work)
    requires Consistent(w)
  {
    SelectionOf(w).Decided? && RanOf(w)[SelectionOf(w).index]
  }

  /** Nobody served the request, or the deciding call was cancelled, raised an exception no adapter
      expects, or could not record its usage. */
  predicate FreesTheKey(w: Work) {
    var s := SelectionOf(w);
    || s.Nobody?
    || ClassesOf(w)[s.index].Broken?
    || (w.Plain? && ClassesOf(w)[s.index].Served? && !w.recorded)
  }

  /** The work executes, and something about it escapes the protocol: it frees the key although some
      provider ran it, or more than one did. */
  predicate Leaks(w: Work)
    requires Consistent(w)
  {
    var s := SelectionOf(w);
    var unseen := UnseenRuns(w, if s.Decided? then s.index else |ClassesOf(w)|);
    || unseen >= 2
    || (unseen == 1 && (DeciderRan(w) || FreesTheKey(w)))
    || (DeciderRan(w) && FreesTheKey(w))
  }

  lemma UnseenCall(c: CallCandidate)
    requires c.Registered? && c.admitted
    ensures ClassOf(AttemptOf(c)).NotRun? <==> Refuses(c.call.end)
    ensures !ClassOf(AttemptOf(c)).Skipped?
  {
    CallFailures(c.admitted, c.call);
  }

  lemma UnseenStream(c: Candidate)
    requires c.Configured? && c.admitted
    ensures ClassOfStream(StreamOf(c)).NotRun? <==> Refuses(c.provider.ending) && !HasText(c.provider)
    ensures !ClassOfStream(StreamOf(c)).Skipped?
  {
    StreamFailures(true, c.provider);
    TextIsDelivered(c.provider);
  }

  /** Of the candidates that the gateway takes for not run, exactly those ran unseen that ran at all. */
  lemma PassedOverIsUnseen(w: Work, i: nat)
    requires Consistent(w) && i < |ClassesOf(w)|
    ensures RanUnseen(w, i) <==> RanOf(w)[i] && (ClassesOf(w)[i].Skipped? || ClassesOf(w)[i].NotRun?)
  {
    match w
    case Plain(calls, _) => if RanOf(w)[i] { UnseenCall(calls[i]); }
    case Streamed(streams, ran) => if ran[i] { UnseenStream(streams[i]); }
  }

  lemma {:induction false} UnseenRunsAreCounted(w: Work, n: nat)
    requires Consistent(w) && n <= |ClassesOf(w)|
    ensures UnseenRuns(w, n) == Unseen(ClassesOf(w), RanOf(w), n)
  {
    if n > 0 {
      UnseenRunsAreCounted(w, n - 1);
      PassedOverIsUnseen(w, n - 1);
    }
  }

  /** The end of the work follows the class of the deciding candidate. */
  lemma EndFollowsClass(w: Work)
    ensures EndOfWork(w).RaisedOther? <==> FreesTheKey(w)
  {
    FailoverIsSafe(ClassesOf(w), AtMostOnce, SelectionOf(w));
    match w
    case Plain(calls, _) => FailoverFollowsClass(CallAttempts(calls), AtMostOnce);
    case Streamed(streams, _) => CommitFollowsClass(Attempts(streams), AtMostOnce);
  }

  /** Work is safe to run under an idempotency key, executing at most once and never freeing the key
      after it executed, if and only if it does not leak.  Nothing is assumed of the providers. */
  lemma SafeIffNoLeak(w: Work)
    requires Consistent(w)
    ensures SafeOperation(EndOfWork(w), ExecutionsOf(w)) <==> !Leaks(w)
  {
    var s := SelectionOf(w);
    ExecutionsAreAccountedFor(ClassesOf(w), RanOf(w), AtMostOnce, s);
    FailoverIsSafe(ClassesOf(w), AtMostOnce, s);
    UnseenRunsAreCounted(w, if s.Decided? then s.index else |ClassesOf(w)|);
    EndFollowsClass(w);
  }

  // ---------------------------------------------------------------- what the designers assume

  /** The designers' assumption: a failed connection and a status below 500 mean that the provider did not
      run the request, unless the SDK had delivered something of its stream. */
  ghost predicate TruthfulWork(w: Work)
    requires Consistent(w)
  {
    match w
    case Plain(calls, _) => forall i :: 0 <= i < |calls| && calls[i].Registered? ==> TruthfulCall(calls[i].call)
    case Streamed(streams, ran) =>
      forall i :: 0 <= i < |streams| && streams[i].Configured? ==> TruthfulStream(streams[i].provider, ran[i])
  }

  /** Under the assumption no call runs unseen, and a stream does exactly if it breaks early: after
      something arrived and before any text. */
  lemma UnseenRunsBreakEarly(w: Work, i: nat)
    requires Consistent(w) && TruthfulWork(w) && i < |ClassesOf(w)|
    ensures RanUnseen(w, i) <==> w.Streamed? && w.ran[i] && BreaksEarly(w.streams[i].provider)
  {
    if w.Streamed? && w.ran[i] {
      assert TruthfulStream(w.streams[i].provider, w.ran[i]);
    }
  }

  lemma {:induction false} NoUnseenRuns(w: Work, n: nat)
    requires Consistent(w) && TruthfulWork(w) && n <= |ClassesOf(w)|
    requires w.Streamed? ==> forall i :: 0 <= i < n && w.ran[i] ==> !BreaksEarly(w.streams[i].provider)
    ensures UnseenRuns(w, n) == 0
  {
    if n > 0 {
      NoUnseenRuns(w, n - 1);
      UnseenRunsBreakEarly(w, n - 1);
    }
  }

  /** Under the assumption, work whose streams do not break early is safe if and only if it is not
      interrupted: its deciding provider ran it, and then it was cancelled, raised an exception no adapter
      expects, or could not record its usage.  Every plain request is such work. */
  lemma SafeIffNotInterrupted(w: Work)
    requires Consistent(w) && TruthfulWork(w)
    requires w.Streamed? ==> forall i :: 0 <= i < |w.ran| && w.ran[i] ==> !BreaksEarly(w.streams[i].provider)
    ensures SafeOperation(EndOfWork(w), ExecutionsOf(w)) <==> !(DeciderRan(w) && FreesTheKey(w))
  {
    SafeIffNoLeak(w);
    NoUnseenRuns(w, if SelectionOf(w).Decided? then SelectionOf(w).index else |ClassesOf(w)|);
  }

  // ---------------------------------------------------------------- under an idempotency key

  /** The operation step carries out some work that does not leak. */
  ghost predicate CarriesOut(l: Label, w: Work) {
    && Consistent(w) && !Leaks(w)
    && l.Operation? && l.end == EndOfWork(w) && l.executions == ExecutionsOf(w)
  }

  ghost predicate RunsWork(h: IdempotencyRuns.History) {
    h.Then? ==> RunsWork(h.before) && (h.last.Operation? ==> exists w :: CarriesOut(h.last, w))
  }

  lemma {:induction false} WorkIsSafe(h: IdempotencyRuns.History)
    requires RunsWork(h)
    ensures AllSafe(h)
  {
    if h.Then? {
      WorkIsSafe(h.before);
      if h.last.Operation? {
        var w :| CarriesOut(h.last, w);
        SafeIffNoLeak(w);
      }
    }
  }

  /** Over every interleaving of requests that share a key, with any candidates, provider behaviours,
      breaker verdicts and lost commands: under at-most-once, until a record lapses, at most one
      provider call executes in the whole run, provided no operation leaks. */
  lemma AtMostOnceEndToEnd(cfg: Config, h: IdempotencyRuns.History)
    requires PositiveTtls(cfg) && Legal(cfg, h) && !After(cfg, h).lapsed && RunsWork(h)
    ensures After(cfg, h).executed <= 1
    ensures After(cfg, h).settled <= 1
  {
    WorkIsSafe(h);
    RunsAreSafe(cfg, h);
    IdempotencyRuns.AtMostOneExecution(cfg, h);
  }

  /** Any work that leaks has a run with a second execution under its key. */
  lemma LeakDefeatsAtMostOnce(cfg: Config, w: Work, fingerprint: Fingerprint) returns (h: IdempotencyRuns.History)
    requires PositiveTtls(cfg) && Consistent(w) && Leaks(w)
    ensures OperationsAre(h, EndOfWork(w), ExecutionsOf(w))
    ensures Legal(cfg, h) && !After(cfg, h).lapsed && After(cfg, h).executed >= 2
  {
    SafeIffNoLeak(w);
    h := UnsafeOperationRunsTwice(cfg, EndOfWork(w), ExecutionsOf(w), fingerprint);
  }

  function CancelledCall(reply: Reply): Work {
    Plain([Registered(true, ProviderCall(TaskCancelled, reply, true))], true)
  }

  lemma CancelledCallBreaks(reply: Reply)
    ensures ClassesOf(CancelledCall(reply)) == [Broken] && SelectionOf(CancelledCall(reply)) == Decided(0)
  {
    var w := CancelledCall(reply);
    assert ClassesOf(w)[0] == Broken;
    SelectionIsUnique(ClassesOf(w), AtMostOnce, Decided(0));
  }

  /** A cancelled call frees the key although its provider ran it, and the retry runs a second time. */
  lemma CancellationDefeatsAtMostOnce(cfg: Config, reply: Reply, fingerprint: Fingerprint)
    returns (h: IdempotencyRuns.History)
    requires PositiveTtls(cfg)
    ensures var w := CancelledCall(reply);
            Consistent(w) && TruthfulWork(w) && OperationsAre(h, EndOfWork(w), ExecutionsOf(w))
    ensures Legal(cfg, h) && !After(cfg, h).lapsed && After(cfg, h).executed >= 2
  {
    var w := CancelledCall(reply);
    CancelledCallBreaks(reply);
    h := LeakDefeatsAtMostOnce(cfg, w, fingerprint);
  }

  /** A stream whose connection fails after its message was announced. */
  function BrokenStream(id: string, why: string): ProviderStream {
    AnthropicStream("model", [MessageStart(id, "model", 10)], Errored(SdkError(ApiConnection, why)))
  }

  const SERVED_STREAM := OpenAIStream("model", [], SdkEnd.Finished)

  function BrokenThenServed(id: string, why: string): Work {
    Streamed([Configured(true, 0, BrokenStream(id, why)), Configured(true, 0, SERVED_STREAM)], [true, true])
  }

  lemma BrokenStreamIsPassedOver(id: string, why: string)
    ensures BreaksEarly(BrokenStream(id, why))
    ensures ClassOfStream(StreamOf(Configured(true, 0, BrokenStream(id, why)))) == NotRun
  {
    UnseenStream(Configured(true, 0, BrokenStream(id, why)));
  }

  lemma ServedStreamServes()
    ensures ClassOfStream(StreamOf(Configured(true, 0, SERVED_STREAM))) == Served
  {
  }

  lemma TwoStreamClasses(c: Candidate, d: Candidate)
    ensures StreamClasses(Attempts([c, d])) == [ClassOfStream(StreamOf(c)), ClassOfStream(StreamOf(d))]
  {
  }

  lemma BrokenThenServedClasses(id: string, why: string)
    ensures ClassesOf(BrokenThenServed(id, why)) == [NotRun, Served]
    ensures SelectionOf(BrokenThenServed(id, why)) == Decided(1)
  {
    BrokenStreamIsPassedOver(id, why);
    ServedStreamServes();
    TwoStreamClasses(Configured(true, 0, BrokenStream(id, why)), Configured(true, 0, SERVED_STREAM));
    SelectionIsUnique([NotRun, Served], AtMostOnce, Decided(1));
  }

  lemma BrokenThenServedIsTruthful(id: string, why: string)
    ensures Consistent(BrokenThenServed(id, why)) && TruthfulWork(BrokenThenServed(id, why))
  {
  }

  /** A stream that breaks early is failed over although its provider ran it: the request executes twice
      within one operation, and nothing was cancelled, unexpected or left unrecorded. */
  lemma EarlyBreakExecutesTwice(id: string, why: string)
    ensures var w := BrokenThenServed(id, why);
            && Consistent(w) && TruthfulWork(w) && !FreesTheKey(w)
            && ExecutionsOf(w) == 2 && Leaks(w)
  {
    var w := BrokenThenServed(id, why);
    BrokenThenServedIsTruthful(id, why);
    BrokenThenServedClasses(id, why);
    assert Executions(RanOf(w), 2) == Executions(RanOf(w), 1) + 1 == Executions(RanOf(w), 0) + 2;
    SafeIffNoLeak(w);
  }

  /** So a single request under a key executes twice, before any record lapses. */
  lemma EarlyBreakDefeatsAtMostOnce(cfg: Config, id: string, why: string, fingerprint: Fingerprint)
    returns (h: IdempotencyRuns.History)
    requires PositiveTtls(cfg)
    ensures var w := BrokenThenServed(id, why);
            Consistent(w) && TruthfulWork(w) && OperationsAre(h, EndOfWork(w), ExecutionsOf(w))
    ensures Legal(cfg, h) && !After(cfg, h).lapsed && After(cfg, h).executed >= 2
  {
    EarlyBreakExecutesTwice(id, why);
    h := LeakDefeatsAtMostOnce(cfg, BrokenThenServed(id, why), fingerprint);
  }

  // ---------------------------------------------------------------- calls and streams

  /** The same candidate, asked for a call and for a stream: the same breaker verdict, and an SDK that
      ends in the same way. */
  predicate SameProvider(c: CallCandidate, d: Candidate) {
    match (c, d)
    case (Unregistered, Unconfigured) => true
    case (Registered(admitted, call), Configured(admitted', _, provider)) =>
      admitted == admitted' && call.end == provider.ending
    case _ => false
  }

  /** The candidate is not asked; or the call's reply can be parsed; or the stream ends in another way
      than by finishing, and delivers no text before that. */
  predicate Comparable(c: CallCandidate, d: Candidate)
    requires SameProvider(c, d)
  {
    || c.Unregistered?
    || !c.admitted
    || (if c.call.end.Finished? then Translate(c.call.reply).Responds? else !HasText(d.provider))
  }

  /** Failover sees a call and a stream of the same candidate alike exactly if they are comparable. */
  lemma ClassesAgree(c: CallCandidate, d: Candidate)
    requires SameProvider(c, d)
    ensures ClassOf(AttemptOf(c)) == ClassOfStream(StreamOf(d)) <==> Comparable(c, d)
  {
    if c.Registered? {
      CallFailures(c.admitted, c.call);
      StreamFailures(c.admitted, d.provider);
      TextIsDelivered(d.provider);
    }
  }

  /** For the same candidates, a streamed request commits exactly when a plain one responds, is decided by
      the same candidate, and otherwise fails in the same class. */
  lemma StreamAgreesWithComplete(calls: seq<CallCandidate>, streams: seq<Candidate>, policy: FailoverPolicy)
    requires |calls| == |streams|
    requires forall i :: 0 <= i < |calls| ==> SameProvider(calls[i], streams[i]) && Comparable(calls[i], streams[i])
    ensures var commitment, outcome := Commit(Attempts(streams), policy), Failover(CallAttempts(calls), policy);
            && Classes(CallAttempts(calls)) == StreamClasses(Attempts(streams))
            && (commitment.Committed? <==> outcome.Responds?)
            && (commitment.NotCommitted? ==> ClassOfFailure(commitment.failure) == ClassOfFailure(outcome.failure))
  {
    forall i | 0 <= i < |calls|
      ensures Classes(CallAttempts(calls))[i] == StreamClasses(Attempts(streams))[i]
    {
      ClassesAgree(calls[i], streams[i]);
    }
    FailoverFollowsClass(CallAttempts(calls), policy);
    CommitFollowsClass(Attempts(streams), policy);
  }
}
