/** A streamed request end to end: provider adapter, resilience wrapper, failover and billing,
    settlement under the idempotency key, and later replays. */
module StreamPipelines {
  import opened Options
  import opened Sequences
  import opened Chat
  import opened Streams
  import opened BreakerRuns
  import opened RedisCommands
  import opened ProviderAdapters
  import opened ResilientAdapters
  import opened Gateways
  import Idempotency = IdempotencyStores
  import IdempotencyRuns
  import opened IdempotencyServices

  /** A ranked candidate: without an adapter, or with its provider's stream behind its breaker. */
  datatype Candidate = Unconfigured | Configured(admitted: bool, ticket: nat, provider: ProviderStream)

  function StreamOf(c: Candidate): StreamAttempt {
    match c
    case Unconfigured => NoAdapter
    case Configured(admitted, _, provider) => Opened(GuardedStream(admitted, SourceOf(provider)))
  }

  function Attempts(candidates: seq<Candidate>): seq<StreamAttempt> {
    seq(|candidates|, i requires 0 <= i < |candidates| => StreamOf(candidates[i]))
  }

  /** The candidate a streamed request commits to. */
  ghost predicate Commits(candidates: seq<Candidate>, policy: FailoverPolicy, k: nat) {
    && k < |candidates| && candidates[k].Configured?
    && Select(StreamClasses(Attempts(candidates)), policy) == Decided(k)
    && Commit(Attempts(candidates), policy).Committed?
  }

  /** What a wrapped provider stream guarantees to its consumer: it ends in one way or the other, and
      its terminal or partial response is the provider's and carries the text of its deltas. */
  ghost predicate Faithful(s: Source, provider: Provider) {
    && !s.end.Stops? && !s.end.Stalls?
    && (s.end.Completes? ==> s.end.response.provider == provider && s.end.response.content == DeliveredText(Events(s)))
    && (s.end.Fails? && s.end.failure.StreamInterrupted? && s.end.failure.partial.Some? ==>
          var partial := s.end.failure.partial.value;
          partial.provider == provider && partial.content == DeliveredText(Events(s)))
  }

  lemma OnlyErrorsInterrupt(provider: ProviderStream)
    ensures var end := SourceOf(provider).end;
            end.Fails? && end.failure.StreamInterrupted? ==> provider.ending.Errored?
  {
  }

  lemma GuardedIsFaithful(admitted: bool, provider: ProviderStream)
    ensures Faithful(GuardedStream(admitted, SourceOf(provider)), ProviderOf(provider))
  {
    var inner, s := SourceOf(provider), GuardedStream(admitted, SourceOf(provider));
    if admitted && !inner.end.Stalls? {
      AdapterContract(provider);
      assert s == Source(inner.deltas, inner.end);
      DeltasDeliver(inner.deltas, inner.end);
      OnlyErrorsInterrupt(provider);
    }
  }

  ghost function Stream(candidates: seq<Candidate>, policy: FailoverPolicy, k: nat): (s: Source)
    requires Commits(candidates, policy, k)
    ensures s == GuardedStream(candidates[k].admitted, SourceOf(candidates[k].provider))
    ensures Commit(Attempts(candidates), policy) == Committed(s)
    ensures |Events(s)| > 0 && candidates[k].admitted && Faithful(s, ProviderOf(candidates[k].provider))
  {
    GuardedIsFaithful(candidates[k].admitted, candidates[k].provider);
    assert StreamClasses(Attempts(candidates))[k] == ClassOfStream(StreamOf(candidates[k]));
    Commit(Attempts(candidates), policy).stream
  }

  // ---------------------------------------------------------------- settlement

  /** The key's record after writes that all succeed at time `now`. */
  function Written(cfg: Idempotency.Config, slot: Option<Idempotency.Stored>, writes: seq<Idempotency.Write>,
                   fingerprint: Idempotency.Fingerprint, now: real): Option<Idempotency.Stored>
  {
    if writes == [] then slot
    else Idempotency.AfterWrite(cfg, Written(cfg, slot, Front(writes), fingerprint, now), Last(writes), fingerprint,
                                now, Answered)
  }

  /** The consumer received the terminal response and asked for more. */
  predicate ResumedPastTerminal(s: Source, consumer: Consumer) {
    s.end.Completes? && (consumer.Exhausts? || (consumer.ClosesWith? && consumer.at >= |Events(s)|))
  }

  /** The text of the exception with which a stream broke off. */
  function ReasonOf(s: Source, consumer: Consumer): string
    requires s.end.Completes? || s.end.Fails?
  {
    if CutShort(s, CloseIndex(consumer)) || s.end.Completes? || s.end.failure.Cancelled? then ""
    else if s.end.failure.ProviderNotAvailable? then PROVIDER_NOT_AVAILABLE
    else if s.end.failure.StoreUnavailable? then IdempotencyRuns.STORE_UNAVAILABLE
    else s.end.failure.why
  }

  /** The record that one settling write leaves: the response of a stream whose consumer resumed past it, and
      else the reason why it is not known: none for a stream that was closed or cancelled. */
  lemma SourceSettles(s: Source, consumer: Consumer, cfg: Idempotency.Config, slot: Option<Idempotency.Stored>,
                      fingerprint: Idempotency.Fingerprint, now: real)
    requires (s.end.Completes? || s.end.Fails?) && !consumer.NeverAsks?
    ensures var writes := SettlingWrites(s, consumer, true);
            var final := Written(cfg, slot, writes, fingerprint, now);
            && |writes| == 1 && !writes[0].Release?
            && final.Some? && final.value.expireAt == now + cfg.completedTtl
            && final.value.record == if ResumedPastTerminal(s, consumer)
                                     then Idempotency.Record(Idempotency.Completed, fingerprint,
                                                             Some(Serialize(s.end.response)), None)
                                     else Idempotency.Record(Idempotency.Ambiguous, fingerprint, None,
                                                             Some(ReasonOf(s, consumer)))
  {
    assert Front(SettlingWrites(s, consumer, true)) == [];
  }

  /** Whatever the providers and the consumer do, a committed stream that was asked for an event leaves
      its key completed exactly when the consumer resumed past the terminal response and ambiguous
      otherwise, with the reason; the key is never freed, and one write is all there is to overwrite. */
  lemma StreamSettles(candidates: seq<Candidate>, policy: FailoverPolicy, k: nat, recorded: bool, consumer: Consumer,
                      cfg: Idempotency.Config, slot: Option<Idempotency.Stored>,
                      fingerprint: Idempotency.Fingerprint, now: real)
    requires Commits(candidates, policy, k) && !consumer.NeverAsks?
    ensures var s := Drained(Stream(candidates, policy, k), recorded);
            var writes := SettlingWrites(s, consumer, true);
            var final := Written(cfg, slot, writes, fingerprint, now);
            && (s.end.Completes? || s.end.Fails?)
            && |writes| == 1 && !writes[0].Release?
            && final.Some? && final.value.expireAt == now + cfg.completedTtl
            && final.value.record.status == (if ResumedPastTerminal(s, consumer) then Idempotency.Completed
                                             else Idempotency.Ambiguous)
            && (ResumedPastTerminal(s, consumer) ==> final.value.record.response == Some(Serialize(s.end.response)))
            && (!ResumedPastTerminal(s, consumer) ==> final.value.record.error == Some(ReasonOf(s, consumer)))
  {
    var s := Drained(Stream(candidates, policy, k), recorded);
    SourceSettles(s, consumer, cfg, slot, fingerprint, now);
  }

  /** The writes the protocol makes for a streamed owner whose first settling write is `first`. */
  function ProtocolWrites(fingerprint: Idempotency.Fingerprint, first: Idempotency.Write,
                          network: Network): seq<Idempotency.Write>
  {
    var owner := IdempotencyRuns.Client(fingerprint, true, IdempotencyRuns.Settling(0.0, first));
    match IdempotencyRuns.AfterSettling(owner, 0.0, first, network)
    case Settling(_, second) => [first, second]
    case _ => [first]
  }

  /** If the write of the response fails, the key is parked as ambiguous instead; a stream that is never
      asked for an event writes nothing at all. */
  lemma FailedSettlement(s: Source, consumer: Consumer)
    requires ResumedPastTerminal(s, consumer)
    ensures SettlingWrites(s, consumer, false) == [Idempotency.Complete(Serialize(s.end.response)),
                                                   Idempotency.MarkAmbiguous(IdempotencyRuns.STORE_UNAVAILABLE)]
    ensures SettlingWrites(s, NeverAsks, false) == []
  {
  }

  lemma SettlesByProtocol(s: Source, consumer: Consumer, fingerprint: Idempotency.Fingerprint, network: Network)
    requires (s.end.Completes? || s.end.Fails?) && !consumer.NeverAsks?
    ensures var writes := SettlingWrites(s, consumer, network.Answered?);
            && writes != []
            && writes == ProtocolWrites(fingerprint, writes[0], network)
            && (writes[0].Complete? <==> ResumedPastTerminal(s, consumer))
            && !writes[0].Release?
  {
    if ResumedPastTerminal(s, consumer) && !network.Answered? {
      FailedSettlement(s, consumer);
    }
  }

  /** Settling a stream makes exactly the protocol's writes: the response first if the consumer resumed
      past it, and the ambiguous mark otherwise or when that first write fails. */
  lemma SettlingFollowsProtocol(candidates: seq<Candidate>, policy: FailoverPolicy, k: nat, recorded: bool,
                                consumer: Consumer, fingerprint: Idempotency.Fingerprint, network: Network)
    requires Commits(candidates, policy, k) && !consumer.NeverAsks?
    ensures var s := Drained(Stream(candidates, policy, k), recorded);
            var writes := SettlingWrites(s, consumer, network.Answered?);
            && writes != []
            && writes == ProtocolWrites(fingerprint, writes[0], network)
            && (writes[0].Complete? <==> ResumedPastTerminal(s, consumer))
            && !writes[0].Release?
  {
    SettlesByProtocol(Drained(Stream(candidates, policy, k), recorded), consumer, fingerprint, network);
  }

  // ---------------------------------------------------------------- replay

  lemma JoinOne(text: string)
    ensures Join([text]) == text
  {
    assert Front([text]) == [];
    assert "" + text == text;
  }

  /** A replay delivers the stored response's content and the response itself. */
  lemma ReplayDelivers(r: ChatResponse)
    ensures var replay := Events(Replay(Serialize(r)));
            replay != [] && DeliveredText(replay) == r.content && Last(replay) == Terminal(r)
  {
    SerializeRoundTrips(r);
    var again := Replay(Serialize(r));
    DeltasDeliver(again.deltas, again.end);
    JoinOne(r.content);
  }

  /** A replay of a fully consumed stream delivers the same text and the same terminal response. */
  lemma ReplayEqualsOriginal(candidates: seq<Candidate>, policy: FailoverPolicy, k: nat, recorded: bool,
                             consumer: Consumer)
    requires Commits(candidates, policy, k)
    requires ResumedPastTerminal(Drained(Stream(candidates, policy, k), recorded), consumer)
    ensures var s := Drained(Stream(candidates, policy, k), recorded);
            var original := Received(s, CloseIndex(consumer));
            var writes := SettlingWrites(s, consumer, true);
            && writes == [Idempotency.Complete(Serialize(s.end.response))]
            && var replay := Events(Replay(writes[0].body));
               && DeliveredText(replay) == DeliveredText(original)
               && replay != [] && Last(replay) == Last(original) == Terminal(s.end.response)
  {
    var s := Drained(Stream(candidates, policy, k), recorded);
    assert Received(s, CloseIndex(consumer)) == Events(s);
    ReplayDelivers(s.end.response);
  }

  // ---------------------------------------------------------------- billing

  /** The stream reached its terminal response, or was interrupted with a partial one. */
  predicate Billable(s: Source, closeAt: Option<nat>) {
    match s.end
    case Completes(_) => |Received(s, closeAt)| == |Events(s)|
    case Fails(StreamInterrupted(_, Some(_))) => !CutShort(s, closeAt)
    case _ => false
  }

  /** The response is the very one with which the stream ended for its consumer: the last event it received, or
      the partial response of the interruption it was raised. */
  ghost predicate ConsumerGot(s: Source, closeAt: Option<nat>, r: ChatResponse) {
    var received := Received(s, closeAt);
    || (received != [] && Last(received) == Terminal(r))
    || (!CutShort(s, closeAt) && s.end.Fails? && s.end.failure.StreamInterrupted? && s.end.failure.partial == Some(r))
  }

  lemma BillsOnce(s: Source, provider: Provider, closeAt: Option<nat>, apiKey: nat, recorded: bool)
    requires Faithful(s, provider)
    ensures var bill := Billed(s, closeAt, apiKey, recorded);
            && |bill| == (if recorded && Billable(s, closeAt) then 1 else 0)
            && (bill != [] ==> bill[0].apiKey == apiKey && bill[0].response.provider == provider
                               && bill[0].response.content == DeliveredText(Received(s, closeAt)))
            && (bill != [] ==> ConsumerGot(Drained(s, recorded), closeAt, bill[0].response))
  {
    if Billable(s, closeAt) {
      assert Received(s, closeAt) == Events(s);
    }
  }

  /** What a streamed request bills: a generator that is never asked for an event does not even start. */
  function BillOf(s: Source, consumer: Consumer, apiKey: nat, recorded: bool): seq<UsageRecord> {
    if consumer.NeverAsks? then [] else Billed(s, CloseIndex(consumer), apiKey, recorded)
  }

  /** A streamed request saves at most one usage record: one exactly when its consumer asked for an event,
      the recorder works, and the stream reached its terminal response or an interruption with a partial
      one; the record belongs to the committed candidate's provider and carries the delivered text. */
  lemma StreamBillsOnce(candidates: seq<Candidate>, policy: FailoverPolicy, k: nat, recorded: bool, consumer: Consumer,
                        apiKey: nat)
    requires Commits(candidates, policy, k)
    ensures var s := Stream(candidates, policy, k);
            var bill := BillOf(s, consumer, apiKey, recorded);
            && |bill| == (if !consumer.NeverAsks? && recorded && Billable(s, CloseIndex(consumer)) then 1 else 0)
            && (bill != [] ==>
                  && bill[0].apiKey == apiKey
                  && bill[0].response.provider == ProviderOf(candidates[k].provider)
                  && bill[0].response.content == DeliveredText(Received(Drained(s, recorded), CloseIndex(consumer)))
                  && ConsumerGot(Drained(s, recorded), CloseIndex(consumer), bill[0].response))
  {
    var s := Stream(candidates, policy, k);
    BillsOnce(s, ProviderOf(candidates[k].provider), CloseIndex(consumer), apiKey, recorded);
  }

  // ---------------------------------------------------------------- the breaker

  /** Where the gateway lets go of the committed candidate's generator: with the event at which its own
      consumer closed, or with the terminal response, past which draining never resumes it. */
  function GatewayCloseIndex(s: Source, consumer: Consumer): Option<nat> {
    if consumer.NeverAsks? then Some(0)
    else if CutShort(s, CloseIndex(consumer)) then CloseIndex(consumer)
    else if s.end.Completes? then Some(|s.deltas|)
    else None
  }

  lemma AlwaysEnds(provider: ProviderStream)
    ensures !SourceOf(provider).end.Stops?
  {
  }

  lemma GatewayReport(inner: Source, ticket: nat, consumer: Consumer)
    requires !inner.end.Stops?
    ensures var s := GuardedStream(true, inner);
            var reports := StreamReports(ticket, inner, GatewayCloseIndex(s, consumer));
            && (reports == [Abort(ticket)] || reports == [Fail(ticket)])
            && (s.end.Completes? ==> reports == [Abort(ticket)])
            && (reports == [Fail(ticket)] ==> s.end.Fails?)
  {
    assert |Events(GuardedStream(true, inner))| == |Events(inner)|;
  }

  /** Every committed stream makes exactly one report under its ticket, and through the gateway it is
      never a success: a stream delivered to its end is reported as aborted. */
  lemma StreamedSuccessIsReportedAsAbort(candidates: seq<Candidate>, policy: FailoverPolicy, k: nat, consumer: Consumer)
    requires Commits(candidates, policy, k)
    ensures var s, ticket := Stream(candidates, policy, k), candidates[k].ticket;
            var reports := StreamReports(ticket, SourceOf(candidates[k].provider), GatewayCloseIndex(s, consumer));
            && (reports == [Abort(ticket)] || reports == [Fail(ticket)])
            && (s.end.Completes? ==> reports == [Abort(ticket)])
            && (reports == [Fail(ticket)] ==> s.end.Fails?)
  {
    var s, inner := Stream(candidates, policy, k), SourceOf(candidates[k].provider);
    assert s == GuardedStream(true, inner);
    assert !inner.end.Stops? by { AlwaysEnds(candidates[k].provider); }
    GatewayReport(inner, candidates[k].ticket, consumer);
  }

  /** How a drained stream ends, by how its provider's stream ended. */
  lemma DrainedEnding(provider: ProviderStream, recorded: bool)
    requires SourceOf(provider).deltas != [] || provider.ending.Finished?
    ensures var end, ending := Drained(GuardedStream(true, SourceOf(provider)), recorded).end, provider.ending;
            match ending
            case Finished => if recorded then end.Completes? else end == Fails(RECORDING_FAILED)
            case Errored(_) => end.Fails? && (if recorded then end.failure.StreamInterrupted?
                                              else end == Fails(RECORDING_FAILED))
            case Hangs => end == Fails(StreamInterrupted(STALLED, None))
            case TaskCancelled => end == Fails(Cancelled)
            case Escapes(why) => end == Fails(OtherError(why))
    ensures Drained(GuardedStream(true, SourceOf(provider)), recorded).deltas == SourceOf(provider).deltas
  {
    AdapterContract(provider);
  }

  /** After the first event a stream fails as an interruption exactly when the provider's stream ended in
      a stall, or in an SDK error whose partial response was billed; a cancellation, an unexpected
      exception and a recorder that fails keep their own class. */
  lemma CommittedStreamsFailAsInterrupted(candidates: seq<Candidate>, policy: FailoverPolicy, k: nat, recorded: bool)
    requires Commits(candidates, policy, k)
    ensures var end, ending := Drained(Stream(candidates, policy, k), recorded).end, candidates[k].provider.ending;
            && (end.Completes? <==> ending.Finished? && recorded)
            && (end.Fails? && end.failure.StreamInterrupted? <==> ending.Hangs? || (ending.Errored? && recorded))
  {
    var s, provider := Stream(candidates, policy, k), candidates[k].provider;
    assert s.deltas == SourceOf(provider).deltas;
    DrainedEnding(provider, recorded);
  }

  /** A stream that is cancelled after its first delta: it was committed, and does not fail as an
      interruption. */
  lemma CancelledStreamIsNotInterrupted(text: string, recorded: bool)
    requires text != ""
    ensures var chunk := Chunk("id", "model", None, [Choice(Some(text), None)]);
            var candidates := [Configured(true, 0, OpenAIStream("model", [chunk], TaskCancelled))];
            && Commits(candidates, AtMostOnce, 0)
            && Drained(Stream(candidates, AtMostOnce, 0), recorded) == Source([text], Fails(Cancelled))
  {
    var chunk := Chunk("id", "model", None, [Choice(Some(text), None)]);
    var provider := OpenAIStream("model", [chunk], TaskCancelled);
    var candidates := [Configured(true, 0, provider)];
    assert Front([chunk]) == [];
    assert OpenAIDeltas([chunk]) == [text];
    assert StreamClasses(Attempts(candidates))[0] == ClassOfStream(StreamOf(candidates[0])) == Served;
    SelectionIsUnique(StreamClasses(Attempts(candidates)), AtMostOnce, Decided(0));
  }
}
