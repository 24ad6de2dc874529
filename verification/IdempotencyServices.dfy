/** Storing, replaying and settling responses (`app/services/idempotency_service.py`). */
module IdempotencyServices {
  import opened Options
  import opened Chat
  import opened Streams
  import opened RedisCommands
  import opened IdempotencyStores
  import opened IdempotencyRuns
  import Gateways

  datatype ChatRequest = ChatRequest(model: string, messages: seq<Message>, maxTokens: Option<int>,
                                     policy: FailoverPolicy)

  /** Everything that shapes the output; the failover policy does not. */
  function FingerprintOf(request: ChatRequest): Fingerprint {
    Fingerprint(request.model, request.messages, request.maxTokens)
  }

  const OPENAI := "openai"
  const ANTHROPIC := "anthropic"

  function ProviderValue(p: Provider): string {
    match p case OpenAI => OPENAI case Anthropic => ANTHROPIC
  }

  function ProviderNamed(s: string): Option<Provider> {
    if s == OPENAI then Some(OpenAI) else if s == ANTHROPIC then Some(Anthropic) else None
  }

  function Serialize(r: ChatResponse): Body {
    map["provider" := JString(ProviderValue(r.provider)), "model" := JString(r.model), "content" := JString(r.content),
        "tokens_in" := JInt(r.tokensIn), "tokens_out" := JInt(r.tokensOut),
        "finish_reason" := JString(r.finishReason), "request_id" := JString(r.requestId)]
  }

  function StringField(body: Body, name: string): Option<string> {
    if name in body && body[name].JString? then Some(body[name].s) else None
  }

  function IntField(body: Body, name: string): Option<int> {
    if name in body && body[name].JInt? then Some(body[name].n) else None
  }

  /** Nothing if a field is missing or the provider is unknown. */
  function Deserialize(body: Body): Option<ChatResponse> {
    match (StringField(body, "provider"), StringField(body, "model"), StringField(body, "content"),
           IntField(body, "tokens_in"), IntField(body, "tokens_out"),
           StringField(body, "finish_reason"), StringField(body, "request_id"))
    case (Some(p), Some(model), Some(content), Some(tokensIn), Some(tokensOut), Some(reason), Some(id)) =>
      (match ProviderNamed(p)
       case None => None
       case Some(provider) => Some(ChatResponse(provider, model, content, tokensIn, tokensOut, reason, id)))
    case _ => None
  }

  lemma SerializeRoundTrips(r: ChatResponse)
    ensures Deserialize(Serialize(r)) == Some(r)
  {
    assert OPENAI[0] != ANTHROPIC[0];
  }

  const MALFORMED_RECORD := OtherError("malformed record")

  /** The generator that replays a stored response: its text as one delta if there is any, and itself. */
  function Replay(body: Body): Source {
    match Deserialize(body)
    case None => Source([], Fails(MALFORMED_RECORD))
    case Some(r) => Source(if r.content != "" then [r.content] else [], Completes(r))
  }

  /** The consumer of a response stream never asks for an event, closes the stream when it holds event
      number `at`, or exhausts it. */
  datatype Consumer = NeverAsks | ClosesWith(at: nat) | Exhausts

  function CloseIndex(c: Consumer): Option<nat> {
    if c.ClosesWith? then Some(c.at) else None
  }

  /** The text of an exception, `str(exc)`; closing a generator has none. */
  const CLOSED := ""
  const PROVIDER_NOT_AVAILABLE := "Provider not available"

  function WhyOf(f: Failure): string {
    match f
    case UpstreamUnavailable(why) => why
    case UpstreamAmbiguous(why) => why
    case StreamInterrupted(why, _) => why
    case ProviderNotAvailable => PROVIDER_NOT_AVAILABLE
    case StoreUnavailable => STORE_UNAVAILABLE
    case OtherError(why) => why
    case Cancelled => ""
  }

  /** How an operation's outcome ends its owner's part in the protocol. */
  function OperationEndOf(o: Outcome): OperationEnd {
    match o
    case Responds(r) => Returned(Serialize(r))
    case Raises(f) => if f.IsAmbiguous() then RaisedAmbiguous(WhyOf(f)) else RaisedOther
  }

  /** How a streamed request's operation does, which ends with a committed stream or a failure. */
  function CommitmentEnd(c: Gateways.Commitment): OperationEnd {
    match c
    case Committed(_) => Opened
    case NotCommitted(f) => OperationEndOf(Raises(f))
  }

  /** What `execute` returns or raises. */
  datatype Execution =
    | Returns(response: ChatResponse)
    | Throws(failure: Failure)
    | KeyConflict
    | InFlight
    | UnknownOutcome(why: Option<string>)

  /** The answer to a request that found the key taken. */
  function Rendered(result: Result): Execution
    requires !result.Delivered? && !result.Failed?
  {
    match result
    case Replayed(body) =>
      var response := Deserialize(body);
      if response.Some? then Returns(response.value) else Throws(MALFORMED_RECORD)
    case Conflict => KeyConflict
    case StillRunning => InFlight
    case OutcomeUnknown(why) => UnknownOutcome(why)
    case _ => Throws(StoreUnavailable)
  }

  /** What the owner of a key returns or raises: a response that cannot be stored is not returned. */
  function Settled(operation: Outcome, network: Network): Execution {
    match operation
    case Responds(response) => if network.Answered? then Returns(response) else Throws(StoreUnavailable)
    case Raises(f) => Throws(f)
  }

  /** The database `records` is what the protocol's one write for this end of an operation leaves of the
      one that the write met; no other key is touched. */
  ghost predicate SettledBy(cfg: Config, records: map<string, Stored>, redisKey: string, fingerprint: Fingerprint,
                            end: OperationEnd, met: Arrival)
    requires !end.Opened?
  {
    && Slot(records, redisKey) == AfterWrite(cfg, Slot(met.records, redisKey), AfterOperation(0.0, end).write,
                                             fingerprint, met.now, met.network)
    && forall k :: k != redisKey ==> Slot(records, k) == Slot(met.records, k)
  }

  /** What `execute_stream` returns, a generator that settles the key or one that replays a response, or
      what it raises. */
  datatype StreamExecution = Settling(primed: Source) | Replaying(replay: Source) | NoStream(execution: Execution)

  function RenderedStream(result: Result): StreamExecution
    requires !result.Delivered? && !result.Failed?
  {
    if result.Replayed? then Replaying(Replay(result.body)) else NoStream(Rendered(result))
  }

  class IdempotencyService {
    const store: RedisIdempotencyStore

    constructor (store: RedisIdempotencyStore)
      ensures this.store == store
    {
      this.store := store;
    }

    /** The two exception handlers that `execute` and `execute_stream` share. */
    method SettleFailure(redisKey: string, fingerprint: Fingerprint, f: Failure, settling: Arrival)
      modifies store
      ensures SettledBy(store.cfg, store.records, redisKey, fingerprint, OperationEndOf(Raises(f)), settling)
    {
      if f.IsAmbiguous() {
        var _ := store.Settle(redisKey, fingerprint, MarkAmbiguous(WhyOf(f)), settling);
      } else {
        var _ := store.Settle(redisKey, fingerprint, Release, settling);
      }
    }

    method SettleOutcome(redisKey: string, fingerprint: Fingerprint, operation: Outcome, settling: Arrival)
      returns (result: Execution)
      modifies store
      ensures result == Settled(operation, settling.network)
      ensures SettledBy(store.cfg, store.records, redisKey, fingerprint, OperationEndOf(operation), settling)
    {
      match operation {
        case Raises(f) =>
          SettleFailure(redisKey, fingerprint, f, settling);
          return Throws(f);
        case Responds(response) =>
          var raised := store.Settle(redisKey, fingerprint, Complete(Serialize(response)), settling);
          return if raised then Throws(StoreUnavailable) else Returns(response);
      }
    }

    method AnswerFrom(fingerprint: Fingerprint, record: Record) returns (result: Execution)
      ensures result == Rendered(Answer(fingerprint, record))
    {
      if record.fingerprint != fingerprint {
        return KeyConflict;
      }
      if record.status == Completed {
        var response := Deserialize(if record.response.Some? then record.response.value else map[]);
        return if response.Some? then Returns(response.value) else Throws(MALFORMED_RECORD);
      }
      if record.status == Ambiguous {
        return UnknownOutcome(record.error);
      }
      return InFlight;
    }

    /** `execute`: the operation runs exactly when the key was acquired, and then its outcome is settled
        by the one write the protocol prescribes; otherwise the record found is answered from and
        nothing is written.  Other clients may have changed the database at every command. */
    method Execute(redisKey: string, request: ChatRequest, operation: Outcome, turns: seq<Turn>, settling: Arrival)
      returns (result: Execution, ran: bool)
      requires |turns| == RESERVE_ATTEMPTS
      modifies store
      ensures var rounds, fingerprint := Rounds(redisKey, turns), FingerprintOf(request);
              var r := Drive(AtSet(0), rounds);
              && (ran <==> r.Reserved?)
              && (ran ==>
                    SettledBy(store.cfg, store.records, redisKey, fingerprint, OperationEndOf(operation), settling))
              && (!ran ==> store.records == DatabaseLeft(store.cfg, redisKey, fingerprint, turns[Deciding(rounds, 0)]))
              && result == match r
                           case Reserved => Settled(operation, settling.network)
                           case Existing(record) => Rendered(Answer(fingerprint, record))
                           case _ => Throws(StoreUnavailable)
    {
      var fingerprint := FingerprintOf(request);
      var outcome := store.Reserve(redisKey, fingerprint, turns);
      ran := outcome.Reserved?;
      if ran {
        result := SettleOutcome(redisKey, fingerprint, operation, settling);
        return;
      }
      if outcome.Unavailable? {
        return Throws(StoreUnavailable), ran;
      }
      result := AnswerFrom(fingerprint, outcome.record);
    }

    /** `execute_stream` up to the generator it returns: a committed stream keeps the claim and writes
        nothing yet, a failure before the first event is settled like a plain request's, and a completed
        record is replayed. */
    method ExecuteStream(redisKey: string, request: ChatRequest, operation: Gateways.Commitment, turns: seq<Turn>,
                         settling: Arrival) returns (result: StreamExecution, ran: bool)
      requires |turns| == RESERVE_ATTEMPTS
      modifies store
      ensures var rounds, fingerprint := Rounds(redisKey, turns), FingerprintOf(request);
              var r, turn := Drive(AtSet(0), rounds), turns[Deciding(rounds, 0)];
              && (ran <==> r.Reserved?)
              && (ran && operation.NotCommitted? ==>
                    SettledBy(store.cfg, store.records, redisKey, fingerprint, CommitmentEnd(operation), settling))
              && (ran && operation.Committed? ==>
                    Slot(store.records, redisKey) == Some(Claim(store.cfg, fingerprint, turn.set_.now)))
              && (!ran || operation.Committed? ==>
                    store.records == DatabaseLeft(store.cfg, redisKey, fingerprint, turn))
              && result == match r
                           case Reserved => (match operation
                                             case Committed(primed) => StreamExecution.Settling(primed)
                                             case NotCommitted(f) => NoStream(Throws(f)))
                           case Existing(record) => RenderedStream(Answer(fingerprint, record))
                           case _ => NoStream(Throws(StoreUnavailable))
    {
      var fingerprint := FingerprintOf(request);
      var outcome := store.Reserve(redisKey, fingerprint, turns);
      ran := outcome.Reserved?;
      if ran {
        match operation {
          case NotCommitted(f) =>
            SettleFailure(redisKey, fingerprint, f, settling);
            return NoStream(Throws(f)), ran;
          case Committed(primed) =>
            return StreamExecution.Settling(primed), ran;
        }
      }
      if outcome.Unavailable? {
        return NoStream(Throws(StoreUnavailable)), ran;
      }
      var record := outcome.record;
      if record.fingerprint != fingerprint {
        return NoStream(KeyConflict), ran;
      }
      if record.status == Completed {
        return Replaying(Replay(if record.response.Some? then record.response.value else map[])), ran;
      }
      if record.status == Ambiguous {
        return NoStream(UnknownOutcome(record.error)), ran;
      }
      return NoStream(InFlight), ran;
    }

  }

  /** The writes of `_settle`, by how the stream and its consumer end. */
  function SettlingWrites(primed: Source, consumer: Consumer, stored: bool): seq<Write> {
    if consumer.NeverAsks? then []
    else if CutShort(primed, CloseIndex(consumer)) then [MarkAmbiguous(CLOSED)]
    else match primed.end
      case Completes(r) =>
        [Complete(Serialize(r))] + (if stored then [] else [MarkAmbiguous(WhyOf(StoreUnavailable))])
      case Fails(f) => [MarkAmbiguous(WhyOf(f))]
      case _ => []
  }

  /** `_settle`: forwards the committed stream and writes its outcome under the key.  `stored` says
      whether the write of the response succeeds.  The writes are returned in the order made. */
  method Settle(primed: Source, consumer: Consumer, stored: bool)
    returns (yielded: seq<StreamEvent>, ending: Ending, writes: seq<Write>)
    requires !primed.end.Stalls?
    ensures writes == SettlingWrites(primed, consumer, stored)
    ensures consumer.NeverAsks? ==> yielded == [] && ending == ClosedByConsumer
    ensures !consumer.NeverAsks? ==> yielded == Received(primed, CloseIndex(consumer))
    ensures !consumer.NeverAsks? ==>
              ending == if CutShort(primed, CloseIndex(consumer)) then ClosedByConsumer
                        else match primed.end
                          case Completes(_) => if stored then Exhausted else Raised(StoreUnavailable)
                          case Fails(f) => Raised(f)
                          case _ => Exhausted
  {
    yielded, writes := [], [];
    if consumer.NeverAsks? {
      return yielded, ClosedByConsumer, writes;
    }
    var p := 0;
    while true
      invariant p <= |Events(primed)| && yielded == Events(primed)[..p]
      invariant CloseIndex(consumer).Some? ==> p <= CloseIndex(consumer).value
      invariant writes == if primed.end.Completes? && p == |Events(primed)|
                          then [Complete(Serialize(primed.end.response))] else []
      invariant p == |Events(primed)| && primed.end.Completes? ==> stored
      decreases |Events(primed)| - p
    {
      var item := Pull(primed, p);
      match item {
        case StopIteration =>
          return yielded, Exhausted, writes;
        case Timeout =>
          assert false;
        case Raise(f) =>
          writes := writes + [MarkAmbiguous(WhyOf(f))];
          return yielded, Raised(f), writes;
        case Event(event) =>
          yielded := yielded + [event];
          if CloseIndex(consumer) == Some(p) {
            writes := writes + [MarkAmbiguous(CLOSED)];
            return yielded, ClosedByConsumer, writes;
          }
          if event.Terminal? {
            writes := writes + [Complete(Serialize(event.response))];
            if !stored {
              writes := writes + [MarkAmbiguous(WhyOf(StoreUnavailable))];
              return yielded, Raised(StoreUnavailable), writes;
            }
          }
      }
      p := p + 1;
    }
  }

  // ---------------------------------------------------------------- two requests under one key

  /** Two requests that ask for the same output; the failover policy plays no part. */
  predicate SameQuestion(a: ChatRequest, b: ChatRequest) {
    a.model == b.model && a.messages == b.messages && a.maxTokens == b.maxTokens
  }

  lemma FingerprintsTell(a: ChatRequest, b: ChatRequest)
    ensures FingerprintOf(a) == FingerprintOf(b) <==> SameQuestion(a, b)
  {
  }

  /** The record that request `a` leaves once its operation has ended, stored at `now`. */
  function RecordLeft(cfg: Config, a: ChatRequest, operation: Outcome, now: real): Option<Stored> {
    AfterWrite(cfg, Some(Claim(cfg, FingerprintOf(a), now)), AfterOperation(0.0, OperationEndOf(operation)).write,
               FingerprintOf(a), now, Answered)
  }

  /** What request `b` gets when it finds the record that request `a` left: a conflict if and only if they ask
      for different things, and otherwise a's own response, or the reason why its outcome is unknown; any
      other failure leaves no record. */
  lemma SecondRequest(cfg: Config, a: ChatRequest, b: ChatRequest, operation: Outcome, now: real)
    ensures RecordLeft(cfg, a, operation, now).Some? <==>
              operation.Responds? || operation.failure.UpstreamAmbiguous? || operation.failure.StreamInterrupted?
    ensures RecordLeft(cfg, a, operation, now).Some? ==>
              var answer := Rendered(Answer(FingerprintOf(b), RecordLeft(cfg, a, operation, now).value.record));
              && (answer == KeyConflict <==> !SameQuestion(a, b))
              && (SameQuestion(a, b) ==>
                    answer == match operation
                              case Responds(r) => Returns(r)
                              case Raises(f) => UnknownOutcome(Some(f.why)))
  {
    FingerprintsTell(a, b);
    if operation.Responds? { SerializeRoundTrips(operation.response); }
  }

  /** The same for streamed requests: the response comes as a stream that delivers its text and then itself. */
  lemma SecondStreamedRequest(cfg: Config, a: ChatRequest, b: ChatRequest, operation: Outcome, now: real)
    requires RecordLeft(cfg, a, operation, now).Some?
    ensures operation.Responds? || operation.failure.UpstreamAmbiguous? || operation.failure.StreamInterrupted?
    ensures var answer := RenderedStream(Answer(FingerprintOf(b), RecordLeft(cfg, a, operation, now).value.record));
            && (answer == NoStream(KeyConflict) <==> !SameQuestion(a, b))
            && (SameQuestion(a, b) ==>
                  answer == match operation
                            case Responds(r) =>
                              Replaying(Source(if r.content == "" then [] else [r.content], Completes(r)))
                            case Raises(f) => NoStream(UnknownOutcome(Some(f.why))))
  {
    SecondRequest(cfg, a, b, operation, now);
    if operation.Responds? { SerializeRoundTrips(operation.response); }
  }

  /** While the first request's operation still runs, the same request is told so, and another one that the
      key is taken. */
  lemma RequestMeanwhile(cfg: Config, a: ChatRequest, b: ChatRequest, now: real)
    ensures var result := Answer(FingerprintOf(b), Claim(cfg, FingerprintOf(a), now).record);
            && Rendered(result) == (if SameQuestion(a, b) then InFlight else KeyConflict)
            && RenderedStream(result) == NoStream(if SameQuestion(a, b) then InFlight else KeyConflict)
  {
    FingerprintsTell(a, b);
  }

  /** The policy plays no part. */
  lemma PolicyPlaysNoPart(a: ChatRequest, policy: FailoverPolicy)
    ensures FingerprintOf(a.(policy := policy)) == FingerprintOf(a)
  {
  }

  /** An owner's response is returned if and only if it is stored: the record then holds it.  What its operation
      raised is raised again, and nothing else but that the store is unavailable. */
  lemma ReturnedIsStored(cfg: Config, a: ChatRequest, operation: Outcome, slot: Option<Stored>, now: real,
                         network: Network)
    ensures var answer := Settled(operation, network);
            var after := AfterWrite(cfg, slot, AfterOperation(0.0, OperationEndOf(operation)).write, FingerprintOf(a),
                                    now, network);
            && (forall r :: answer == Returns(r) <==> operation == Responds(r) && network.Answered?)
            && (answer.Returns? ==>
                  after == Some(Stored(Record(Completed, FingerprintOf(a), Some(Serialize(answer.response)), None),
                                       now + cfg.completedTtl)))
            && (operation.Raises? ==> answer == Throws(operation.failure))
            && (operation.Responds? && !network.Answered? ==> answer == Throws(StoreUnavailable))
  {
  }

  /** The protocol's result for a plain owner is what the service returns or raises. */
  lemma ProtocolAnswersAlike(operation: Outcome, fingerprint: Fingerprint, network: Network)
    ensures var owner := Client(fingerprint, false, AfterOperation(0.0, OperationEndOf(operation)));
            var end := AfterSettling(owner, 0.0, owner.phase.write, network);
            && (end == Finished(Delivered) <==> Settled(operation, network).Returns?)
            && (end == Finished(StoreDown) <==>
                  operation.Responds? && Settled(operation, network) == Throws(StoreUnavailable))
            && (end == Finished(Failed) <==> operation.Raises?)
  {
  }

  /** A stored body is read as a response exactly if it has all of its fields, each with that value. */
  lemma DeserializesFieldByField(body: Body, r: ChatResponse)
    ensures Deserialize(body) == Some(r) <==>
              && "provider" in body && body["provider"] == JString(if r.provider.OpenAI? then "openai" else "anthropic")
              && "model" in body && body["model"] == JString(r.model)
              && "content" in body && body["content"] == JString(r.content)
              && "tokens_in" in body && body["tokens_in"] == JInt(r.tokensIn)
              && "tokens_out" in body && body["tokens_out"] == JInt(r.tokensOut)
              && "finish_reason" in body && body["finish_reason"] == JString(r.finishReason)
              && "request_id" in body && body["request_id"] == JString(r.requestId)
  {
    assert OPENAI[0] != ANTHROPIC[0];
  }

  /** A stored record that cannot be read raises, as a plain replay and as a streamed one without any event. */
  lemma UnreadableRecordsRaise(body: Body)
    requires Deserialize(body).None?
    ensures Rendered(Replayed(body)) == Throws(MALFORMED_RECORD)
    ensures RenderedStream(Replayed(body)) == Replaying(Source([], Fails(MALFORMED_RECORD)))
  {
  }
}
