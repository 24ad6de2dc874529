/** The normalized requests, responses, stream events and failures every layer of the gateway shares
    (`app/models/domain/chat.py`, `app/core/exceptions.py`). */
module Chat {
  import opened Options
  import opened Sequences

  datatype Provider = OpenAI | Anthropic

  datatype FailoverPolicy = AtMostOnce | AtLeastOnce

  datatype ChatResponse = ChatResponse(provider: Provider, model: string, content: string, tokensIn: int,
                                       tokensOut: int, finishReason: string, requestId: string)

  datatype StreamEvent = Delta(content: string) | Terminal(response: ChatResponse)

  /** What an awaited call can raise.  `StreamInterrupted` is a subclass of `UpstreamAmbiguous`;
      an open circuit is an `UpstreamUnavailable`.  `Cancelled` stands for the exceptions that are no
      `Exception`: cancellation of the task and the closing of a generator. */
  datatype Failure =
    | UpstreamUnavailable(why: string)
    | UpstreamAmbiguous(why: string)
    | StreamInterrupted(why: string, partial: Option<ChatResponse>)
    | ProviderNotAvailable
    | StoreUnavailable
    | OtherError(why: string)
    | Cancelled
  {
    predicate IsAmbiguous() {
      UpstreamAmbiguous? || StreamInterrupted?
    }
  }

  datatype Outcome = Responds(response: ChatResponse) | Raises(failure: Failure)

  /** `"".join(parts)`. */
  function Join(parts: seq<string>): string {
    if parts == [] then "" else Join(Front(parts)) + Last(parts)
  }
}

/** Async generators.  A generator is seen by its consumer as the deltas it yields and the way it ends;
    a consumer either exhausts it or closes it when it holds event number `closeAt`. */
module Streams {
  import opened Options
  import opened Chat

  /** The generator yields a terminal response and stops; raises; hangs until its consumer's timeout
      fires; or stops without a terminal response. */
  datatype SourceEnd = Completes(response: ChatResponse) | Fails(failure: Failure) | Stalls | Stops

  datatype Source = Source(deltas: seq<string>, end: SourceEnd)

  /** The response that comes with the end of a generator: its terminal one, or the partial one of an
      interruption. */
  function ResponseIn(end: SourceEnd): Option<ChatResponse> {
    match end
    case Completes(r) => Some(r)
    case Fails(StreamInterrupted(_, partial)) => partial
    case _ => None
  }

  /** What asking a generator for its next event comes back with. */
  datatype Item = Event(event: StreamEvent) | Raise(failure: Failure) | Timeout | StopIteration

  datatype Ending = Exhausted | Raised(failure: Failure) | ClosedByConsumer

  function Events(s: Source): (events: seq<StreamEvent>)
    ensures |events| == |s.deltas| + if s.end.Completes? then 1 else 0
    ensures forall i :: 0 <= i < |s.deltas| ==> events[i] == Delta(s.deltas[i])
    ensures s.end.Completes? ==> events[|s.deltas|] == Terminal(s.end.response)
  {
    seq(|s.deltas|, i requires 0 <= i < |s.deltas| => Delta(s.deltas[i])) +
    (if s.end.Completes? then [Terminal(s.end.response)] else [])
  }

  /** The answer to the request for event number `p` of a generator. */
  function Pull(s: Source, p: nat): Item {
    if p < |Events(s)| then Event(Events(s)[p])
    else match s.end
      case Completes(_) => StopIteration
      case Fails(f) => Raise(f)
      case Stalls => Timeout
      case Stops => StopIteration
  }

  /** Does the consumer close the generator on receiving event number `p`? */
  predicate ClosesAt(closeAt: Option<nat>, p: nat) {
    closeAt == Some(p)
  }

  /** The events the consumer receives. */
  function Received(s: Source, closeAt: Option<nat>): seq<StreamEvent> {
    if closeAt.Some? && closeAt.value < |Events(s)| then Events(s)[..closeAt.value + 1] else Events(s)
  }

  /** Is the generator closed before it ends by itself? */
  predicate CutShort(s: Source, closeAt: Option<nat>) {
    closeAt.Some? && closeAt.value < |Events(s)|
  }

  function TextOf(event: StreamEvent): string {
    match event case Delta(content) => content case Terminal(_) => ""
  }

  /** The text a sequence of events delivers as deltas. */
  function DeliveredText(events: seq<StreamEvent>): string {
    if events == [] then "" else DeliveredText(events[..|events| - 1]) + TextOf(events[|events| - 1])
  }

  lemma {:induction false} DeltasDeliver(deltas: seq<string>, end: SourceEnd)
    ensures DeliveredText(Events(Source(deltas, end))) == Join(deltas)
    decreases |deltas|, end.Completes?
  {
    var events := Events(Source(deltas, end));
    if end.Completes? {
      assert events[..|events| - 1] == Events(Source(deltas, Stops));
      DeltasDeliver(deltas, Stops);
    } else if deltas != [] {
      var was := deltas[..|deltas| - 1];
      assert events[..|events| - 1] == Events(Source(was, Stops));
      DeltasDeliver(was, Stops);
    }
  }
}
