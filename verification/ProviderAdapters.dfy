/** The provider adapters of `app/core/adapters/`: translating replies, accumulating streams and
    classifying SDK failures. */
module ProviderAdapters {
  import opened Options
  import opened Sequences
  import opened Chat
  import opened Streams

  /** The SDK's exception classes in the order in which the adapters test for them; a timeout is a
      subclass of a connection error in both SDKs. */
  datatype SdkErrorKind = ApiTimeout | ApiConnection | ApiStatus(code: int) | SdkOther

  datatype SdkError = SdkError(kind: SdkErrorKind, why: string)

  /** The SDK errors that the adapters take for "the provider did not run the request": a connection
      error that is no timeout, and a status below 500. */
  predicate Refusal(kind: SdkErrorKind) {
    kind.ApiConnection? || (kind.ApiStatus? && kind.code < 500)
  }

  /** The classification before any content was delivered, the same for calls and streams. */
  function Classify(e: SdkError): (f: Failure)
    ensures f.UpstreamUnavailable? <==> e.kind.ApiConnection? || (e.kind.ApiStatus? && e.kind.code < 500)
    ensures f.UpstreamAmbiguous? <==>
              e.kind.ApiTimeout? || e.kind.SdkOther? || (e.kind.ApiStatus? && e.kind.code >= 500)
    ensures f.UpstreamUnavailable? <==> Refusal(e.kind)
    ensures f.why == e.why
  {
    match e.kind
    case ApiTimeout => UpstreamAmbiguous(e.why)
    case ApiConnection => UpstreamUnavailable(e.why)
    case ApiStatus(code) => if code >= 500 then UpstreamAmbiguous(e.why) else UpstreamUnavailable(e.why)
    case SdkOther => UpstreamAmbiguous(e.why)
  }

  const OPENAI_FINISH: map<string, string> :=
    map["stop" := "stop", "length" := "length", "tool_calls" := "tool_use", "content_filter" := "content_filter"]

  const ANTHROPIC_FINISH: map<string, string> :=
    map["end_turn" := "stop", "stop_sequence" := "stop", "max_tokens" := "length", "tool_use" := "tool_use",
        "refusal" := "content_filter"]

  /** `table.get(reason, "stop")`. */
  function Normalized(table: map<string, string>, reason: Option<string>): string {
    if reason.Some? && reason.value in table then table[reason.value] else "stop"
  }

  /** `value or default`. */
  function Or(value: Option<string>, default: string): string {
    if value.Some? then value.value else default
  }

  /** How an SDK's reply or stream ends: complete, with an SDK exception, by hanging, by the
      cancellation of the awaiting task, or with an exception the adapter does not catch. */
  datatype SdkEnd = Finished | Errored(error: SdkError) | Hangs | TaskCancelled | Escapes(why: string)

  predicate Refuses(end: SdkEnd) {
    end.Errored? && Refusal(end.error.kind)
  }

  /** `_raise_stream_failure`: once content was delivered the failure is an interruption that carries
      what was accumulated; before, it keeps its clean classification. */
  function StreamFailure(e: SdkError, parts: seq<string>, partial: ChatResponse): Failure {
    if parts != [] then StreamInterrupted(e.why, Some(partial)) else Classify(e)
  }

  /** How the adapter's generator ends, given the response it has accumulated. */
  function EndOf(ending: SdkEnd, parts: seq<string>, response: ChatResponse): SourceEnd {
    match ending
    case Finished => Completes(response)
    case Errored(e) => Fails(StreamFailure(e, parts, response.(finishReason := "error")))
    case Hangs => Stalls
    case TaskCancelled => Fails(Cancelled)
    case Escapes(why) => Fails(OtherError(why))
  }

  method RaiseStreamFailure(provider: Provider, e: SdkError, contentParts: seq<string>, tokensIn: int, tokensOut: int,
                            requestId: Option<string>, modelName: string) returns (end: SourceEnd)
    ensures end == Fails(StreamFailure(e, contentParts,
                                       ChatResponse(provider, modelName, Join(contentParts), tokensIn, tokensOut,
                                                    "error", Or(requestId, ""))))
  {
    if contentParts != [] {
      return Fails(StreamInterrupted(e.why, Some(ChatResponse(provider, modelName, Join(contentParts), tokensIn,
                                                              tokensOut, "error", Or(requestId, "")))));
    }
    return Fails(Classify(e));
  }

  // ---------------------------------------------------------------- OpenAI

  /** The first choice of a chunk; `content` and `finishReason` are absent, empty or set. */
  datatype Choice = Choice(content: Option<string>, finishReason: Option<string>)

  datatype Usage = Usage(tokensIn: int, tokensOut: int)

  datatype Chunk = Chunk(id: string, model: string, usage: Option<Usage>, choices: seq<Choice>)

  /** A chunk's text, if it has a first choice with a non-empty content. */
  function ChunkText(c: Chunk): seq<string> {
    if c.choices != [] && c.choices[0].content.Some? && c.choices[0].content.value != ""
    then [c.choices[0].content.value] else []
  }

  function ChunkFinish(c: Chunk): Option<string> {
    if c.choices != [] && c.choices[0].finishReason.Some? && c.choices[0].finishReason.value != ""
    then c.choices[0].finishReason else None
  }

  function OpenAIDeltas(chunks: seq<Chunk>): seq<string> {
    if chunks == [] then [] else OpenAIDeltas(Front(chunks)) + ChunkText(Last(chunks))
  }

  /** The last usage reported; it may come in a trailing chunk without choices. */
  function OpenAIUsage(chunks: seq<Chunk>): Usage {
    if chunks == [] then Usage(0, 0)
    else if Last(chunks).usage.Some? then Last(chunks).usage.value
    else OpenAIUsage(Front(chunks))
  }

  function OpenAIFinish(chunks: seq<Chunk>): Option<string> {
    if chunks == [] then None
    else if ChunkFinish(Last(chunks)).Some? then ChunkFinish(Last(chunks))
    else OpenAIFinish(Front(chunks))
  }

  /** The response a stream with these chunks amounts to. */
  function OpenAIResponse(model: string, chunks: seq<Chunk>): ChatResponse {
    ChatResponse(OpenAI, if chunks == [] then model else Last(chunks).model, Join(OpenAIDeltas(chunks)),
                 OpenAIUsage(chunks).tokensIn, OpenAIUsage(chunks).tokensOut,
                 Normalized(OPENAI_FINISH, OpenAIFinish(chunks)), if chunks == [] then "" else Last(chunks).id)
  }

  function OpenAISource(model: string, chunks: seq<Chunk>, ending: SdkEnd): Source {
    Source(OpenAIDeltas(chunks), EndOf(ending, OpenAIDeltas(chunks), OpenAIResponse(model, chunks)))
  }

  /** The trailing chunk that only reports usage changes what is billed and delivers nothing. */
  lemma UsageOnlyChunk(model: string, chunks: seq<Chunk>, c: Chunk)
    requires c.choices == [] && c.usage.Some?
    ensures OpenAIDeltas(chunks + [c]) == OpenAIDeltas(chunks)
    ensures OpenAIResponse(model, chunks + [c])
            == OpenAIResponse(model, chunks).(tokensIn := c.usage.value.tokensIn, tokensOut := c.usage.value.tokensOut,
                                              model := c.model, requestId := c.id)
  {
    assert Front(chunks + [c]) == chunks;
  }

  method StreamOpenAI(model: string, chunks: seq<Chunk>, ending: SdkEnd) returns (yielded: seq<string>, end: SourceEnd)
    ensures Source(yielded, end) == OpenAISource(model, chunks, ending)
  {
    var contentParts: seq<string> := [];
    var requestId: Option<string> := None;
    var modelName := model;
    var tokensIn, tokensOut := 0, 0;
    var finishReasonRaw: Option<string> := None;
    yielded := [];
    for i := 0 to |chunks|
      invariant yielded == contentParts == OpenAIDeltas(chunks[..i])
      invariant modelName == if i == 0 then model else chunks[i - 1].model
      invariant requestId == if i == 0 then None else Some(chunks[i - 1].id)
      invariant Usage(tokensIn, tokensOut) == OpenAIUsage(chunks[..i])
      invariant finishReasonRaw == OpenAIFinish(chunks[..i])
    {
      assert Front(chunks[..i + 1]) == chunks[..i];
      var chunk := chunks[i];
      requestId := Some(chunk.id);
      modelName := chunk.model;
      if chunk.usage.Some? {
        tokensIn := chunk.usage.value.tokensIn;
        tokensOut := chunk.usage.value.tokensOut;
      }
      if chunk.choices == [] {
        continue;
      }
      var choice := chunk.choices[0];
      if choice.content.Some? && choice.content.value != "" {
        contentParts := contentParts + [choice.content.value];
        yielded := yielded + [choice.content.value];
      }
      if choice.finishReason.Some? && choice.finishReason.value != "" {
        finishReasonRaw := choice.finishReason;
      }
    }
    assert chunks[..|chunks|] == chunks;
    match ending {
      case Errored(e) =>
        end := RaiseStreamFailure(OpenAI, e, contentParts, tokensIn, tokensOut, requestId, modelName);
      case Hangs => end := Stalls;
      case TaskCancelled => end := Fails(Cancelled);
      case Escapes(why) => end := Fails(OtherError(why));
      case Finished =>
        end := Completes(ChatResponse(OpenAI, modelName, Join(contentParts), tokensIn, tokensOut,
                                      Normalized(OPENAI_FINISH, finishReasonRaw), Or(requestId, "")));
    }
  }

  // ---------------------------------------------------------------- Anthropic

  datatype SdkEvent =
    | MessageStart(id: string, model: string, inputTokens: int)
    | TextDelta(text: string)
    | MessageDelta(outputTokens: int, stopReason: Option<string>)
    | OtherEvent

  function EventText(e: SdkEvent): seq<string> {
    if e.TextDelta? && e.text != "" then [e.text] else []
  }

  function AnthropicDeltas(events: seq<SdkEvent>): seq<string> {
    if events == [] then [] else AnthropicDeltas(Front(events)) + EventText(Last(events))
  }

  /** The last announcement of the message, if there was one. */
  function AnthropicStart(events: seq<SdkEvent>): Option<SdkEvent> {
    if events == [] then None
    else if Last(events).MessageStart? then Some(Last(events))
    else AnthropicStart(Front(events))
  }

  function AnthropicTokensOut(events: seq<SdkEvent>): int {
    if events == [] then 0
    else if Last(events).MessageDelta? then Last(events).outputTokens
    else AnthropicTokensOut(Front(events))
  }

  function AnthropicStop(events: seq<SdkEvent>): Option<string> {
    if events == [] then None
    else
      var e := Last(events);
      if e.MessageDelta? && e.stopReason.Some? && e.stopReason.value != "" then e.stopReason
      else AnthropicStop(Front(events))
  }

  function AnthropicResponse(model: string, events: seq<SdkEvent>): ChatResponse {
    var (id, name, tokensIn) := match AnthropicStart(events)
      case Some(MessageStart(id, name, n)) => (id, name, n)
      case _ => ("", model, 0);
    ChatResponse(Anthropic, name, Join(AnthropicDeltas(events)), tokensIn, AnthropicTokensOut(events),
                 Normalized(ANTHROPIC_FINISH, AnthropicStop(events)), id)
  }

  function AnthropicSource(model: string, events: seq<SdkEvent>, ending: SdkEnd): Source {
    Source(AnthropicDeltas(events), EndOf(ending, AnthropicDeltas(events), AnthropicResponse(model, events)))
  }

  method StreamAnthropic(model: string, events: seq<SdkEvent>, ending: SdkEnd)
    returns (yielded: seq<string>, end: SourceEnd)
    ensures Source(yielded, end) == AnthropicSource(model, events, ending)
  {
    var contentParts: seq<string> := [];
    var requestId: Option<string> := None;
    var modelName := model;
    var tokensIn, tokensOut := 0, 0;
    var stopReason: Option<string> := None;
    yielded := [];
    for i := 0 to |events|
      invariant yielded == contentParts == AnthropicDeltas(events[..i])
      invariant (requestId, modelName, tokensIn) == match AnthropicStart(events[..i])
                                                    case Some(MessageStart(id, name, n)) => (Some(id), name, n)
                                                    case _ => (None, model, 0)
      invariant tokensOut == AnthropicTokensOut(events[..i])
      invariant stopReason == AnthropicStop(events[..i])
    {
      assert Front(events[..i + 1]) == events[..i];
      match events[i] {
        case MessageStart(id, name, n) =>
          requestId, modelName, tokensIn := Some(id), name, n;
        case TextDelta(text) =>
          if text != "" {
            contentParts := contentParts + [text];
            yielded := yielded + [text];
          }
        case MessageDelta(n, reason) =>
          tokensOut := n;
          if reason.Some? && reason.value != "" {
            stopReason := reason;
          }
        case OtherEvent =>
      }
    }
    assert events[..|events|] == events;
    match ending {
      case Errored(e) =>
        end := RaiseStreamFailure(Anthropic, e, contentParts, tokensIn, tokensOut, requestId, modelName);
      case Hangs => end := Stalls;
      case TaskCancelled => end := Fails(Cancelled);
      case Escapes(why) => end := Fails(OtherError(why));
      case Finished =>
        end := Completes(ChatResponse(Anthropic, modelName, Join(contentParts), tokensIn, tokensOut,
                                      Normalized(ANTHROPIC_FINISH, stopReason), Or(requestId, "")));
    }
  }

  // ---------------------------------------------------------------- calls without streaming

  /** The reply to a chat completion; a reply without usage makes the adapter fail to parse it. */
  datatype OpenAIReply = OpenAIReply(id: string, model: string, usage: Option<Usage>, choices: seq<Choice>)

  /** The reply to a message request; `texts` holds the text of each block, absent for other blocks. */
  datatype AnthropicReply =
    AnthropicReply(id: string, model: string, usage: Option<Usage>, stopReason: Option<string>,
                   texts: seq<Option<string>>)

  datatype Reply = FromOpenAI(openai: OpenAIReply) | FromAnthropic(anthropic: AnthropicReply)

  const MALFORMED := "malformed response"

  function BlockText(texts: seq<Option<string>>): string {
    if texts == [] then "" else BlockText(Front(texts)) + Or(Last(texts), "")
  }

  /** A reply that cannot be parsed did execute, so it is ambiguous. */
  function Translate(reply: Reply): (o: Outcome)
    ensures o.Raises? ==> o.failure.UpstreamAmbiguous?
  {
    match reply
    case FromOpenAI(r) =>
      if r.choices == [] || r.usage.None? then Raises(UpstreamAmbiguous(MALFORMED))
      else Responds(ChatResponse(OpenAI, r.model, Or(r.choices[0].content, ""), r.usage.value.tokensIn,
                                 r.usage.value.tokensOut, Normalized(OPENAI_FINISH, r.choices[0].finishReason), r.id))
    case FromAnthropic(r) =>
      if r.usage.None? then Raises(UpstreamAmbiguous(MALFORMED))
      else Responds(ChatResponse(Anthropic, r.model, BlockText(r.texts), r.usage.value.tokensIn,
                                 r.usage.value.tokensOut, Normalized(ANTHROPIC_FINISH, r.stopReason), r.id))
  }

  /** A reply that can be parsed. */
  predicate Parses(reply: Reply) {
    match reply
    case FromOpenAI(r) => r.choices != [] && r.usage.Some?
    case FromAnthropic(r) => r.usage.Some?
  }

  /** The finish reasons, value by value. */
  function OpenAIFinishOf(reason: Option<string>): string {
    if reason == Some("length") then "length"
    else if reason == Some("tool_calls") then "tool_use"
    else if reason == Some("content_filter") then "content_filter"
    else "stop"
  }

  function AnthropicFinishOf(reason: Option<string>): string {
    if reason == Some("max_tokens") then "length"
    else if reason == Some("tool_use") then "tool_use"
    else if reason == Some("refusal") then "content_filter"
    else "stop"
  }

  lemma OpenAIFinishes(reason: Option<string>)
    ensures Normalized(OPENAI_FINISH, reason) == OpenAIFinishOf(reason)
  {
  }

  lemma AnthropicFinishes(reason: Option<string>)
    ensures Normalized(ANTHROPIC_FINISH, reason) == AnthropicFinishOf(reason)
  {
  }

  lemma ConcatAssociates(a: string, b: string, c: string)
    ensures (a + b) + c == a + (b + c)
  {
  }

  lemma OneBlock(text: Option<string>)
    ensures BlockText([text]) == Or(text, "")
  {
    assert Front([text]) == [];
    assert "" + Or(text, "") == Or(text, "");
  }

  lemma OneMoreBlock(texts: seq<Option<string>>, text: Option<string>)
    ensures BlockText(texts + [text]) == BlockText(texts) + Or(text, "")
  {
    assert Front(texts + [text]) == texts;
  }

  lemma {:induction false} BlocksJoin(texts: seq<Option<string>>, more: seq<Option<string>>)
    ensures BlockText(texts + more) == BlockText(texts) + BlockText(more)
  {
    if more == [] {
      assert texts + more == texts;
    } else {
      var was, last := Front(more), Last(more);
      assert texts + more == (texts + was) + [last] && more == was + [last];
      BlocksJoin(texts, was);
      OneMoreBlock(texts + was, last);
      OneMoreBlock(was, last);
      ConcatAssociates(BlockText(texts), BlockText(was), Or(last, ""));
    }
  }

  /** What a reply is translated to, field by field: its own text, counts, model, id and finish reason if it
      parses, and an ambiguous failure otherwise. */
  lemma TranslatesFieldByField(reply: Reply)
    ensures Translate(reply) == Raises(UpstreamAmbiguous(MALFORMED)) <==> !Parses(reply)
    ensures Translate(reply).Responds? <==> Parses(reply)
    ensures Parses(reply) ==>
              var r := Translate(reply).response;
              match reply
              case FromOpenAI(o) =>
                && r.provider == OpenAI && r.model == o.model && r.requestId == o.id
                && r.tokensIn == o.usage.value.tokensIn && r.tokensOut == o.usage.value.tokensOut
                && r.content == (if o.choices[0].content.Some? then o.choices[0].content.value else "")
                && r.finishReason == OpenAIFinishOf(o.choices[0].finishReason)
              case FromAnthropic(a) =>
                && r.provider == Anthropic && r.model == a.model && r.requestId == a.id
                && r.tokensIn == a.usage.value.tokensIn && r.tokensOut == a.usage.value.tokensOut
                && r.finishReason == AnthropicFinishOf(a.stopReason)
                && (a.texts == [] ==> r.content == "")
                && (|a.texts| == 1 ==> r.content == if a.texts[0].Some? then a.texts[0].value else "")
  {
    match reply
    case FromOpenAI(o) => if o.choices != [] { OpenAIFinishes(o.choices[0].finishReason); }
    case FromAnthropic(a) =>
      AnthropicFinishes(a.stopReason);
      if |a.texts| == 1 {
        assert a.texts == [a.texts[0]];
        OneBlock(a.texts[0]);
      }
  }

  /** The text of a reply in several blocks is that of its blocks, in order. */
  lemma BlocksInOrder(a: AnthropicReply, texts: seq<Option<string>>, more: seq<Option<string>>)
    requires a.usage.Some? && a.texts == texts + more
    ensures Translate(FromAnthropic(a)).response.content
            == Translate(FromAnthropic(a.(texts := texts))).response.content
               + Translate(FromAnthropic(a.(texts := more))).response.content
  {
    BlocksJoin(texts, more);
  }

  /** One provider call: how the SDK call ends, its reply if it finishes, and whether the provider ran
      the request (which the gateway cannot see). */
  datatype ProviderCall = ProviderCall(end: SdkEnd, reply: Reply, executed: bool)

  /** What the gateway's designers rely on: a failed connection and a status below 500 mean that the
      provider did not run the request. */
  predicate TruthfulCall(c: ProviderCall) {
    Refuses(c.end) ==> !c.executed
  }

  /** What a call's awaiter gets: the translated outcome, or nothing until its timeout fires. */
  datatype Awaited = Settles(outcome: Outcome) | NeverSettles

  function AwaitCall(c: ProviderCall): Awaited {
    match c.end
    case Finished => Settles(Translate(c.reply))
    case Errored(e) => Settles(Raises(Classify(e)))
    case Hangs => NeverSettles
    case TaskCancelled => Settles(Raises(Cancelled))
    case Escapes(why) => Settles(Raises(OtherError(why)))
  }

  // ---------------------------------------------------------------- what both adapters guarantee

  /** One provider stream: either SDK's events and the way they end. */
  datatype ProviderStream =
    | OpenAIStream(model: string, chunks: seq<Chunk>, ending: SdkEnd)
    | AnthropicStream(model: string, events: seq<SdkEvent>, ending: SdkEnd)

  function SourceOf(s: ProviderStream): Source {
    match s
    case OpenAIStream(model, chunks, ending) => OpenAISource(model, chunks, ending)
    case AnthropicStream(model, events, ending) => AnthropicSource(model, events, ending)
  }

  function ProviderOf(s: ProviderStream): Provider {
    if s.OpenAIStream? then OpenAI else Anthropic
  }

  /** Did the SDK hand over anything before its stream ended? */
  predicate Arrived(s: ProviderStream) {
    match s
    case OpenAIStream(_, chunks, _) => chunks != []
    case AnthropicStream(_, events, _) => events != []
  }

  /** Did any of it carry text? */
  predicate HasText(s: ProviderStream) {
    match s
    case OpenAIStream(_, chunks, _) => exists c :: c in chunks && ChunkText(c) != []
    case AnthropicStream(_, events, _) => exists e :: e in events && EventText(e) != []
  }

  /** The stream broke with something on the way and no text: a message that was announced, or chunks
      without content, before an error that is taken for a refusal. */
  predicate BreaksEarly(s: ProviderStream) {
    Refuses(s.ending) && Arrived(s) && !HasText(s)
  }

  /** The designers' assumption, for a stream whose provider ran the request or not: a failed connection
      and a status below 500 mean that it did not, if they are all the SDK ever delivered. */
  predicate TruthfulStream(s: ProviderStream, ran: bool) {
    Refuses(s.ending) && !Arrived(s) ==> !ran
  }

  lemma {:induction false} OpenAIDeltasAreText(chunks: seq<Chunk>)
    ensures forall i :: 0 <= i < |OpenAIDeltas(chunks)| ==> OpenAIDeltas(chunks)[i] != ""
  {
    if chunks != [] { OpenAIDeltasAreText(Front(chunks)); }
  }

  lemma {:induction false} AnthropicDeltasAreText(events: seq<SdkEvent>)
    ensures forall i :: 0 <= i < |AnthropicDeltas(events)| ==> AnthropicDeltas(events)[i] != ""
  {
    if events != [] { AnthropicDeltasAreText(Front(events)); }
  }

  /** The adapter contract: non-empty deltas, then at most one terminal response, which carries exactly
      the text of the deltas and the adapter's provider; a stream never just stops; a failure before
      any delta is not an interruption and one after a delta is never `UpstreamUnavailable`. */
  lemma {:induction false} AdapterContract(s: ProviderStream)
    ensures var source := SourceOf(s);
            && !source.end.Stops?
            && (forall i :: 0 <= i < |source.deltas| ==> source.deltas[i] != "")
            && (source.end.Completes? ==> source.end.response.content == Join(source.deltas)
                                          && source.end.response.provider == ProviderOf(s))
            && (s.ending.Errored? ==>
                  && source.end.Fails?
                  && (source.end.failure.StreamInterrupted? <==> source.deltas != [])
                  && source.end.failure.why == s.ending.error.why
                  && (source.deltas == [] ==> source.end.failure == Classify(s.ending.error))
                  && (source.deltas != [] ==>
                        && source.end.failure.partial.Some?
                        && source.end.failure.partial.value.content == Join(source.deltas)
                        && source.end.failure.partial.value.provider == ProviderOf(s)
                        && source.end.failure.partial.value.finishReason == "error"))
  {
    match s
    case OpenAIStream(_, chunks, _) => OpenAIDeltasAreText(chunks);
    case AnthropicStream(_, events, _) => AnthropicDeltasAreText(events);
  }

  lemma {:induction false} OpenAITextIsDelivered(chunks: seq<Chunk>)
    ensures OpenAIDeltas(chunks) != [] <==> exists c :: c in chunks && ChunkText(c) != []
  {
    if chunks != [] {
      OpenAITextIsDelivered(Front(chunks));
      assert chunks == Front(chunks) + [Last(chunks)];
    }
  }

  lemma {:induction false} AnthropicTextIsDelivered(events: seq<SdkEvent>)
    ensures AnthropicDeltas(events) != [] <==> exists e :: e in events && EventText(e) != []
  {
    if events != [] {
      AnthropicTextIsDelivered(Front(events));
      assert events == Front(events) + [Last(events)];
    }
  }

  /** A stream yields a delta exactly if the SDK delivered some text. */
  lemma TextIsDelivered(s: ProviderStream)
    ensures SourceOf(s).deltas != [] <==> HasText(s)
  {
    match s
    case OpenAIStream(_, chunks, _) => OpenAITextIsDelivered(chunks);
    case AnthropicStream(_, events, _) => AnthropicTextIsDelivered(events);
  }

  // ---------------------------------------------------------------- event by event

  /** Chunk `i` is the last one that reports usage. */
  predicate LastUsage(chunks: seq<Chunk>, i: int) {
    0 <= i < |chunks| && chunks[i].usage.Some? && forall j :: i < j < |chunks| ==> chunks[j].usage.None?
  }

  /** The chunk's first choice has a finish reason. */
  predicate HasFinish(c: Chunk) {
    c.choices != [] && c.choices[0].finishReason.Some? && c.choices[0].finishReason.value != ""
  }

  predicate LastFinish(chunks: seq<Chunk>, i: int) {
    0 <= i < |chunks| && HasFinish(chunks[i]) && forall j :: i < j < |chunks| ==> !HasFinish(chunks[j])
  }

  lemma {:induction false} UsageByChunk(chunks: seq<Chunk>)
    ensures forall i :: LastUsage(chunks, i) ==> OpenAIUsage(chunks) == chunks[i].usage.value
    ensures (forall j :: 0 <= j < |chunks| ==> chunks[j].usage.None?) ==> OpenAIUsage(chunks) == Usage(0, 0)
  {
    if chunks != [] && Last(chunks).usage.None? {
      UsageByChunk(Front(chunks));
      forall i | LastUsage(chunks, i)
        ensures OpenAIUsage(chunks) == chunks[i].usage.value
      {
        assert LastUsage(Front(chunks), i);
      }
    }
  }

  lemma {:induction false} FinishByChunk(chunks: seq<Chunk>)
    ensures forall i :: LastFinish(chunks, i) ==> OpenAIFinish(chunks) == chunks[i].choices[0].finishReason
    ensures (forall j :: 0 <= j < |chunks| ==> !HasFinish(chunks[j])) ==> OpenAIFinish(chunks) == None
  {
    if chunks != [] && !HasFinish(Last(chunks)) {
      FinishByChunk(Front(chunks));
      forall i | LastFinish(chunks, i)
        ensures OpenAIFinish(chunks) == chunks[i].choices[0].finishReason
      {
        assert i < |chunks| - 1 && LastFinish(Front(chunks), i);
      }
    }
  }

  /** The terminal or partial response of an OpenAI stream, chunk by chunk: the last usage reported, the model
      and id of the last chunk, the last finish reason, and the defaults when there is none. */
  lemma OpenAIByChunk(model: string, chunks: seq<Chunk>, ending: SdkEnd)
    ensures var response := ResponseIn(SourceOf(OpenAIStream(model, chunks, ending)).end);
            response.Some? ==>
              var r, n := response.value, |chunks|;
              && (forall i :: LastUsage(chunks, i) ==>
                    r.tokensIn == chunks[i].usage.value.tokensIn && r.tokensOut == chunks[i].usage.value.tokensOut)
              && ((forall j :: 0 <= j < n ==> chunks[j].usage.None?) ==> r.tokensIn == r.tokensOut == 0)
              && r.model == (if n > 0 then chunks[n - 1].model else model)
              && r.requestId == (if n > 0 then chunks[n - 1].id else "")
              && (ending.Errored? ==> r.finishReason == "error")
              && (ending.Finished? ==>
                    && (forall i :: LastFinish(chunks, i) ==>
                          r.finishReason == OpenAIFinishOf(chunks[i].choices[0].finishReason))
                    && ((forall j :: 0 <= j < n ==> !HasFinish(chunks[j])) ==> r.finishReason == "stop"))
  {
    UsageByChunk(chunks);
    FinishByChunk(chunks);
    OpenAIFinishes(OpenAIFinish(chunks));
  }

  /** Event `i` is the last announcement of the message. */
  predicate LastStart(events: seq<SdkEvent>, i: int) {
    0 <= i < |events| && events[i].MessageStart? && forall j :: i < j < |events| ==> !events[j].MessageStart?
  }

  predicate LastDelta(events: seq<SdkEvent>, i: int) {
    0 <= i < |events| && events[i].MessageDelta? && forall j :: i < j < |events| ==> !events[j].MessageDelta?
  }

  predicate HasStop(e: SdkEvent) {
    e.MessageDelta? && e.stopReason.Some? && e.stopReason.value != ""
  }

  predicate LastStop(events: seq<SdkEvent>, i: int) {
    0 <= i < |events| && HasStop(events[i]) && forall j :: i < j < |events| ==> !HasStop(events[j])
  }

  lemma {:induction false} StartByEvent(events: seq<SdkEvent>)
    ensures forall i :: LastStart(events, i) ==> AnthropicStart(events) == Some(events[i])
    ensures (forall j :: 0 <= j < |events| ==> !events[j].MessageStart?) ==> AnthropicStart(events) == None
  {
    if events != [] && !Last(events).MessageStart? {
      StartByEvent(Front(events));
      forall i | LastStart(events, i)
        ensures AnthropicStart(events) == Some(events[i])
      {
        assert LastStart(Front(events), i);
      }
    }
  }

  lemma {:induction false} TokensOutByEvent(events: seq<SdkEvent>)
    ensures forall i :: LastDelta(events, i) ==> AnthropicTokensOut(events) == events[i].outputTokens
    ensures (forall j :: 0 <= j < |events| ==> !events[j].MessageDelta?) ==> AnthropicTokensOut(events) == 0
  {
    if events != [] && !Last(events).MessageDelta? {
      TokensOutByEvent(Front(events));
      forall i | LastDelta(events, i)
        ensures AnthropicTokensOut(events) == events[i].outputTokens
      {
        assert LastDelta(Front(events), i);
      }
    }
  }

  lemma {:induction false} StopByEvent(events: seq<SdkEvent>)
    ensures forall i :: LastStop(events, i) ==> AnthropicStop(events) == events[i].stopReason
    ensures (forall j :: 0 <= j < |events| ==> !HasStop(events[j])) ==> AnthropicStop(events) == None
  {
    if events != [] && !HasStop(Last(events)) {
      StopByEvent(Front(events));
      forall i | LastStop(events, i)
        ensures AnthropicStop(events) == events[i].stopReason
      {
        assert LastStop(Front(events), i);
      }
    }
  }

  /** The terminal or partial response of an Anthropic stream, event by event: the id, model and input count of
      the last announcement, the output count of the last message delta, the last stop reason, and the
      defaults when there is none. */
  lemma AnthropicByEvent(model: string, events: seq<SdkEvent>, ending: SdkEnd)
    ensures var response := ResponseIn(SourceOf(AnthropicStream(model, events, ending)).end);
            response.Some? ==>
              var r, n := response.value, |events|;
              && (forall i :: LastStart(events, i) ==>
                    r.requestId == events[i].id && r.model == events[i].model && r.tokensIn == events[i].inputTokens)
              && ((forall j :: 0 <= j < n ==> !events[j].MessageStart?) ==>
                    r.requestId == "" && r.model == model && r.tokensIn == 0)
              && (forall i :: LastDelta(events, i) ==> r.tokensOut == events[i].outputTokens)
              && ((forall j :: 0 <= j < n ==> !events[j].MessageDelta?) ==> r.tokensOut == 0)
              && (ending.Errored? ==> r.finishReason == "error")
              && (ending.Finished? ==>
                    && (forall i :: LastStop(events, i) ==> r.finishReason == AnthropicFinishOf(events[i].stopReason))
                    && ((forall j :: 0 <= j < n ==> !HasStop(events[j])) ==> r.finishReason == "stop"))
  {
    StartByEvent(events);
    TokensOutByEvent(events);
    StopByEvent(events);
    AnthropicFinishes(AnthropicStop(events));
  }

  /** The deltas of a stream, event by event: the texts of its events that have one, in order. */
  lemma DeltasByEvent(s: ProviderStream, more: ProviderStream)
    ensures s.OpenAIStream? && s.chunks == [] ==> SourceOf(s).deltas == []
    ensures s.AnthropicStream? && s.events == [] ==> SourceOf(s).deltas == []
    ensures s.OpenAIStream? && more.OpenAIStream? && |more.chunks| == |s.chunks| + 1 && s.chunks < more.chunks ==>
              var c := more.chunks[|s.chunks|];
              SourceOf(more).deltas
              == SourceOf(s).deltas
                 + (if c.choices != [] && c.choices[0].content.Some? && c.choices[0].content.value != ""
                    then [c.choices[0].content.value] else [])
    ensures s.AnthropicStream? && more.AnthropicStream? && |more.events| == |s.events| + 1 && s.events < more.events ==>
              var e := more.events[|s.events|];
              SourceOf(more).deltas == SourceOf(s).deltas + (if e.TextDelta? && e.text != "" then [e.text] else [])
  {
    if s.OpenAIStream? && more.OpenAIStream? && |more.chunks| == |s.chunks| + 1 && s.chunks < more.chunks {
      assert Front(more.chunks) == s.chunks;
    }
    if s.AnthropicStream? && more.AnthropicStream? && |more.events| == |s.events| + 1 && s.events < more.events {
      assert Front(more.events) == s.events;
    }
  }
}
