/** The values that travel as JSON, and the contract of the JSON library that carries them.
    The library itself is a parameter: a record of functions that satisfies `Faithful`. */
module Codec {
  import opened Wrappers
  import opened Bytes
  import opened Sse

  /** What the stream reader decodes from one Anthropic event; absent fields are "". */
  datatype AnthropicEvent = AnthropicEvent(
    kind: string, messageID: string, messageModel: string,
    deltaKind: string, text: string, thinking: string, stopReason: string)

  datatype Delta = Role | Content(text: string) | Reasoning(text: string) | NoDelta

  /** One chat.completion.chunk as the stream reader builds it. */
  datatype Chunk = Chunk(id: string, model: string, delta: Delta, finish: Option<string>)

  datatype Choice = Choice(content: string, finish: Option<string>)
  datatype ChunkUsage = ChunkUsage(prompt: int, completion: int)

  /** What the Anthropic sink reads from one chunk. */
  datatype ChunkView = ChunkView(model: string, choice: Option<Choice>, usage: Option<ChunkUsage>)

  /** The events the Anthropic sink writes. */
  datatype SinkEvent =
    | MessageStart(id: string, model: string, inputTokens: int)
    | BlockStart
    | TextDelta(text: string)
    | BlockStop
    | MessageDelta(stopReason: string, outputTokens: int)
    | MessageStop

  datatype Usage = Usage(prompt: int, completion: int, reasoning: int)

  const NO_USAGE: Usage := Usage(0, 0, 0)

  datatype Codec = Codec(
    decodeEvent: Bytes -> Option<AnthropicEvent>,
    encodeChunk: Chunk -> Bytes,
    decodeChunk: Bytes -> Option<ChunkView>,
    encodeEvent: SinkEvent -> Bytes,
    usageOf: Bytes -> Usage,
    nativeUsageOf: Bytes -> Usage,
    unaryToOpenAI: Bytes -> Option<Bytes>,
    unaryToAnthropic: Bytes -> Bytes,
    errorToAnthropic: Bytes -> Bytes)

  function ViewOf(c: Chunk): ChunkView {
    ChunkView(c.model, Some(Choice(if c.delta.Content? then c.delta.text else "", c.finish)), None)
  }

  /** An encoded chunk is one line of text that framing preserves, and decoding reads it back. */
  ghost predicate Faithful(codec: Codec) {
    && (forall c: Chunk :: ValidPayload(codec.encodeChunk(c)))
    && (forall c: Chunk :: codec.decodeChunk(codec.encodeChunk(c)) == Some(ViewOf(c)))
  }

  function EventName(e: SinkEvent): Bytes {
    match e
    case MessageStart(_, _, _) => "message_start"
    case BlockStart => "content_block_start"
    case TextDelta(_) => "content_block_delta"
    case BlockStop => "content_block_stop"
    case MessageDelta(_, _) => "message_delta"
    case MessageStop => "message_stop"
  }

  function RenderEvent(codec: Codec, e: SinkEvent): Bytes {
    "event: " + EventName(e) + "\n" + "data: " + codec.encodeEvent(e) + "\n\n"
  }

  function RenderEvents(codec: Codec, es: seq<SinkEvent>): Bytes {
    if es == [] then [] else RenderEvent(codec, es[0]) + RenderEvents(codec, es[1..])
  }

  lemma {:induction false} RenderEventsAppend(codec: Codec, a: seq<SinkEvent>, b: seq<SinkEvent>)
    ensures RenderEvents(codec, a + b) == RenderEvents(codec, a) + RenderEvents(codec, b)
  {
    if a == [] {
      assert a + b == b;
    } else {
      assert (a + b)[1..] == a[1..] + b;
      RenderEventsAppend(codec, a[1..], b);
    }
  }

  // ----- the two stop-reason maps -----

  function StopToFinish(reason: string): (finish: Option<string>)
    ensures finish == None <==> reason == ""
  {
    if reason == "" then None
    else if reason == "max_tokens" then Some("length")
    else if reason == "tool_use" then Some("tool_calls")
    else Some("stop")
  }

  function FinishToStop(finish: string): string {
    if finish == "length" then "max_tokens"
    else if finish == "tool_calls" || finish == "function_call" then "tool_use"
    else "end_turn"
  }

  /** Which finish reasons an Anthropic consumer is told as which stop reason. */
  lemma FinishIsTold(finish: string)
    ensures FinishToStop(finish) == "max_tokens" <==> finish == "length"
    ensures FinishToStop(finish) == "tool_use" <==> finish == "tool_calls" || finish == "function_call"
    ensures FinishToStop(finish) == "end_turn" <==> finish != "length" && finish != "tool_calls" && finish != "function_call"
  {
    assert "max_tokens"[0] == 'm' && "tool_use"[0] == 't' && "end_turn"[0] == 'e';
    assert "length"[0] == 'l' && "tool_calls"[0] == 't' && "function_call"[0] == 'f';
  }

  /** Through both maps a stop reason survives exactly when it is one of three. */
  lemma StopSurvives(reason: string)
    requires reason != ""
    ensures FinishToStop(StopToFinish(reason).value) == reason
       <==> reason in {"max_tokens", "tool_use", "end_turn"}
  {
    var f := StopToFinish(reason).value;
    assert "length"[0] == 'l' && "stop"[0] == 's' && "tool_calls"[0] == 't' && "function_call"[0] == 'f';
    if reason != "max_tokens" && reason != "tool_use" {
      assert f == "stop";
    } else if reason == "tool_use" {
      assert "max_tokens"[0] == 'm';
    }
  }
}
