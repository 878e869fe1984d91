/** The two response sinks as values: what each operation makes of the sink's fields and of the
    client connection, and whether it reports an error (internal/server/sink.go,
    internal/server/anthropic.go). The classes in Sinks.dfy are proved against these functions. */
module SinkStates {
  import opened Wrappers
  import opened Bytes
  import opened Sse
  import opened Codec
  import opened Wire

  const STREAM_HEADERS: Headers := map[
    "Content-Type" := "text/event-stream",
    "Cache-Control" := "no-cache",
    "Connection" := "keep-alive",
    "X-Accel-Buffering" := "no"]

  /** The fields of the translating sink that streaming updates. */
  datatype Stream = Stream(
    started: bool, msgID: string, model: string, stop: string, outTokens: int, inTokens: int)

  const NEW_STREAM: Stream := Stream(false, "", "", "", 0, 0)

  /** `freshID` is the message id the sink would draw. */
  datatype SinkState =
    | OpenAISink(wire: Wire, wrote: bool, extra: Headers)
    | AnthropicSink(wire: Wire, wrote: bool, extra: Headers, stream: Stream, freshID: string)
  {
    function SetHeader(key: string, value: string): SinkState {
      this.(extra := extra[key := value])
    }

    /** Headers, status line and the commit flag: the step after which nothing can be taken back. */
    function Commit(status: int, own: Headers): SinkState {
      this.(wire := wire.(headers := wire.headers + own + extra).WriteHeader(status), wrote := true)
    }

    function StartStream(): SinkState {
      Commit(200, STREAM_HEADERS)
    }

    function Write(p: Bytes): (SinkState, bool) {
      var (w, ok) := wire.Put(p);
      (this.(wire := w, wrote := true), ok)
    }

    function WriteRawResponse(status: int, contentType: string, body: Bytes): (SinkState, bool) {
      Commit(status, ContentType(contentType)).Write(body)
    }

    function WriteResponse(codec: Codec, status: int, contentType: string, body: Bytes): (SinkState, bool) {
      match this
      case OpenAISink(_, _, _) => WriteRawResponse(status, contentType, body)
      case AnthropicSink(_, _, _, _, _) =>
        Commit(status, ContentType("")).Write(
          if status >= 400 then codec.errorToAnthropic(body) else codec.unaryToAnthropic(body))
    }

    function Emit(codec: Codec, e: SinkEvent): (SinkState, bool) {
      Write(RenderEvent(codec, e))
    }

    function EmitStart(codec: Codec): (SinkState, bool)
      requires AnthropicSink?
    {
      var s := this.(stream := Opened(stream, freshID));
      var (s1, ok) := s.Emit(codec, MessageStart(s.stream.msgID, s.stream.model, s.stream.inTokens));
      if ok then s1.Emit(codec, BlockStart) else (s1, false)
    }

    function Start(codec: Codec): (SinkState, bool)
      requires AnthropicSink?
    {
      if stream.started then (this, true) else EmitStart(codec)
    }

    function WriteChunk(codec: Codec, c: ChunkView): (SinkState, bool)
      requires AnthropicSink?
    {
      var (s, ok) := this.(stream := Named(stream, c)).Start(codec);
      if !ok then (s, false)
      else
        var (s1, ok1) := if TextOf(c) != "" then s.Emit(codec, TextDelta(TextOf(c))) else (s, true);
        if !ok1 then (s1, false)
        else (s1.Absorb(c), true)
    }

    function Absorb(c: ChunkView): SinkState
      requires AnthropicSink?
    {
      this.(stream := Absorbed(stream, c))
    }

    function WriteEvent(codec: Codec, data: Bytes): (SinkState, bool) {
      if IsDone(data) then (this, true)
      else
        match this
        case OpenAISink(_, _, _) => Write(Frame(data))
        case AnthropicSink(_, _, _, _, _) =>
          match codec.decodeChunk(data)
          case None => (this, true)
          case Some(c) => WriteChunk(codec, c)
    }

    function EmitEnd(codec: Codec): (SinkState, bool)
      requires AnthropicSink?
    {
      var (s, ok) := Emit(codec, BlockStop);
      if !ok then (s, false)
      else
        var (s1, ok1) := s.Emit(codec, MessageDelta(StopOf(stream), stream.outTokens));
        if !ok1 then (s1, false) else s1.Emit(codec, MessageStop)
    }

    function EndStream(codec: Codec): (SinkState, bool) {
      match this
      case OpenAISink(_, _, _) => Write(DONE_RECORD)
      case AnthropicSink(_, _, _, _, _) =>
        var (s, ok) := Start(codec);
        if ok then s.EmitEnd(codec) else (s, false)
    }
  }

  function ContentType(contentType: string): Headers {
    map["Content-Type" := if contentType == "" then "application/json" else contentType]
  }

  function Opened(t: Stream, freshID: string): Stream {
    t.(started := true, msgID := if t.msgID == "" then freshID else t.msgID)
  }

  function Named(t: Stream, c: ChunkView): Stream {
    if c.model != "" then t.(model := c.model) else t
  }

  function TextOf(c: ChunkView): string {
    if c.choice.Some? then c.choice.value.content else ""
  }

  function FinishOf(c: ChunkView): string {
    if c.choice.Some? && c.choice.value.finish.Some? then c.choice.value.finish.value else ""
  }

  /** Stop reason and usage after a chunk. */
  function Absorbed(t: Stream, c: ChunkView): Stream {
    var t1 := if FinishOf(c) != "" then t.(stop := FinishToStop(FinishOf(c))) else t;
    if c.usage == None then t1
    else
      var u := c.usage.value;
      var t2 := if u.completion > 0 then t1.(outTokens := u.completion) else t1;
      if u.prompt > 0 then t2.(inTokens := u.prompt) else t2
  }

  function StopOf(t: Stream): string {
    if t.stop == "" then "end_turn" else t.stop
  }
}
