/** The response sinks as the server builds them: objects that write to the client
    (internal/server/sink.go, internal/server/anthropic.go). */
module Sinks {
  import opened Wrappers
  import opened Bytes
  import opened Sse
  import opened Codec
  import opened Wire
  import S = SinkStates

  class OpenAISink {
    const w: ResponseWriter
    var wrote: bool
    var extra: Headers

    function State(): S.SinkState
      reads this, w
    {
      S.OpenAISink(w.State(), wrote, extra)
    }

    constructor (w: ResponseWriter)
      ensures this.w == w && !wrote && extra == map[]
    {
      this.w, wrote, extra := w, false, map[];
    }

    method SetHeader(key: string, value: string)
      modifies this
      ensures State() == old(State()).SetHeader(key, value)
    {
      extra := extra[key := value];
    }

    method WriteResponse(status: int, contentType: string, body: Bytes) returns (ok: bool)
      modifies this, w
      ensures (State(), ok) == old(State()).WriteRawResponse(status, contentType, body)
    {
      w.SetHeader("Content-Type", if contentType == "" then "application/json" else contentType);
      assert w.headers == old(w.headers) + S.ContentType(contentType);
      w.SetHeaders(extra);
      w.WriteHeader(status);
      wrote := true;
      ok := w.Write(body);
    }

    method StartStream()
      modifies this, w
      ensures State() == old(State()).StartStream()
    {
      w.SetHeaders(S.STREAM_HEADERS);
      w.SetHeaders(extra);
      w.WriteHeader(200);
      wrote := true;
    }

    method WriteEvent(codec: Codec, data: Bytes) returns (ok: bool)
      modifies this, w
      ensures (State(), ok) == old(State()).WriteEvent(codec, data)
    {
      hide IsDone, RenderEvent;
      if IsDone(data) {
        return true;
      }
      wrote := true;
      ghost var was := w.State();
      PutPieces(was, DATA, data);
      PutPieces(was, DATA + data, "\n\n");
      ok := w.Write("data: ");
      if !ok { return; }
      ok := w.Write(data);
      if !ok { return; }
      ok := w.Write("\n\n");
    }

    method EndStream(codec: Codec) returns (ok: bool)
      modifies this, w
      ensures (State(), ok) == old(State()).EndStream(codec)
    {
      wrote := true;
      ok := w.Write("data: [DONE]\n\n");
    }

    method WriteRawChunk(p: Bytes) returns (ok: bool)
      modifies this, w
      ensures (State(), ok) == old(State()).Write(p)
    {
      wrote := true;
      ok := w.Write(p);
    }
  }

  class AnthropicSink {
    const w: ResponseWriter
    const freshID: string
    var wrote: bool
    var extra: Headers
    var started: bool
    var msgID: string
    var model: string
    var stop: string
    var out: int
    var in_: int

    function State(): (s: S.SinkState)
      reads this, w
      ensures s.AnthropicSink?
    {
      S.AnthropicSink(w.State(), wrote, extra, S.Stream(started, msgID, model, stop, out, in_), freshID)
    }

    constructor (w: ResponseWriter, freshID: string)
      ensures this.w == w && this.freshID == freshID
      ensures !wrote && extra == map[]
      ensures S.Stream(started, msgID, model, stop, out, in_) == S.NEW_STREAM
    {
      this.w, this.freshID, wrote, extra := w, freshID, false, map[];
      started, msgID, model, stop, out, in_ := false, "", "", "", 0, 0;
    }

    method SetHeader(key: string, value: string)
      modifies this
      ensures State() == old(State()).SetHeader(key, value)
    {
      extra := extra[key := value];
    }

    method WriteResponse(codec: Codec, status: int, contentType: string, body: Bytes) returns (ok: bool)
      modifies this, w
      ensures (State(), ok) == old(State()).WriteResponse(codec, status, contentType, body)
    {
      w.SetHeader("Content-Type", "application/json");
      assert w.headers == old(w.headers) + S.ContentType("");
      w.SetHeaders(extra);
      w.WriteHeader(status);
      wrote := true;
      var reply := if status >= 400 then codec.errorToAnthropic(body) else codec.unaryToAnthropic(body);
      ok := w.Write(reply);
    }

    method WriteRawResponse(status: int, contentType: string, body: Bytes) returns (ok: bool)
      modifies this, w
      ensures (State(), ok) == old(State()).WriteRawResponse(status, contentType, body)
    {
      w.SetHeader("Content-Type", if contentType == "" then "application/json" else contentType);
      assert w.headers == old(w.headers) + S.ContentType(contentType);
      w.SetHeaders(extra);
      w.WriteHeader(status);
      wrote := true;
      ok := w.Write(body);
    }

    method StartStream()
      modifies this, w
      ensures State() == old(State()).StartStream()
    {
      w.SetHeaders(S.STREAM_HEADERS);
      w.SetHeaders(extra);
      w.WriteHeader(200);
      wrote := true;
    }

    method WriteRawChunk(p: Bytes) returns (ok: bool)
      modifies this, w
      ensures (State(), ok) == old(State()).Write(p)
    {
      wrote := true;
      ok := w.Write(p);
    }

    method Emit(codec: Codec, e: SinkEvent) returns (ok: bool)
      modifies this`wrote, w
      ensures (State(), ok) == old(State()).Emit(codec, e)
    {
      wrote := true;
      var b := codec.encodeEvent(e);
      var head := "event: " + EventName(e) + "\n";
      ghost var was := w.State();
      PutPieces(was, head, "data: ");
      PutPieces(was, head + "data: ", b);
      PutPieces(was, head + "data: " + b, "\n\n");
      ok := w.Write(head);
      if !ok { return; }
      ok := w.Write("data: ");
      if !ok { return; }
      ok := w.Write(b);
      if !ok { return; }
      ok := w.Write("\n\n");
    }

    method EmitStart(codec: Codec) returns (ok: bool)
      modifies this, w
      ensures (State(), ok) == old(State()).EmitStart(codec)
    {
      started := true;
      if msgID == "" {
        msgID := freshID;
      }
      ok := Emit(codec, MessageStart(msgID, model, in_));
      if !ok { return; }
      ok := Emit(codec, BlockStart);
    }

    method WriteEvent(codec: Codec, data: Bytes) returns (ok: bool)
      modifies this, w
      ensures (State(), ok) == old(State()).WriteEvent(codec, data)
    {
      hide IsDone, S.SinkState.WriteChunk;
      if IsDone(data) {
        return true;
      }
      var decoded := codec.decodeChunk(data);
      if decoded.None? {
        return true;
      }
      ok := WriteChunk(codec, decoded.value);
    }

    method WriteChunk(codec: Codec, chunk: ChunkView) returns (ok: bool)
      modifies this, w
      ensures (State(), ok) == old(State()).WriteChunk(codec, chunk)
    {
      if chunk.model != "" {
        model := chunk.model;
      }
      ok := Start(codec);
      if !ok { return; }
      if chunk.choice.Some? && chunk.choice.value.content != "" {
        ok := Emit(codec, TextDelta(chunk.choice.value.content));
        if !ok { return; }
      }
      Absorb(chunk);
    }

    method Start(codec: Codec) returns (ok: bool)
      modifies this, w
      ensures (State(), ok) == old(State()).Start(codec)
    {
      if started {
        return true;
      }
      ok := EmitStart(codec);
    }

    method Absorb(chunk: ChunkView)
      modifies this`stop, this`out, this`in_
      ensures State() == old(State()).Absorb(chunk)
    {
      if chunk.choice.Some? {
        var ch := chunk.choice.value;
        if ch.finish.Some? && ch.finish.value != "" {
          stop := FinishToStop(ch.finish.value);
        }
      }
      if chunk.usage.Some? {
        if chunk.usage.value.completion > 0 {
          out := chunk.usage.value.completion;
        }
        if chunk.usage.value.prompt > 0 {
          in_ := chunk.usage.value.prompt;
        }
      }
    }

    method EndStream(codec: Codec) returns (ok: bool)
      modifies this, w
      ensures (State(), ok) == old(State()).EndStream(codec)
    {
      ok := Start(codec);
      if !ok { return; }
      ok := Emit(codec, BlockStop);
      if !ok { return; }
      var reason := stop;
      if reason == "" {
        reason := "end_turn";
      }
      ok := Emit(codec, MessageDelta(reason, out));
      if !ok { return; }
      ok := Emit(codec, MessageStop);
    }
  }

  /** The ResponseSink interface: one of the two sinks. */
  datatype ResponseSink = OpenAI(o: OpenAISink) | Anthropic(a: AnthropicSink) {
    function Writer(): ResponseWriter {
      match this case OpenAI(o) => o.w case Anthropic(a) => a.w
    }

    ghost function Footprint(): set<object> {
      match this case OpenAI(o) => {o, o.w} case Anthropic(a) => {a, a.w}
    }

    function State(): S.SinkState
      reads Footprint()
    {
      match this case OpenAI(o) => o.State() case Anthropic(a) => a.State()
    }

    function Wrote(): bool
      reads Footprint()
    {
      State().wrote
    }

    method SetHeader(key: string, value: string)
      modifies Footprint()
      ensures State() == old(State()).SetHeader(key, value)
    {
      match this
      case OpenAI(o) => o.SetHeader(key, value);
      case Anthropic(a) => a.SetHeader(key, value);
    }

    method WriteResponse(codec: Codec, status: int, contentType: string, body: Bytes) returns (ok: bool)
      modifies Footprint()
      ensures (State(), ok) == old(State()).WriteResponse(codec, status, contentType, body)
    {
      match this
      case OpenAI(o) => ok := o.WriteResponse(status, contentType, body);
      case Anthropic(a) => ok := a.WriteResponse(codec, status, contentType, body);
    }

    method WriteRawResponse(status: int, contentType: string, body: Bytes) returns (ok: bool)
      modifies Footprint()
      ensures (State(), ok) == old(State()).WriteRawResponse(status, contentType, body)
    {
      match this
      case OpenAI(o) => ok := o.WriteResponse(status, contentType, body);
      case Anthropic(a) => ok := a.WriteRawResponse(status, contentType, body);
    }

    method StartStream()
      modifies Footprint()
      ensures State() == old(State()).StartStream()
    {
      match this
      case OpenAI(o) => o.StartStream();
      case Anthropic(a) => a.StartStream();
    }

    method WriteEvent(codec: Codec, data: Bytes) returns (ok: bool)
      modifies Footprint()
      ensures (State(), ok) == old(State()).WriteEvent(codec, data)
    {
      match this
      case OpenAI(o) => ok := o.WriteEvent(codec, data);
      case Anthropic(a) => ok := a.WriteEvent(codec, data);
    }

    method EndStream(codec: Codec) returns (ok: bool)
      modifies Footprint()
      ensures (State(), ok) == old(State()).EndStream(codec)
    {
      match this
      case OpenAI(o) => ok := o.EndStream(codec);
      case Anthropic(a) => ok := a.EndStream(codec);
    }

    method WriteRawChunk(p: Bytes) returns (ok: bool)
      modifies Footprint()
      ensures (State(), ok) == old(State()).Write(p)
    {
      match this
      case OpenAI(o) => ok := o.WriteRawChunk(p);
      case Anthropic(a) => ok := a.WriteRawChunk(p);
    }
  }
}
