/** What a client receives when one upstream reply is handed to its untouched sink, whole or record by
    record. */
module ReplyLaws {
  import opened Bytes
  import opened Codec
  import opened Upstream
  import opened Relay
  import opened RelayLaws
  import P = ProxyRun
  import L = StreamLaws
  import A = AnthropicLaws
  import F = Fleet
  import S = SinkStates
  import Sse

  /** The sink of a new request. */
  predicate Untouched(sink: S.SinkState) {
    !sink.wrote && sink.wire.heads == [] && (sink.AnthropicSink? ==> sink.stream == S.NEW_STREAM)
  }

  /** A reply written whole, in the consumer's form. */
  function WholeText(codec: Codec, sink: S.SinkState, native: bool, r: Reply): Bytes
    requires r.Reply?
  {
    var data := r.body.Rest(codec);
    if native || sink.OpenAISink? then data
    else if r.status >= 400 then codec.errorToAnthropic(data)
    else codec.unaryToAnthropic(data)
  }

  /** A reply streamed record by record: framed payloads and a terminator, or one translated message. */
  function StreamText(codec: Codec, sink: S.SinkState, ctx: Ctx, r: Reply): Bytes
    requires r.Reply?
  {
    var payloads := Delivered(ctx, Sse.Scan(r.body.Rest(codec), r.body.Broken(), Sse.MAX_SSE_TOKEN).tokens);
    if sink.OpenAISink? then Sse.Render(payloads) + Sse.DONE_RECORD
    else RenderEvents(codec, A.Message(sink.freshID, A.ChunksRead(codec, payloads)))
  }

  lemma WholeConveys(codec: Codec, sink: S.SinkState, cand: F.Candidate, native: bool, r: Reply)
    requires r.Reply?
    ensures P.WriteWhole(codec, P.Named(sink, cand), native, r).0.wire.body
         == sink.wire.body + Cut(WholeText(codec, sink, native, r), sink.wire.fuse)
  {
    hide BodyValue.Rest;
  }

  lemma StreamConveys(codec: Codec, sink: S.SinkState, cand: F.Candidate, ctx: Ctx, usage: Usage, r: Reply)
    requires r.Reply? && Untouched(sink)
    ensures RelayBytes(codec, P.Named(sink, cand), ctx, usage, r.body.Rest(codec), r.body.Broken()).sink.wire.body
         == sink.wire.body + Cut(StreamText(codec, sink, ctx, r), sink.wire.fuse)
  {
    hide BodyValue.Rest, BodyValue.Broken, RelayBytes, Delivered, Sse.Scan, Sse.Render, RenderEvents, Cut;
    hide A.Message, A.ChunksRead;
    var named, data := P.Named(sink, cand), r.body.Rest(codec);
    if sink.OpenAISink? {
      L.OpenAIStream(codec, named, ctx, usage, data, r.body.Broken());
    } else {
      L.AnthropicStream(codec, named, ctx, usage, data, r.body.Broken());
    }
  }
}
