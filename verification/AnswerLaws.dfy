/** What an upstream's answer becomes for the client, told from the answer itself: which answers are lost,
    and the head, the bytes and the usage any other one leads to. */
module AnswerLaws {
  import opened Wrappers
  import opened Bytes
  import opened Codec
  import opened Wire
  import opened Upstream
  import opened Relay
  import opened RelayLaws
  import P = ProxyRun
  import PL = ProxyLaws
  import RP = ReplyLaws
  import L = StreamLaws
  import A = AnthropicLaws
  import E = EventStream
  import F = Fleet
  import S = SinkStates
  import Sse

  // ----- the answer as the strategies see it -----

  /** How a dispatch is made: streaming or not, to which protocol, on its native endpoint or not. */
  datatype Way = Way(stream: bool, protocol: string, native: bool) {
    /** The reply is translated to the canonical form. */
    predicate Translates(status: int) {
      !native && protocol == "anthropic" && status == 200
    }

    /** The reply is written in one piece. */
    predicate Whole(status: int) {
      !stream || status < 200 || status > 299
    }
  }

  /** The whole reply in the form the strategy reads it. */
  function Document(codec: Codec, way: Way, a: Answer): Bytes
    requires a.Answered?
  {
    var data := Concat(a.pieces);
    if !way.Translates(a.status) then data
    else if way.stream then E.Output(codec, data, E.UNNAMED)
    else
      match codec.unaryToOpenAI(data)
      case Some(oai) => oai
      case None => []
  }

  /** No reply comes back: the backend cannot be reached, or its document cannot be read and translated. */
  predicate NoReply(codec: Codec, way: Way, a: Answer) {
    match a
    case Unreachable => true
    case Answered(status, _, pieces, broken) =>
      way.Translates(status) && !way.stream && (broken || codec.unaryToOpenAI(Concat(pieces)) == None)
  }

  /** Reading the reply ends with an error. */
  predicate CutOff(way: Way, a: Answer)
    requires a.Answered?
  {
    a.broken && !way.Translates(a.status)
  }

  function ContentType(way: Way, a: Answer): string
    requires a.Answered?
  {
    if !way.Translates(a.status) then a.contentType
    else if way.stream then "text/event-stream"
    else "application/json"
  }

  lemma ReceiveIs(codec: Codec, way: Way, a: Answer)
    ensures var r := Receive(codec, way.protocol, way.native, a, way.stream);
      && (r == Failed <==> NoReply(codec, way, a))
      && (r.Reply? ==>
            && r.status == a.status && r.contentType == ContentType(way, a)
            && r.body.Rest(codec) == Document(codec, way, a) && r.body.Broken() == CutOff(way, a)
            && (way.native || !way.Translates(a.status) ==>
                  r.body == Plain(a.pieces, a.broken)))
  {
    hide E.Output, Concat;
    if a.Answered? && way.Translates(a.status) {
      if way.stream {
        var out := E.Output(codec, Concat(a.pieces), E.UNNAMED);
        assert [] + out == out;
      } else if codec.unaryToOpenAI(Concat(a.pieces)).Some? {
        WholeIs(codec.unaryToOpenAI(Concat(a.pieces)).value);
      }
    }
  }

  lemma WholeIs(b: Bytes)
    ensures Concat(Upstream.Whole(b)) == b
  {
    if b != [] {
      assert [b][1..] == [] && Concat([b]) == b + Concat([]);
    }
  }

  /** The proxy tries another candidate: no reply, a status of 502, 503 or 504, or a document cut off. */
  predicate Lost(codec: Codec, way: Way, a: Answer) {
    || NoReply(codec, way, a)
    || (a.Answered? && (a.status == 502 || a.status == 503 || a.status == 504))
    || (a.Answered? && !way.stream && CutOff(way, a))
  }

  /** The way a request goes to a backend of a protocol. */
  function WayOf(req: P.ChatRequest, protocol: string): Way {
    Way(req.stream, protocol, req.consumer == "anthropic" && protocol == "anthropic" && req.hasBody)
  }

  lemma FailsIff(env: P.Env, k: nat, cand: F.Candidate)
    ensures PL.Fails(env, k, cand) <==>
      cand.backend in env.backends && Lost(env.codec, WayOf(env.req, env.backends[cand.backend]), env.answers(k))
  {
    hide Receive, BodyValue.Rest, BodyValue.Broken, Document, ContentType;
    if cand.backend in env.backends {
      ReceiveIs(env.codec, WayOf(env.req, env.backends[cand.backend]), env.answers(k));
    }
  }

  // ----- what the client has -----

  /** The payloads of a streamed reply that reach the sink. */
  function Payloads(codec: Codec, way: Way, ctx: Ctx, a: Answer): seq<Bytes>
    requires a.Answered?
  {
    Delivered(ctx, Sse.Scan(Document(codec, way, a), CutOff(way, a), Sse.MAX_SSE_TOKEN).tokens)
  }

  /** The bytes of a reply that is written whole, or record by record. */
  function Text(codec: Codec, way: Way, ctx: Ctx, a: Answer, was: S.SinkState): Bytes
    requires a.Answered?
  {
    var ps := Payloads(codec, way, ctx, a);
    var data := Document(codec, way, a);
    if way.Whole(a.status) then
      if way.native || was.OpenAISink? then data
      else if a.status >= 400 then codec.errorToAnthropic(data)
      else codec.unaryToAnthropic(data)
    else if was.OpenAISink? then Sse.Render(ps) + "data: [DONE]\n\n"
    else RenderEvents(codec, A.Message(was.freshID, A.ChunksRead(codec, ps)))
  }

  /** Headers a response has besides the router's. */
  function OwnHeaders(way: Way, a: Answer, was: S.SinkState): Headers
    requires a.Answered?
  {
    if !way.Whole(a.status) then
      map["Content-Type" := "text/event-stream", "Cache-Control" := "no-cache", "Connection" := "keep-alive",
          "X-Accel-Buffering" := "no"]
    else if (way.native || was.OpenAISink?) && ContentType(way, a) != "" then
      map["Content-Type" := ContentType(way, a)]
    else map["Content-Type" := "application/json"]
  }

  /** The one head of the response: a stream is always 200. */
  predicate HeadSent(way: Way, a: Answer, was: S.SinkState, cand: F.Candidate, now: S.SinkState)
    requires a.Answered?
  {
    now.wire.heads ==
      [Head(if way.Whole(a.status) then a.status else 200,
            was.wire.headers + OwnHeaders(way, a, was)
            + was.extra["X-Router-Model" := cand.model]["X-Router-Backend" := cand.backend])]
  }

  /** The bytes behind it, cut where the connection fails: a raw stream copies the upstream up to a
      cancellation. */
  ghost predicate BodySent(codec: Codec, way: Way, ctx: Ctx, a: Answer, was: S.SinkState, now: S.SinkState)
    requires a.Answered?
  {
    if way.native && !way.Whole(a.status) then
      exists n: nat :: n <= |Concat(a.pieces)| && (ctx.Live() ==> n == |Concat(a.pieces)|)
        && now.wire.body == was.wire.body + Cut(Concat(a.pieces)[..n], was.wire.fuse)
    else now.wire.body == was.wire.body + Cut(Text(codec, way, ctx, a, was), was.wire.fuse)
  }

  /** The usage recorded for it: read from a unary document, or the last one a fully sent stream reported. */
  predicate UsageKept(codec: Codec, way: Way, ctx: Ctx, a: Answer, was: S.SinkState, usage: Usage)
    requires a.Answered?
  {
    if !way.stream then
      usage == if way.native then codec.nativeUsageOf(Document(codec, way, a)) else codec.usageOf(Document(codec, way, a))
    else if way.native || way.Whole(a.status) then usage == NO_USAGE
    else |Text(codec, way, ctx, a, was)| <= was.wire.fuse ==>
      usage == LastReported(codec, Payloads(codec, way, ctx, a), NO_USAGE)
  }

  /** The client whose sink was `was` has exactly the answer, through `cand`, and the outcome says so. */
  ghost predicate Sent(codec: Codec, way: Way, ctx: Ctx, a: Answer, was: S.SinkState, cand: F.Candidate,
                       now: S.SinkState, o: P.Outcome) {
    && a.Answered? && now.wrote
    && o.status == a.status && o.backend == cand.backend && o.upstreamModel == cand.model
    && HeadSent(way, a, was, cand, now) && BodySent(codec, way, ctx, a, was, now)
    && UsageKept(codec, way, ctx, a, was, o.usage)
  }

  // ----- every way of handing it over -----

  lemma StreamBytes(codec: Codec, way: Way, ctx: Ctx, a: Answer, was: S.SinkState)
    requires !NoReply(codec, way, a) && !way.Whole(a.status) && !way.native
    ensures var r := Receive(codec, way.protocol, false, a, way.stream);
      RP.StreamText(codec, was, ctx, r) == Text(codec, way, ctx, a, was)
  {
    hide Receive, BodyValue.Rest, BodyValue.Broken, Document, NoReply, Delivered, Sse.Scan, Sse.Render, A.Message;
    hide A.ChunksRead, RenderEvents;
    ReceiveIs(codec, way, a);
  }

  lemma WholeBytes(codec: Codec, way: Way, ctx: Ctx, a: Answer, was: S.SinkState)
    requires !NoReply(codec, way, a) && way.Whole(a.status)
    ensures var r := Receive(codec, way.protocol, way.native, a, way.stream);
      RP.WholeText(codec, was, way.native, r) == Text(codec, way, ctx, a, was)
  {
    hide Receive, BodyValue.Rest, BodyValue.Broken, Document, NoReply, Payloads;
    ReceiveIs(codec, way, a);
  }

  lemma WholeSends(codec: Codec, way: Way, ctx: Ctx, a: Answer, was: S.SinkState, cand: F.Candidate)
    requires !NoReply(codec, way, a) && way.Whole(a.status) && was.wire.heads == []
    ensures var now := P.WriteWhole(codec, P.Named(was, cand), way.native,
                                    Receive(codec, way.protocol, way.native, a, way.stream)).0;
      now.wrote && HeadSent(way, a, was, cand, now) && BodySent(codec, way, ctx, a, was, now)
  {
    hide Receive, BodyValue.Rest, BodyValue.Broken, Document, ContentType, Payloads, Text, Cut, RP.WholeText, P.WriteWhole;
    hide OwnHeaders;
    var r := Receive(codec, way.protocol, way.native, a, way.stream);
    ReceiveIs(codec, way, a);
    WholeBytes(codec, way, ctx, a, was);
    RP.WholeConveys(codec, was, cand, way.native, r);
    WholeHead(codec, was, cand, way.native, r);
    OwnIs(way, a, was);
  }

  lemma OwnIs(way: Way, a: Answer, was: S.SinkState)
    requires a.Answered?
    ensures OwnHeaders(way, a, was) ==
      if !way.Whole(a.status) then S.STREAM_HEADERS
      else S.ContentType(if way.native || was.OpenAISink? then ContentType(way, a) else "")
  {
    hide ContentType;
  }

  lemma WholeHead(codec: Codec, was: S.SinkState, cand: F.Candidate, native: bool, r: Reply)
    requires r.Reply? && was.wire.heads == []
    ensures var now := P.WriteWhole(codec, P.Named(was, cand), native, r).0;
      && now.wrote
      && now.wire.heads == [Head(r.status, was.wire.headers
           + S.ContentType(if native || was.OpenAISink? then r.contentType else "")
           + was.extra["X-Router-Model" := cand.model]["X-Router-Backend" := cand.backend])]
  {
    hide BodyValue.Rest, S.ContentType, Wire.Put;
    var named := P.Named(was, cand);
    var data := r.body.Rest(codec);
    PL.PutKeepsHead(named.Commit(r.status, S.ContentType(r.contentType)).wire, data);
    PL.PutKeepsHead(named.Commit(r.status, S.ContentType("")).wire,
                    if r.status >= 400 then codec.errorToAnthropic(data) else codec.unaryToAnthropic(data));
  }

  lemma RawSends(codec: Codec, way: Way, ctx: Ctx, a: Answer, was: S.SinkState, cand: F.Candidate)
    requires a.Answered? && way.native && !way.Whole(a.status) && was.wire.heads == []
    ensures var now := RawPieces(P.Named(was, cand).StartStream(), ctx, a.pieces, a.broken).sink;
      now.wrote && HeadSent(way, a, was, cand, now) && BodySent(codec, way, ctx, a, was, now)
  {
    hide RawPieces, Cut, Text, Concat, OwnHeaders;
    var started := P.Named(was, cand).StartStream();
    var n := RawCopies(started, ctx, a.pieces, a.broken);
    PL.RawKeepsHead(started, ctx, a.pieces, a.broken);
    PL.RawWrote(started, ctx, a.pieces, a.broken);
    OwnIs(way, a, was);
  }

  lemma StreamSends(codec: Codec, way: Way, ctx: Ctx, a: Answer, was: S.SinkState, cand: F.Candidate)
    requires !NoReply(codec, way, a) && !way.Whole(a.status) && !way.native && RP.Untouched(was)
    ensures var r := Receive(codec, way.protocol, false, a, way.stream);
      var now := RelayBytes(codec, P.Named(was, cand), ctx, NO_USAGE, r.body.Rest(codec), r.body.Broken());
      && now.sink.wrote && HeadSent(way, a, was, cand, now.sink) && BodySent(codec, way, ctx, a, was, now.sink)
      && UsageKept(codec, way, ctx, a, was, now.usage)
  {
    hide Receive, BodyValue.Rest, BodyValue.Broken, RelayBytes, Cut, Text, RP.StreamText, OwnHeaders, Document, CutOff, NoReply;
    hide LastReported, Delivered, Sse.Scan;
    var r := Receive(codec, way.protocol, false, a, way.stream);
    ReceiveIs(codec, way, a);
    SomeReply(codec, way, a);
    StreamBytes(codec, way, ctx, a, was);
    RP.StreamConveys(codec, was, cand, ctx, NO_USAGE, r);
    PL.RelayHead(codec, P.Named(was, cand), ctx, NO_USAGE, r.body.Rest(codec), r.body.Broken());
    PL.RelayWrote(codec, P.Named(was, cand), ctx, NO_USAGE, r.body.Rest(codec), r.body.Broken());
    OwnIs(way, a, was);
    StreamUsage(codec, was, cand, ctx, r);
  }

  lemma SomeReply(codec: Codec, way: Way, a: Answer)
    requires !NoReply(codec, way, a)
    ensures a.Answered?
  {
  }

  /** A stream the client has received to its end has recorded the last usage it reported. */
  lemma StreamUsage(codec: Codec, was: S.SinkState, cand: F.Candidate, ctx: Ctx, r: Reply)
    requires r.Reply? && RP.Untouched(was)
    ensures |RP.StreamText(codec, was, ctx, r)| <= was.wire.fuse ==>
      var ps := Delivered(ctx, Sse.Scan(r.body.Rest(codec), r.body.Broken(), Sse.MAX_SSE_TOKEN).tokens);
      RelayBytes(codec, P.Named(was, cand), ctx, NO_USAGE, r.body.Rest(codec), r.body.Broken()).usage
        == LastReported(codec, ps, NO_USAGE)
  {
    hide BodyValue.Rest, BodyValue.Broken, RelayTokens, Delivered, Sse.Scan, LastReported, Served, Sse.Render, RenderEvents;
    hide A.Message, A.ChunksRead, A.Told, Sse.IsDone;
    var scanned := Sse.Scan(r.body.Rest(codec), r.body.Broken(), Sse.MAX_SSE_TOKEN);
    var started := P.Named(was, cand).StartStream();
    var ps := Delivered(ctx, scanned.tokens);
    RelayServes(codec, started, ctx, NO_USAGE, scanned.tokens, scanned.failed);
    UsageIsLast(codec, started, ctx, NO_USAGE, scanned.tokens, scanned.failed);
    DeliveredIsPlain(ctx, scanned.tokens);
    if was.OpenAISink? {
      OpenAIServes(codec, started, ps);
    } else {
      A.AnthropicServes(codec, started, ps);
      A.Grammar(was.freshID, A.ChunksRead(codec, ps));
    }
  }

  /** A handler that is done has sent the answer. */
  lemma HandleSends(codec: Codec, req: P.ChatRequest, way: Way, ctx: Ctx, a: Answer, was: S.SinkState,
                    cand: F.Candidate, o: P.Outcome)
    requires !NoReply(codec, way, a) && RP.Untouched(was) && way.stream == req.stream
    requires o.backend == cand.backend && o.upstreamModel == cand.model && o.usage == NO_USAGE
    ensures var r := Receive(codec, way.protocol, way.native, a, way.stream);
      var h := P.Handle(codec, req, way.native, r, P.Named(was, cand), ctx, o);
      h.Done? ==> Sent(codec, way, ctx, a, was, cand, h.sink, h.outcome) && h.outcome.failovers == o.failovers
  {
    hide Receive, BodyValue.Rest, BodyValue.Broken, RelayBytes, RawPieces, P.WriteWhole, Document, Text, Payloads;
    hide HeadSent, BodySent, P.Named, LastReported;
    ReceiveIs(codec, way, a);
    if way.Whole(a.status) {
      WholeSends(codec, way, ctx, a, was, cand);
    } else if way.native {
      RawSends(codec, way, ctx, a, was, cand);
    } else {
      StreamSends(codec, way, ctx, a, was, cand);
    }
  }

  /** A unary call that is translated: an Anthropic document that reads as `oai` reaches an OpenAI consumer as
      `oai` and an Anthropic one translated back; one that cannot be read, or is cut off, is lost. */
  lemma UnaryIsTranslated(codec: Codec, ctx: Ctx, contentType: string, pieces: seq<Piece>, broken: bool,
                          was: S.SinkState, cand: F.Candidate, now: S.SinkState, o: P.Outcome)
    ensures var way := Way(false, "anthropic", false);
      var a := Answered(200, contentType, pieces, broken);
      var oai := codec.unaryToOpenAI(Concat(pieces));
      && (Lost(codec, way, a) <==> broken || oai == None)
      && (oai.Some? && Sent(codec, way, ctx, a, was, cand, now, o) ==>
            && now.wire.body == was.wire.body
                 + Cut(if was.OpenAISink? then oai.value else codec.unaryToAnthropic(oai.value), was.wire.fuse)
            && o.status == 200 && o.usage == codec.usageOf(oai.value))
  {
    hide Cut, Concat, HeadSent;
  }
}
