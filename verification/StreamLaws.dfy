/** The streaming theorems: printing and parsing are inverse, and the full chain
    Anthropic -> OpenAI -> Anthropic keeps the text and the stop reason. */
module StreamLaws {
  import opened Wrappers
  import opened Bytes
  import opened Sse
  import opened Codec
  import opened Wire
  import opened Upstream
  import opened Relay
  import opened RelayLaws
  import A = AnthropicLaws
  import S = SinkStates
  import E = EventStream

  // ----- scanning what was rendered -----

  /** The record of `p` and its separator fit in the scanner's buffer. */
  predicate Fits(p: Bytes) {
    |p| + 8 <= MAX_SSE_TOKEN
  }

  /** The payloads before the first that does not fit. */
  function Fitting(ps: seq<Bytes>): (r: seq<Bytes>)
    ensures r <= ps
  {
    if ps == [] || !Fits(ps[0]) then [] else [ps[0]] + Fitting(ps[1..])
  }

  lemma {:induction false} FittingAll(ps: seq<Bytes>)
    ensures Fitting(ps) == ps <==> forall p :: p in ps ==> Fits(p)
  {
    if ps != [] {
      FittingAll(ps[1..]);
      assert ps == [ps[0]] + ps[1..];
      assert forall p :: p in ps <==> p == ps[0] || p in ps[1..];
    }
  }

  lemma FrameBlank(p: Bytes, rest: Bytes)
    requires Free(p, '\n')
    ensures IndexBlank(Frame(p) + rest) == 6 + |p|
    ensures (Frame(p) + rest)[..6 + |p|] == RecordOf(p) && (Frame(p) + rest)[8 + |p|..] == rest
  {
    hide IndexBlank;
    var s := Frame(p) + rest;
    assert s[..6 + |p|] == RecordOf(p);
    assert forall k :: 0 <= k < 6 + |p| ==> s[k] == RecordOf(p)[k];
    assert forall k :: 6 <= k < 6 + |p| ==> RecordOf(p)[k] == p[k - 6];
    assert BlankAt(s, 6 + |p|);
    IndexBlankIs(s, 6 + |p|);
  }

  lemma ScanFrame(p: Bytes, rest: Bytes, broken: bool)
    requires ValidPayload(p)
    ensures var later := Scan(rest, broken, MAX_SSE_TOKEN);
      Scan(Frame(p) + rest, broken, MAX_SSE_TOKEN) ==
        if Fits(p) then Scanned([Token(RecordOf(p), false)] + later.tokens, later.failed)
        else Scanned([], true)
  {
    hide IndexBlank, ValidPayload;
    assert Free(p, '\n') by { ValidIsOneLine(p); }
    FrameBlank(p, rest);
  }

  lemma ValidIsOneLine(p: Bytes)
    requires ValidPayload(p)
    ensures Free(p, '\n')
  {
  }

  lemma DoneIsDone()
    ensures DataOf(RecordOf(DONE)) == Done
  {
    hide TrimSpace, Gather, Lines;
    assert DONE == ['[', 'D', 'O', 'N', 'E', ']'];
    DoneIsOneLine();
    OneLineData(DONE);
    TrimmedIsFixed(DONE);
  }

  lemma ScanDone(junk: Bytes, broken: bool)
    ensures var tokens := Scan(DONE_RECORD + junk, broken, MAX_SSE_TOKEN).tokens;
      tokens != [] && tokens[0].record == RecordOf(DONE)
  {
    hide IndexBlank;
    DoneIsOneLine();
    assert DONE_RECORD == Frame(DONE);
    FrameBlank(DONE, junk);
  }

  lemma DoneIsOneLine()
    ensures Free(DONE, '\n')
  {
    assert DONE == ['[', 'D', 'O', 'N', 'E', ']'];
  }

  /** What was rendered from valid payloads and ended by a terminator is delivered payload by payload,
      up to one that does not fit; nothing after the terminator is. */
  lemma {:induction false} RenderedIsDelivered(ctx: Ctx, ps: seq<Bytes>, junk: Bytes, broken: bool)
    requires ctx.Live() && forall p :: p in ps ==> ValidPayload(p)
    ensures Delivered(ctx, Scan(Render(ps) + DONE_RECORD + junk, broken, MAX_SSE_TOKEN).tokens) == Fitting(ps)
    decreases |ps|
  {
    hide Scan, DataOf, ValidPayload;
    if ps == [] {
      ScanDone(junk, broken);
      DoneIsDone();
      assert Render(ps) + DONE_RECORD + junk == DONE_RECORD + junk;
    } else {
      var p, rest := ps[0], Render(ps[1..]) + DONE_RECORD + junk;
      assert p in ps;
      assert Render(ps) + DONE_RECORD + junk == Frame(p) + rest;
      ScanFrame(p, rest, broken);
      if Fits(p) {
        FrameRoundTrip(p);
        RenderedIsDelivered(ctx.Checked(), ps[1..], junk, broken);
        var tokens := Scan(Frame(p) + rest, broken, MAX_SSE_TOKEN).tokens;
        assert tokens[1..] == Scan(rest, broken, MAX_SSE_TOKEN).tokens;
      }
    }
  }

  // ----- every stream to an OpenAI consumer -----

  /** The head a stream commits: status 200, the stream headers and the buffered router headers. */
  function StreamHead(sink: S.SinkState): Head {
    Head(200, sink.wire.headers + S.STREAM_HEADERS + sink.extra)
  }

  lemma StartCommits(sink: S.SinkState)
    requires sink.wire.heads == []
    ensures var s := sink.StartStream();
      s.wire.heads == [StreamHead(sink)] && s.wire.body == sink.wire.body && s.wire.fuse == sink.wire.fuse
  {
  }

  /** Every relay of any bytes to an OpenAI consumer commits one head and writes the delivered
      payloads, re-framed, and exactly one terminator, cut where the connection fails. */
  lemma OpenAIStream(codec: Codec, sink: S.SinkState, ctx: Ctx, usage: Usage, data: Bytes, broken: bool)
    requires sink.OpenAISink? && sink.wire.heads == []
    ensures var r := RelayBytes(codec, sink, ctx, usage, data, broken);
      var ps := Delivered(ctx, Scan(data, broken, MAX_SSE_TOKEN).tokens);
      && r.sink.wire.heads == [StreamHead(sink)]
      && r.sink.wire.body == sink.wire.body + Cut(Render(ps) + DONE_RECORD, sink.wire.fuse)
  {
    hide Scan, RelayTokens, Served, IsDone, Delivered, Render;
    var tokens := Scan(data, broken, MAX_SSE_TOKEN).tokens;
    StartCommits(sink);
    RelayServes(codec, sink.StartStream(), ctx, usage, tokens, Scan(data, broken, MAX_SSE_TOKEN).failed);
    DeliveredIsPlain(ctx, tokens);
    OpenAIServes(codec, sink.StartStream(), Delivered(ctx, tokens));
  }

  /** Print and parse are inverse: relaying a rendered stream gives the same bytes back exactly when
      every record fits the scanner, and whatever follows the terminator never reaches the client. */
  lemma PrintParse(codec: Codec, sink: S.SinkState, ctx: Ctx, usage: Usage,
                   ps: seq<Bytes>, junk: Bytes, broken: bool)
    requires sink.OpenAISink? && sink.wire.heads == [] && sink.wire.body == [] && ctx.Live()
    requires forall p :: p in ps ==> ValidPayload(p)
    requires |Render(ps) + DONE_RECORD| <= sink.wire.fuse
    ensures var out := RelayBytes(codec, sink, ctx, usage, Render(ps) + DONE_RECORD + junk, broken);
      && out.sink.wire.body == Render(Fitting(ps)) + DONE_RECORD
      && (out.sink.wire.body == Render(ps) + DONE_RECORD <==> forall p :: p in ps ==> Fits(p))
  {
    hide Scan, RelayTokens, Delivered, Render, ValidPayload, RelayBytes, Fitting, Fits;
    OpenAIStream(codec, sink, ctx, usage, Render(ps) + DONE_RECORD + junk, broken);
    RenderedIsDelivered(ctx, ps, junk, broken);
    FittingAll(ps);
    FittingPrefix(ps);
    RenderOfPrefix(Fitting(ps), ps);
  }

  lemma FittingPrefix(ps: seq<Bytes>)
    ensures Fitting(ps) <= ps
  {
  }

  lemma RenderOfPrefix(a: seq<Bytes>, b: seq<Bytes>)
    requires a <= b
    ensures a == b || |Render(a)| < |Render(b)|
  {
    hide Frame;
    assert b == a + b[|a|..];
    RenderAppend(a, b[|a|..]);
    if a != b {
      RenderIsLong(b[|a|..]);
    }
  }

  lemma RenderIsLong(ps: seq<Bytes>)
    requires ps != []
    ensures |Render(ps)| > 0
  {
  }

  // ----- every stream to an Anthropic consumer -----

  /** Every relay of any bytes to a fresh Anthropic sink commits one head and writes one message in
      protocol order, cut where the connection fails. */
  lemma AnthropicStream(codec: Codec, sink: S.SinkState, ctx: Ctx, usage: Usage, data: Bytes, broken: bool)
    requires sink.AnthropicSink? && sink.wire.heads == [] && sink.stream == S.NEW_STREAM
    ensures var r := RelayBytes(codec, sink, ctx, usage, data, broken);
      var cs := A.ChunksRead(codec, Delivered(ctx, Scan(data, broken, MAX_SSE_TOKEN).tokens));
      && r.sink.wire.heads == [StreamHead(sink)]
      && r.sink.wire.body
         == sink.wire.body + Cut(RenderEvents(codec, A.Message(sink.freshID, cs)), sink.wire.fuse)
  {
    hide Scan, RelayTokens, Served, IsDone, Delivered, A.ChunksRead, A.Told, A.Message, RenderEvents;
    var tokens := Scan(data, broken, MAX_SSE_TOKEN).tokens;
    var ps := Delivered(ctx, tokens);
    StartCommits(sink);
    RelayServes(codec, sink.StartStream(), ctx, usage, tokens, Scan(data, broken, MAX_SSE_TOKEN).failed);
    DeliveredIsPlain(ctx, tokens);
    A.AnthropicServes(codec, sink.StartStream(), ps);
    A.Grammar(sink.freshID, A.ChunksRead(codec, ps));
  }

  // ----- the chain Anthropic -> OpenAI -> Anthropic -----

  /** The text deltas of a stream, one event each. */
  function Texts(evs: seq<AnthropicEvent>): seq<SinkEvent> {
    if evs == [] then []
    else (if E.IsTextDelta(evs[0]) then [TextDelta(evs[0].text)] else []) + Texts(evs[1..])
  }

  /** The last stop reason a stream gives, "" when it gives none. */
  function LastStop(evs: seq<AnthropicEvent>): string {
    if evs == [] then ""
    else
      var ev := evs[|evs| - 1];
      if ev.kind == "message_delta" && ev.stopReason != "" then ev.stopReason else LastStop(evs[..|evs| - 1])
  }

  function StopAfterChain(evs: seq<AnthropicEvent>): string {
    if LastStop(evs) == "" then "end_turn" else FinishToStop(StopToFinish(LastStop(evs)).value)
  }

  function Views(cs: seq<Chunk>): seq<ChunkView> {
    if cs == [] then [] else [ViewOf(cs[0])] + Views(cs[1..])
  }

  lemma {:induction false} ViewsAppend(a: seq<Chunk>, b: seq<Chunk>)
    ensures Views(a + b) == Views(a) + Views(b)
  {
    if a == [] {
      assert a + b == b;
    } else {
      assert (a + b)[1..] == a[1..] + b;
      ViewsAppend(a[1..], b);
    }
  }

  lemma {:induction false} DeltasAppend(a: seq<ChunkView>, b: seq<ChunkView>)
    ensures A.Deltas(a + b) == A.Deltas(a) + A.Deltas(b)
  {
    hide A.TextEvents;
    if a == [] {
      assert a + b == b;
    } else {
      assert (a + b)[1..] == a[1..] + b;
      DeltasAppend(a[1..], b);
    }
  }

  lemma {:induction false} ReadBack(codec: Codec, cs: seq<Chunk>)
    requires Faithful(codec)
    ensures A.ChunksRead(codec, E.Encoded(codec, cs)) == Views(cs)
  {
    hide ValidPayload;
    var ps := E.Encoded(codec, cs);
    if cs != [] {
      assert ps[1..] == E.Encoded(codec, cs[1..]);
      ReadBack(codec, cs[1..]);
    }
  }

  /** Text survives chunk by chunk: other events add no delta. */
  lemma {:induction false} TextSurvives(who: E.Ident, evs: seq<AnthropicEvent>)
    ensures A.Deltas(Views(E.ChunksOf(who, evs))) == Texts(evs)
    decreases |evs|
  {
    if evs != [] {
      var next := E.Renamed(who, evs[0]);
      var now, later := E.ChunksFor(next, evs[0]), E.ChunksOf(next, evs[1..]);
      ViewsAppend(now, later);
      DeltasAppend(Views(now), Views(later));
      TextSurvives(next, evs[1..]);
      OneText(next, evs[0]);
    }
  }

  lemma OneText(who: E.Ident, ev: AnthropicEvent)
    ensures A.Deltas(Views(E.ChunksFor(who, ev)))
         == (if E.IsTextDelta(ev) then [TextDelta(ev.text)] else [])
  {
    var cs := E.ChunksFor(who, ev);
    if cs != [] {
      assert cs == [cs[0]];
      assert Views(cs) == [ViewOf(cs[0])];
      assert A.Deltas([ViewOf(cs[0])]) == A.TextEvents(ViewOf(cs[0]));
    }
  }

  function FinishesBack(stop: string): string {
    if stop == "" then "" else StopToFinish(stop).value
  }

  /** The finish reasons and the token counts the chunks carry, read from the left. */
  lemma {:induction false} ReportsSurvive(who: E.Ident, evs: seq<AnthropicEvent>)
    ensures A.LastFinish(Views(E.ChunksOf(who, evs))) == FinishesBack(LastStop(evs))
    ensures A.LastCompletion(Views(E.ChunksOf(who, evs))) == 0
    decreases |evs|
  {
    hide A.LastFinish, A.LastCompletion, Views, E.ChunksFor, E.Renamed, LastStop;
    if evs == [] {
      NoReport(evs);
    } else {
      var next := E.Renamed(who, evs[0]);
      var now, later := E.ChunksFor(next, evs[0]), E.ChunksOf(next, evs[1..]);
      ViewsAppend(now, later);
      ReportsSurvive(next, evs[1..]);
      LastFinishAppend(Views(now), Views(later));
      OneReport(next, evs[0]);
      LastStopCons(evs);
    }
  }

  lemma NoReport(evs: seq<AnthropicEvent>)
    requires evs == []
    ensures A.LastFinish(Views([])) == "" == LastStop(evs)
    ensures A.LastCompletion(Views([])) == 0
  {
  }

  lemma {:induction false} LastFinishAppend(a: seq<ChunkView>, b: seq<ChunkView>)
    ensures A.LastFinish(a + b) == if A.LastFinish(b) != "" then A.LastFinish(b) else A.LastFinish(a)
    ensures A.LastCompletion(b) == 0 && A.LastCompletion(a) == 0 ==> A.LastCompletion(a + b) == 0
    decreases |b|
  {
    if b == [] {
      assert a + b == a;
    } else {
      assert (a + b)[..|a + b| - 1] == a + b[..|b| - 1];
      LastFinishAppend(a, b[..|b| - 1]);
    }
  }

  lemma OneReport(who: E.Ident, ev: AnthropicEvent)
    ensures var vs := Views(E.ChunksFor(who, ev));
      && A.LastFinish(vs)
         == FinishesBack(if ev.kind == "message_delta" then ev.stopReason else "")
      && A.LastCompletion(vs) == 0
  {
    var cs := E.ChunksFor(who, ev);
    var vs := Views(cs);
    if cs != [] {
      assert cs[1..] == [] && Views(cs[1..]) == [];
      assert vs == [ViewOf(cs[0])];
      assert vs[..0] == [];
    }
  }

  lemma {:induction false} LastStopCons(evs: seq<AnthropicEvent>)
    requires evs != []
    ensures LastStop(evs) ==
      if LastStop(evs[1..]) != "" then LastStop(evs[1..])
      else if evs[0].kind == "message_delta" then evs[0].stopReason
      else ""
    decreases |evs|
  {
    if |evs| > 1 {
      var init := evs[..|evs| - 1];
      LastStopCons(init);
      assert evs[1..][..|evs[1..]| - 1] == init[1..];
    } else {
      assert evs[..0] == [] && evs[1..] == [];
    }
  }

  /** The message an Anthropic consumer receives for an Anthropic upstream stream. */
  function Translation(freshID: string, evs: seq<AnthropicEvent>): seq<SinkEvent> {
    var cs := E.ChunksOf(E.UNNAMED, evs);
    [MessageStart(freshID, if cs == [] then "" else cs[0].model, 0), BlockStart]
    + Texts(evs)
    + [BlockStop, MessageDelta(StopAfterChain(evs), 0), MessageStop]
  }

  lemma TranslationIsMessage(freshID: string, evs: seq<AnthropicEvent>)
    ensures A.Message(freshID, Views(E.ChunksOf(E.UNNAMED, evs))) == Translation(freshID, evs)
  {
    hide A.LastFinish, A.LastCompletion, A.Deltas, Texts, LastStop, E.ChunksOf;
    var cs := E.ChunksOf(E.UNNAMED, evs);
    TextSurvives(E.UNNAMED, evs);
    ReportsSurvive(E.UNNAMED, evs);
    assert A.FirstModel(Views(cs)) == if cs == [] then "" else cs[0].model;
  }

  /** The chunks before the first whose record does not fit the router's scanner. */
  function Kept(codec: Codec, cs: seq<Chunk>): (r: seq<Chunk>)
    ensures r <= cs
  {
    if cs == [] || !Fits(codec.encodeChunk(cs[0])) then [] else [cs[0]] + Kept(codec, cs[1..])
  }

  lemma {:induction false} KeptIsFitting(codec: Codec, cs: seq<Chunk>)
    ensures Fitting(E.Encoded(codec, cs)) == E.Encoded(codec, Kept(codec, cs))
    ensures Kept(codec, cs) == cs <==> forall c :: c in cs ==> Fits(codec.encodeChunk(c))
  {
    hide Fits;
    if cs != [] {
      KeptIsFitting(codec, cs[1..]);
      assert E.Encoded(codec, cs)[1..] == E.Encoded(codec, cs[1..]);
      assert cs == [cs[0]] + cs[1..];
      assert forall c :: c in cs <==> c == cs[0] || c in cs[1..];
    }
  }

  lemma EncodedIsValid(codec: Codec, cs: seq<Chunk>)
    requires Faithful(codec)
    ensures forall p :: p in E.Encoded(codec, cs) ==> ValidPayload(p)
  {
    hide ValidPayload;
  }

  /** What a relay of the reader's output delivers: the kept chunks, fewer when the request is cancelled. */
  lemma ReaderIsDelivered(codec: Codec, ctx: Ctx, src: Bytes) returns (n: nat)
    requires Faithful(codec)
    ensures var kept := Kept(codec, E.ChunksOf(E.UNNAMED, E.StreamEvents(codec, src)));
      && n <= |kept| && (ctx.Live() ==> n == |kept|)
      && Delivered(ctx, Scan(E.Output(codec, src, E.UNNAMED), false, MAX_SSE_TOKEN).tokens)
         == E.Encoded(codec, kept[..n])
  {
    hide Scan, Delivered, Render, E.Output, E.StreamEvents, E.ChunksOf, ValidPayload, Fits, Fitting, Faithful, Kept;
    var cs := E.ChunksOf(E.UNNAMED, E.StreamEvents(codec, src));
    var ps, live := E.Encoded(codec, cs), Ctx(0, None);
    var data := E.Output(codec, src, E.UNNAMED);
    E.OutputIsRendered(codec, src, E.UNNAMED);
    EncodedIsValid(codec, cs);
    RenderedIsDelivered(live, ps, [], false);
    assert data == Render(ps) + DONE_RECORD + [];
    KeptIsFitting(codec, cs);
    var tokens := Scan(data, false, MAX_SSE_TOKEN).tokens;
    CancellationCuts(ctx, live, tokens);
    n := |Delivered(ctx, tokens)|;
    assert Delivered(ctx, tokens) == E.Encoded(codec, Kept(codec, cs))[..n];
  }

  /** `body` is what `sink` has sent when it is given the reader's output for `src`: one message made of
      the chunks that fit, fewer only when the request is cancelled. If none is missing, the message holds
      the non-empty text deltas that came before message_stop (or the end), in order, one event each, and
      the stop reason both maps make of the last one given. */
  ghost predicate Chained(codec: Codec, sink: S.SinkState, ctx: Ctx, src: Bytes, body: Bytes)
    requires sink.AnthropicSink?
  {
    var evs := E.StreamEvents(codec, src);
    var kept := Kept(codec, E.ChunksOf(E.UNNAMED, evs));
    exists n: nat :: n <= |kept| && (ctx.Live() ==> n == |kept|)
      && var message := A.Message(sink.freshID, Views(kept[..n]));
        && body == sink.wire.body + Cut(RenderEvents(codec, message), sink.wire.fuse)
        && (kept[..n] == E.ChunksOf(E.UNNAMED, evs) ==> message == Translation(sink.freshID, evs))
  }

  /** The whole chain, for every upstream byte sequence, cancellation point and failing connection. */
  lemma Chain(codec: Codec, sink: S.SinkState, ctx: Ctx, usage: Usage, src: Bytes)
    requires Faithful(codec)
    requires sink.AnthropicSink? && sink.wire.heads == [] && sink.stream == S.NEW_STREAM
    ensures Chained(codec, sink, ctx, src,
                    RelayBytes(codec, sink, ctx, usage, E.Output(codec, src, E.UNNAMED), false).sink.wire.body)
  {
    hide Scan, Delivered, RelayBytes, A.ChunksRead, A.Message, RenderEvents, E.Output, Translation, Kept;
    hide E.StreamEvents, E.ChunksOf, Faithful;
    var kept := Kept(codec, E.ChunksOf(E.UNNAMED, E.StreamEvents(codec, src)));
    var n := ReaderIsDelivered(codec, ctx, src);
    AnthropicStream(codec, sink, ctx, usage, E.Output(codec, src, E.UNNAMED), false);
    ReadBack(codec, kept[..n]);
    TranslationIsMessage(sink.freshID, E.StreamEvents(codec, src));
  }

  /** Buffered headers do not matter for what is sent after the head. */
  lemma ChainedFrom(codec: Codec, a: S.SinkState, b: S.SinkState, ctx: Ctx, src: Bytes, body: Bytes)
    requires a.AnthropicSink? && b.AnthropicSink? && a.wire == b.wire && a.freshID == b.freshID
    requires Chained(codec, a, ctx, src, body)
    ensures Chained(codec, b, ctx, src, body)
  {
  }
}
