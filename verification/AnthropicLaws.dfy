/** The translating sink: for any payloads it writes one message in the order the Anthropic protocol
    requires, and what it reports at the end is read off the chunks it saw. */
module AnthropicLaws {
  import opened Wrappers
  import opened Bytes
  import opened Sse
  import opened Codec
  import opened Wire
  import opened RelayLaws
  import opened SinkStates

  // ----- events written, as a function of the chunks -----

  /** The chunks the sink could decode. */
  function ChunksRead(codec: Codec, ps: seq<Bytes>): seq<ChunkView> {
    if ps == [] then []
    else if codec.decodeChunk(ps[0]).None? then ChunksRead(codec, ps[1..])
    else [codec.decodeChunk(ps[0]).value] + ChunksRead(codec, ps[1..])
  }

  function OpenEvents(t: Stream, freshID: string): seq<SinkEvent> {
    if t.started then []
    else [MessageStart(Opened(t, freshID).msgID, t.model, t.inTokens), BlockStart]
  }

  function Begun(t: Stream, freshID: string): Stream {
    if t.started then t else Opened(t, freshID)
  }

  function TextEvents(c: ChunkView): seq<SinkEvent> {
    if TextOf(c) == "" then [] else [TextDelta(TextOf(c))]
  }

  function ChunkEvents(t: Stream, freshID: string, c: ChunkView): seq<SinkEvent> {
    OpenEvents(Named(t, c), freshID) + TextEvents(c)
  }

  function AfterChunk(t: Stream, freshID: string, c: ChunkView): (r: Stream)
    ensures r.started
  {
    Absorbed(Begun(Named(t, c), freshID), c)
  }

  function Script(t: Stream, freshID: string, cs: seq<ChunkView>): seq<SinkEvent>
    decreases |cs|
  {
    if cs == [] then []
    else ChunkEvents(t, freshID, cs[0]) + Script(AfterChunk(t, freshID, cs[0]), freshID, cs[1..])
  }

  function After(t: Stream, freshID: string, cs: seq<ChunkView>): Stream
    decreases |cs|
  {
    if cs == [] then t else After(AfterChunk(t, freshID, cs[0]), freshID, cs[1..])
  }

  function EndEvents(t: Stream, freshID: string): seq<SinkEvent> {
    OpenEvents(t, freshID) + [BlockStop, MessageDelta(StopOf(t), t.outTokens), MessageStop]
  }

  function Told(t: Stream, freshID: string, cs: seq<ChunkView>): seq<SinkEvent> {
    Script(t, freshID, cs) + EndEvents(After(t, freshID, cs), freshID)
  }

  // ----- the sink writes exactly those events -----

  predicate Emitted(codec: Codec, a: SinkState, b: SinkState, ok: bool, es: seq<SinkEvent>) {
    && a.AnthropicSink? && b.AnthropicSink? && b.freshID == a.freshID
    && RelayLaws.Wrote(a.wire, b.wire, ok, RenderEvents(codec, es))
  }

  lemma EmitNone(codec: Codec, a: SinkState)
    requires a.AnthropicSink? && a.wire.heads != []
    ensures Emitted(codec, a, a, true, [])
  {
  }

  lemma EmitOne(codec: Codec, a: SinkState, e: SinkEvent)
    requires a.AnthropicSink? && a.wire.heads != []
    ensures var (b, ok) := a.Emit(codec, e);
      Emitted(codec, a, b, ok, [e]) && b.stream == a.stream && b.wire.heads != []
  {
    hide RelayLaws.Wrote, RenderEvent;
    PutWrote(a.wire, RenderEvent(codec, e));
    assert [e][1..] == [];
    assert RenderEvents(codec, [e]) == RenderEvent(codec, e);
    var (b, ok) := a.Emit(codec, e);
    WroteHeads(a.wire, b.wire, ok, RenderEvent(codec, e));
  }

  lemma EmittedThen(codec: Codec, a: SinkState, b: SinkState, c: SinkState, ok: bool,
                    p: seq<SinkEvent>, q: seq<SinkEvent>)
    requires Emitted(codec, a, b, true, p) && Emitted(codec, b, c, ok, q)
    ensures Emitted(codec, a, c, ok, p + q)
  {
    hide RelayLaws.Wrote, RenderEvents;
    RenderEventsAppend(codec, p, q);
    WroteThen(a.wire, b.wire, c.wire, ok, RenderEvents(codec, p), RenderEvents(codec, q));
  }

  lemma EmittedCut(codec: Codec, a: SinkState, b: SinkState, p: seq<SinkEvent>, q: seq<SinkEvent>)
    requires Emitted(codec, a, b, false, p)
    ensures Emitted(codec, a, b, false, p + q)
  {
    hide RelayLaws.Wrote, RenderEvents;
    RenderEventsAppend(codec, p, q);
    WroteCut(a.wire, b.wire, RenderEvents(codec, p), RenderEvents(codec, q));
  }

  lemma EmittedHeads(codec: Codec, a: SinkState, b: SinkState, ok: bool, es: seq<SinkEvent>)
    requires Emitted(codec, a, b, ok, es)
    ensures b.wire.heads != []
  {
  }

  lemma StartEmits(codec: Codec, a: SinkState)
    requires a.AnthropicSink? && a.wire.heads != []
    ensures var (b, ok) := a.Start(codec);
      Emitted(codec, a, b, ok, OpenEvents(a.stream, a.freshID))
      && (ok ==> b.stream == Begun(a.stream, a.freshID))
  {
    hide Emitted, SinkState.Emit;
    if a.stream.started {
      EmitNone(codec, a);
    } else {
      var s := a.(stream := Opened(a.stream, a.freshID));
      var first := MessageStart(s.stream.msgID, s.stream.model, s.stream.inTokens);
      EmitOne(codec, s, first);
      var (s1, ok1) := s.Emit(codec, first);
      EmittedFrom(codec, a, s, s1, ok1, [first]);
      if ok1 {
        EmitOne(codec, s1, BlockStart);
        var (s2, ok2) := s1.Emit(codec, BlockStart);
        EmittedThen(codec, a, s1, s2, ok2, [first], [BlockStart]);
      } else {
        EmittedCut(codec, a, s1, [first], [BlockStart]);
      }
      assert OpenEvents(a.stream, a.freshID) == [first] + [BlockStart];
    }
  }

  /** Only the connection matters to what was emitted. */
  lemma EmittedFrom(codec: Codec, a: SinkState, a': SinkState, b: SinkState, ok: bool, es: seq<SinkEvent>)
    requires a.AnthropicSink? && Emitted(codec, a', b, ok, es)
    requires a.wire == a'.wire && a.freshID == a'.freshID
    ensures Emitted(codec, a, b, ok, es)
  {
  }

  lemma ChunkEmits(codec: Codec, a: SinkState, c: ChunkView)
    requires a.AnthropicSink? && a.wire.heads != []
    ensures var (b, ok) := a.WriteChunk(codec, c);
      Emitted(codec, a, b, ok, ChunkEvents(a.stream, a.freshID, c))
      && (ok ==> b.stream == AfterChunk(a.stream, a.freshID, c))
  {
    hide Emitted, SinkState.Emit, SinkState.Start, OpenEvents, Absorbed, Named, Begun;
    var a0 := a.(stream := Named(a.stream, c));
    StartEmits(codec, a0);
    var (s, ok) := a0.Start(codec);
    var open, text := OpenEvents(a0.stream, a.freshID), TextEvents(c);
    EmittedFrom(codec, a, a0, s, ok, open);
    if !ok {
      EmittedCut(codec, a, s, open, text);
    } else {
      EmittedHeads(codec, a, s, ok, open);
      EmittedIsSink(codec, a, s, ok, open);
      if TextOf(c) != "" {
        EmitOne(codec, s, TextDelta(TextOf(c)));
        var (s1, ok1) := s.Emit(codec, TextDelta(TextOf(c)));
        EmittedThen(codec, a, s, s1, ok1, open, text);
        if ok1 {
          EmittedIsSink(codec, a, s1, ok1, open + text);
          EmittedInto(codec, a, s1, s1.Absorb(c), ok1, open + text);
        }
      } else {
        assert open + text == open;
        EmittedInto(codec, a, s, s.Absorb(c), ok, open + text);
      }
    }
  }

  lemma EmittedIsSink(codec: Codec, a: SinkState, b: SinkState, ok: bool, es: seq<SinkEvent>)
    requires Emitted(codec, a, b, ok, es)
    ensures b.AnthropicSink? && b.freshID == a.freshID
  {
  }

  lemma EmittedInto(codec: Codec, a: SinkState, b: SinkState, b': SinkState, ok: bool, es: seq<SinkEvent>)
    requires Emitted(codec, a, b, ok, es) && b'.AnthropicSink?
    requires b.wire == b'.wire && b.freshID == b'.freshID
    ensures Emitted(codec, a, b', ok, es)
  {
  }

  lemma {:induction false} AllEmit(codec: Codec, a: SinkState, ps: seq<Bytes>)
    requires a.AnthropicSink? && a.wire.heads != []
    requires forall p :: p in ps ==> !IsDone(p)
    ensures var (b, ok) := WriteAll(codec, a, ps);
      var cs := ChunksRead(codec, ps);
      Emitted(codec, a, b, ok, Script(a.stream, a.freshID, cs))
      && (ok ==> b.stream == After(a.stream, a.freshID, cs))
    decreases |ps|
  {
    hide Emitted, IsDone, SinkState.WriteChunk, ChunkEvents, AfterChunk;
    if ps == [] {
      EmitNone(codec, a);
    } else {
      assert ps[0] in ps;
      var d := codec.decodeChunk(ps[0]);
      if d.None? {
        AllEmit(codec, a, ps[1..]);
      } else {
        var cs := ChunksRead(codec, ps[1..]);
        assert ChunksRead(codec, ps)[1..] == cs;
        ChunkEmits(codec, a, d.value);
        var (s, ok) := a.WriteChunk(codec, d.value);
        var es := ChunkEvents(a.stream, a.freshID, d.value);
        EmittedIsSink(codec, a, s, ok, es);
        var later := Script(AfterChunk(a.stream, a.freshID, d.value), a.freshID, cs);
        if ok {
          EmittedHeads(codec, a, s, ok, es);
          AllEmit(codec, s, ps[1..]);
          var (b, ok') := WriteAll(codec, s, ps[1..]);
          EmittedThen(codec, a, s, b, ok', es, later);
        } else {
          EmittedCut(codec, a, s, es, later);
        }
      }
    }
  }

  lemma EndEmits(codec: Codec, a: SinkState)
    requires a.AnthropicSink? && a.wire.heads != []
    ensures var (b, ok) := a.EndStream(codec);
      Emitted(codec, a, b, ok, EndEvents(a.stream, a.freshID))
  {
    hide Emitted, SinkState.Emit, SinkState.Start, OpenEvents;
    StartEmits(codec, a);
    var (s, ok) := a.Start(codec);
    var open := OpenEvents(a.stream, a.freshID);
    var stop, delta := [BlockStop], [MessageDelta(StopOf(a.stream), a.stream.outTokens)];
    var tail := stop + delta + [MessageStop];
    assert EndEvents(a.stream, a.freshID) == open + tail;
    if !ok {
      EmittedCut(codec, a, s, open, tail);
    } else {
      EmittedHeads(codec, a, s, ok, open);
      EmittedIsSink(codec, a, s, ok, open);
      EndsEmit(codec, s);
      var (b, ok') := s.EmitEnd(codec);
      EmittedThen(codec, a, s, b, ok', open, tail);
    }
  }

  lemma EndsEmit(codec: Codec, a: SinkState)
    requires a.AnthropicSink? && a.wire.heads != []
    ensures var (b, ok) := a.EmitEnd(codec);
      Emitted(codec, a, b, ok, [BlockStop] + [MessageDelta(StopOf(a.stream), a.stream.outTokens)] + [MessageStop])
  {
    hide Emitted, SinkState.Emit, StopOf;
    var delta := MessageDelta(StopOf(a.stream), a.stream.outTokens);
    EmitOne(codec, a, BlockStop);
    var (s, ok) := a.Emit(codec, BlockStop);
    if !ok {
      EmittedCut(codec, a, s, [BlockStop], [delta]);
      EmittedCut(codec, a, s, [BlockStop] + [delta], [MessageStop]);
    } else {
      EmittedIsSink(codec, a, s, ok, [BlockStop]);
      EmitOne(codec, s, delta);
      var (s1, ok1) := s.Emit(codec, delta);
      EmittedThen(codec, a, s, s1, ok1, [BlockStop], [delta]);
      if !ok1 {
        EmittedCut(codec, a, s1, [BlockStop] + [delta], [MessageStop]);
      } else {
        EmittedIsSink(codec, a, s1, ok1, [BlockStop] + [delta]);
        EmitOne(codec, s1, MessageStop);
        var (s2, ok2) := s1.Emit(codec, MessageStop);
        EmittedThen(codec, a, s1, s2, ok2, [BlockStop] + [delta], [MessageStop]);
      }
    }
  }

  lemma AnthropicServes(codec: Codec, a: SinkState, ps: seq<Bytes>)
    requires a.AnthropicSink? && a.wire.heads != []
    requires forall p :: p in ps ==> !IsDone(p)
    ensures var (b, ok) := Served(codec, a, ps);
      Emitted(codec, a, b, ok, Told(a.stream, a.freshID, ChunksRead(codec, ps)))
  {
    hide Emitted, IsDone, WriteAll, Script, After, EndEvents, SinkState.EndStream;
    AllEmit(codec, a, ps);
    var (s, ok) := WriteAll(codec, a, ps);
    var cs := ChunksRead(codec, ps);
    var es, end := Script(a.stream, a.freshID, cs), EndEvents(After(a.stream, a.freshID, cs), a.freshID);
    EmittedIsSink(codec, a, s, ok, es);
    if ok {
      EmittedHeads(codec, a, s, ok, es);
      EndEmits(codec, s);
      var (b, ok') := s.EndStream(codec);
      EmittedThen(codec, a, s, b, ok', es, end);
    } else {
      EmittedCut(codec, a, s, es, end);
    }
  }

  // ----- the grammar, and what the last events report -----

  function Deltas(cs: seq<ChunkView>): seq<SinkEvent> {
    if cs == [] then [] else TextEvents(cs[0]) + Deltas(cs[1..])
  }

  /** The last finish reason given, "" when there is none. */
  function LastFinish(cs: seq<ChunkView>): string {
    if cs == [] then ""
    else
      var c := cs[|cs| - 1];
      if FinishOf(c) != "" then FinishOf(c) else LastFinish(cs[..|cs| - 1])
  }

  /** The last positive completion count, 0 when there is none. */
  function LastCompletion(cs: seq<ChunkView>): int {
    if cs == [] then 0
    else
      var u := cs[|cs| - 1].usage;
      if u.Some? && u.value.completion > 0 then u.value.completion else LastCompletion(cs[..|cs| - 1])
  }

  function StopReported(cs: seq<ChunkView>): string {
    if LastFinish(cs) == "" then "end_turn" else FinishToStop(LastFinish(cs))
  }

  function FirstModel(cs: seq<ChunkView>): string {
    if cs == [] then "" else cs[0].model
  }

  /** The only message a fresh sink can tell. */
  function Message(freshID: string, cs: seq<ChunkView>): seq<SinkEvent> {
    [MessageStart(freshID, FirstModel(cs), 0), BlockStart]
    + Deltas(cs)
    + [BlockStop, MessageDelta(StopReported(cs), LastCompletion(cs)), MessageStop]
  }

  lemma {:induction false} ScriptOfStarted(t: Stream, freshID: string, cs: seq<ChunkView>)
    requires t.started
    ensures Script(t, freshID, cs) == Deltas(cs)
    decreases |cs|
  {
    if cs != [] {
      var c := cs[0];
      assert Named(t, c).started;
      assert ChunkEvents(t, freshID, c) == TextEvents(c);
      ScriptOfStarted(AfterChunk(t, freshID, c), freshID, cs[1..]);
    }
  }

  lemma {:induction false} AfterSnoc(t: Stream, freshID: string, cs: seq<ChunkView>)
    requires cs != []
    ensures After(t, freshID, cs) == AfterChunk(After(t, freshID, cs[..|cs| - 1]), freshID, cs[|cs| - 1])
    decreases |cs|
  {
    hide AfterChunk;
    if |cs| > 1 {
      var rest := cs[1..];
      AfterSnoc(AfterChunk(t, freshID, cs[0]), freshID, rest);
      assert cs[..|cs| - 1][1..] == rest[..|rest| - 1];
    } else {
      assert After(t, freshID, cs[..0]) == t;
      assert After(AfterChunk(t, freshID, cs[0]), freshID, cs[1..]) == AfterChunk(t, freshID, cs[0]);
    }
  }

  lemma {:induction false} AfterReports(freshID: string, cs: seq<ChunkView>)
    ensures var t := After(NEW_STREAM, freshID, cs);
      && t.started == (cs != [])
      && t.outTokens == LastCompletion(cs)
      && t.stop == (if LastFinish(cs) == "" then "" else FinishToStop(LastFinish(cs)))
    decreases |cs|
  {
    hide After;
    if cs == [] {
      AfterNone(freshID, cs);
    } else {
      AfterReports(freshID, cs[..|cs| - 1]);
      AfterSnoc(NEW_STREAM, freshID, cs);
    }
  }

  lemma AfterNone(freshID: string, cs: seq<ChunkView>)
    requires cs == []
    ensures After(NEW_STREAM, freshID, cs) == NEW_STREAM
  {
  }

  /** Any chunks whatever come out of a fresh sink as one message in protocol order. Its input-token
      count is always 0: usage arrives only after message_start has been written. */
  lemma Grammar(freshID: string, cs: seq<ChunkView>)
    ensures Told(NEW_STREAM, freshID, cs) == Message(freshID, cs)
  {
    hide LastFinish, LastCompletion, Deltas, After, Script;
    AfterReports(freshID, cs);
    var t := After(NEW_STREAM, freshID, cs);
    assert StopOf(t) == StopReported(cs);
    if cs == [] {
      AfterNone(freshID, cs);
      NoScript(freshID, cs);
    } else {
      FirstScript(freshID, cs);
    }
  }

  lemma NoScript(freshID: string, cs: seq<ChunkView>)
    requires cs == []
    ensures Script(NEW_STREAM, freshID, cs) == [] == Deltas(cs)
  {
  }

  lemma FirstScript(freshID: string, cs: seq<ChunkView>)
    requires cs != []
    ensures Script(NEW_STREAM, freshID, cs) == [MessageStart(freshID, FirstModel(cs), 0), BlockStart] + Deltas(cs)
  {
    hide Absorbed, TextEvents;
    ScriptOfStarted(AfterChunk(NEW_STREAM, freshID, cs[0]), freshID, cs[1..]);
    var start := [MessageStart(freshID, cs[0].model, 0), BlockStart];
    assert ChunkEvents(NEW_STREAM, freshID, cs[0]) == start + TextEvents(cs[0]);
    assert start + TextEvents(cs[0]) + Deltas(cs[1..]) == start + (TextEvents(cs[0]) + Deltas(cs[1..]));
    assert Named(NEW_STREAM, cs[0]).model == cs[0].model;
  }
}
