/** relayStream and relayRawStream (internal/router/proxy.go): a body read by a scanner, its records
    sent to a sink. */
module Relay {
  import opened Wrappers
  import opened Bytes
  import opened Sse
  import opened Codec
  import opened Upstream
  import opened Sinks
  import S = SinkStates

  const RAW_BUFFER: nat := 32 * 1024

  datatype RelayError = WriteFailed | ReadFailed | EndFailed

  // ----- the relay as a function of the scanned records -----

  datatype Relayed = Relayed(sink: S.SinkState, ctx: Ctx, usage: Usage, error: Option<RelayError>)

  function UsageAfter(codec: Codec, payload: Bytes, usage: Usage): Usage {
    var got := codec.usageOf(payload);
    if got.prompt != 0 || got.completion != 0 || got.reasoning != 0 then got else usage
  }

  /** The end of a relay: the terminator, also after a read error. */
  function Finish(codec: Codec, sink: S.SinkState, ctx: Ctx, usage: Usage, failed: bool): Relayed {
    var (s, ok) := sink.EndStream(codec);
    if failed then
      var error := if !ctx.Cancelled() then Some(ReadFailed) else if ok then None else Some(EndFailed);
      Relayed(s, ctx.Checked(), usage, error)
    else Relayed(s, ctx, usage, if ok then None else Some(EndFailed))
  }

  /** What one record does: the loop goes on, leaves for the terminator, or gives up. */
  datatype Verdict = More | Stop | Abort

  datatype Step = Step(sink: S.SinkState, ctx: Ctx, usage: Usage, verdict: Verdict)

  function RelayRecord(codec: Codec, sink: S.SinkState, ctx: Ctx, usage: Usage, record: Bytes): Step {
    if ctx.Cancelled() then Step(sink, ctx.Checked(), usage, Stop)
    else
      match DataOf(record)
      case Done => Step(sink, ctx.Checked(), usage, Stop)
      case NoData => Step(sink, ctx.Checked(), usage, More)
      case Payload(p) =>
        var (s, ok) := sink.WriteEvent(codec, p);
        Step(s, ctx.Checked(), UsageAfter(codec, p, usage), if ok then More else Abort)
  }

  function RelayTokens(codec: Codec, sink: S.SinkState, ctx: Ctx, usage: Usage,
                       tokens: seq<Token>, failed: bool): Relayed
    decreases |tokens|
  {
    if tokens == [] then Finish(codec, sink, ctx, usage, failed)
    else
      var r := RelayRecord(codec, sink, ctx, usage, tokens[0].record);
      match r.verdict
      case More => RelayTokens(codec, r.sink, r.ctx, r.usage, tokens[1..], failed)
      case Stop => Finish(codec, r.sink, r.ctx, r.usage, tokens[0].failed)
      case Abort => Relayed(r.sink, r.ctx, r.usage, Some(WriteFailed))
  }

  /** relayStream: the outcome depends on the bytes of the body, never on how reads cut them. */
  function RelayBytes(codec: Codec, sink: S.SinkState, ctx: Ctx, usage: Usage,
                      data: Bytes, broken: bool): Relayed {
    var scanned := Scan(data, broken, MAX_SSE_TOKEN);
    RelayTokens(codec, sink.StartStream(), ctx, usage, scanned.tokens, scanned.failed)
  }

  // ----- the scanner -----

  datatype ScanError = Running | AtEOF | Broke | TooLong

  /** What splitSSE takes off a buffer is what scanning the rest of the stream starts with. */
  lemma SplitScans(buf: Bytes, rest: Bytes, broken: bool, ended: bool)
    requires |buf| <= MAX_SSE_TOKEN
    requires ended ==> IndexBlank(buf) < 0 && rest == [] && |buf| < MAX_SSE_TOKEN
    ensures var split := SplitSSE(buf, ended);
      var ahead := Scan(buf + rest, broken, MAX_SSE_TOKEN);
      match split.token
      case Some(record) =>
        var left := buf[split.advance..];
        var later := Scan(left + rest, broken, MAX_SSE_TOKEN);
        && ahead == Scanned([Token(record, ended && broken)] + later.tokens, later.failed)
        && (ended ==> IndexBlank(left) < 0 && |left| < MAX_SSE_TOKEN)
      case None => IndexBlank(buf) < 0 && (ended ==> ahead == Scanned([], broken))
  {
    hide Scan, IndexBlank;
    if IndexBlank(buf) >= 0 {
      ScanFirst(buf, rest, broken, MAX_SSE_TOKEN);
    } else if ended {
      ScanRest(buf, broken, MAX_SSE_TOKEN);
      EmptyHasNoBlank();
      assert buf + rest == buf && buf[|buf|..] + rest == [];
    }
  }

  lemma EmptyHasNoBlank()
    ensures IndexBlank([]) < 0
  {
  }

  class Scanner {
    const body: Body
    const codec: Codec
    var buf: Bytes
    var err: ScanError

    ghost predicate Valid()
      reads this, body.Footprint()
    {
      && this !in body.Footprint()
      && (body.Reader? ==> body.r.codec == codec)
      && (err == AtEOF || err == Broke ==>
            IndexBlank(buf) < 0 && body.State().Rest(codec) == [] && |buf| < MAX_SSE_TOKEN)
      && (err == AtEOF ==> !body.State().Broken())
      && (err == Broke ==> body.State().Broken())
      && err != TooLong
      && |buf| <= MAX_SSE_TOKEN
    }

    /** What the scanner will still deliver. */
    ghost function Ahead(): Scanned
      reads this, body.Footprint()
    {
      Scan(buf + body.State().Rest(codec), body.State().Broken(), MAX_SSE_TOKEN)
    }

    constructor (body: Body, codec: Codec)
      requires body.Reader? ==> body.r.codec == codec
      ensures Valid() && this.body == body && this.codec == codec
      ensures Ahead() == Scan(body.State().Rest(codec), body.State().Broken(), MAX_SSE_TOKEN)
    {
      this.body, this.codec := body, codec;
      buf, err := [], Running;
      new;
      assert [] + body.State().Rest(codec) == body.State().Rest(codec);
    }

    /** bufio.Scanner.Err. */
    function Failed(): bool
      reads this
    {
      err == Broke || err == TooLong
    }

    /** One Scan: the first record ahead, or none at the end. The refill loop reads on until splitSSE
        decides, the buffer is full or the body ends. */
    method Next() returns (record: Option<Bytes>)
      requires Valid()
      modifies this`buf, this`err, body.Footprint()
      ensures body.Released() == old(body.Released())
      ensures record.Some? ==> Valid() && var was := old(Ahead());
        was == Scanned([Token(record.value, Failed())] + Ahead().tokens, Ahead().failed)
      ensures record.None? ==> old(Ahead()) == Scanned([], Failed())
    {
      hide Scan, BodyValue.Rest, BodyValue.Broken, Body.State, Body.Released, IndexBlank;
      ghost var goal := Ahead();
      while true
        invariant Valid() && Ahead() == goal
        invariant body.Released() == old(body.Released())
        decreases err == Running, Left()
      {
        if buf != [] || err != Running {
          record := Split();
          if record.Some? {
            return;
          }
        }
        if err != Running {
          return None;
        }
        if |buf| >= MAX_SSE_TOKEN {
          Overflow();
          return None;
        }
        Refill();
      }
    }

    ghost function Left(): nat
      reads this, body.Footprint()
    {
      |body.State().Rest(codec)|
    }

    method Overflow()
      requires Valid() && IndexBlank(buf) < 0 && |buf| >= MAX_SSE_TOKEN
      modifies this`err
      ensures old(Ahead()) == Scanned([], true) && Failed()
    {
      hide Scan, BodyValue.Rest, BodyValue.Broken, Body.State, IndexBlank;
      ScanFull(buf, body.State().Rest(codec), body.State().Broken(), MAX_SSE_TOKEN);
      err := TooLong;
    }

    /** Offers the buffer to splitSSE. */
    method Split() returns (record: Option<Bytes>)
      requires Valid()
      modifies this`buf
      ensures Valid()
      ensures record.Some? ==>
        old(Ahead()) == Scanned([Token(record.value, Failed())] + Ahead().tokens, Ahead().failed)
      ensures record.None? ==> buf == old(buf) && IndexBlank(buf) < 0
      ensures record.None? && err != Running ==> old(Ahead()) == Scanned([], Failed())
    {
      hide Scan, BodyValue.Rest, BodyValue.Broken, Body.State, IndexBlank, SplitSSE;
      var split := SplitSSE(buf, err != Running);
      ghost var rest, broken := body.State().Rest(codec), body.State().Broken();
      SplitScans(buf, rest, broken, err != Running);
      if split.token.Some? {
        buf := buf[split.advance..];
      }
      return split.token;
    }

    /** One read into the free part of the buffer. */
    method Refill()
      requires Valid() && err == Running && IndexBlank(buf) < 0 && |buf| < MAX_SSE_TOKEN
      modifies this`buf, this`err, body.Footprint()
      ensures Valid() && Ahead() == old(Ahead()) && body.Released() == old(body.Released())
      ensures err == Running ==> Left() < old(Left())
    {
      hide Scan, BodyValue.Rest, BodyValue.Broken, Body.State, Body.Released, IndexBlank;
      var data := body.Read(codec, MAX_SSE_TOKEN - |buf|);
      assert buf + (data + body.State().Rest(codec)) == (buf + data) + body.State().Rest(codec);
      buf := buf + data;
      if data == [] {
        assert buf == old(buf);
        err := if body.State().Broken() then Broke else AtEOF;
      }
    }
  }

  // ----- relayStream -----

  method RelayStream(codec: Codec, ctx: Context, body: Body, sink: ResponseSink, usage0: Usage)
    returns (usage: Usage, error: Option<RelayError>)
    requires body.Reader? ==> body.r.codec == codec
    modifies ctx, sink.Footprint(), body.Footprint(), body.Owner()`inFlight
    ensures Relayed(sink.State(), ctx.State(), usage, error) ==
      RelayBytes(codec, old(sink.State()), old(ctx.State()), usage0,
                 old(body.State()).Rest(codec), old(body.State()).Broken())
    ensures body.Released()
    ensures body.Owner().inFlight == old(body.Owner().inFlight) - (if old(body.Released()) then 0 else 1)
  {
    hide RelayTokens, Scan, S.SinkState.StartStream, ResponseSink.State, BodyValue.Rest, BodyValue.Broken;
    hide Scanner.Valid;
    sink.StartStream();
    var sc := new Scanner(body, codec);
    usage, error := RelayRecords(codec, ctx, sc, sink, usage0);
    body.Close();
  }

  /** The scan loop and what follows it. */
  method RelayRecords(codec: Codec, ctx: Context, sc: Scanner, sink: ResponseSink, usage0: Usage)
    returns (usage: Usage, error: Option<RelayError>)
    requires sc.Valid() && sc !in sink.Footprint()
    modifies ctx, sink.Footprint(), sc, sc.body.Footprint()
    ensures var ahead := old(sc.Ahead());
      Relayed(sink.State(), ctx.State(), usage, error) ==
      RelayTokens(codec, old(sink.State()), old(ctx.State()), usage0, ahead.tokens, ahead.failed)
    ensures sc.body.Released() == old(sc.body.Released())
  {
    hide RelayRecord, Finish, ResponseSink.State, Body.Released, Scanner.Ahead, Scanner.Valid;
    usage, error := usage0, None;
    ghost var ahead := sc.Ahead();
    ghost var goal := RelayTokens(codec, sink.State(), ctx.State(), usage, ahead.tokens, ahead.failed);
    while true
      invariant sc.Valid() && ahead == sc.Ahead()
      invariant sc.body.Released() == old(sc.body.Released())
      invariant goal == RelayTokens(codec, sink.State(), ctx.State(), usage, ahead.tokens, ahead.failed)
      decreases |ahead.tokens|
    {
      var record := sc.Next();
      if record.None? {
        break;
      }
      ghost var was := ahead;
      ahead := sc.Ahead();
      assert was.tokens[1..] == ahead.tokens;
      var verdict;
      usage, verdict := RelayOne(codec, ctx, record.value, sink, usage);
      if verdict == Abort {
        return usage, Some(WriteFailed);
      }
      if verdict == Stop {
        break;
      }
    }
    error := EndRelay(codec, ctx, sc.Failed(), sink, usage);
  }

  /** The loop body, from the cancellation check to the sink. */
  method RelayOne(codec: Codec, ctx: Context, record: Bytes, sink: ResponseSink, usage0: Usage)
    returns (usage: Usage, verdict: Verdict)
    modifies ctx, sink.Footprint()
    ensures Step(sink.State(), ctx.State(), usage, verdict) ==
      RelayRecord(codec, old(sink.State()), old(ctx.State()), usage0, record)
  {
    hide S.SinkState.WriteEvent, DataOf, UsageAfter, ResponseSink.State;
    var cancelled := ctx.Err();
    if cancelled {
      return usage0, Stop;
    }
    var data := ExtractData(record);
    if data.Done? {
      return usage0, Stop;
    }
    if data.NoData? {
      return usage0, More;
    }
    usage := UsageAfter(codec, data.bytes, usage0);
    var ok := sink.WriteEvent(codec, data.bytes);
    verdict := if ok then More else Abort;
  }

  method EndRelay(codec: Codec, ctx: Context, failed: bool, sink: ResponseSink, ghost usage: Usage)
    returns (error: Option<RelayError>)
    modifies ctx, sink.Footprint()
    ensures Relayed(sink.State(), ctx.State(), usage, error) ==
      Finish(codec, old(sink.State()), old(ctx.State()), usage, failed)
  {
    if failed {
      var cancelled := ctx.Err();
      if !cancelled {
        var _ := sink.EndStream(codec);
        return Some(ReadFailed);
      }
    }
    var ok := sink.EndStream(codec);
    return if ok then None else Some(EndFailed);
  }

  // ----- relayRawStream -----

  datatype RawRelayed = RawRelayed(sink: S.SinkState, ctx: Ctx, error: Option<RelayError>)

  function RawPieces(sink: S.SinkState, ctx: Ctx, pieces: seq<Piece>, broken: bool): RawRelayed
    decreases |Concat(pieces)|
  {
    if ctx.Cancelled() then RawRelayed(sink, ctx.Checked(), None)
    else if pieces == [] then
      if !broken then RawRelayed(sink, ctx.Checked(), None)
      else
        RawRelayed(sink, ctx.Checked().Checked(), if ctx.Checked().Cancelled() then None else Some(ReadFailed))
    else
      NextReadKeepsBytes(pieces, RAW_BUFFER);
      var (data, rest) := NextRead(pieces, RAW_BUFFER);
      var (s, ok) := sink.Write(data);
      if ok then RawPieces(s, ctx.Checked(), rest, broken)
      else RawRelayed(s, ctx.Checked(), Some(WriteFailed))
  }

  method RelayRawStream(ctx: Context, g: GuardedBody, sink: ResponseSink)
    returns (error: Option<RelayError>)
    modifies ctx, sink.Footprint(), g, g.client`inFlight
    ensures RawRelayed(sink.State(), ctx.State(), error) ==
      RawPieces(old(sink.State()).StartStream(), old(ctx.State()), old(g.pieces), g.broken)
    ensures g.released
    ensures g.client.inFlight == old(g.client.inFlight) - (if old(g.released) then 0 else 1)
  {
    hide RawPieces, S.SinkState.StartStream, ResponseSink.State;
    sink.StartStream();
    error := CopyRaw(ctx, g, sink);
    g.Close();
  }

  method CopyRaw(ctx: Context, g: GuardedBody, sink: ResponseSink) returns (error: Option<RelayError>)
    modifies ctx, sink.Footprint(), g`pieces
    ensures RawRelayed(sink.State(), ctx.State(), error) ==
      RawPieces(old(sink.State()), old(ctx.State()), old(g.pieces), g.broken)
  {
    hide S.SinkState.Write, ResponseSink.State, NextRead;
    ghost var goal := RawPieces(sink.State(), ctx.State(), g.pieces, g.broken);
    while true
      invariant goal == RawPieces(sink.State(), ctx.State(), g.pieces, g.broken)
      decreases |Concat(g.pieces)|
    {
      var cancelled := ctx.Err();
      if cancelled {
        return None;
      }
      NextReadKeepsBytes(g.pieces, RAW_BUFFER);
      var data := g.Read(RAW_BUFFER);
      if data != [] {
        var ok := sink.WriteRawChunk(data);
        if !ok {
          return Some(WriteFailed);
        }
      } else {
        if !g.broken {
          return None;
        }
        var stopped := ctx.Err();
        return if stopped then None else Some(ReadFailed);
      }
    }
  }
}
