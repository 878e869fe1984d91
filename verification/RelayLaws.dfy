/** What every relay keeps: whatever the bytes, the cuts, the errors and the cancellation point, the
    client gets a well-formed stream, cut where its connection fails. */
module RelayLaws {
  import opened Wrappers
  import opened Bytes
  import opened Sse
  import opened Codec
  import opened Wire
  import opened Upstream
  import opened Relay
  import S = SinkStates

  // ----- a relay is: some payloads, then one terminator -----

  /** The payloads a relay passes on: those before the terminator record and before cancellation. */
  function Delivered(ctx: Ctx, tokens: seq<Token>): seq<Bytes>
    decreases |tokens|
  {
    if tokens == [] || ctx.Cancelled() then []
    else
      match DataOf(tokens[0].record)
      case Done => []
      case NoData => Delivered(ctx.Checked(), tokens[1..])
      case Payload(p) => [p] + Delivered(ctx.Checked(), tokens[1..])
  }

  /** Events in order, up to the first failing write. */
  function WriteAll(codec: Codec, sink: S.SinkState, ps: seq<Bytes>): (S.SinkState, bool)
    decreases |ps|
  {
    if ps == [] then (sink, true)
    else
      var (s, ok) := sink.WriteEvent(codec, ps[0]);
      if ok then WriteAll(codec, s, ps[1..]) else (s, false)
  }

  function Served(codec: Codec, sink: S.SinkState, ps: seq<Bytes>): (S.SinkState, bool) {
    var (s, ok) := WriteAll(codec, sink, ps);
    if ok then s.EndStream(codec) else (s, false)
  }

  lemma WriteAllCons(codec: Codec, sink: S.SinkState, p: Bytes, ps: seq<Bytes>)
    ensures var (s, ok) := sink.WriteEvent(codec, p);
      WriteAll(codec, sink, [p] + ps) == if ok then WriteAll(codec, s, ps) else (s, false)
  {
    hide S.SinkState.WriteEvent;
    assert ([p] + ps)[1..] == ps;
  }

  /** Every relay ends in the state of its delivered payloads followed by the terminator; it reports a
      write error exactly when the client missed a byte, unless it reports the read error instead. */
  lemma {:induction false} RelayServes(codec: Codec, sink: S.SinkState, ctx: Ctx, usage: Usage,
                                       tokens: seq<Token>, failed: bool)
    ensures var r := RelayTokens(codec, sink, ctx, usage, tokens, failed);
      var s := Served(codec, sink, Delivered(ctx, tokens));
      r.sink == s.0 && (r.error == None ==> s.1) && (s.1 ==> r.error == None || r.error == Some(ReadFailed))
    decreases |tokens|
  {
    hide S.SinkState.WriteEvent, S.SinkState.EndStream, DataOf, UsageAfter;
    if tokens != [] && !ctx.Cancelled() {
      match DataOf(tokens[0].record)
      case Done =>
      case NoData =>
        RelayServes(codec, sink, ctx.Checked(), usage, tokens[1..], failed);
      case Payload(p) =>
        var (s, ok) := sink.WriteEvent(codec, p);
        WriteAllCons(codec, sink, p, Delivered(ctx.Checked(), tokens[1..]));
        if ok {
          RelayServes(codec, s, ctx.Checked(), UsageAfter(codec, p, usage), tokens[1..], failed);
        }
    }
  }

  lemma {:induction false} DeliveredIsPlain(ctx: Ctx, tokens: seq<Token>)
    ensures forall p :: p in Delivered(ctx, tokens) ==> p != [] && !IsDone(p)
    decreases |tokens|
  {
    hide Gather, IsDone;
    if tokens != [] {
      DeliveredIsPlain(ctx.Checked(), tokens[1..]);
    }
  }

  /** The last usage reported that is not all zero, else `usage`. */
  function LastReported(codec: Codec, ps: seq<Bytes>, usage: Usage): Usage {
    if ps == [] then usage
    else
      var last := codec.usageOf(ps[|ps| - 1]);
      if last != NO_USAGE then last else LastReported(codec, ps[..|ps| - 1], usage)
  }

  lemma {:induction false} LastReportedCons(codec: Codec, p: Bytes, ps: seq<Bytes>, usage: Usage)
    ensures LastReported(codec, [p] + ps, usage) == LastReported(codec, ps, UsageAfter(codec, p, usage))
  {
    if ps != [] {
      assert ([p] + ps)[..|ps|] == [p] + ps[..|ps| - 1];
      LastReportedCons(codec, p, ps[..|ps| - 1], usage);
    } else {
      assert ([p] + ps)[..0] == [];
    }
  }

  /** Unless the client's connection fails, a relay records the last usage the upstream reported. */
  lemma {:induction false} UsageIsLast(codec: Codec, sink: S.SinkState, ctx: Ctx, usage: Usage,
                                       tokens: seq<Token>, failed: bool)
    ensures var r := RelayTokens(codec, sink, ctx, usage, tokens, failed);
      r.error == Some(WriteFailed) || r.usage == LastReported(codec, Delivered(ctx, tokens), usage)
    decreases |tokens|
  {
    hide S.SinkState.WriteEvent, S.SinkState.EndStream, DataOf, UsageAfter, LastReported;
    NothingReported(codec, usage);
    if tokens != [] && !ctx.Cancelled() {
      match DataOf(tokens[0].record)
      case Done =>
      case NoData =>
        UsageIsLast(codec, sink, ctx.Checked(), usage, tokens[1..], failed);
      case Payload(p) =>
        var (s, ok) := sink.WriteEvent(codec, p);
        LastReportedCons(codec, p, Delivered(ctx.Checked(), tokens[1..]), usage);
        if ok {
          UsageIsLast(codec, s, ctx.Checked(), UsageAfter(codec, p, usage), tokens[1..], failed);
        }
    }
  }

  lemma NothingReported(codec: Codec, usage: Usage)
    ensures LastReported(codec, [], usage) == usage
  {
  }

  /** Cancellation only cuts: a prefix of what a live request would have been sent. */
  lemma {:induction false} CancellationCuts(ctx: Ctx, live: Ctx, tokens: seq<Token>)
    requires live.Live()
    ensures Delivered(ctx, tokens) <= Delivered(live, tokens)
    ensures ctx.Live() ==> Delivered(ctx, tokens) == Delivered(live, tokens)
    decreases |tokens|
  {
    hide DataOf;
    if tokens != [] {
      CancellationCuts(ctx.Checked(), live.Checked(), tokens[1..]);
    }
  }

  // ----- what an open connection gets -----

  function Cut(b: Bytes, n: nat): Bytes {
    if |b| <= n then b else b[..n]
  }

  /** `after` is `before` with `b` written to it, as far as the connection lasts. */
  predicate Wrote(before: Wire, after: Wire, ok: bool, b: Bytes) {
    && after.body == before.body + Cut(b, before.fuse)
    && (ok <==> |b| <= before.fuse)
    && after.fuse == before.fuse - |Cut(b, before.fuse)|
    && after.heads == before.heads && after.headers == before.headers
    && before.heads != []
  }

  lemma WroteNothing(w: Wire)
    requires w.heads != []
    ensures Wrote(w, w, true, [])
  {
  }

  lemma WroteThen(a: Wire, b: Wire, c: Wire, ok: bool, p: Bytes, q: Bytes)
    requires Wrote(a, b, true, p) && Wrote(b, c, ok, q)
    ensures Wrote(a, c, ok, p + q)
  {
    assert Cut(p + q, a.fuse) == p + Cut(q, b.fuse);
  }

  lemma WroteCut(a: Wire, b: Wire, p: Bytes, q: Bytes)
    requires Wrote(a, b, false, p)
    ensures Wrote(a, b, false, p + q)
  {
    assert Cut(p + q, a.fuse) == Cut(p, a.fuse);
  }

  lemma PutWrote(w: Wire, b: Bytes)
    requires w.heads != []
    ensures Wrote(w, w.Put(b).0, w.Put(b).1, b)
  {
  }

  // ----- the OpenAI sink -----

  lemma {:induction false} OpenAIWrites(codec: Codec, sink: S.SinkState, ps: seq<Bytes>)
    requires sink.OpenAISink? && sink.wire.heads != []
    requires forall p :: p in ps ==> !IsDone(p)
    ensures var (s, ok) := WriteAll(codec, sink, ps);
      s.OpenAISink? && Wrote(sink.wire, s.wire, ok, Render(ps))
    decreases |ps|
  {
    hide IsDone, Wrote, Wire.Put;
    if ps == [] {
      WroteNothing(sink.wire);
    } else {
      assert ps[0] in ps;
      PutWrote(sink.wire, Frame(ps[0]));
      var (s, ok) := sink.WriteEvent(codec, ps[0]);
      if ok {
        WroteHeads(sink.wire, s.wire, ok, Frame(ps[0]));
        OpenAIWrites(codec, s, ps[1..]);
        var (s', ok') := WriteAll(codec, s, ps[1..]);
        WroteThen(sink.wire, s.wire, s'.wire, ok', Frame(ps[0]), Render(ps[1..]));
      } else {
        WroteCut(sink.wire, s.wire, Frame(ps[0]), Render(ps[1..]));
      }
    }
  }

  lemma WroteHeads(a: Wire, b: Wire, ok: bool, p: Bytes)
    requires Wrote(a, b, ok, p)
    ensures b.heads == a.heads != []
  {
  }

  lemma OpenAIServes(codec: Codec, sink: S.SinkState, ps: seq<Bytes>)
    requires sink.OpenAISink? && sink.wire.heads != []
    requires forall p :: p in ps ==> !IsDone(p)
    ensures var (s, ok) := Served(codec, sink, ps);
      Wrote(sink.wire, s.wire, ok, Render(ps) + DONE_RECORD)
  {
    hide IsDone, Wrote, Wire.Put, WriteAll, Render;
    OpenAIWrites(codec, sink, ps);
    var (s, ok) := WriteAll(codec, sink, ps);
    WroteHeads(sink.wire, s.wire, ok, Render(ps));
    if ok {
      PutWrote(s.wire, DONE_RECORD);
      var (s', ok') := s.EndStream(codec);
      WroteThen(sink.wire, s.wire, s'.wire, ok', Render(ps), DONE_RECORD);
    } else {
      WroteCut(sink.wire, s.wire, Render(ps), DONE_RECORD);
    }
  }

  // ----- the raw relay -----

  /** A raw relay copies the upstream bytes up to a cancellation, cut where the connection fails; without
      a cancellation it copies all of them and reports the upstream's own error. */
  lemma {:induction false} RawCopies(sink: S.SinkState, ctx: Ctx, pieces: seq<Piece>, broken: bool) returns (n: nat)
    requires sink.wire.heads != []
    ensures var r := RawPieces(sink, ctx, pieces, broken);
      var all := Concat(pieces);
      && n <= |all| && r.sink.wire.body == sink.wire.body + Cut(all[..n], sink.wire.fuse)
      && (ctx.Live() ==>
            && n == |all|
            && r.error == if |all| > sink.wire.fuse then Some(WriteFailed) else if broken then Some(ReadFailed) else None)
    decreases |Concat(pieces)|
  {
    hide NextRead, Concat, Wire.Put, Cut;
    CutNothing(sink.wire.fuse);
    var all := Concat(pieces);
    NoPieces(pieces);
    if ctx.Cancelled() || pieces == [] {
      n := 0;
    } else {
      NextReadKeepsBytes(pieces, RAW_BUFFER);
      var (data, rest) := NextRead(pieces, RAW_BUFFER);
      var (s, ok) := sink.Write(data);
      PutWrote(sink.wire, data);
      assert all == data + Concat(rest);
      if ok {
        var m := RawCopies(s, ctx.Checked(), rest, broken);
        n := |data| + m;
        assert all[..n] == data + Concat(rest)[..m];
        CutJoin(data, Concat(rest)[..m], sink.wire.fuse);
      } else {
        n := |all|;
        assert all[..n] == all;
        CutJoin(data, Concat(rest), sink.wire.fuse);
      }
    }
  }

  lemma CutJoin(p: Bytes, q: Bytes, fuse: nat)
    ensures Cut(p + q, fuse) == if |p| <= fuse then p + Cut(q, fuse - |p|) else Cut(p, fuse)
    ensures |p| <= fuse ==> Cut(p, fuse) == p
  {
  }

  lemma CutNothing(fuse: nat)
    ensures Cut([], fuse) == []
  {
  }

  lemma NoPieces(pieces: seq<Piece>)
    ensures pieces == [] ==> Concat(pieces) == []
  {
  }
}
