/** What every run of the failover machine keeps. */
module ProxyLaws {
  import opened Wrappers
  import opened Bytes
  import opened Codec
  import opened Wire
  import opened Upstream
  import opened Relay
  import opened ProxyRun
  import R = RelayLaws
  import A = AnthropicLaws
  import F = Fleet
  import S = SinkStates
  import Sse

  // ----- nothing after the commit touches the head -----

  lemma ServedKeepsHead(codec: Codec, sink: S.SinkState, ps: seq<Bytes>)
    requires sink.wire.heads != []
    requires forall p :: p in ps ==> !Sse.IsDone(p)
    ensures R.Served(codec, sink, ps).0.wire.heads == sink.wire.heads
  {
    hide R.Served, A.Told, Sse.Render, Sse.IsDone, R.Cut;
    if sink.OpenAISink? {
      R.OpenAIServes(codec, sink, ps);
    } else {
      A.AnthropicServes(codec, sink, ps);
    }
  }

  /** A relay commits one head, status 200, and keeps it. */
  lemma RelayHead(codec: Codec, sink: S.SinkState, ctx: Ctx, usage: Usage, data: Bytes, broken: bool)
    requires sink.wire.heads == []
    ensures RelayBytes(codec, sink, ctx, usage, data, broken).sink.wire.heads
         == [Head(200, sink.wire.headers + S.STREAM_HEADERS + sink.extra)]
  {
    hide Sse.Scan, RelayTokens, R.Delivered, R.Served, Sse.IsDone;
    var scanned := Sse.Scan(data, broken, Sse.MAX_SSE_TOKEN);
    var started := sink.StartStream();
    R.RelayServes(codec, started, ctx, usage, scanned.tokens, scanned.failed);
    R.DeliveredIsPlain(ctx, scanned.tokens);
    ServedKeepsHead(codec, started, R.Delivered(ctx, scanned.tokens));
  }

  lemma {:induction false} RawKeepsHead(sink: S.SinkState, ctx: Ctx, pieces: seq<Piece>, broken: bool)
    requires sink.wire.heads != []
    ensures RawPieces(sink, ctx, pieces, broken).sink.wire.heads == sink.wire.heads
    decreases |Concat(pieces)|
  {
    hide Concat;
    if !ctx.Cancelled() && pieces != [] {
      NextReadKeepsBytes(pieces, RAW_BUFFER);
      var (data, rest) := NextRead(pieces, RAW_BUFFER);
      var (s, ok) := sink.Write(data);
      if ok {
        RawKeepsHead(s, ctx.Checked(), rest, broken);
      }
    }
  }

  /** The status a client sees for an outcome. */
  function ClientStatus(stream: bool, status: int): int {
    if stream && IsSuccess(status) then 200 else status
  }

  predicate Carries(h: Head, cand: F.Candidate) {
    && "X-Router-Model" in h.headers && h.headers["X-Router-Model"] == cand.model
    && "X-Router-Backend" in h.headers && h.headers["X-Router-Backend"] == cand.backend
  }

  /** The sink ended up with exactly one head, for `cand`. */
  predicate Committed(sink: S.SinkState, status: int, cand: F.Candidate) {
    && sink.wrote && |sink.wire.heads| == 1
    && sink.wire.heads[0].status == status && Carries(sink.wire.heads[0], cand)
  }

  lemma WholeCommits(codec: Codec, sink: S.SinkState, native: bool, r: Reply, cand: F.Candidate)
    requires r.Reply? && sink.wire.heads == []
    ensures Committed(WriteWhole(codec, ProxyRun.Named(sink, cand), native, r).0, r.status, cand)
  {
    hide BodyValue.Rest, Committed;
    var named := ProxyRun.Named(sink, cand);
    WriteCommits(sink, cand, r.status, r.contentType, r.body.Rest(codec));
    if !native && sink.AnthropicSink? {
      WriteCommits(sink, cand, r.status, "",
        if r.status >= 400 then codec.errorToAnthropic(r.body.Rest(codec))
        else codec.unaryToAnthropic(r.body.Rest(codec)));
    }
  }

  lemma WriteCommits(sink: S.SinkState, cand: F.Candidate, status: int, contentType: string, body: Bytes)
    requires sink.wire.heads == []
    ensures var named := ProxyRun.Named(sink, cand);
      Committed(named.Commit(status, S.ContentType(contentType)).Write(body).0, status, cand)
  {
    hide Wire.Put;
    var s := ProxyRun.Named(sink, cand).Commit(status, S.ContentType(contentType));
    assert s.extra["X-Router-Model"] == cand.model && s.extra["X-Router-Backend"] == cand.backend;
    PutKeepsHead(s.wire, body);
  }

  lemma PutKeepsHead(w: Wire, p: Bytes)
    requires w.heads != []
    ensures w.Put(p).0.heads == w.heads
  {
  }

  /** A handler that is done has committed exactly one response, under the candidate's headers. */
  lemma HandleCommits(env: Env, native: bool, r: Reply, sink: S.SinkState, ctx: Ctx, o: Outcome, cand: F.Candidate)
    requires r.Reply? && (native ==> r.body.Plain?) && sink.wire.heads == []
    ensures var h := Handle(env.codec, env.req, native, r, ProxyRun.Named(sink, cand), ctx, o);
      h.Done? ==>
        && Committed(h.sink, ClientStatus(env.req.stream, h.outcome.status), cand)
        && h.outcome.failovers == o.failovers
        && h.outcome.status == r.status && !IsRetryable(r.status)
  {
    hide RelayBytes, RawPieces, WriteWhole, BodyValue.Rest, BodyValue.Broken, Committed;
    WholeCommits(env.codec, sink, native, r, cand);
    if env.req.stream && IsSuccess(r.status) {
      StreamCommits(env.codec, sink, native, r, ctx, o.usage, cand);
    }
  }

  lemma StreamCommits(codec: Codec, sink: S.SinkState, native: bool, r: Reply, ctx: Ctx, usage: Usage,
                      cand: F.Candidate)
    requires r.Reply? && (native ==> r.body.Plain?) && sink.wire.heads == []
    ensures var named := ProxyRun.Named(sink, cand);
      && (native ==> Committed(RawPieces(named.StartStream(), ctx, r.body.pieces, r.body.broken).sink, 200, cand))
      && Committed(RelayBytes(codec, named, ctx, usage, r.body.Rest(codec), r.body.Broken()).sink, 200, cand)
  {
    hide RelayBytes, RawPieces, BodyValue.Rest, BodyValue.Broken;
    var named := ProxyRun.Named(sink, cand);
    RelayHead(codec, named, ctx, usage, r.body.Rest(codec), r.body.Broken());
    RelayWrote(codec, named, ctx, usage, r.body.Rest(codec), r.body.Broken());
    if native {
      RawKeepsHead(named.StartStream(), ctx, r.body.pieces, r.body.broken);
      RawWrote(named.StartStream(), ctx, r.body.pieces, r.body.broken);
    }
  }

  // ----- the commit flag never falls -----

  lemma EventKeepsFlag(codec: Codec, s: S.SinkState, data: Bytes)
    requires s.wrote
    ensures s.WriteEvent(codec, data).0.wrote
  {
    hide Sse.IsDone, Wire.Put, RenderEvent, S.Absorbed;
  }

  lemma EndKeepsFlag(codec: Codec, s: S.SinkState)
    requires s.wrote
    ensures s.EndStream(codec).0.wrote
  {
    hide Wire.Put, RenderEvent;
  }

  lemma {:induction false} TokensKeepFlag(codec: Codec, s: S.SinkState, ctx: Ctx, u: Usage,
                                          tokens: seq<Sse.Token>, failed: bool)
    requires s.wrote
    ensures RelayTokens(codec, s, ctx, u, tokens, failed).sink.wrote
    decreases |tokens|
  {
    hide S.SinkState.WriteEvent, S.SinkState.EndStream, Sse.DataOf, UsageAfter;
    EndKeepsFlag(codec, s);
    if tokens != [] {
      var r := RelayRecord(codec, s, ctx, u, tokens[0].record);
      if Sse.DataOf(tokens[0].record).Payload? {
        EventKeepsFlag(codec, s, Sse.DataOf(tokens[0].record).bytes);
      }
      if r.verdict == More {
        TokensKeepFlag(codec, r.sink, r.ctx, r.usage, tokens[1..], failed);
      }
    }
  }

  lemma RelayWrote(codec: Codec, sink: S.SinkState, ctx: Ctx, u: Usage, data: Bytes, broken: bool)
    ensures RelayBytes(codec, sink, ctx, u, data, broken).sink.wrote
  {
    hide Sse.Scan, RelayTokens;
    var scanned := Sse.Scan(data, broken, Sse.MAX_SSE_TOKEN);
    TokensKeepFlag(codec, sink.StartStream(), ctx, u, scanned.tokens, scanned.failed);
  }

  lemma {:induction false} RawWrote(sink: S.SinkState, ctx: Ctx, pieces: seq<Piece>, broken: bool)
    requires sink.wrote
    ensures RawPieces(sink, ctx, pieces, broken).sink.wrote
    decreases |Concat(pieces)|
  {
    hide Concat, Wire.Put;
    if !ctx.Cancelled() && pieces != [] {
      NextReadKeepsBytes(pieces, RAW_BUFFER);
      var (data, rest) := NextRead(pieces, RAW_BUFFER);
      var (s, ok) := sink.Write(data);
      if ok {
        RawWrote(s, ctx.Checked(), rest, broken);
      }
    }
  }

  // ----- the invariant between attempts -----

  function Names(ds: seq<Dispatch>): seq<string> {
    if ds == [] then [] else Names(ds[..|ds| - 1]) + [ds[|ds| - 1].cand.backend]
  }

  function Cands(ds: seq<Dispatch>): (cs: seq<F.Candidate>)
    ensures |cs| == |ds| && forall k :: 0 <= k < |ds| ==> cs[k] == ds[k].cand
  {
    seq(|ds|, k requires 0 <= k < |ds| => ds[k].cand)
  }

  /** The candidates that name a configured backend. */
  function Known(backends: map<string, Protocol>, cands: seq<F.Candidate>): seq<F.Candidate> {
    if cands == [] then []
    else (if cands[0].backend in backends then [cands[0]] else []) + Known(backends, cands[1..])
  }

  function Minus1(n: nat): nat {
    if n == 0 then 0 else n - 1
  }

  predicate AllUnwritten(ds: seq<Dispatch>) {
    forall k :: 0 <= k < |ds| ==> !ds[k].written
  }

  /** While attempts are still made: nothing is written, every dispatch failed and is suspected, and
      the retries are counted. */
  predicate Trying(from: Run, run: Run) {
    && !run.sink.wrote && run.sink.wire == from.sink.wire && run.sink.wire.heads == []
    && run.sent == |run.dispatched| <= MAX_ATTEMPTS
    && AllUnwritten(run.dispatched)
    && run.suspects == from.suspects + Names(run.dispatched)
    && run.outcome.failovers == Minus1(run.sent)
    && run.retries == from.retries + Minus1(run.sent)
  }

  /** What holds at the end, by how the run ended. */
  predicate Settled(env: Env, from: Run, run: Run, ending: Ending) {
    var n := |run.dispatched|;
    && n <= run.sent <= MAX_ATTEMPTS
    && AllUnwritten(run.dispatched)
    && run.outcome.failovers == Minus1(run.sent)
    && run.retries == from.retries + Minus1(run.sent)
    && run.sent == (if ending == BadEncoding then n + 1 else n)
    && (if ending.Replied? then
          && n > 0 && Committed(run.sink, ClientStatus(env.req.stream, run.outcome.status), run.dispatched[n - 1].cand)
          && !IsRetryable(run.outcome.status) && run.outcome.status != 0
        else !run.sink.wrote && run.sink.wire == from.sink.wire && run.sink.wire.heads == [])
    && (if ending.Replied? || ending == CancelledAfter then
          n > 0 && run.suspects == from.suspects + Names(run.dispatched[..n - 1])
        else run.suspects == from.suspects + Names(run.dispatched))
  }

  lemma NamesSnoc(ds: seq<Dispatch>, d: Dispatch)
    ensures Names(ds + [d]) == Names(ds) + [d.cand.backend]
  {
    assert (ds + [d])[..|ds|] == ds;
  }

  lemma ReceivedIsPlain(codec: Codec, protocol: Protocol, native: bool, a: Answer, stream: bool)
    requires native
    ensures var r := Receive(codec, protocol, native, a, stream); r.Reply? ==> r.body.Plain?
  {
  }

  /** One dispatch keeps the invariant or settles the run. */
  lemma SendLaw(env: Env, from: Run, run: Run, begun: Run, cand: F.Candidate, protocol: Protocol)
    requires Trying(from, run) && run.sent < MAX_ATTEMPTS
    requires begun == Begin(run, cand, protocol)
    ensures var (next, ending) := Send(env, begun, cand, protocol);
      && next.dispatched == run.dispatched + [Dispatch(cand, false)]
      && (if ending == None then Trying(from, next)
          else Settled(env, from, next, ending.value) && ending.value != Exhausted && ending.value != NoneHealthy)
  {
    hide Handle, Fail, Committed, Names, Receive, Begin, Settled, Trying;
    var native := NativeRelay(env.req, protocol);
    var reply := Receive(env.codec, protocol, native, env.answers(|run.dispatched|), env.req.stream);
    BegunIs(run, begun, cand, protocol);
    var sent := begun.(dispatched := run.dispatched + [Dispatch(cand, run.sink.wrote)]);
    TryingUnwritten(from, run);
    FailLaw(env, from, run, sent, cand);
    if reply != Failed {
      if native { ReceivedIsPlain(env.codec, protocol, native, env.answers(|run.dispatched|), env.req.stream); }
      var named := sent.(sink := ProxyRun.Named(run.sink, cand));
      FailLaw(env, from, run, named, cand);
      HandleCommits(env, native, reply, run.sink, named.ctx, named.outcome, cand);
      var h := Handle(env.codec, env.req, native, reply, named.sink, named.ctx, named.outcome);
      if h.Done? {
        DoneLaw(env, from, run, named.(sink := h.sink, ctx := h.ctx, outcome := h.outcome), cand, h.failed);
      }
    }
  }

  lemma BegunIs(run: Run, begun: Run, cand: F.Candidate, protocol: Protocol)
    requires begun == Begin(run, cand, protocol)
    ensures Sending(run, begun.(dispatched := run.dispatched + [Dispatch(cand, run.sink.wrote)]), cand)
    ensures begun.sink == run.sink && begun.dispatched == run.dispatched
  {
  }

  lemma TryingUnwritten(from: Run, run: Run)
    requires Trying(from, run)
    ensures !run.sink.wrote && run.sink.wire.heads == [] && run.sent == |run.dispatched|
  {
  }

  /** `sent` is `run` with one more dispatch, to `cand`; sink, context and status may have moved on. */
  predicate Sending(run: Run, sent: Run, cand: F.Candidate) {
    var more := if run.sent > 0 then 1 else 0;
    && sent.sent == run.sent + 1 && sent.retries == run.retries + more
    && sent.outcome.failovers == run.outcome.failovers + more
    && sent.dispatched == run.dispatched + [Dispatch(cand, run.sink.wrote)]
    && sent.suspects == run.suspects
  }

  lemma FailLaw(env: Env, from: Run, run: Run, sent: Run, cand: F.Candidate)
    requires Trying(from, run) && run.sent < MAX_ATTEMPTS && Sending(run, sent, cand)
    requires !sent.sink.wrote && sent.sink.wire == run.sink.wire
    ensures var (next, ending) := Fail(sent, cand);
      && next.dispatched == sent.dispatched
      && (ending == None || ending == Some(CancelledAfter))
      && (if ending == None then Trying(from, next) else Settled(env, from, next, CancelledAfter))
  {
    hide Names, Committed;
    NamesSnoc(run.dispatched, Dispatch(cand, false));
    var all := run.dispatched + [Dispatch(cand, false)];
    assert all[..|all| - 1] == run.dispatched;
  }

  lemma DoneLaw(env: Env, from: Run, run: Run, done: Run, cand: F.Candidate, failed: bool)
    requires Trying(from, run) && run.sent < MAX_ATTEMPTS && Sending(run, done, cand)
    requires Committed(done.sink, ClientStatus(env.req.stream, done.outcome.status), cand)
    requires !IsRetryable(done.outcome.status) && done.outcome.status != 0
    ensures Settled(env, from, done, Replied(failed))
  {
    hide Names, Committed;
    var all := run.dispatched + [Dispatch(cand, false)];
    assert all[..|all| - 1] == run.dispatched;
  }

  /** Every run, over all candidate lists, answers and cancellation points. */
  lemma {:induction false} LoopLaw(env: Env, from: Run, run: Run, cands: seq<F.Candidate>)
    requires Trying(from, run)
    ensures var (r, e) := Loop(env, run, cands);
      && Settled(env, from, r, e) && e != NoneHealthy
      && Cands(r.dispatched) <= Cands(run.dispatched) + Known(env.backends, cands)
      && (e == Exhausted ==>
            |r.dispatched| == MAX_ATTEMPTS
            || Cands(r.dispatched) == Cands(run.dispatched) + Known(env.backends, cands))
    decreases |cands|
  {
    hide Send, Settled, Trying, Begin, Names;
    if cands == [] {
      TryingIsSettled(env, from, run, run, Exhausted);
      assert Cands(run.dispatched) + Known(env.backends, cands) == Cands(run.dispatched);
    } else {
      var cand := cands[0];
      if cand.backend !in env.backends {
        LoopLaw(env, from, run, cands[1..]);
      } else if run.sent >= MAX_ATTEMPTS {
        TryingIsSettled(env, from, run, run, Exhausted);
      } else if run.ctx.Cancelled() {
        TryingIsSettled(env, from, run, run.(ctx := run.ctx.Checked()), CancelledBefore);
      } else {
        AttemptLaw(env, from, run, cand);
        var (next, ending) := Attempt(env, run, cand);
        if ending == None {
          LoopLaw(env, from, next, cands[1..]);
          var (r, e) := Loop(env, next, cands[1..]);
          CandsThen(env.backends, run.dispatched, cand, cands, next.dispatched);
        } else {
          CandsThen(env.backends, run.dispatched, cand, cands, run.dispatched + [Dispatch(cand, false)]);
        }
      }
    }
  }

  lemma CandsThen(backends: map<string, Protocol>, ds: seq<Dispatch>, cand: F.Candidate, cands: seq<F.Candidate>,
                  next: seq<Dispatch>)
    requires cands != [] && cand == cands[0] && cand.backend in backends
    requires Cands(next) == Cands(ds) + [cand]
    ensures Cands(next) + Known(backends, cands[1..]) == Cands(ds) + Known(backends, cands)
    ensures Cands(next) <= Cands(ds) + Known(backends, cands)
    ensures Cands(ds) <= Cands(ds) + Known(backends, cands)
  {
    hide Cands, Known;
    var known := Known(backends, cands[1..]);
    assert Known(backends, cands) == [cand] + known by { KnownFirst(backends, cands); }
    assert (Cands(ds) + [cand]) + known == Cands(ds) + ([cand] + known);
  }

  lemma KnownFirst(backends: map<string, Protocol>, cands: seq<F.Candidate>)
    requires cands != [] && cands[0].backend in backends
    ensures Known(backends, cands) == [cands[0]] + Known(backends, cands[1..])
  {
  }

  /** The step of LoopLaw that starts an attempt. */
  lemma AttemptLaw(env: Env, from: Run, run: Run, cand: F.Candidate)
    requires Trying(from, run) && cand.backend in env.backends
    requires run.sent < MAX_ATTEMPTS && !run.ctx.Cancelled()
    ensures var (next, ending) := Attempt(env, run, cand);
      match ending
      case None =>
        Trying(from, next) && Cands(next.dispatched) == Cands(run.dispatched) + [cand]
      case Some(e) =>
        && Settled(env, from, next, e) && e != NoneHealthy && e != Exhausted
        && (Cands(next.dispatched) == Cands(run.dispatched) + [cand] || next.dispatched == run.dispatched)
  {
    hide Send, Names, Committed;
    assert Cands(run.dispatched + [Dispatch(cand, false)]) == Cands(run.dispatched) + [cand];
    var protocol := env.backends[cand.backend];
    var begun := Begin(run, cand, protocol);
    SendLaw(env, from, run, begun, cand, protocol);
  }

  lemma TryingIsSettled(env: Env, from: Run, was: Run, run: Run, ending: Ending)
    requires ending == Exhausted || ending == CancelledBefore || ending == NoneHealthy
    requires Trying(from, was) && run == was.(ctx := run.ctx, outcome := was.outcome.(status := run.outcome.status))
    ensures Settled(env, from, run, ending) && |run.dispatched| <= MAX_ATTEMPTS
    ensures |was.dispatched| == was.sent
  {
    hide Names;
  }

  // ----- who failed, who answered -----

  function ReplyOf(env: Env, k: nat, cand: F.Candidate): Reply
    requires cand.backend in env.backends
  {
    var protocol := env.backends[cand.backend];
    Receive(env.codec, protocol, NativeRelay(env.req, protocol), env.answers(k), env.req.stream)
  }

  /** Dispatch number `k`, to `cand`, fails before the client is written to. */
  predicate Fails(env: Env, k: nat, cand: F.Candidate) {
    && cand.backend in env.backends
    && var reply := ReplyOf(env, k, cand);
      reply == Failed || IsRetryable(reply.status) || (!env.req.stream && reply.body.Broken())
  }

  /** What the reply to dispatch `k` makes of the sink as it was before the whole run. */
  function Alone(env: Env, from: Run, k: nat, cand: F.Candidate): Handled
    requires cand.backend in env.backends && ReplyOf(env, k, cand) != Failed
  {
    var protocol := env.backends[cand.backend];
    Handle(env.codec, env.req, NativeRelay(env.req, protocol), ReplyOf(env, k, cand),
           ProxyRun.Named(from.sink, cand), from.ctx.(checks := from.ctx.checks + 2 * k + 1),
           NO_OUTCOME.(backend := cand.backend, upstreamModel := cand.model, protocol := protocol, failovers := k))
  }

  predicate AllFail(env: Env, ds: seq<Dispatch>) {
    forall k :: 0 <= k < |ds| ==> Fails(env, k, ds[k].cand)
  }

  /** Everything a failed attempt leaves behind will be overwritten. */
  ghost predicate Tracing(env: Env, from: Run, run: Run) {
    && AllFail(env, run.dispatched)
    && run.ctx == from.ctx.(checks := from.ctx.checks + 2 * run.sent)
    && run.sink == from.sink.(extra := run.sink.extra)
    && (forall c: F.Candidate :: ProxyRun.Named(run.sink, c) == ProxyRun.Named(from.sink, c))
    && run.outcome.status == 0 && run.outcome.usage == NO_USAGE
  }

  predicate Traced(env: Env, from: Run, run: Run, ending: Ending) {
    var n := |run.dispatched|;
    match ending
    case Replied(failed) =>
      && n > 0 && AllFail(env, run.dispatched[..n - 1])
      && var cand := run.dispatched[n - 1].cand;
        && cand.backend in env.backends && !Fails(env, n - 1, cand)
        && Alone(env, from, n - 1, cand) == Done(run.sink, run.ctx, run.outcome, failed)
    case CancelledBefore => AllFail(env, run.dispatched) && from.ctx.cancelAt.Some? && run.outcome.status == 0
    case CancelledAfter => AllFail(env, run.dispatched) && from.ctx.cancelAt.Some? && run.outcome.status == 0
    case BadEncoding => AllFail(env, run.dispatched) && !(env.req.encodable && env.req.nativeEncodable) && run.outcome.status == 400
    case _ => AllFail(env, run.dispatched)
  }

  lemma HandledRetry(env: Env, native: bool, r: Reply, sink: S.SinkState, ctx: Ctx, o: Outcome)
    requires r.Reply? && (native ==> r.body.Plain?)
    ensures Handle(env.codec, env.req, native, r, sink, ctx, o) == Retry
       <==> IsRetryable(r.status) || (!env.req.stream && r.body.Broken())
  {
    hide RelayBytes, RawPieces, WriteWhole, BodyValue.Rest, BodyValue.Broken;
  }

  lemma NamedTwice(s: S.SinkState, a: F.Candidate, b: F.Candidate)
    ensures ProxyRun.Named(ProxyRun.Named(s, a), b) == ProxyRun.Named(s, b)
  {
    var s1, s2 := ProxyRun.Named(ProxyRun.Named(s, a), b), ProxyRun.Named(s, b);
    assert s1.extra == s2.extra;
  }

  lemma AllFailSnoc(env: Env, ds: seq<Dispatch>, d: Dispatch)
    requires AllFail(env, ds) && Fails(env, |ds|, d.cand)
    ensures AllFail(env, ds + [d])
  {
    hide Fails;
  }

  lemma SendTrace(env: Env, from: Run, run: Run, begun: Run, cand: F.Candidate, protocol: Protocol)
    requires Tracing(env, from, run) && run.sent == |run.dispatched| && run.outcome.failovers == Minus1(run.sent)
    requires cand.backend in env.backends && protocol == env.backends[cand.backend]
    requires begun == Begin(run, cand, protocol)
    ensures var (next, ending) := Send(env, begun, cand, protocol);
      if ending == None then Tracing(env, from, next)
      else Traced(env, from, next, ending.value)
  {
    hide Handle, Fail, Receive, BodyValue.Broken, ProxyRun.Named, AllFail;
    var native := NativeRelay(env.req, protocol);
    var k := |run.dispatched|;
    var reply := ReplyOf(env, k, cand);
    var d := Dispatch(cand, run.sink.wrote);
    var sent := begun.(dispatched := run.dispatched + [d]);
    if reply == Failed {
      FailTrace(env, from, run, sent, cand);
    } else {
      if native { ReceivedIsPlain(env.codec, protocol, native, env.answers(k), env.req.stream); }
      var named := sent.(sink := ProxyRun.Named(run.sink, cand));
      HandledRetry(env, native, reply, named.sink, named.ctx, named.outcome);
      if Handle(env.codec, env.req, native, reply, named.sink, named.ctx, named.outcome) == Retry {
        NamedIsSame(from, run.sink, cand);
        FailTrace(env, from, run, named, cand);
      } else {
        assert (run.dispatched + [d])[..k] == run.dispatched;
        assert named.outcome == NO_OUTCOME.(backend := cand.backend, upstreamModel := cand.model,
                                            protocol := protocol, failovers := k);
      }
    }
  }

  lemma NamedIsSame(from: Run, sink: S.SinkState, cand: F.Candidate)
    requires sink == from.sink.(extra := sink.extra)
    requires forall c: F.Candidate :: ProxyRun.Named(sink, c) == ProxyRun.Named(from.sink, c)
    ensures var s := ProxyRun.Named(sink, cand);
      && s == from.sink.(extra := s.extra)
      && forall c: F.Candidate :: ProxyRun.Named(s, c) == ProxyRun.Named(from.sink, c)
  {
    forall c: F.Candidate
      ensures ProxyRun.Named(ProxyRun.Named(sink, cand), c) == ProxyRun.Named(from.sink, c)
    {
      NamedTwice(sink, cand, c);
    }
  }

  lemma FailTrace(env: Env, from: Run, run: Run, sent: Run, cand: F.Candidate)
    requires Tracing(env, from, run) && Fails(env, |run.dispatched|, cand)
    requires sent.dispatched == run.dispatched + [Dispatch(cand, run.sink.wrote)]
    requires sent.sent == run.sent + 1 && sent.ctx == run.ctx.Checked()
    requires sent.sink == run.sink || sent.sink == ProxyRun.Named(run.sink, cand)
    requires sent.outcome.status == 0 && sent.outcome.usage == NO_USAGE
    ensures var (next, ending) := Fail(sent, cand);
      if ending == None then Tracing(env, from, next) else Traced(env, from, next, ending.value)
  {
    hide Fails, AllFail, ProxyRun.Named;
    AllFailSnoc(env, run.dispatched, Dispatch(cand, run.sink.wrote));
    NamedIsSame(from, run.sink, cand);
  }

  lemma {:induction false} LoopTrace(env: Env, from: Run, run: Run, cands: seq<F.Candidate>)
    requires Trying(from, run) && Tracing(env, from, run)
    ensures var (r, e) := Loop(env, run, cands);
      Traced(env, from, r, e)
    decreases |cands|
  {
    hide Send, Settled, Trying, Tracing, Traced, Begin, Names, Fails;
    if cands == [] {
      TracingIsTraced(env, from, run, run, Exhausted);
    } else {
      var cand := cands[0];
      if cand.backend !in env.backends {
        LoopTrace(env, from, run, cands[1..]);
      } else if run.sent >= MAX_ATTEMPTS {
        TracingIsTraced(env, from, run, run, Exhausted);
      } else if run.ctx.Cancelled() {
        TracingIsTraced(env, from, run, run.(ctx := run.ctx.Checked()), CancelledBefore);
      } else {
        AttemptLaw(env, from, run, cand);
        AttemptTrace(env, from, run, cand);
        var (next, ending) := Attempt(env, run, cand);
        if ending == None {
          LoopTrace(env, from, next, cands[1..]);
        }
      }
    }
  }

  lemma TracingIsTraced(env: Env, from: Run, was: Run, run: Run, ending: Ending)
    requires Tracing(env, from, was) && run.dispatched == was.dispatched && run.outcome == was.outcome
    requires ending == Exhausted || (ending == CancelledBefore && was.ctx.Cancelled())
    ensures Traced(env, from, run, ending)
  {
    hide AllFail;
  }

  lemma AttemptTrace(env: Env, from: Run, run: Run, cand: F.Candidate)
    requires Trying(from, run) && Tracing(env, from, run) && cand.backend in env.backends
    requires run.sent < MAX_ATTEMPTS && !run.ctx.Cancelled()
    ensures var (next, ending) := Attempt(env, run, cand);
      if ending == None then Tracing(env, from, next) else Traced(env, from, next, ending.value)
  {
    hide Send, Names, AllFail;
    var protocol := env.backends[cand.backend];
    SendTrace(env, from, run, Begin(run, cand, protocol), cand, protocol);
  }
}
