/** The failover machine of proxyStrategy.Execute (internal/router/proxy.go) as a function of the
    candidates, what every dispatched backend answers, and when the request is cancelled. */
module ProxyRun {
  import opened Wrappers
  import opened Bytes
  import opened Codec
  import opened Upstream
  import opened Relay
  import F = Fleet
  import S = SinkStates

  const MAX_ATTEMPTS: nat := 3

  /** `encodable` and `nativeEncodable` say whether the outbound body can be built. */
  datatype ChatRequest = ChatRequest(
    consumer: Protocol, model: string, stream: bool, hasBody: bool, qualityBar: Option<real>,
    encodable: bool, nativeEncodable: bool)

  datatype Outcome = Outcome(
    backend: string, upstreamModel: string, protocol: Protocol, failovers: nat, status: int, usage: Usage)

  const NO_OUTCOME: Outcome := Outcome("", "", "", 0, 0, NO_USAGE)

  predicate IsRetryable(status: int) {
    status == 502 || status == 503 || status == 504
  }

  predicate IsSuccess(status: int) {
    200 <= status < 300
  }

  predicate NativeRelay(req: ChatRequest, protocol: Protocol) {
    req.consumer == ANTHROPIC && protocol == req.consumer && req.hasBody
  }

  // ----- the response handlers -----

  datatype Handled =
    | Retry
    | Done(sink: S.SinkState, ctx: Ctx, outcome: Outcome, failed: bool)

  function WriteWhole(codec: Codec, sink: S.SinkState, native: bool, r: Reply): (S.SinkState, bool)
    requires r.Reply?
  {
    if native then sink.WriteRawResponse(r.status, r.contentType, r.body.Rest(codec))
    else sink.WriteResponse(codec, r.status, r.contentType, r.body.Rest(codec))
  }

  function HandleUnary(codec: Codec, native: bool, r: Reply, sink: S.SinkState, ctx: Ctx, o: Outcome): Handled
    requires r.Reply?
  {
    if IsRetryable(r.status) || r.body.Broken() then Retry
    else
      var data := r.body.Rest(codec);
      var usage := if native then codec.nativeUsageOf(data) else codec.usageOf(data);
      var (s, ok) := WriteWhole(codec, sink, native, r);
      Done(s, ctx, o.(status := r.status, usage := usage), !ok)
  }

  function HandleStream(codec: Codec, native: bool, r: Reply, sink: S.SinkState, ctx: Ctx, o: Outcome): Handled
    requires r.Reply? && (native ==> r.body.Plain?)
  {
    if IsRetryable(r.status) then Retry
    else if !IsSuccess(r.status) then
      var (s, ok) := WriteWhole(codec, sink, native, r);
      Done(s, ctx, o.(status := r.status), !ok)
    else if native then
      var raw := RawPieces(sink.StartStream(), ctx, r.body.pieces, r.body.broken);
      Done(raw.sink, raw.ctx, o.(status := r.status), raw.error.Some?)
    else
      var relayed := RelayBytes(codec, sink, ctx, o.usage, r.body.Rest(codec), r.body.Broken());
      Done(relayed.sink, relayed.ctx, o.(status := r.status, usage := relayed.usage), relayed.error.Some?)
  }

  function Handle(codec: Codec, req: ChatRequest, native: bool, r: Reply,
                  sink: S.SinkState, ctx: Ctx, o: Outcome): Handled
    requires r.Reply? && (native ==> r.body.Plain?)
  {
    if req.stream then HandleStream(codec, native, r, sink, ctx, o)
    else HandleUnary(codec, native, r, sink, ctx, o)
  }

  // ----- the run -----

  /** One dispatch: to whom, and whether the client had been written to before it. */
  datatype Dispatch = Dispatch(cand: F.Candidate, written: bool)

  datatype Run = Run(
    ctx: Ctx, sink: S.SinkState, suspects: seq<string>, retries: nat,
    dispatched: seq<Dispatch>, sent: nat, outcome: Outcome)

  datatype Ending =
    | Replied(failed: bool)      // a response or a stream was written
    | CancelledBefore            // found cancelled before a dispatch
    | CancelledAfter             // found cancelled after a failed attempt
    | BadEncoding                // the outbound body could not be built
    | Exhausted                  // 502: no candidate is left, or the attempts are used up
    | NoneHealthy                // 503: there was no candidate

  /** What does not change during a run. */
  datatype Env = Env(codec: Codec, backends: map<string, Protocol>, req: ChatRequest, answers: nat -> Answer)

  function Named(sink: S.SinkState, cand: F.Candidate): S.SinkState {
    sink.SetHeader("X-Router-Model", cand.model).SetHeader("X-Router-Backend", cand.backend)
  }

  /** The bookkeeping of a new attempt. */
  function Begin(run: Run, cand: F.Candidate, protocol: Protocol): Run {
    var more := if run.sent > 0 then 1 else 0;
    run.(ctx := run.ctx.Checked(), retries := run.retries + more, sent := run.sent + 1,
         outcome := run.outcome.(backend := cand.backend, upstreamModel := cand.model,
                                 protocol := protocol, failovers := run.outcome.failovers + more))
  }

  /** After a failed attempt: stop when cancelled, else suspect the backend and go on. */
  function Fail(run: Run, cand: F.Candidate): (Run, Option<Ending>) {
    var next := run.(ctx := run.ctx.Checked());
    if run.ctx.Cancelled() then (next, Some(CancelledAfter))
    else (next.(suspects := run.suspects + [cand.backend]), None)
  }

  /** The dispatch itself and what follows from the reply. */
  function Send(env: Env, run: Run, cand: F.Candidate, protocol: Protocol): (Run, Option<Ending>) {
    var native := NativeRelay(env.req, protocol);
    var reply := Receive(env.codec, protocol, native, env.answers(|run.dispatched|), env.req.stream);
    var sent := run.(dispatched := run.dispatched + [Dispatch(cand, run.sink.wrote)]);
    if reply == Failed then Fail(sent, cand)
    else
      var named := sent.(sink := Named(run.sink, cand));
      match Handle(env.codec, env.req, native, reply, named.sink, named.ctx, named.outcome)
      case Retry => Fail(named, cand)
      case Done(sink, ctx, outcome, failed) =>
        (named.(sink := sink, ctx := ctx, outcome := outcome), Some(Replied(failed)))
  }

  /** Builds the outbound body, then sends it. */
  function Prepare(env: Env, run: Run, cand: F.Candidate, protocol: Protocol): (Run, Option<Ending>) {
    if !(if NativeRelay(env.req, protocol) then env.req.nativeEncodable else env.req.encodable) then
      (run.(outcome := run.outcome.(status := 400)), Some(BadEncoding))
    else Send(env, run, cand, protocol)
  }

  function Attempt(env: Env, run: Run, cand: F.Candidate): (Run, Option<Ending>) {
    if cand.backend !in env.backends then (run, None)
    else if run.sent >= MAX_ATTEMPTS then (run, Some(Exhausted))
    else if run.ctx.Cancelled() then (run.(ctx := run.ctx.Checked()), Some(CancelledBefore))
    else
      var protocol := env.backends[cand.backend];
      Prepare(env, Begin(run, cand, protocol), cand, protocol)
  }

  /** The loop over the ordered candidates. */
  function Loop(env: Env, run: Run, cands: seq<F.Candidate>): (Run, Ending)
    decreases |cands|
  {
    if cands == [] then (run, Exhausted)
    else
      var (next, ending) := Attempt(env, run, cands[0]);
      match ending
      case None => Loop(env, next, cands[1..])
      case Some(e) => (next, e)
  }

  /** Execute from the ordered candidates on: the run and how it ended, the outcome's status filled in
      for the router's own errors. */
  function Execution(env: Env, run: Run, ordered: seq<F.Candidate>): (Run, Ending) {
    if ordered == [] then (run.(outcome := run.outcome.(status := 503)), NoneHealthy)
    else
      var (r, e) := Loop(env, run, ordered);
      if e == Exhausted then (r.(outcome := r.outcome.(status := 502)), e) else (r, e)
  }

  function Start(ctx: Ctx, sink: S.SinkState, suspects: seq<string>, retries: nat): Run {
    Run(ctx, sink, suspects, retries, [], 0, NO_OUTCOME)
  }
}
