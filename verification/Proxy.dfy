/** proxyStrategy.Execute and its response handlers over the real sink, bodies, clients, selectors and
    counters (internal/router/proxy.go), proved against the failover machine. */
module Proxy {
  import opened Wrappers
  import opened Bytes
  import opened Codec
  import opened Upstream
  import opened Sinks
  import opened Relay
  import opened Selectors
  import opened ProxyRun
  import F = Fleet
  import S = SinkStates

  const PARETO: string := "pareto"

  datatype Plan = Plan(aliasName: string, selector: string, candidates: seq<F.Candidate>, minQuality: real)

  /** The health collaborator: the last published snapshot, if any, and the names suspected so far. */
  class HealthView {
    var snap: Option<F.Snapshot>
    var suspects: seq<string>

    constructor ()
      ensures snap == None && suspects == []
    {
      snap, suspects := None, [];
    }

    function Snapshot(): F.Snapshot
      reads this
    {
      if snap.Some? then snap.value else map[]
    }

    method Suspect(name: string)
      modifies this`suspects
      ensures suspects == old(suspects) + [name]
    {
      suspects := suspects + [name];
    }
  }

  class FailoverCounter {
    var count: nat

    constructor ()
      ensures count == 0
    {
      count := 0;
    }

    method IncFailover()
      modifies this
      ensures count == old(count) + 1
    {
      count := count + 1;
    }
  }

  // ----- the response handlers -----

  /** What a handler reports: its `done` flag (otherwise the attempt is retried) and whether writing failed. */
  ghost predicate Handles(hd: Handled, sink: S.SinkState, was: S.SinkState, ctx: Ctx, done: bool, failed: bool,
                          outcome: Outcome) {
    if done then hd == Done(sink, ctx, outcome, failed) else hd == Retry && sink == was
  }

  method HandleUnaryResponse(codec: Codec, native: bool, resp: Response, sink: ResponseSink, ghost ctx: Ctx,
                             outcome0: Outcome) returns (done: bool, failed: bool, outcome: Outcome)
    requires (resp.body.Reader? ==> resp.body.r.codec == codec) && !resp.body.Released()
    modifies sink.Footprint(), resp.body.Footprint(), resp.body.Owner()`inFlight
    ensures Handles(
      HandleUnary(codec, native, Reply(resp.status, resp.contentType, old(resp.body.State())),
                  old(sink.State()), ctx, outcome0),
      sink.State(), old(sink.State()), ctx, done, failed, outcome)
    ensures !done ==> outcome == outcome0
    ensures resp.body.Owner().inFlight == old(resp.body.Owner().inFlight) - 1
  {
    hide ResponseSink.State, Body.State, Body.Released, BodyValue.Rest, BodyValue.Broken;
    hide S.SinkState.WriteResponse, S.SinkState.WriteRawResponse;
    outcome, failed := outcome0, false;
    if IsRetryable(resp.status) {
      resp.body.Close();
      return false, false, outcome;
    }
    var data, ok := resp.body.ReadAll(codec);
    if !ok {
      resp.body.Close();
      return false, false, outcome;
    }
    outcome := outcome.(status := resp.status,
                        usage := if native then codec.nativeUsageOf(data) else codec.usageOf(data));
    if native {
      ok := sink.WriteRawResponse(resp.status, resp.contentType, data);
    } else {
      ok := sink.WriteResponse(codec, resp.status, resp.contentType, data);
    }
    resp.body.Close();
    done, failed := true, !ok;
  }

  method HandleStreamResponse(codec: Codec, native: bool, resp: Response, sink: ResponseSink, ctx: Context,
                              outcome0: Outcome) returns (done: bool, failed: bool, outcome: Outcome)
    requires (resp.body.Reader? ==> resp.body.r.codec == codec) && !resp.body.Released()
    requires native ==> resp.body.Guarded?
    modifies ctx, sink.Footprint(), resp.body.Footprint(), resp.body.Owner()`inFlight
    ensures Handles(
      HandleStream(codec, native, Reply(resp.status, resp.contentType, old(resp.body.State())),
                   old(sink.State()), old(ctx.State()), outcome0),
      sink.State(), old(sink.State()), ctx.State(), done, failed, outcome)
    ensures !done ==> ctx.State() == old(ctx.State()) && outcome == outcome0
    ensures resp.body.Owner().inFlight == old(resp.body.Owner().inFlight) - 1
  {
    hide ResponseSink.State, BodyValue.Rest, BodyValue.Broken, RawPieces, RelayBytes;
    hide S.SinkState.WriteResponse, S.SinkState.WriteRawResponse, S.SinkState.StartStream;
    outcome, failed := outcome0, false;
    if IsRetryable(resp.status) {
      resp.body.Close();
      return false, false, outcome;
    }
    outcome := outcome.(status := resp.status);
    done := true;
    if resp.status < 200 || resp.status >= 300 {
      failed := RelayErrorReply(codec, native, resp, sink);
    } else if native {
      var error := RelayRawStream(ctx, resp.body.g, sink);
      failed := error.Some?;
    } else {
      var usage, error := RelayStream(codec, ctx, resp.body, sink, outcome.usage);
      outcome := outcome.(usage := usage);
      failed := error.Some?;
    }
  }

  /** A non-2xx reply to a streaming request, relayed whole; a read error is ignored here. */
  method RelayErrorReply(codec: Codec, native: bool, resp: Response, sink: ResponseSink) returns (failed: bool)
    requires (resp.body.Reader? ==> resp.body.r.codec == codec) && !resp.body.Released()
    modifies sink.Footprint(), resp.body.Footprint(), resp.body.Owner()`inFlight
    ensures (sink.State(), !failed) ==
      WriteWhole(codec, old(sink.State()), native, Reply(resp.status, resp.contentType, old(resp.body.State())))
    ensures resp.body.Owner().inFlight == old(resp.body.Owner().inFlight) - 1
  {
    hide ResponseSink.State, Body.State, Body.Released, BodyValue.Rest, BodyValue.Broken;
    hide S.SinkState.WriteResponse, S.SinkState.WriteRawResponse;
    var data, _ := resp.body.ReadAll(codec);
    var ok;
    if native {
      ok := sink.WriteRawResponse(resp.status, resp.contentType, data);
    } else {
      ok := sink.WriteResponse(codec, resp.status, resp.contentType, data);
    }
    resp.body.Close();
    failed := !ok;
  }

  method HandleResponse(codec: Codec, req: ChatRequest, native: bool, resp: Response, sink: ResponseSink,
                        ctx: Context, outcome0: Outcome) returns (done: bool, failed: bool, outcome: Outcome)
    requires (resp.body.Reader? ==> resp.body.r.codec == codec) && !resp.body.Released()
    requires native ==> resp.body.Guarded?
    modifies ctx, sink.Footprint(), resp.body.Footprint(), resp.body.Owner()`inFlight
    ensures Handles(
      Handle(codec, req, native, Reply(resp.status, resp.contentType, old(resp.body.State())),
             old(sink.State()), old(ctx.State()), outcome0),
      sink.State(), old(sink.State()), ctx.State(), done, failed, outcome)
    ensures !done ==> ctx.State() == old(ctx.State()) && outcome == outcome0
    ensures resp.body.Owner().inFlight == old(resp.body.Owner().inFlight) - 1
  {
    hide ResponseSink.State, Body.State, Body.Released, HandleStream, HandleUnary;
    if req.stream {
      done, failed, outcome := HandleStreamResponse(codec, native, resp, sink, ctx, outcome0);
    } else {
      done, failed, outcome := HandleUnaryResponse(codec, native, resp, sink, ctx.State(), outcome0);
    }
  }

  // ----- Execute -----

  /** The call to a backend, on the native endpoint or through the canonical form. */
  method Call(codec: Codec, client: Client, native: bool, answer: Answer, stream: bool)
    returns (resp: Option<Response>)
    requires native ==> client.protocol == ANTHROPIC
    modifies client`inFlight
    ensures client.Handed(resp, Receive(codec, client.protocol, native, answer, stream), codec)
    ensures resp.Some? ==> fresh(resp.value.body.Footprint())
    ensures native && resp.Some? ==> resp.value.body.Guarded?
    ensures client.inFlight == old(client.inFlight) + (if resp.Some? then 1 else 0)
  {
    hide ReceivePlain, ReceiveAnthropic;
    if native {
      resp := client.ChatNative(codec, answer);
    } else {
      resp := client.Chat(codec, answer, stream);
    }
  }

  function Protocols(clients: map<string, Client>): map<string, Protocol> {
    map n | n in clients :: clients[n].protocol
  }

  /** The candidates in the order in which Execute tries them. */
  function OrderFor(snap: F.Snapshot, backends: map<string, Protocol>, req: ChatRequest, plan: Plan,
                    counter: Count): seq<F.Candidate> {
    if plan.selector == PARETO then
      ParetoOrdered(snap, plan.candidates,
                    if req.qualityBar.Some? then req.qualityBar.value else plan.minQuality)
    else
      var healthy := HealthyOnes(snap, plan.candidates);
      Preferred(if healthy == [] then [] else Rotate(healthy, counter % |healthy|), backends, req.consumer)
  }

  /** The rotation counter after ordering a plan. */
  function CounterAfter(snap: F.Snapshot, plan: Plan, counter: Count): Count {
    if plan.selector == PARETO || HealthyOnes(snap, plan.candidates) == [] then counter else Next(counter)
  }

  lemma NativeIsAnthropic(req: ChatRequest, protocol: Protocol)
    ensures NativeRelay(req, protocol) ==> protocol == ANTHROPIC
  {
  }

  /** The three ways a dispatch goes. */
  lemma SendParts(env: Env, run: Run, cand: F.Candidate, protocol: Protocol)
    ensures var native := NativeRelay(env.req, protocol);
      var reply := Receive(env.codec, protocol, native, env.answers(|run.dispatched|), env.req.stream);
      var sent := run.(dispatched := run.dispatched + [Dispatch(cand, run.sink.wrote)]);
      var sink := ProxyRun.Named(run.sink, cand);
      if reply == Failed then Send(env, run, cand, protocol) == Fail(sent, cand)
      else
        match Handle(env.codec, env.req, native, reply, sink, run.ctx, run.outcome)
        case Retry => Send(env, run, cand, protocol) == Fail(sent.(sink := sink), cand)
        case Done(s, ctx, outcome, failed) =>
          Send(env, run, cand, protocol)
            == (sent.(sink := s, ctx := ctx, outcome := outcome), Some(Replied(failed)))
  {
    hide Receive, Handle, Fail;
  }

  /** The four ways an attempt goes. */
  lemma AttemptParts(env: Env, run: Run, cand: F.Candidate)
    ensures Attempt(env, run, cand) ==
      if cand.backend !in env.backends then (run, None)
      else if run.sent >= MAX_ATTEMPTS then (run, Some(Exhausted))
      else if run.ctx.Cancelled() then (run.(ctx := run.ctx.Checked()), Some(CancelledBefore))
      else
        Prepare(env, Begin(run, cand, env.backends[cand.backend]), cand, env.backends[cand.backend])
  {
    hide Prepare, Begin;
  }

  /** Buffers the router's headers for the candidate. */
  method NameSink(sink: ResponseSink, cand: F.Candidate)
    modifies sink.Footprint()
    ensures sink.State() == ProxyRun.Named(old(sink.State()), cand)
  {
    hide ResponseSink.State;
    sink.SetHeader("X-Router-Model", cand.model);
    sink.SetHeader("X-Router-Backend", cand.backend);
  }

  lemma SameNames(clients: map<string, Client>)
    ensures forall n :: n in Protocols(clients) <==> n in clients
    ensures forall n :: n in clients ==> Protocols(clients)[n] == clients[n].protocol && clients[n] in clients.Values
  {
  }

  class ProxyStrategy {
    const clients: map<string, Client>
    const health: HealthView
    const metrics: FailoverCounter
    const roundRobin: RoundRobinSelector

    constructor (clients: map<string, Client>, health: HealthView, metrics: FailoverCounter)
      ensures this.clients == clients && this.health == health && this.metrics == metrics
      ensures fresh(roundRobin) && roundRobin.counter == 0
    {
      this.clients, this.health, this.metrics := clients, health, metrics;
      roundRobin := new RoundRobinSelector();
    }

    ghost function RunNow(ctx: Context, sink: ResponseSink, calls: seq<Dispatch>, sent: nat, outcome: Outcome): Run
      reads ctx, sink.Footprint(), health, metrics
    {
      Run(ctx.State(), sink.State(), health.suspects, metrics.count, calls, sent, outcome)
    }

    /** `answers(k)` is what the upstream of dispatch `k` does; `calls` lists the dispatches. */
    method Execute(codec: Codec, answers: nat -> Answer, ctx: Context, req: ChatRequest, plan: Plan,
                   sink: ResponseSink)
      returns (outcome: Outcome, ending: Ending, ghost calls: seq<Dispatch>)
      modifies ctx, sink.Footprint(), health`suspects, metrics, roundRobin, clients.Values`inFlight
      ensures
        var ordered := OrderFor(old(health.Snapshot()), Protocols(clients), req, plan, old(roundRobin.counter));
        var (r, e) := Execution(Env(codec, Protocols(clients), req, answers),
                                old(Start(ctx.State(), sink.State(), health.suspects, metrics.count)), ordered);
        RunNow(ctx, sink, calls, r.sent, outcome) == r && ending == e
      ensures roundRobin.counter == CounterAfter(old(health.Snapshot()), plan, old(roundRobin.counter))
      ensures forall c :: c in clients.Values ==> c.inFlight == old(c.inFlight)
    {
      hide ResponseSink.State, Attempt, OrderFor, CounterAfter, Protocols;
      ghost var env := Env(codec, Protocols(clients), req, answers);
      var ordered := Ordered(req, plan);
      outcome, calls := NO_OUTCOME, [];
      if ordered == [] {
        return outcome.(status := 503), NoneHealthy, [];
      }
      var sent := 0;
      var i := 0;
      ghost var goal := Loop(env, RunNow(ctx, sink, calls, sent, outcome), ordered);
      while i < |ordered|
        invariant 0 <= i <= |ordered|
        invariant sent == |calls| && roundRobin.counter == CounterAfter(old(health.Snapshot()), plan, old(roundRobin.counter))
        invariant goal == Loop(env, RunNow(ctx, sink, calls, sent, outcome), ordered[i..])
        invariant forall c :: c in clients.Values ==> c.inFlight == old(c.inFlight)
      {
        var stop;
        assert ordered[i..][1..] == ordered[i + 1..];
        outcome, sent, stop, calls := TryOne(codec, answers, ctx, req, ordered[i], sink, outcome, sent, calls);
        if stop.Some? {
          ending := stop.value;
          if ending == Exhausted {
            outcome := outcome.(status := 502);
          }
          return;
        }
        i := i + 1;
      }
      outcome, ending := outcome.(status := 502), Exhausted;
    }

    /** One turn of the loop. */
    method TryOne(codec: Codec, answers: nat -> Answer, ctx: Context, req: ChatRequest, cand: F.Candidate,
                  sink: ResponseSink, outcome0: Outcome, sent0: nat, ghost calls0: seq<Dispatch>)
      returns (outcome: Outcome, sent: nat, stop: Option<Ending>, ghost calls: seq<Dispatch>)
      requires sent0 == |calls0|
      modifies ctx, sink.Footprint(), health`suspects, metrics, clients.Values`inFlight
      ensures (RunNow(ctx, sink, calls, sent, outcome), stop) ==
        Attempt(Env(codec, Protocols(clients), req, answers), old(RunNow(ctx, sink, calls0, sent0, outcome0)), cand)
      ensures stop == None ==> sent == |calls|
      ensures forall c :: c in clients.Values ==> c.inFlight == old(c.inFlight)
    {
      hide ResponseSink.State, Prepare, Begin, Protocols, Attempt;
      ghost var was := RunNow(ctx, sink, calls0, sent0, outcome0);
      SameNames(clients);
      AttemptParts(Env(codec, Protocols(clients), req, answers), was, cand);
      outcome, sent, stop, calls := outcome0, sent0, None, calls0;
      if cand.backend !in clients {
        return;
      }
      if sent >= MAX_ATTEMPTS {
        stop := Some(Exhausted);
        return;
      }
      var cancelled := ctx.Err();
      if cancelled {
        stop := Some(CancelledBefore);
        return;
      }
      outcome, sent, stop, calls := StartOne(codec, answers, ctx, req, cand, clients[cand.backend], sink, outcome0,
                                             sent0, calls0, was);
    }

    /** A new attempt, found live: counted, then prepared. `was` is the run before the check. */
    method StartOne(codec: Codec, answers: nat -> Answer, ctx: Context, req: ChatRequest, cand: F.Candidate,
                    client: Client, sink: ResponseSink, outcome0: Outcome, sent0: nat, ghost calls0: seq<Dispatch>,
                    ghost was: Run)
      returns (outcome: Outcome, sent: nat, stop: Option<Ending>, ghost calls: seq<Dispatch>)
      requires client in clients.Values && sent0 == |calls0|
      requires RunNow(ctx, sink, calls0, sent0, outcome0) == was.(ctx := was.ctx.Checked())
      modifies ctx, sink.Footprint(), health`suspects, metrics, client`inFlight
      ensures (RunNow(ctx, sink, calls, sent, outcome), stop) ==
        Prepare(Env(codec, Protocols(clients), req, answers), Begin(was, cand, client.protocol), cand, client.protocol)
      ensures stop == None ==> sent == |calls|
      ensures client.inFlight == old(client.inFlight)
    {
      hide ResponseSink.State, Prepare, Protocols;
      outcome, sent := CountAttempt(cand, outcome0, sent0);
      outcome := outcome.(protocol := client.protocol);
      outcome, stop, calls := PrepareOne(codec, answers, ctx, req, cand, client, sink, outcome, sent, calls0);
    }

    method PrepareOne(codec: Codec, answers: nat -> Answer, ctx: Context, req: ChatRequest, cand: F.Candidate,
                      client: Client, sink: ResponseSink, outcome0: Outcome, sent: nat, ghost calls0: seq<Dispatch>)
      returns (outcome: Outcome, stop: Option<Ending>, ghost calls: seq<Dispatch>)
      requires client in clients.Values && sent == |calls0| + 1
      modifies ctx, sink.Footprint(), health`suspects, client`inFlight
      ensures (RunNow(ctx, sink, calls, sent, outcome), stop) ==
        Prepare(Env(codec, Protocols(clients), req, answers), old(RunNow(ctx, sink, calls0, sent, outcome0)), cand,
                client.protocol)
      ensures stop == None ==> sent == |calls|
      ensures client.inFlight == old(client.inFlight)
    {
      hide ResponseSink.State, Send, NativeRelay, Protocols;
      var native := NativeRelay(req, client.protocol);
      if !(if native then req.nativeEncodable else req.encodable) {
        outcome, stop, calls := outcome0.(status := 400), Some(BadEncoding), calls0;
        return;
      }
      outcome, stop, calls := SendOne(codec, answers, ctx, req, cand, client, sink, outcome0, sent, calls0);
    }

    method CountAttempt(cand: F.Candidate, outcome0: Outcome, sent0: nat) returns (outcome: Outcome, sent: nat)
      modifies metrics
      ensures sent == sent0 + 1 && metrics.count == old(metrics.count) + (if sent0 > 0 then 1 else 0)
      ensures outcome == outcome0.(backend := cand.backend, upstreamModel := cand.model,
                                   failovers := outcome0.failovers + if sent0 > 0 then 1 else 0)
    {
      outcome := outcome0;
      if sent0 > 0 {
        metrics.IncFailover();
        outcome := outcome.(failovers := outcome.failovers + 1);
      }
      sent := sent0 + 1;
      outcome := outcome.(backend := cand.backend, upstreamModel := cand.model);
    }

    /** The dispatch, and what follows from the reply. */
    method SendOne(codec: Codec, answers: nat -> Answer, ctx: Context, req: ChatRequest, cand: F.Candidate,
                   client: Client, sink: ResponseSink, outcome0: Outcome, sent: nat, ghost calls0: seq<Dispatch>)
      returns (outcome: Outcome, stop: Option<Ending>, ghost calls: seq<Dispatch>)
      requires client in clients.Values && sent == |calls0| + 1
      modifies ctx, sink.Footprint(), health`suspects, client`inFlight
      ensures (RunNow(ctx, sink, calls, sent, outcome), stop) ==
        Send(Env(codec, Protocols(clients), req, answers), old(RunNow(ctx, sink, calls0, sent, outcome0)), cand,
             client.protocol)
      ensures |calls| == |calls0| + 1
      ensures client.inFlight == old(client.inFlight)
    {
      hide ResponseSink.State, Receive, Handle, Body.State, Body.Released, Send, NativeRelay, ProxyRun.Named, Fail;
      ghost var env := Env(codec, Protocols(clients), req, answers);
      ghost var was := RunNow(ctx, sink, calls0, sent, outcome0);
      outcome, calls := outcome0, calls0 + [Dispatch(cand, sink.Wrote())];
      var native := NativeRelay(req, client.protocol);
      NativeIsAnthropic(req, client.protocol);
      var resp := Call(codec, client, native, answers(sent - 1), req.stream);
      SendParts(env, was, cand, client.protocol);
      if resp.None? {
        stop := GiveUp(ctx, cand, RunNow(ctx, sink, calls, sent, outcome));
        return;
      }
      outcome, stop := Serve(codec, ctx, req, cand, native, resp.value, sink, outcome, sent, calls);
    }

    /** From a reply on: the headers, the handler, and giving up when it asks for a retry. */
    method Serve(codec: Codec, ctx: Context, req: ChatRequest, cand: F.Candidate, native: bool, resp: Response,
                 sink: ResponseSink, outcome0: Outcome, ghost sent: nat, ghost calls: seq<Dispatch>)
      returns (outcome: Outcome, stop: Option<Ending>)
      requires (resp.body.Reader? ==> resp.body.r.codec == codec) && !resp.body.Released()
      requires native ==> resp.body.Guarded?
      modifies ctx, sink.Footprint(), health`suspects, resp.body.Footprint(), resp.body.Owner()`inFlight
      ensures var was := old(RunNow(ctx, sink, calls, sent, outcome0));
        var named := ProxyRun.Named(was.sink, cand);
        var reply := Reply(resp.status, resp.contentType, old(resp.body.State()));
        var now := RunNow(ctx, sink, calls, sent, outcome);
        match Handle(codec, req, native, reply, named, was.ctx, outcome0)
        case Retry => (now, stop) == Fail(was.(sink := named), cand)
        case Done(s, c, o, failed) => (now, stop) == (was.(sink := s, ctx := c, outcome := o), Some(Replied(failed)))
      ensures resp.body.Owner().inFlight == old(resp.body.Owner().inFlight) - 1
    {
      hide ResponseSink.State, Handle, Body.State, Body.Released, Fail, ProxyRun.Named;
      NameSink(sink, cand);
      var done, failed;
      done, failed, outcome := HandleResponse(codec, req, native, resp, sink, ctx, outcome0);
      if done {
        stop := Some(Replied(failed));
      } else {
        stop := GiveUp(ctx, cand, RunNow(ctx, sink, calls, sent, outcome));
      }
    }

    /** After a failed attempt. */
    method GiveUp(ctx: Context, cand: F.Candidate, ghost run: Run) returns (stop: Option<Ending>)
      requires run.ctx == ctx.State() && run.suspects == health.suspects
      modifies ctx, health`suspects
      ensures Fail(run, cand) == (run.(ctx := ctx.State(), suspects := health.suspects), stop)
    {
      var cancelled := ctx.Err();
      if cancelled {
        return Some(CancelledAfter);
      }
      health.Suspect(cand.backend);
      stop := None;
    }

    method Ordered(req: ChatRequest, plan: Plan) returns (ordered: seq<F.Candidate>)
      modifies roundRobin
      ensures ordered == OrderFor(health.Snapshot(), Protocols(clients), req, plan, old(roundRobin.counter))
      ensures roundRobin.counter == CounterAfter(health.Snapshot(), plan, old(roundRobin.counter))
    {
      hide HealthyOnes, ParetoOrdered, Preferred, Rotate;
      var snap := health.Snapshot();
      if plan.selector == PARETO {
        ordered := ParetoOrder(snap, plan.candidates, plan.minQuality, req.qualityBar);
      } else {
        ordered := roundRobin.Order(snap, plan.candidates);
        ordered := PreferSameProtocol(ordered, Protocols(clients), req.consumer);
      }
    }
  }
}
