/** Router.Route (internal/router/router.go) and the routed part of handleChat
    (internal/server/server.go): what is written when routing is over. */
module Server {
  import opened Wrappers
  import opened Bytes
  import opened Codec
  import opened Wire
  import opened Sinks
  import opened Upstream
  import opened Resolve
  import P = ProxyRun
  import L = ProxyLaws
  import FL = FailoverLaws
  import Proxy
  import Fusion
  import Selectors
  import UL = FusionLaws
  import RL = RelayLaws
  import RP = ReplyLaws
  import AL = AnswerLaws
  import EL = EncodingLaws
  import F = Fleet
  import S = SinkStates

  /** An error of the router's contract, by its status, or any other error. */
  datatype RouteError = API(status: int) | Internal

  function ProxyError(ending: P.Ending): Option<RouteError> {
    match ending
    case Replied(failed) => if failed then Some(Internal) else None
    case CancelledBefore => Some(Internal)
    case CancelledAfter => Some(Internal)
    case BadEncoding => Some(API(400))
    case Exhausted => Some(API(502))
    case NoneHealthy => Some(API(503))
  }

  function FusionError(ending: Fusion.Ending): Option<RouteError> {
    match ending
    case Replied(failed) => if failed then Some(Internal) else None
    case Unavailable => Some(API(502))
    case NoBackend => Some(API(503))
  }

  /** All that decides a routed request: what the backends do, the snapshot that resolves the name and
      the one Execute reads. */
  datatype Job = Job(env: P.Env, world: Fusion.World, aliases: map<string, Alias>,
                     snap: F.Snapshot, live: F.Snapshot)

  /** One of the plan's healthy candidates answered within three dispatches, and the client has its reply. */
  ghost predicate ProxyReplied(job: Job, plan: Proxy.Plan, was: S.SinkState, ctx: Ctx, now: S.SinkState, o: P.Outcome) {
    exists k: nat, cand :: k < P.MAX_ATTEMPTS && cand in plan.candidates && F.IsHealthy(job.live, cand.backend)
      && FL.AnsweredBy(job.env, was, ctx, k, cand, now, o)
  }

  ghost predicate ResolvesTo(job: Job, r: Resolved) {
    var model := job.env.req.model;
    if model in job.aliases then r == AliasPlan(job.snap, job.aliases[model]) else DirectlyResolved(job.snap, model, r)
  }

  ghost predicate PlanReplied(job: Job, plan: Resolve.Plan, was: S.SinkState, ctx: Ctx, now: S.SinkState, o: P.Outcome) {
    match plan
    case ProxyPlan(p) => ProxyReplied(job, p, was, ctx, now, o)
    case FusionPlan(p) => UL.Synthesized(job.world, job.env.backends, p, job.env.req.stream, was, ctx, now, o)
  }

  /** The client has exactly one reply, of a backend the name resolves to. */
  ghost predicate ReplySent(job: Job, was: S.SinkState, ctx: Ctx, now: S.SinkState, o: P.Outcome) {
    exists r :: ResolvesTo(job, r) && r.Planned? && PlanReplied(job, r.plan, was, ctx, now, o)
  }

  // ----- why nothing was sent -----

  /** The body for a candidate can be built, in the form its backend is asked in. */
  predicate CanAsk(env: P.Env, c: F.Candidate) {
    && c.backend in env.backends
    && if AL.WayOf(env.req, env.backends[c.backend]).native then env.req.nativeEncodable else env.req.encodable
  }

  /** Up to three healthy candidates were asked one after the other and every answer was lost; if fewer than
      three, there was no other one to ask. */
  ghost predicate AllLost(job: Job, plan: Proxy.Plan, tries: seq<F.Candidate>) {
    && |tries| <= 3
    && (forall k :: 0 <= k < |tries| ==>
          && tries[k] in plan.candidates && F.IsHealthy(job.live, tries[k].backend) && CanAsk(job.env, tries[k])
          && AL.Lost(job.env.codec, AL.WayOf(job.env.req, job.env.backends[tries[k].backend]), job.env.answers(k)))
    && (|tries| == 3
        || (forall c :: c in plan.candidates && F.IsHealthy(job.live, c.backend) && c.backend in job.env.backends ==>
              c in tries))
  }

  /** 503: no candidate is healthy. 400: the body for a healthy one cannot be built. 502: all attempts were
      lost, or the request was cancelled. */
  ghost predicate ProxyFailure(job: Job, plan: Proxy.Plan, ctx: Ctx, status: int) {
    && (status == 400 || status == 502 || status == 503)
    && (status == 503 <==> forall c :: c in plan.candidates ==> !F.IsHealthy(job.live, c.backend))
    && (status == 400 ==>
          (exists c :: c in plan.candidates && F.IsHealthy(job.live, c.backend) && c.backend in job.env.backends
            && !CanAsk(job.env, c)))
    && (status == 502 ==> ctx.cancelAt.Some? || (exists tries :: AllLost(job, plan, tries)))
  }

  /** 503: the synthesis backend is unknown. 502: too few panelists answered, the synthesis could not be
      asked, or its answer is no use. */
  ghost predicate FusionFailure(job: Job, plan: Fusion.Plan, status: int) {
    var stream, backends := job.env.req.stream, job.env.backends;
    if UL.Short(job.world, backends, plan) then status == 502
    else if plan.synthesis.backend !in backends then status == 503
    else
      var way, a := AL.Way(stream, backends[plan.synthesis.backend], false), UL.SynthesisAnswer(job.world, backends, plan);
      status == 502
        && (!job.world.synthesisEncodable || AL.NoReply(job.world.codec, way, a) || (!stream && AL.CutOff(way, a)))
  }

  /** The status of the error envelope, by what the name resolved to. */
  ghost predicate Failure(job: Job, r: Resolved, ctx: Ctx, status: int) {
    match r
    case ModelNotFound => status == 404
    case NoHealthyBackend => status == 503
    case Planned(ProxyPlan(p)) => ProxyFailure(job, p, ctx, status)
    case Planned(FusionPlan(p)) => FusionFailure(job, p, status)
  }

  ghost predicate NothingSent(job: Job, ctx: Ctx, status: int) {
    exists r :: ResolvesTo(job, r) && Failure(job, r, ctx, status)
  }

  /** An error that is not of the router's contract is reported as 502. */
  function StatusOf(error: Option<RouteError>): int {
    match error
    case Some(API(status)) => status
    case _ => 502
  }

  lemma ProxyFails(job: Job, from: P.Run, plan: Proxy.Plan, counter: Selectors.Count)
    requires from == P.Start(from.ctx, from.sink, from.suspects, from.retries) && FL.Unused(from.sink)
    ensures
      var (r, e) := P.Execution(job.env, from,
        Proxy.OrderFor(job.live, job.env.backends, job.env.req, plan, counter));
      !e.Replied? ==> ProxyFailure(job, plan, from.ctx, StatusOf(ProxyError(e)))
  {
    hide P.Execution, Proxy.OrderFor, L.Settled, L.Alone, L.Fails, L.Known, AL.Lost, CanAsk, EL.CanSend, FL.Tries, AllLost;
    var ordered := Proxy.OrderFor(job.live, job.env.backends, job.env.req, plan, counter);
    var (r, e) := P.Execution(job.env, from, ordered);
    FL.ExecutionLaw(job.env, from, ordered);
    FL.NobodyHealthy(job.live, job.env.backends, job.env.req, plan, counter);
    EL.BadEncodingIs(job.env, from, ordered);
    var tries, n := FL.Tries(job.env.backends, ordered), |r.dispatched|;
    if e == P.BadEncoding {
      TriedIsHealthy(job, plan, counter, n);
      CanAskIs(job.env, tries[n]);
    } else if e == P.Exhausted {
      assert tries[..n] == tries;
      LostIs(job, plan, counter, r.dispatched);
    }
  }

  lemma CanAskIs(env: P.Env, c: F.Candidate)
    ensures CanAsk(env, c) <==> EL.CanSend(env.backends, env.req, c)
  {
  }

  lemma UntouchedIsUnused(sink: S.SinkState)
    requires RP.Untouched(sink)
    ensures FL.Unused(sink)
  {
  }

  /** Whom a run may try is healthy, in the plan, and configured. */
  lemma TriedIsHealthy(job: Job, plan: Proxy.Plan, counter: Selectors.Count, k: nat)
    requires k < |FL.Tries(job.env.backends, Proxy.OrderFor(job.live, job.env.backends, job.env.req, plan, counter))|
    ensures var c := FL.Tries(job.env.backends,
                              Proxy.OrderFor(job.live, job.env.backends, job.env.req, plan, counter))[k];
      c in plan.candidates && F.IsHealthy(job.live, c.backend) && c.backend in job.env.backends
  {
    hide Proxy.OrderFor, L.Known;
    var ordered := Proxy.OrderFor(job.live, job.env.backends, job.env.req, plan, counter);
    var c := FL.Tries(job.env.backends, ordered)[k];
    assert c == L.Known(job.env.backends, ordered)[k];
    FL.KnownHas(job.env.backends, ordered, c);
    FL.OrderedAreHealthy(job.live, job.env.backends, job.env.req, plan, counter, c);
  }

  lemma LostIs(job: Job, plan: Proxy.Plan, counter: Selectors.Count, ds: seq<P.Dispatch>)
    requires L.AllFail(job.env, ds)
    requires var tries := FL.Tries(job.env.backends,
                                   Proxy.OrderFor(job.live, job.env.backends, job.env.req, plan, counter));
      L.Cands(ds) == tries && EL.AllCanSend(job.env.backends, job.env.req, tries)
    ensures AllLost(job, plan, L.Cands(ds))
  {
    hide Proxy.OrderFor, L.Known, L.Fails, AL.Lost, EL.CanSend, CanAsk;
    var ordered := Proxy.OrderFor(job.live, job.env.backends, job.env.req, plan, counter);
    var tries := L.Cands(ds);
    assert |tries| <= 3;
    forall k | 0 <= k < |tries|
      ensures tries[k] in plan.candidates && F.IsHealthy(job.live, tries[k].backend) && CanAsk(job.env, tries[k])
      ensures tries[k].backend in job.env.backends
      ensures AL.Lost(job.env.codec, AL.WayOf(job.env.req, job.env.backends[tries[k].backend]), job.env.answers(k))
    {
      TriedIsHealthy(job, plan, counter, k);
      CanAskIs(job.env, tries[k]);
      assert L.Fails(job.env, k, ds[k].cand);
      AL.FailsIff(job.env, k, tries[k]);
    }
    if |tries| < 3 {
      forall c | c in plan.candidates && F.IsHealthy(job.live, c.backend) && c.backend in job.env.backends
        ensures c in tries
      {
        FL.OrderedAreHealthy(job.live, job.env.backends, job.env.req, plan, counter, c);
        FL.KnownHas(job.env.backends, ordered, c);
      }
    }
  }

  lemma FusionFails(job: Job, plan: Fusion.Plan, sink: S.SinkState, ctx: Ctx)
    requires RP.Untouched(sink)
    ensures var r := Fusion.Workflow(job.world, job.env.backends, plan, job.env.req.stream, sink, ctx);
      !r.ending.Replied? ==> FusionFailure(job, plan, StatusOf(FusionError(r.ending)))
  {
    hide Fusion.Workflow, UL.Short, UL.SynthesisAnswer, AL.NoReply;
    UL.WorkflowLaw(job.world, job.env.backends, plan, job.env.req.stream, sink, ctx);
    UL.SynthesisDecides(job.world, job.env.backends, plan, job.env.req.stream, sink, ctx);
  }

  /** Routing has either sent one reply, or left the client untouched and says why. */
  predicate Ended(wrote: bool, was: S.SinkState, now: S.SinkState, status: int, error: Option<RouteError>) {
    && now.wrote == wrote && (status != 0 <==> wrote || error != Some(Internal))
    && (if wrote then error == None || error == Some(Internal)
        else now.wire == was.wire && (error == Some(Internal) || error == Some(API(status))))
  }

  lemma ProxyRouted(job: Job, from: P.Run, plan: Proxy.Plan, counter: Selectors.Count)
    requires from == P.Start(from.ctx, from.sink, from.suspects, from.retries) && RP.Untouched(from.sink)
    ensures
      var (r, e) := P.Execution(job.env, from,
        Proxy.OrderFor(job.live, job.env.backends, job.env.req, plan, counter));
      && Ended(e.Replied?, from.sink, r.sink, r.outcome.status, ProxyError(e))
      && (e.Replied? ==> ProxyReplied(job, plan, from.sink, from.ctx, r.sink, r.outcome))
  {
    hide P.Execution, L.Traced, L.Names, L.Known, L.Carries, Proxy.OrderFor, FL.AnsweredBy;
    var ordered := Proxy.OrderFor(job.live, job.env.backends, job.env.req, plan, counter);
    FL.ExecutionLaw(job.env, from, ordered);
    var (r, e) := P.Execution(job.env, from, ordered);
    if e.Replied? {
      FL.ClientGetsTheReply(job.env, from, ordered);
      FL.OrderedAreHealthy(job.live, job.env.backends, job.env.req, plan, counter,
                           r.dispatched[|r.dispatched| - 1].cand);
    }
  }

  lemma FusionRouted(world: Fusion.World, backends: map<string, Protocol>, plan: Fusion.Plan, stream: bool,
                     sink: S.SinkState, ctx: Ctx)
    requires RP.Untouched(sink)
    ensures var r := Fusion.Workflow(world, backends, plan, stream, sink, ctx);
      && Ended(r.ending.Replied?, sink, r.sink, r.outcome.status, FusionError(r.ending))
      && (r.ending.Replied? ==> UL.Synthesized(world, backends, plan, stream, sink, ctx, r.sink, r.outcome))
  {
    hide Fusion.Workflow, UL.Short, UL.Synthesized;
    UL.WorkflowLaw(world, backends, plan, stream, sink, ctx);
    UL.ClientGetsTheSynthesis(world, backends, plan, stream, sink, ctx);
  }

  class Router {
    const strategy: Proxy.ProxyStrategy
    const aliases: map<string, Alias>

    constructor (strategy: Proxy.ProxyStrategy, aliases: map<string, Alias>)
      ensures this.strategy == strategy && this.aliases == aliases
    {
      this.strategy, this.aliases := strategy, aliases;
    }

    ghost function JobOf(codec: Codec, answers: nat -> Answer, world: Fusion.World, req: P.ChatRequest,
                         snap: F.Snapshot): Job
      reads strategy.health
    {
      Job(P.Env(codec, Proxy.Protocols(strategy.clients), req, answers), world, aliases, snap,
          strategy.health.Snapshot())
    }

    /** `snap` is the snapshot that resolves the name; Execute reads its own. The backends answer as
        `answers` and `world` say; `arrivals` orders the results of a panel. */
    method Route(codec: Codec, answers: nat -> Answer, world: Fusion.World, arrivals: nat -> seq<nat>, ctx: Context,
                 req: P.ChatRequest, snap: F.Snapshot, sink: ResponseSink)
      returns (outcome: P.Outcome, error: Option<RouteError>)
      requires RP.Untouched(sink.State()) && forall n :: Fusion.Arrival(arrivals(n), n)
      modifies ctx, sink.Footprint(), strategy.health`suspects, strategy.metrics, strategy.roundRobin,
        strategy.clients.Values`inFlight
      ensures Ended(sink.Wrote(), old(sink.State()), sink.State(), outcome.status, error)
      ensures sink.Wrote() ==> ReplySent(old(JobOf(codec, answers, world, req, snap)), old(sink.State()),
                                         old(ctx.State()), sink.State(), outcome)
      ensures !sink.Wrote() ==> NothingSent(old(JobOf(codec, answers, world, req, snap)), old(ctx.State()), StatusOf(error))
      ensures forall c :: c in strategy.clients.Values ==> c.inFlight == old(c.inFlight)
      ensures forall status :: Refused(snap, aliases, req.model, status) ==>
        error == Some(API(status)) && sink.State() == old(sink.State()) && !sink.Wrote()
    {
      hide ResponseSink.State, RP.Untouched, AliasPlan, Ended, Refused, PlanReplied, ProxyFailure, FusionFailure;
      ghost var job := JobOf(codec, answers, world, req, snap);
      var resolved := Resolve.Resolve(snap, aliases, req.model);
      RefusedWhen(snap, aliases, req.model, resolved);
      assert ResolvesTo(job, resolved);
      RefusedEnds(sink.State());
      if resolved == NoHealthyBackend {
        return P.NO_OUTCOME.(status := 503), Some(API(503));
      }
      if resolved == ModelNotFound {
        return P.NO_OUTCOME.(status := 404), Some(API(404));
      }
      outcome, error := RoutePlan(codec, answers, world, arrivals, ctx, req, resolved.plan, sink, job);
    }

    /** strategyFor, and the strategy it names. */
    method RoutePlan(codec: Codec, answers: nat -> Answer, world: Fusion.World, arrivals: nat -> seq<nat>, ctx: Context,
                     req: P.ChatRequest, plan: Resolve.Plan, sink: ResponseSink, ghost job: Job)
      returns (outcome: P.Outcome, error: Option<RouteError>)
      requires RP.Untouched(sink.State()) && forall n :: Fusion.Arrival(arrivals(n), n)
      requires job == JobOf(codec, answers, world, req, job.snap)
      modifies ctx, sink.Footprint(), strategy.health`suspects, strategy.metrics, strategy.roundRobin,
        strategy.clients.Values`inFlight
      ensures Ended(sink.Wrote(), old(sink.State()), sink.State(), outcome.status, error)
      ensures sink.Wrote() ==>
        PlanReplied(job, plan, old(sink.State()), old(ctx.State()), sink.State(), outcome)
      ensures !sink.Wrote() ==> Failure(job, Planned(plan), old(ctx.State()), StatusOf(error))
      ensures forall c :: c in strategy.clients.Values ==> c.inFlight == old(c.inFlight)
    {
      hide ResponseSink.State, RP.Untouched, Ended, ProxyReplied, UL.Synthesized, ProxyFailure, FusionFailure;
      match plan
      case ProxyPlan(p) =>
        outcome, error := RouteProxy(codec, answers, ctx, req, p, sink, job);
      case FusionPlan(p) =>
        outcome, error := RouteFusion(world, arrivals(|p.panel|), ctx, req.stream, p, sink, job);
    }

    method RouteProxy(codec: Codec, answers: nat -> Answer, ctx: Context, req: P.ChatRequest, plan: Proxy.Plan,
                      sink: ResponseSink, ghost job: Job) returns (outcome: P.Outcome, error: Option<RouteError>)
      requires RP.Untouched(sink.State())
      requires job == JobOf(codec, answers, job.world, req, job.snap)
      modifies ctx, sink.Footprint(), strategy.health`suspects, strategy.metrics, strategy.roundRobin,
        strategy.clients.Values`inFlight
      ensures Ended(sink.Wrote(), old(sink.State()), sink.State(), outcome.status, error)
      ensures sink.Wrote() ==>
        ProxyReplied(job, plan, old(sink.State()), old(ctx.State()), sink.State(), outcome)
      ensures !sink.Wrote() ==> ProxyFailure(job, plan, old(ctx.State()), StatusOf(error))
      ensures forall c :: c in strategy.clients.Values ==> c.inFlight == old(c.inFlight)
    {
      hide ResponseSink.State, RP.Untouched, ProxyReplied, ProxyFailure, P.Execution, Proxy.OrderFor;
      ghost var from := P.Start(ctx.State(), sink.State(), strategy.health.suspects, strategy.metrics.count);
      ProxyRouted(job, from, plan, strategy.roundRobin.counter);
      UntouchedIsUnused(sink.State());
      ProxyFails(job, from, plan, strategy.roundRobin.counter);
      var ending;
      ghost var calls;
      outcome, ending, calls := strategy.Execute(codec, answers, ctx, req, plan, sink);
      error := ProxyError(ending);
    }

    method RouteFusion(world: Fusion.World, order: seq<nat>, ctx: Context, stream: bool, plan: Fusion.Plan,
                       sink: ResponseSink, ghost job: Job) returns (outcome: P.Outcome, error: Option<RouteError>)
      requires RP.Untouched(sink.State()) && Fusion.Arrival(order, |plan.panel|)
      requires job.world == world && job.env.backends == Proxy.Protocols(strategy.clients) && job.env.req.stream == stream
      modifies ctx, sink.Footprint(), strategy.clients.Values`inFlight
      ensures Ended(sink.Wrote(), old(sink.State()), sink.State(), outcome.status, error)
      ensures sink.Wrote() ==>
        UL.Synthesized(world, Proxy.Protocols(strategy.clients), plan, stream, old(sink.State()), old(ctx.State()),
                       sink.State(), outcome)
      ensures !sink.Wrote() ==> FusionFailure(job, plan, StatusOf(error))
      ensures forall c :: c in strategy.clients.Values ==> c.inFlight == old(c.inFlight)
    {
      hide ResponseSink.State, RP.Untouched, UL.Synthesized, FusionFailure, Fusion.Workflow;
      FusionFails(job, plan, sink.State(), ctx.State());
      FusionRouted(world, Proxy.Protocols(strategy.clients), plan, stream, sink.State(), ctx.State());
      var ending;
      outcome, ending := Fusion.Execute(world, strategy.clients, plan, order, stream, sink, ctx);
      error := FusionError(ending);
    }
  }

  // ----- handleChat -----

  /** `errorBody` is the JSON document of an API error with a status. */
  method WriteAPIError(w: ResponseWriter, errorBody: int -> Bytes, status: int)
    modifies w
    ensures w.State() == old(w.State()).SetHeader("Content-Type", "application/json")
      .WriteHeader(status).Put(errorBody(status)).0
  {
    w.SetHeader("Content-Type", "application/json");
    w.WriteHeader(status);
    var _ := w.Write(errorBody(status));
  }

  /** The client has exactly the error envelope. */
  predicate Envelope(w: Wire, fuse: nat, status: int, errorBody: int -> Bytes) {
    && w.heads == [Head(status, map["Content-Type" := "application/json"])]
    && w.body == RL.Cut(errorBody(status), fuse)
  }

  /** The sink newSink makes for a consumer. */
  function FreshSink(consumer: Protocol, wire: Wire, freshID: string): S.SinkState {
    if consumer == ANTHROPIC then S.AnthropicSink(wire, false, map[], S.NEW_STREAM, freshID)
    else S.OpenAISink(wire, false, map[])
  }

  /** handleChat from the decoded request on: the client gets one reply, or the error envelope when the
      sink was never committed. What is recorded is the outcome of the strategy; its status is the one
      the client gets, but for a streamed 2xx other than 200. */
  method HandleChat(router: Router, codec: Codec, answers: nat -> Answer, world: Fusion.World,
                    arrivals: nat -> seq<nat>, errorBody: int -> Bytes, ctx: Context, req: P.ChatRequest,
                    snap: F.Snapshot, w: ResponseWriter, freshID: string)
    returns (rec: P.Outcome, ghost sink: ResponseSink)
    requires w.State() == FRESH_WIRE.(fuse := w.fuse) && forall n :: Fusion.Arrival(arrivals(n), n)
    modifies ctx, w, router.strategy.health`suspects, router.strategy.metrics, router.strategy.roundRobin,
      router.strategy.clients.Values`inFlight
    ensures fresh(sink.Footprint() - {w}) && sink.State().wire == w.State()
    ensures
      if sink.Wrote() then
        ReplySent(old(router.JobOf(codec, answers, world, req, snap)), FreshSink(req.consumer, old(w.State()), freshID),
                  old(ctx.State()), sink.State(), rec)
      else
        && Envelope(w.State(), old(w.fuse), rec.status, errorBody)
        && NothingSent(old(router.JobOf(codec, answers, world, req, snap)), old(ctx.State()), rec.status)
    ensures forall status :: Refused(snap, router.aliases, req.model, status) ==> !sink.Wrote() && rec.status == status
    ensures sink.Anthropic? <==> req.consumer == "anthropic"
    ensures forall c :: c in router.strategy.clients.Values ==> c.inFlight == old(c.inFlight)
  {
    hide ResponseSink.State, ReplySent, NothingSent, Refused;
    var out := NewSink(req.consumer, w, freshID);
    sink := out;
    var outcome, error := router.Route(codec, answers, world, arrivals, ctx, req, snap, out);
    SinkWire(out);
    var status := if outcome.status != 0 then outcome.status else 200;
    if error.Some? && !out.Wrote() {
      status := if error.value.API? then error.value.status else 502;
      Refuse(w, out, errorBody, status);
    }
    rec := outcome.(status := status);
  }

  /** The envelope goes past the sink, which stays uncommitted. */
  method Refuse(w: ResponseWriter, ghost sink: ResponseSink, errorBody: int -> Bytes, status: int)
    requires w == sink.Writer() && w.heads == [] && w.headers == map[] && w.body == []
    modifies w
    ensures Envelope(w.State(), old(w.fuse), status, errorBody)
    ensures sink.Wrote() == old(sink.Wrote()) && sink.State().wire == w.State()
  {
    EnvelopeIsOne(w.State(), errorBody, status);
    WriteAPIError(w, errorBody, status);
  }

  lemma SinkWire(sink: ResponseSink)
    ensures sink.State().wire == sink.Writer().State()
  {
  }

  lemma EnvelopeIsOne(w: Wire, errorBody: int -> Bytes, status: int)
    requires w.heads == [] && w.headers == map[] && w.body == []
    ensures var done := w.SetHeader("Content-Type", "application/json").WriteHeader(status).Put(errorBody(status)).0;
      Envelope(done, w.fuse, status, errorBody)
  {
  }

  method NewSink(consumer: Protocol, w: ResponseWriter, freshID: string) returns (sink: ResponseSink)
    ensures fresh(sink.Footprint() - {w}) && sink.Writer() == w
    ensures sink.State() == FreshSink(consumer, w.State(), freshID)
    ensures sink.Anthropic? <==> consumer == "anthropic"
  {
    if consumer == ANTHROPIC {
      var a := new AnthropicSink(w, freshID);
      sink := Anthropic(a);
    } else {
      var o := new OpenAISink(w);
      sink := OpenAI(o);
    }
  }

  /** The name cannot be routed: nobody has it (404), or nobody who has it is healthy (503). */
  ghost predicate Refused(snap: F.Snapshot, aliases: map<string, Alias>, model: string, status: int) {
    if model in aliases then status == 503 && AliasPlan(snap, aliases[model]) == NoHealthyBackend
    else
      && (forall n :: n in snap.Keys && Advertises(snap, n, model) ==> !snap[n].healthy)
      && status == if exists n :: n in snap.Keys && Advertises(snap, n, model) then 503 else 404
  }

  lemma RefusedWhen(snap: F.Snapshot, aliases: map<string, Alias>, model: string, r: Resolved)
    requires if model in aliases then r == AliasPlan(snap, aliases[model]) else DirectlyResolved(snap, model, r)
    ensures forall status :: Refused(snap, aliases, model, status) <==>
      (r == NoHealthyBackend && status == 503) || (r == ModelNotFound && status == 404)
  {
    if model in aliases {
      AliasFails(snap, aliases[model]);
    }
  }

  lemma RefusedEnds(sink: S.SinkState)
    requires RP.Untouched(sink)
    ensures forall status | status != 0 :: Ended(false, sink, sink, status, Some(API(status)))
    ensures !sink.wrote
  {
  }
}
