/** fusionStrategy.Execute (internal/router/fusion.go): a panel answers, a judge compares, one synthesis
    is written to the client. What the backends answer to each request is given by functions of that
    request. */
module Fusion {
  import opened Wrappers
  import opened Bytes
  import opened Codec
  import opened Upstream
  import opened Sinks
  import R = Relay
  import opened ProxyRun
  import Proxy
  import F = Fleet
  import S = SinkStates

  datatype Plan = Plan(aliasName: string, panel: seq<F.Candidate>, judge: F.Candidate, synthesis: F.Candidate,
                       minPanel: nat, temperature: real, maxTokens: int)

  /** `contentOf` reads the assistant text of a reply; the flags say whether the bodies of the
      sub-requests can be built. */
  datatype World = World(
    codec: Codec, contentOf: Bytes -> string,
    panelEncodable: bool, judgeEncodable: bool, synthesisEncodable: bool,
    toPanel: nat -> Answer, toJudge: seq<string> -> Answer, toSynthesis: string -> Answer)

  // ----- a unary call -----

  /** The text of a successful reply. */
  function CallText(world: World, backends: map<string, Protocol>, cand: F.Candidate, a: Answer): Option<string> {
    if cand.backend !in backends then None
    else
      var r := Receive(world.codec, backends[cand.backend], false, a, false);
      if r == Failed || !IsSuccess(r.status) || r.body.Broken() then None
      else Some(world.contentOf(r.body.Rest(world.codec)))
  }

  method CallUnary(world: World, clients: map<string, Client>, cand: F.Candidate, a: Answer)
    returns (text: Option<string>)
    modifies clients.Values`inFlight
    ensures text == CallText(world, Proxy.Protocols(clients), cand, a)
    ensures forall c :: c in clients.Values ==> c.inFlight == old(c.inFlight)
  {
    hide BodyValue.Rest, BodyValue.Broken, Body.State, Body.Released, Receive;
    if cand.backend !in clients {
      return None;
    }
    var client := clients[cand.backend];
    var resp := client.Chat(world.codec, a, false);
    if resp.None? {
      return None;
    }
    var body := resp.value.body;
    if resp.value.status < 200 || resp.value.status >= 300 {
      body.Close();
      return None;
    }
    var data, ok := body.ReadAll(world.codec);
    body.Close();
    text := if ok then Some(world.contentOf(data)) else None;
  }

  // ----- the panel -----

  method AskPanelist(world: World, clients: map<string, Client>, plan: Plan, i: nat) returns (text: string)
    requires i < |plan.panel|
    modifies clients.Values`inFlight
    ensures text == PanelText(world, Proxy.Protocols(clients), plan, i)
    ensures forall c :: c in clients.Values ==> c.inFlight == old(c.inFlight)
  {
    hide CallText;
    if !world.panelEncodable {
      return "";
    }
    var got := CallUnary(world, clients, plan.panel[i], world.toPanel(i));
    text := if got.Some? then got.value else "";
  }

  /** What panelist `i` contributes; "" when it fails. */
  function PanelText(world: World, backends: map<string, Protocol>, plan: Plan, i: nat): string
    requires i < |plan.panel|
  {
    if !world.panelEncodable then ""
    else
      match CallText(world, backends, plan.panel[i], world.toPanel(i))
      case None => ""
      case Some(text) => text
  }

  function PanelTexts(world: World, backends: map<string, Protocol>, plan: Plan): seq<string> {
    seq(|plan.panel|, i requires 0 <= i < |plan.panel| => PanelText(world, backends, plan, i))
  }

  function Said(): string -> bool {
    (t: string) => t != ""
  }

  /** The non-empty texts in panel order. */
  function PanelAnswers(world: World, backends: map<string, Protocol>, plan: Plan): seq<string> {
    F.Filter(Said(), PanelTexts(world, backends, plan))
  }

  /** Each of the `n` results arrives once. */
  ghost predicate Arrival(order: seq<nat>, n: nat) {
    && |order| == n
    && (forall i: nat :: i < n ==> i in order)
    && (forall k :: 0 <= k < n ==> order[k] < n)
  }

  /** The results may arrive in any order. */
  method RunPanel(world: World, clients: map<string, Client>, plan: Plan, order: seq<nat>)
    returns (answers: seq<string>)
    requires Arrival(order, |plan.panel|)
    modifies clients.Values`inFlight
    ensures answers == PanelAnswers(world, Proxy.Protocols(clients), plan)
    ensures forall c :: c in clients.Values ==> c.inFlight == old(c.inFlight)
  {
    hide CallText, Said, F.Filter, PanelText;
    var n := |plan.panel|;
    var collected := Collect(world, clients, plan, order);
    ghost var texts := PanelTexts(world, Proxy.Protocols(clients), plan);
    answers := [];
    for i := 0 to n
      invariant answers == F.Filter(Said(), texts[..i])
      modifies {}
    {
      assert collected[..][i] == texts[i];
      F.FilterNext(Said(), texts, i);
      IsSaid(collected[i]);
      if collected[i] != "" {
        answers := answers + [collected[i]];
      }
    }
    assert texts[..n] == texts;
  }

  lemma IsSaid(t: string)
    ensures Said()(t) <==> t != ""
  {
  }

  method Collect(world: World, clients: map<string, Client>, plan: Plan, order: seq<nat>)
    returns (collected: array<string>)
    requires Arrival(order, |plan.panel|)
    modifies clients.Values`inFlight
    ensures fresh(collected) && collected[..] == PanelTexts(world, Proxy.Protocols(clients), plan)
    ensures forall c :: c in clients.Values ==> c.inFlight == old(c.inFlight)
  {
    hide PanelText;
    var n := |plan.panel|;
    collected := new string[n](_ => "");
    for k := 0 to n
      invariant forall i :: 0 <= i < n ==>
        collected[i] == if i in order[..k] then PanelText(world, Proxy.Protocols(clients), plan, i) else ""
      invariant forall c :: c in clients.Values ==> c.inFlight == old(c.inFlight)
    {
      assert order[..k + 1] == order[..k] + [order[k]];
      var idx := order[k];
      var text := AskPanelist(world, clients, plan, idx);
      if text != "" {
        collected[idx] := text;
      }
    }
    assert order[..n] == order;
  }

  // ----- the judge -----

  /** The analysis; "" whenever the judge fails. */
  function Analysis(world: World, backends: map<string, Protocol>, plan: Plan, answers: seq<string>): string {
    if !world.judgeEncodable then ""
    else
      match CallText(world, backends, plan.judge, world.toJudge(answers))
      case None => ""
      case Some(text) => text
  }

  method RunJudge(world: World, clients: map<string, Client>, plan: Plan, answers: seq<string>)
    returns (analysis: string)
    modifies clients.Values`inFlight
    ensures analysis == Analysis(world, Proxy.Protocols(clients), plan, answers)
    ensures forall c :: c in clients.Values ==> c.inFlight == old(c.inFlight)
  {
    hide CallText;
    if !world.judgeEncodable {
      return "";
    }
    var text := CallUnary(world, clients, plan.judge, world.toJudge(answers));
    analysis := if text.Some? then text.value else "";
  }

  // ----- the synthesis -----

  /** How a fusion request ends. */
  datatype Ending =
    | Replied(failed: bool)      // a response or a stream was written
    | Unavailable                // 502
    | NoBackend                  // 503

  datatype Result = Result(sink: S.SinkState, ctx: Ctx, outcome: Outcome, ending: Ending)

  function OutcomeFor(plan: Plan, protocol: Protocol): Outcome {
    NO_OUTCOME.(backend := plan.synthesis.backend, upstreamModel := plan.synthesis.model, protocol := protocol)
  }

  function Synthesize(world: World, backends: map<string, Protocol>, plan: Plan, stream: bool, analysis: string,
                      sink: S.SinkState, ctx: Ctx): Result {
    if plan.synthesis.backend !in backends then Result(sink, ctx, NO_OUTCOME.(status := 503), NoBackend)
    else
      var protocol := backends[plan.synthesis.backend];
      var o := OutcomeFor(plan, protocol);
      if !world.synthesisEncodable then Result(sink, ctx, o.(status := 502), Unavailable)
      else
        Answer(world.codec, plan, stream,
               Receive(world.codec, protocol, false, world.toSynthesis(analysis), stream), sink, ctx, o)
  }

  function Answer(codec: Codec, plan: Plan, stream: bool, reply: Reply, sink: S.SinkState, ctx: Ctx, o: Outcome)
    : Result
  {
    if reply == Failed then Result(sink, ctx, o.(status := 502), Unavailable)
    else Relayed(codec, stream, reply, Named(sink, plan.synthesis), ctx, o)
  }

  /** What becomes of the synthesis reply: no status is retried here. */
  function Relayed(codec: Codec, stream: bool, r: Reply, sink: S.SinkState, ctx: Ctx, o: Outcome): Result
    requires r.Reply?
  {
    if stream && IsSuccess(r.status) then
      var relayed := R.RelayBytes(codec, sink, ctx, o.usage, r.body.Rest(codec), r.body.Broken());
      Result(relayed.sink, relayed.ctx, o.(status := r.status, usage := relayed.usage), Ending.Replied(relayed.error.Some?))
    else if !stream && r.body.Broken() then Result(sink, ctx, o.(status := 502), Unavailable)
    else
      var (s, ok) := WriteWhole(codec, sink, false, r);
      var usage := if stream then o.usage else codec.usageOf(r.body.Rest(codec));
      Result(s, ctx, o.(status := r.status, usage := usage), Ending.Replied(!ok))
  }

  method RunSynthesis(world: World, clients: map<string, Client>, plan: Plan, stream: bool, analysis: string,
                      sink: ResponseSink, ctx: Context) returns (outcome: Outcome, ending: Ending)
    modifies sink.Footprint(), ctx, clients.Values`inFlight
    ensures Result(sink.State(), ctx.State(), outcome, ending) ==
      Synthesize(world, Proxy.Protocols(clients), plan, stream, analysis, old(sink.State()), old(ctx.State()))
    ensures forall c :: c in clients.Values ==> c.inFlight == old(c.inFlight)
  {
    hide ResponseSink.State, Answer, Receive, Client.Handed;
    if plan.synthesis.backend !in clients {
      return NO_OUTCOME.(status := 503), NoBackend;
    }
    var client := clients[plan.synthesis.backend];
    outcome := OutcomeFor(plan, client.protocol);
    if !world.synthesisEncodable {
      return outcome.(status := 502), Unavailable;
    }
    var resp := client.Chat(world.codec, world.toSynthesis(analysis), stream);
    outcome, ending := RelayAnswer(world.codec, plan, stream, resp, client, sink, ctx, outcome,
                                   Receive(world.codec, client.protocol, false, world.toSynthesis(analysis), stream));
  }

  method RelayAnswer(codec: Codec, plan: Plan, stream: bool, resp: Option<Response>, client: Client,
                     sink: ResponseSink, ctx: Context, outcome0: Outcome, ghost reply: Reply)
    returns (outcome: Outcome, ending: Ending)
    requires client.Handed(resp, reply, codec)
    modifies sink.Footprint(), ctx, if resp.Some? then resp.value.body.Footprint() else {}, client`inFlight
    ensures Result(sink.State(), ctx.State(), outcome, ending) ==
      Answer(codec, plan, stream, reply, old(sink.State()), old(ctx.State()), outcome0)
    ensures client.inFlight == old(client.inFlight) - (if resp.Some? then 1 else 0)
  {
    hide ResponseSink.State, Relayed, Body.State, Body.Released;
    if resp.None? {
      return outcome0.(status := 502), Unavailable;
    }
    sink.SetHeader("X-Router-Model", plan.synthesis.model);
    sink.SetHeader("X-Router-Backend", plan.synthesis.backend);
    outcome, ending := RelayReply(codec, stream, resp.value, sink, ctx, outcome0);
  }

  method RelayReply(codec: Codec, stream: bool, resp: Response, sink: ResponseSink, ctx: Context, outcome0: Outcome)
    returns (outcome: Outcome, ending: Ending)
    requires (resp.body.Reader? ==> resp.body.r.codec == codec) && !resp.body.Released()
    modifies ctx, sink.Footprint(), resp.body.Footprint(), resp.body.Owner()`inFlight
    ensures Result(sink.State(), ctx.State(), outcome, ending) ==
      Relayed(codec, stream, Reply(resp.status, resp.contentType, old(resp.body.State())), old(sink.State()),
            old(ctx.State()), outcome0)
    ensures resp.body.Owner().inFlight == old(resp.body.Owner().inFlight) - 1
  {
    hide ResponseSink.State, BodyValue.Rest, BodyValue.Broken, R.RelayBytes;
    hide S.SinkState.WriteResponse;
    outcome := outcome0;
    if stream {
      if resp.status < 200 || resp.status >= 300 {
        var failed := Proxy.RelayErrorReply(codec, false, resp, sink);
        return outcome.(status := resp.status), Ending.Replied(failed);
      }
      var usage, error := R.RelayStream(codec, ctx, resp.body, sink, outcome.usage);
      return outcome.(status := resp.status, usage := usage), Ending.Replied(error.Some?);
    }
    var data, ok := resp.body.ReadAll(codec);
    if !ok {
      resp.body.Close();
      return outcome.(status := 502), Unavailable;
    }
    outcome := outcome.(status := resp.status, usage := codec.usageOf(data));
    ok := sink.WriteResponse(codec, resp.status, resp.contentType, data);
    resp.body.Close();
    ending := Ending.Replied(!ok);
  }

  // ----- Execute -----

  /** The whole workflow; no arrival order occurs in it. */
  function Workflow(world: World, backends: map<string, Protocol>, plan: Plan, stream: bool,
                    sink: S.SinkState, ctx: Ctx): Result {
    var answers := PanelAnswers(world, backends, plan);
    if |answers| < plan.minPanel then Result(sink, ctx, NO_OUTCOME.(status := 502), Unavailable)
    else Synthesize(world, backends, plan, stream, Analysis(world, backends, plan, answers), sink, ctx)
  }

  method Execute(world: World, clients: map<string, Client>, plan: Plan, order: seq<nat>, stream: bool,
                 sink: ResponseSink, ctx: Context) returns (outcome: Outcome, ending: Ending)
    requires Arrival(order, |plan.panel|)
    modifies sink.Footprint(), ctx, clients.Values`inFlight
    ensures Result(sink.State(), ctx.State(), outcome, ending) ==
      Workflow(world, Proxy.Protocols(clients), plan, stream, old(sink.State()), old(ctx.State()))
    ensures forall c :: c in clients.Values ==> c.inFlight == old(c.inFlight)
  {
    hide ResponseSink.State, Synthesize, Analysis, PanelAnswers, Proxy.Protocols;
    var answers := RunPanel(world, clients, plan, order);
    if |answers| < plan.minPanel {
      return NO_OUTCOME.(status := 502), Unavailable;
    }
    var analysis := RunJudge(world, clients, plan, answers);
    outcome, ending := RunSynthesis(world, clients, plan, stream, analysis, sink, ctx);
  }
}
