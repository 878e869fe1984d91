/** What every fusion run keeps: the gate on the panel, the judge that never blocks, one response. */
module FusionLaws {
  import opened Wrappers
  import opened Bytes
  import opened Codec
  import opened Upstream
  import opened Fusion
  import P = ProxyRun
  import L = ProxyLaws
  import F = Fleet
  import R = Relay
  import RP = ReplyLaws
  import RL = RelayLaws
  import AL = AnswerLaws
  import S = SinkStates
  import E = EventStream
  import TL = StreamLaws

  lemma RelayedLaw(codec: Codec, plan: Plan, stream: bool, r: Reply, sink: S.SinkState, ctx: Ctx, o: P.Outcome)
    requires r.Reply? && !sink.wrote && sink.wire.heads == []
    ensures var got := Relayed(codec, stream, r, P.Named(sink, plan.synthesis), ctx, o);
      if got.ending.Replied? then
        && L.Committed(got.sink, L.ClientStatus(stream, got.outcome.status), plan.synthesis)
        && got.outcome.status == r.status
      else
        && got.ending == Unavailable && got.outcome.status == 502 && !stream && r.body.Broken()
        && !got.sink.wrote && got.sink.wire == sink.wire
  {
    hide R.RelayBytes, P.WriteWhole, BodyValue.Rest, BodyValue.Broken, L.Committed;
    L.WholeCommits(codec, sink, false, r, plan.synthesis);
    L.StreamCommits(codec, sink, false, r, ctx, o.usage, plan.synthesis);
  }

  /** The synthesis is not reached. */
  predicate Short(world: World, backends: map<string, Protocol>, plan: Plan) {
    |PanelAnswers(world, backends, plan)| < plan.minPanel
  }

  /** Every run ends in one committed response of the synthesis backend or leaves the client untouched. */
  lemma WorkflowLaw(world: World, backends: map<string, Protocol>, plan: Plan, stream: bool,
                    sink: S.SinkState, ctx: Ctx)
    requires !sink.wrote && sink.wire.heads == []
    ensures var r := Workflow(world, backends, plan, stream, sink, ctx);
      && (if r.ending.Replied? then
            L.Committed(r.sink, L.ClientStatus(stream, r.outcome.status), plan.synthesis) && r.outcome.status != 0
          else !r.sink.wrote && r.sink.wire == sink.wire)
      && (r.ending == Unavailable ==> r.outcome.status == 502)
      && (r.ending == NoBackend ==> r.outcome.status == 503)
      && (Short(world, backends, plan) ==> r.ending == Unavailable && r.sink == sink && r.ctx == ctx)
      && (r.ending == NoBackend <==> !Short(world, backends, plan) && plan.synthesis.backend !in backends)
  {
    hide PanelAnswers, Analysis, Receive, Relayed, L.Committed;
    if !Short(world, backends, plan) && plan.synthesis.backend in backends {
      var protocol := backends[plan.synthesis.backend];
      var analysis := Analysis(world, backends, plan, PanelAnswers(world, backends, plan));
      var reply := Receive(world.codec, protocol, false, world.toSynthesis(analysis), stream);
      if reply.Reply? {
        RelayedLaw(world.codec, plan, stream, reply, sink, ctx, OutcomeFor(plan, protocol));
      }
    }
  }

  /** What the synthesis backend answers to this run's analysis. */
  function SynthesisAnswer(world: World, backends: map<string, Protocol>, plan: Plan): Answer {
    world.toSynthesis(Analysis(world, backends, plan, PanelAnswers(world, backends, plan)))
  }

  /** The client has the synthesis backend's answer to this run and nothing else. */
  ghost predicate Synthesized(world: World, backends: map<string, Protocol>, plan: Plan, stream: bool,
                              was: S.SinkState, ctx: Ctx, now: S.SinkState, o: P.Outcome) {
    && !Short(world, backends, plan) && plan.synthesis.backend in backends && o.failovers == 0
    && AL.Sent(world.codec, AL.Way(stream, backends[plan.synthesis.backend], false), ctx,
               SynthesisAnswer(world, backends, plan), was, plan.synthesis, now, o)
  }

  /** A fusion run that replies has sent its client the synthesis answer and nothing else. */
  lemma ClientGetsTheSynthesis(world: World, backends: map<string, Protocol>, plan: Plan, stream: bool,
                               sink: S.SinkState, ctx: Ctx)
    requires RP.Untouched(sink)
    ensures var r := Workflow(world, backends, plan, stream, sink, ctx);
      r.ending.Replied? ==> Synthesized(world, backends, plan, stream, sink, ctx, r.sink, r.outcome)
  {
    hide PanelAnswers, Analysis, Receive, Relayed, AL.Sent, AL.NoReply;
    if !Short(world, backends, plan) && plan.synthesis.backend in backends {
      var way, a := AL.Way(stream, backends[plan.synthesis.backend], false), SynthesisAnswer(world, backends, plan);
      AL.ReceiveIs(world.codec, way, a);
      if !AL.NoReply(world.codec, way, a) {
        RelayedSends(world.codec, plan, way, a, sink, ctx, OutcomeFor(plan, way.protocol));
      }
    }
  }

  lemma RelayedSends(codec: Codec, plan: Plan, way: AL.Way, a: Answer, sink: S.SinkState, ctx: Ctx, o: P.Outcome)
    requires !AL.NoReply(codec, way, a) && !way.native && RP.Untouched(sink)
    requires o.backend == plan.synthesis.backend && o.upstreamModel == plan.synthesis.model && o.usage == NO_USAGE
    ensures var r := Receive(codec, way.protocol, false, a, way.stream);
      var got := Relayed(codec, way.stream, r, P.Named(sink, plan.synthesis), ctx, o);
      && got.outcome.failovers == o.failovers
      && (got.ending.Replied? ==> AL.Sent(codec, way, ctx, a, sink, plan.synthesis, got.sink, got.outcome))
  {
    hide Receive, BodyValue.Rest, BodyValue.Broken, R.RelayBytes, P.WriteWhole, AL.Document, AL.Text, AL.Payloads;
    hide AL.HeadSent, AL.BodySent, P.Named, RL.LastReported;
    AL.ReceiveIs(codec, way, a);
    if way.Whole(a.status) {
      AL.WholeSends(codec, way, ctx, a, sink, plan.synthesis);
    } else {
      AL.StreamSends(codec, way, ctx, a, sink, plan.synthesis);
    }
  }

  /** A failed judge leaves exactly the run in which it had answered with nothing; the gate never looks
      at the judge. */
  lemma JudgeNeverBlocks(world: World, backends: map<string, Protocol>, plan: Plan, stream: bool,
                         sink: S.SinkState, ctx: Ctx, judge: seq<string> -> Answer)
    ensures Short(world.(toJudge := judge), backends, plan) == Short(world, backends, plan)
    ensures !Short(world, backends, plan)
      && CallText(world, backends, plan.judge, judge(PanelAnswers(world, backends, plan))) == None
      ==> Workflow(world.(toJudge := judge), backends, plan, stream, sink, ctx)
          == Synthesize(world, backends, plan, stream, "", sink, ctx)
  {
    var other := world.(toJudge := judge);
    hide CallText, F.Filter;
    forall i | 0 <= i < |plan.panel|
      ensures PanelText(other, backends, plan, i) == PanelText(world, backends, plan, i)
    {
      SameCall(world, judge, backends, plan.panel[i], world.toPanel(i));
    }
    assert PanelTexts(other, backends, plan) == PanelTexts(world, backends, plan);
    SameCall(world, judge, backends, plan.judge, judge(PanelAnswers(world, backends, plan)));
  }

  /** Past the gate only the synthesis decides: the run replies exactly when its backend is known, its body
      can be built, and an answer comes back, a unary one whole. */
  lemma SynthesisDecides(world: World, backends: map<string, Protocol>, plan: Plan, stream: bool,
                         sink: S.SinkState, ctx: Ctx)
    ensures Workflow(world, backends, plan, stream, sink, ctx).ending.Replied? <==>
      && !Short(world, backends, plan) && plan.synthesis.backend in backends && world.synthesisEncodable
      && var way, a := AL.Way(stream, backends[plan.synthesis.backend], false), SynthesisAnswer(world, backends, plan);
        !AL.NoReply(world.codec, way, a) && (stream || !AL.CutOff(way, a))
  {
    hide PanelAnswers, Analysis, Receive, R.RelayBytes, P.WriteWhole, BodyValue.Rest, BodyValue.Broken, P.Named;
    hide AL.Document;
    if !Short(world, backends, plan) && plan.synthesis.backend in backends {
      AL.ReceiveIs(world.codec, AL.Way(stream, backends[plan.synthesis.backend], false),
                   SynthesisAnswer(world, backends, plan));
    }
  }

  /** The text an answer carries for the workflow: that of a 2xx document that arrived whole. */
  function Spoken(world: World, protocol: string, a: Answer): Option<string> {
    var way := AL.Way(false, protocol, false);
    if AL.NoReply(world.codec, way, a) || a.status < 200 || a.status > 299 || AL.CutOff(way, a) then None
    else Some(world.contentOf(AL.Document(world.codec, way, a)))
  }

  lemma CallIsHeard(world: World, backends: map<string, Protocol>, cand: F.Candidate, a: Answer)
    ensures CallText(world, backends, cand, a)
         == if cand.backend in backends then Spoken(world, backends[cand.backend], a) else None
  {
    hide Receive, BodyValue.Rest, BodyValue.Broken, AL.Document;
    if cand.backend in backends {
      AL.ReceiveIs(world.codec, AL.Way(false, backends[cand.backend], false), a);
    }
  }

  /** The text of a document: as it is, or translated when an Anthropic backend sent it with status 200. */
  lemma SpokenIs(world: World, protocol: string, status: Status, contentType: string, pieces: seq<Piece>, broken: bool)
    ensures var data := Concat(pieces);
      Spoken(world, protocol, Answered(status, contentType, pieces, broken)) ==
        if broken || status < 200 || status > 299 then None
        else if protocol != "anthropic" || status != 200 then Some(world.contentOf(data))
        else
          match world.codec.unaryToOpenAI(data)
          case Some(oai) => Some(world.contentOf(oai))
          case None => None
    ensures Spoken(world, protocol, Unreachable) == None
  {
    hide Concat;
  }

  /** Past the gate the synthesis is asked with exactly what the judge said, or with nothing when the judge
      could not be asked, was not reached, or said nothing usable. */
  lemma JudgeIsHeard(world: World, backends: map<string, Protocol>, plan: Plan, stream: bool,
                     sink: S.SinkState, ctx: Ctx)
    requires !Short(world, backends, plan)
    ensures var said :=
        if world.judgeEncodable && plan.judge.backend in backends then
          Spoken(world, backends[plan.judge.backend], world.toJudge(PanelAnswers(world, backends, plan)))
        else None;
      Workflow(world, backends, plan, stream, sink, ctx)
        == Synthesize(world, backends, plan, stream, if said == None then "" else said.value, sink, ctx)
  {
    hide CallText, PanelAnswers, Synthesize, Spoken;
    CallIsHeard(world, backends, plan.judge, world.toJudge(PanelAnswers(world, backends, plan)));
  }

  /** A panelist contributes exactly what it said. */
  lemma PanelistIsHeard(world: World, backends: map<string, Protocol>, plan: Plan, i: nat)
    requires i < |plan.panel|
    ensures var said :=
        if world.panelEncodable && plan.panel[i].backend in backends then
          Spoken(world, backends[plan.panel[i].backend], world.toPanel(i))
        else None;
      PanelTexts(world, backends, plan)[i] == if said == None then "" else said.value
  {
    hide CallText, Spoken;
    CallIsHeard(world, backends, plan.panel[i], world.toPanel(i));
  }

  lemma SameCall(world: World, judge: seq<string> -> Answer, backends: map<string, Protocol>,
                 cand: F.Candidate, a: Answer)
    ensures CallText(world.(toJudge := judge), backends, cand, a) == CallText(world, backends, cand, a)
  {
  }

  /** The answers keep the panel's order: a non-empty text stands behind those of the panelists before it. */
  lemma {:induction false} AnswerAt(texts: seq<string>, i: nat)
    requires i < |texts| && texts[i] != ""
    ensures var k := |F.Filter(Said(), texts[..i])|;
      k < |F.Filter(Said(), texts)| && F.Filter(Said(), texts)[k] == texts[i]
  {
    var init := texts[..|texts| - 1];
    if i < |init| {
      AnswerAt(init, i);
      assert init[..i] == texts[..i];
    }
  }

  // ----- the full chain -----

  /** The bytes the synthesis backend streams for this run, when it accepts the request. */
  predicate Streams(world: World, backends: map<string, Protocol>, plan: Plan, pieces: seq<Piece>, broken: bool) {
    && !Short(world, backends, plan) && world.synthesisEncodable
    && plan.synthesis.backend in backends && backends[plan.synthesis.backend] == ANTHROPIC
    && var a := world.toSynthesis(Analysis(world, backends, plan, PanelAnswers(world, backends, plan)));
      a.Answered? && a.status == 200 && a.pieces == pieces && a.broken == broken
  }

  /** An Anthropic consumer whose synthesis runs on an Anthropic backend: the stream goes through both
      translations and arrives as one message with the backend's texts and stop reason. */
  lemma SynthesisChain(world: World, backends: map<string, Protocol>, plan: Plan, sink: S.SinkState, ctx: Ctx,
                       pieces: seq<Piece>, broken: bool)
    requires Streams(world, backends, plan, pieces, broken) && Faithful(world.codec)
    requires sink.AnthropicSink? && sink.wire.heads == [] && sink.stream == S.NEW_STREAM
    ensures Workflow(world, backends, plan, true, sink, ctx).outcome.status == 200
    ensures TL.Chained(world.codec, sink, ctx, Concat(pieces),
                       Workflow(world, backends, plan, true, sink, ctx).sink.wire.body)
  {
    hide PanelAnswers, Analysis, R.RelayBytes, E.Output, Concat, TL.Chained, Faithful;
    var named := P.Named(sink, plan.synthesis);
    TL.Chain(world.codec, named, ctx, NO_USAGE, Concat(pieces));
    assert [] + E.Output(world.codec, Concat(pieces), E.UNNAMED) == E.Output(world.codec, Concat(pieces), E.UNNAMED);
    TL.ChainedFrom(world.codec, named, sink, ctx, Concat(pieces),
      R.RelayBytes(world.codec, named, ctx, NO_USAGE, E.Output(world.codec, Concat(pieces), E.UNNAMED), false)
        .sink.wire.body);
  }
}
