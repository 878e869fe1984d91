/** What resolving a fusion alias decides about the request before anything is sent. */
module AliasLaws {
  import opened Wrappers
  import opened Bytes
  import opened Codec
  import opened Fleet
  import opened Resolve
  import opened Upstream
  import opened Fusion
  import opened FusionLaws
  import P = ProxyRun
  import S = SinkStates
  import W = Wire

  /** The entries with a healthy backend. */
  function Seated(snap: Snapshot, panel: seq<PoolEntry>): nat {
    if panel == [] then 0
    else Seated(snap, panel[..|panel| - 1]) + if AnyHealthy(snap, panel[|panel| - 1].backends) then 1 else 0
  }

  lemma {:induction false} SeatedIsPanel(snap: Snapshot, panel: seq<PoolEntry>)
    ensures |PanelOf(snap, panel)| == Seated(snap, panel)
  {
    if panel != [] {
      SeatedIsPanel(snap, panel[..|panel| - 1]);
      PickIsLeast(snap, panel[|panel| - 1].backends);
    }
  }

  /** With fewer than `minPanel` panelists no reply can save the request. */
  lemma SmallPanelFails(world: World, backends: map<string, Protocol>, plan: Fusion.Plan, stream: bool,
                        sink: S.SinkState, ctx: Ctx)
    requires |plan.panel| < plan.minPanel
    ensures Short(world, backends, plan)
    ensures Workflow(world, backends, plan, stream, sink, ctx).ending == Unavailable
  {
    hide PanelText, Filter;
  }

  /** Every backend answers with some text. */
  function Talkative(codec: Codec): World {
    World(codec.(unaryToOpenAI := (b: Bytes) => Some(b)), (b: Bytes) => "x", true, true, true,
          (k: nat) => Answered(200, "", [], false), (t: seq<string>) => Unreachable, (t: string) => Unreachable)
  }

  lemma TalkativeTalks(codec: Codec, backends: map<string, Protocol>, plan: Fusion.Plan, i: nat)
    requires i < |plan.panel| && plan.panel[i].backend in backends
    ensures PanelText(Talkative(codec), backends, plan, i) == "x"
  {
  }

  lemma {:induction false} AllSaid(texts: seq<string>)
    requires forall i :: 0 <= i < |texts| ==> texts[i] != ""
    ensures |Filter(Said(), texts)| == |texts|
  {
    if texts != [] {
      AllSaid(texts[..|texts| - 1]);
    }
  }

  lemma FullPanelAnswers(codec: Codec, backends: map<string, Protocol>, plan: Fusion.Plan)
    requires |plan.panel| >= plan.minPanel
    requires forall k :: 0 <= k < |plan.panel| ==> plan.panel[k].backend in backends
    ensures !Short(Talkative(codec), backends, plan)
  {
    hide PanelText, Filter, Said;
    var texts := PanelTexts(Talkative(codec), backends, plan);
    forall i | 0 <= i < |texts| ensures texts[i] != "" {
      TalkativeTalks(codec, backends, plan, i);
    }
    AllSaid(texts);
  }

  /** A fusion alias resolves to a plan that some answers can carry past the gate if and only if at least
      `minPanel` of its panel entries have a healthy backend; config bounds only the entries themselves. */
  lemma GateCanOpen(codec: Codec, snap: Snapshot, alias: Alias, backends: map<string, Protocol>, plan: Fusion.Plan)
    requires alias.FusionAlias? && AliasPlan(snap, alias) == Planned(FusionPlan(plan))
    requires forall k :: 0 <= k < |plan.panel| ==> plan.panel[k].backend in backends
    ensures (exists world :: !Short(world, backends, plan)) <==> Seated(snap, alias.panel) >= alias.minPanel
  {
    hide Short, PanelOf, Talkative;
    SeatedIsPanel(snap, alias.panel);
    if |plan.panel| >= plan.minPanel {
      FullPanelAnswers(codec, backends, plan);
    } else {
      forall world ensures Short(world, backends, plan) {
        SmallPanelFails(world, backends, plan, false, S.OpenAISink(W.FRESH_WIRE, false, map[]), Ctx(0, None));
      }
    }
  }

  const UP: BackendState := BackendState("up", true, {}, 0, 0)

  /** Two panel entries, both wanted, one of them down: the alias resolves, and no answers can help. */
  lemma OneDownOfTwo(world: World, backends: map<string, Protocol>)
    ensures var one, two := PoolEntry("m", ["up"], 0.0), PoolEntry("n", ["down"], 0.0);
      var alias := FusionAlias("f", [one, two], Target("j", ["up"]), Target("s", ["up"]), 2, 0.0, 0);
      var r := AliasPlan(map["up" := UP], alias);
      && 1 <= alias.minPanel <= |alias.panel|
      && r.Planned? && r.plan.FusionPlan? && Short(world, backends, r.plan.fusion)
  {
    var snap := map["up" := UP];
    var one, two := PoolEntry("m", ["up"], 0.0), PoolEntry("n", ["down"], 0.0);
    UpIsPicked(snap);
    assert "up"[0] != "down"[0];
    PickIsLeast(snap, ["down"]);
    assert [one, two][..1] == [one] && [one][..0] == [];
    assert PanelOf(snap, [one]) == [Candidate("m", "up", 0.0)];
    assert PanelOf(snap, [one, two]) == [Candidate("m", "up", 0.0)];
    var plan := Fusion.Plan("f", [Candidate("m", "up", 0.0)], Candidate("j", "up", 0.0), Candidate("s", "up", 0.0), 2, 0.0, 0);
    SmallPanelFails(world, backends, plan, false, S.OpenAISink(W.FRESH_WIRE, false, map[]), Ctx(0, None));
  }

  lemma UpIsPicked(snap: Snapshot)
    requires snap == map["up" := UP]
    ensures Pick(snap, ["up"]) == Some("up")
  {
    PickIsLeast(snap, ["up"]);
    assert IsHealthy(snap, ["up"][0]);
  }

  // ----- what a plan contains -----

  /** `backend` is the least loaded healthy one of `names`, the first on ties. */
  ghost predicate Chosen(snap: Snapshot, names: seq<string>, backend: string) {
    exists k :: 0 <= k < |names| && Least(snap, names, k) && backend == names[k]
  }

  lemma PickIsChosen(snap: Snapshot, names: seq<string>)
    ensures AnyHealthy(snap, names) <==> Pick(snap, names).Some?
    ensures Pick(snap, names).Some? ==> Chosen(snap, names, Pick(snap, names).value)
  {
    PickIsLeast(snap, names);
  }

  /** A fusion plan carries the alias's settings, and each role is filled from its own entry. */
  lemma RolesAreFilled(snap: Snapshot, alias: Alias, plan: Fusion.Plan)
    requires alias.FusionAlias? && AliasPlan(snap, alias) == Planned(FusionPlan(plan))
    ensures plan.judge.model == alias.judge.model && Chosen(snap, alias.judge.backends, plan.judge.backend)
    ensures plan.synthesis.model == alias.synthesis.model
         && Chosen(snap, alias.synthesis.backends, plan.synthesis.backend)
    ensures plan.aliasName == alias.name && plan.minPanel == alias.minPanel
    ensures plan.temperature == alias.temperature && plan.maxTokens == alias.maxTokens
    ensures |plan.panel| == Seated(snap, alias.panel)
    ensures forall e :: 0 <= e < |alias.panel| && AnyHealthy(snap, alias.panel[e].backends) ==>
      PanelistFor(snap, alias.panel, e, plan.panel)
  {
    hide PanelOf, Chosen, Pick, PanelistFor;
    SeatedIsPanel(snap, alias.panel);
    PickIsChosen(snap, alias.judge.backends);
    PickIsChosen(snap, alias.synthesis.backends);
    forall e | 0 <= e < |alias.panel| && AnyHealthy(snap, alias.panel[e].backends)
      ensures PanelistFor(snap, alias.panel, e, plan.panel)
    {
      PanelistIsSeated(snap, alias.panel, e);
    }
  }

  /** Entry `e` sits behind the entries before it that have a seat, with its own model and quality. */
  ghost predicate PanelistFor(snap: Snapshot, panel: seq<PoolEntry>, e: nat, seats: seq<Candidate>)
    requires e < |panel|
  {
    var k := Seated(snap, panel[..e]);
    && k < |seats| && seats[k].model == panel[e].model && seats[k].quality == panel[e].quality
    && Chosen(snap, panel[e].backends, seats[k].backend)
  }

  lemma {:induction false} PanelistIsSeated(snap: Snapshot, panel: seq<PoolEntry>, e: nat)
    requires e < |panel| && AnyHealthy(snap, panel[e].backends)
    ensures PanelistFor(snap, panel, e, PanelOf(snap, panel))
  {
    hide Chosen, Pick;
    var init := panel[..|panel| - 1];
    SeatedIsPanel(snap, init);
    PickIsChosen(snap, panel[|panel| - 1].backends);
    if e < |init| {
      PanelistIsSeated(snap, init, e);
      assert init[..e] == panel[..e];
    }
  }

  /** How many candidates the first entries of a pool make. */
  function Offset(pool: seq<PoolEntry>): nat {
    if pool == [] then 0 else Offset(pool[..|pool| - 1]) + |pool[|pool| - 1].backends|
  }

  /** A pareto plan has one candidate per entry and backend, in the order of the pool. */
  lemma {:induction false} PoolIsExpanded(pool: seq<PoolEntry>, e: nat, b: nat)
    requires e < |pool| && b < |pool[e].backends|
    ensures |Expand(pool)| == Offset(pool)
    ensures var k := Offset(pool[..e]) + b;
      k < |Expand(pool)| && Expand(pool)[k] == Candidate(pool[e].model, pool[e].backends[b], pool[e].quality)
  {
    var init := pool[..|pool| - 1];
    ExpandLength(init);
    if e < |init| {
      PoolIsExpanded(init, e, b);
      assert init[..e] == pool[..e];
    }
  }

  lemma {:induction false} ExpandLength(pool: seq<PoolEntry>)
    ensures |Expand(pool)| == Offset(pool)
  {
    if pool != [] {
      ExpandLength(pool[..|pool| - 1]);
    }
  }

  /** What the two kinds of proxy alias resolve to. */
  lemma ProxyPlanIs(snap: Snapshot, alias: Alias)
    requires !alias.FusionAlias?
    ensures var r := AliasPlan(snap, alias);
      && r.Planned? && r.plan.ProxyPlan?
      && var plan := r.plan.proxy;
        && plan.aliasName == alias.name && plan.minQuality == alias.minQuality
        && (if alias.ParetoAlias? then plan.selector == "pareto" && plan.candidates == Expand(alias.pool)
            else
              && plan.selector == "round_robin" && |plan.candidates| == |alias.backends|
              && forall k :: 0 <= k < |alias.backends| ==>
                plan.candidates[k] == Candidate(alias.model, alias.backends[k], 0.0))
  {
    hide Expand;
  }
}
