/** From the requested model name to a routing plan (internal/router/resolve.go,
    internal/model/snapshot.go). */
module Resolve {
  import opened Wrappers
  import opened Fleet
  import Proxy
  import Fusion

  datatype PoolEntry = PoolEntry(model: string, backends: seq<string>, quality: real)
  datatype Target = Target(model: string, backends: seq<string>)

  datatype Alias =
    | ProxyAlias(name: string, minQuality: real, model: string, backends: seq<string>)
    | ParetoAlias(name: string, minQuality: real, pool: seq<PoolEntry>)
    | FusionAlias(name: string, panel: seq<PoolEntry>, judge: Target, synthesis: Target, minPanel: nat,
                  temperature: real, maxTokens: int)

  const ROUND_ROBIN: string := "round_robin"

  datatype Plan = ProxyPlan(proxy: Proxy.Plan) | FusionPlan(fusion: Fusion.Plan)

  datatype Resolved = Planned(plan: Plan) | NoHealthyBackend | ModelNotFound

  // ----- choosing a backend for a role -----

  /** The least-loaded healthy name among the first ones, the earliest on ties. */
  function PickIndex(snap: Snapshot, names: seq<string>): (r: Option<nat>)
    ensures r.Some? ==> r.value < |names| && IsHealthy(snap, names[r.value])
  {
    if names == [] then None
    else
      var last := |names| - 1;
      var best := PickIndex(snap, names[..last]);
      if !IsHealthy(snap, names[last]) then best
      else if best == None || snap[names[last]].inFlight < snap[names[best.value]].inFlight then Some(last)
      else best
  }

  function Pick(snap: Snapshot, names: seq<string>): Option<string> {
    var k := PickIndex(snap, names);
    if k == None then None else Some(names[k.value])
  }

  /** `k` is where the choice must fall. */
  predicate Least(snap: Snapshot, names: seq<string>, k: nat) {
    && k < |names| && IsHealthy(snap, names[k])
    && (forall j :: 0 <= j < |names| && IsHealthy(snap, names[j]) ==>
          snap[names[k]].inFlight <= snap[names[j]].inFlight
          && (j < k ==> snap[names[k]].inFlight < snap[names[j]].inFlight))
  }

  lemma {:induction false} PickIsLeast(snap: Snapshot, names: seq<string>)
    ensures var k := PickIndex(snap, names);
      if k == None then forall j :: 0 <= j < |names| ==> !IsHealthy(snap, names[j])
      else Least(snap, names, k.value)
  {
    if names != [] {
      PickIsLeast(snap, names[..|names| - 1]);
      var init := names[..|names| - 1];
      assert forall j :: 0 <= j < |init| ==> names[j] == init[j];
    }
  }

  lemma LeastIsOne(snap: Snapshot, names: seq<string>, k: nat)
    requires Least(snap, names, k)
    ensures PickIndex(snap, names) == Some(k)
  {
    PickIsLeast(snap, names);
  }

  method PickHealthyBackend(snap: Snapshot, names: seq<string>) returns (best: Option<string>)
    ensures best == Pick(snap, names)
  {
    best := None;
    var bestLoad := 0;
    for i := 0 to |names|
      invariant best == Pick(snap, names[..i])
      invariant best.Some? ==> best.value in snap && bestLoad == snap[best.value].inFlight
    {
      assert names[..i + 1][..i] == names[..i];
      if names[i] !in snap || !snap[names[i]].healthy {
        continue;
      }
      if best == None || snap[names[i]].inFlight < bestLoad {
        best, bestLoad := Some(names[i]), snap[names[i]].inFlight;
      }
    }
    assert names[..|names|] == names;
  }

  // ----- aliases -----

  function EntryCandidates(e: PoolEntry): seq<Candidate> {
    seq(|e.backends|, k requires 0 <= k < |e.backends| => Candidate(e.model, e.backends[k], e.quality))
  }

  /** One candidate per model and backend, in the order of the pool. */
  function Expand(pool: seq<PoolEntry>): seq<Candidate> {
    if pool == [] then []
    else Expand(pool[..|pool| - 1]) + EntryCandidates(pool[|pool| - 1])
  }

  /** The panelists that have a healthy backend. */
  function PanelOf(snap: Snapshot, panel: seq<PoolEntry>): seq<Candidate> {
    if panel == [] then []
    else
      var e := panel[|panel| - 1];
      var b := Pick(snap, e.backends);
      PanelOf(snap, panel[..|panel| - 1]) + if b == None then [] else [Candidate(e.model, b.value, e.quality)]
  }

  function AliasPlan(snap: Snapshot, alias: Alias): Resolved {
    match alias
    case ProxyAlias(name, minQuality, model, backends) =>
      Planned(ProxyPlan(Proxy.Plan(name, ROUND_ROBIN, EntryCandidates(PoolEntry(model, backends, 0.0)), minQuality)))
    case ParetoAlias(name, minQuality, pool) =>
      Planned(ProxyPlan(Proxy.Plan(name, Proxy.PARETO, Expand(pool), minQuality)))
    case FusionAlias(name, panel, judge, synthesis, minPanel, temperature, maxTokens) =>
      var chosen, j, s := PanelOf(snap, panel), Pick(snap, judge.backends), Pick(snap, synthesis.backends);
      if chosen == [] || j == None || s == None then NoHealthyBackend
      else Planned(FusionPlan(Fusion.Plan(name, chosen, Candidate(judge.model, j.value, 0.0),
                                          Candidate(synthesis.model, s.value, 0.0), minPanel, temperature, maxTokens)))
  }

  method ResolveAlias(snap: Snapshot, alias: Alias) returns (r: Resolved)
    ensures r == AliasPlan(snap, alias)
  {
    match alias
    case ProxyAlias(name, minQuality, model, backends) =>
      var cands := AppendEntry([], PoolEntry(model, backends, 0.0));
      assert [] + EntryCandidates(PoolEntry(model, backends, 0.0)) == EntryCandidates(PoolEntry(model, backends, 0.0));
      r := Planned(ProxyPlan(Proxy.Plan(name, ROUND_ROBIN, cands, minQuality)));
    case ParetoAlias(name, minQuality, pool) =>
      var cands := [];
      for i := 0 to |pool|
        invariant cands == Expand(pool[..i])
      {
        assert pool[..i + 1][..i] == pool[..i];
        cands := AppendEntry(cands, pool[i]);
      }
      assert pool[..|pool|] == pool;
      r := Planned(ProxyPlan(Proxy.Plan(name, Proxy.PARETO, cands, minQuality)));
    case FusionAlias(name, panel, judge, synthesis, minPanel, temperature, maxTokens) =>
      r := ResolveFusion(snap, name, panel, judge, synthesis, minPanel, temperature, maxTokens);
  }

  method AppendEntry(cands0: seq<Candidate>, e: PoolEntry) returns (cands: seq<Candidate>)
    ensures cands == cands0 + EntryCandidates(e)
  {
    cands := cands0;
    for k := 0 to |e.backends|
      invariant cands == cands0 + EntryCandidates(e)[..k]
    {
      assert EntryCandidates(e)[..k + 1] == EntryCandidates(e)[..k] + [EntryCandidates(e)[k]];
      cands := cands + [Candidate(e.model, e.backends[k], e.quality)];
    }
    assert EntryCandidates(e)[..|e.backends|] == EntryCandidates(e);
  }

  method ResolveFusion(snap: Snapshot, name: string, panel: seq<PoolEntry>, judge: Target, synthesis: Target,
                       minPanel: nat, temperature: real, maxTokens: int) returns (r: Resolved)
    ensures r == AliasPlan(snap, FusionAlias(name, panel, judge, synthesis, minPanel, temperature, maxTokens))
  {
    var chosen := [];
    for i := 0 to |panel|
      invariant chosen == PanelOf(snap, panel[..i])
    {
      assert panel[..i + 1][..i] == panel[..i];
      var b := PickHealthyBackend(snap, panel[i].backends);
      if b.Some? {
        chosen := chosen + [Candidate(panel[i].model, b.value, panel[i].quality)];
      }
    }
    assert panel[..|panel|] == panel;
    if chosen == [] {
      return NoHealthyBackend;
    }
    var j := PickHealthyBackend(snap, judge.backends);
    if j.None? {
      return NoHealthyBackend;
    }
    var s := PickHealthyBackend(snap, synthesis.backends);
    if s.None? {
      return NoHealthyBackend;
    }
    r := Planned(FusionPlan(Fusion.Plan(name, chosen, Candidate(judge.model, j.value, 0.0),
                                        Candidate(synthesis.model, s.value, 0.0), minPanel, temperature, maxTokens)));
  }

  predicate AnyHealthy(snap: Snapshot, names: seq<string>) {
    exists j :: 0 <= j < |names| && IsHealthy(snap, names[j])
  }

  lemma {:induction false} PanelIsEmpty(snap: Snapshot, panel: seq<PoolEntry>)
    ensures PanelOf(snap, panel) == [] <==>
      forall e :: 0 <= e < |panel| ==> !AnyHealthy(snap, panel[e].backends)
    ensures |PanelOf(snap, panel)| <= |panel|
  {
    if panel != [] {
      var init := panel[..|panel| - 1];
      PanelIsEmpty(snap, init);
      PickIsLeast(snap, panel[|panel| - 1].backends);
      assert forall e :: 0 <= e < |init| ==> init[e] == panel[e];
    }
  }

  /** An alias fails to resolve only when it is a fusion alias with a role nobody healthy can take. */
  lemma AliasFails(snap: Snapshot, alias: Alias)
    ensures AliasPlan(snap, alias) != ModelNotFound
    ensures AliasPlan(snap, alias) == NoHealthyBackend <==>
      alias.FusionAlias? && (
        || (forall e :: 0 <= e < |alias.panel| ==> !AnyHealthy(snap, alias.panel[e].backends))
        || !AnyHealthy(snap, alias.judge.backends)
        || !AnyHealthy(snap, alias.synthesis.backends))
  {
    if alias.FusionAlias? {
      PanelIsEmpty(snap, alias.panel);
      PickIsLeast(snap, alias.judge.backends);
      PickIsLeast(snap, alias.synthesis.backends);
    }
  }

  // ----- direct ids -----

  predicate Advertises(snap: Snapshot, name: string, model: string) {
    name in snap && model in snap[name].models
  }

  /** Each healthy backend that advertises the model, once; the map's iteration order is left open. */
  ghost predicate ServingSet(snap: Snapshot, model: string, names: seq<string>) {
    && (forall i, j :: 0 <= i < j < |names| ==> names[i] != names[j])
    && (forall n :: n in names <==> n in snap.Keys && snap[n].healthy && Advertises(snap, n, model))
  }

  method BackendsServing(snap: Snapshot, model: string) returns (names: seq<string>)
    ensures ServingSet(snap, model, names)
  {
    names := [];
    var todo := snap.Keys;
    while todo != {}
      invariant todo <= snap.Keys
      invariant forall i, j :: 0 <= i < j < |names| ==> names[i] != names[j]
      invariant forall n :: n in names <==>
        n in snap.Keys && n !in todo && snap[n].healthy && Advertises(snap, n, model)
      decreases todo
    {
      var name :| name in todo;
      todo := todo - {name};
      if snap[name].healthy && model in snap[name].models {
        names := names + [name];
      }
    }
  }

  method AnyAdvertises(snap: Snapshot, model: string) returns (any: bool)
    ensures any <==> exists n :: n in snap.Keys && Advertises(snap, n, model)
  {
    var todo := snap.Keys;
    while todo != {}
      invariant todo <= snap.Keys
      invariant forall n :: n in snap.Keys && n !in todo ==> !Advertises(snap, n, model)
      decreases todo
    {
      var name :| name in todo;
      if model in snap[name].models {
        assert Advertises(snap, name, model);
        return true;
      }
      todo := todo - {name};
    }
    any := false;
  }

  /** Nobody advertises the model: 404. Only unhealthy backends do: 503. Otherwise a round-robin plan
      over all the healthy ones. */
  ghost predicate DirectlyResolved(snap: Snapshot, model: string, r: Resolved) {
    && (r == ModelNotFound <==> forall n :: n in snap.Keys ==> !Advertises(snap, n, model))
    && (r == NoHealthyBackend <==>
          && (exists n :: n in snap.Keys && Advertises(snap, n, model))
          && (forall n :: n in snap.Keys && Advertises(snap, n, model) ==> !snap[n].healthy))
    && (r.Planned? ==> exists names ::
          ServingSet(snap, model, names) && names != []
          && r.plan == ProxyPlan(Proxy.Plan("", ROUND_ROBIN, EntryCandidates(PoolEntry(model, names, 0.0)), 0.0)))
  }

  method ResolveDirect(snap: Snapshot, model: string) returns (r: Resolved)
    ensures DirectlyResolved(snap, model, r)
  {
    var serving := BackendsServing(snap, model);
    if serving != [] {
      var first := serving[0];
      assert first in serving;
      var cands := AppendEntry([], PoolEntry(model, serving, 0.0));
      assert [] + EntryCandidates(PoolEntry(model, serving, 0.0)) == EntryCandidates(PoolEntry(model, serving, 0.0));
      return Planned(ProxyPlan(Proxy.Plan("", ROUND_ROBIN, cands, 0.0)));
    }
    var any := AnyAdvertises(snap, model);
    r := if any then NoHealthyBackend else ModelNotFound;
  }

  method Resolve(snap: Snapshot, aliases: map<string, Alias>, model: string) returns (r: Resolved)
    ensures if model in aliases then r == AliasPlan(snap, aliases[model]) else DirectlyResolved(snap, model, r)
  {
    if model in aliases {
      r := ResolveAlias(snap, aliases[model]);
    } else {
      r := ResolveDirect(snap, model);
    }
  }
}
