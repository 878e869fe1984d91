/** The order in which a plan's candidates are tried, and what it means for a whole execution. */
module PlanLaws {
  import opened Wrappers
  import opened Fleet
  import opened StableSort
  import opened Selectors
  import opened SelectorLaws
  import opened ParetoLaws
  import opened ProxyRun
  import Proxy
  import L = ProxyLaws
  import FL = FailoverLaws

  // ----- the healthy candidates -----

  /** They keep the plan's order: their positions ascend. */
  lemma HealthyInOrder(snap: Snapshot, cands: seq<Candidate>) returns (p: seq<int>)
    ensures HealthyOnes(snap, cands) == Pick(At(cands), p) && Rising(p)
    ensures forall y :: y in p <==> 0 <= y < |cands| && cands[y].backend in snap && snap[cands[y].backend].healthy
  {
    hide Filter;
    p := Kept(HealthyIn(snap), cands, |cands|);
    assert cands[..|cands|] == cands;
    KeptPicks(HealthyIn(snap), cands, |cands|);
    KeptHas(HealthyIn(snap), cands, |cands|);
    KeptAscends(HealthyIn(snap), cands, |cands|);
  }

  // ----- pareto plans -----

  /** The request's own bar when it names one, else the plan's. */
  function Bar(req: ChatRequest, plan: Proxy.Plan): real {
    match req.qualityBar
    case Some(bar) => bar
    case None => plan.minQuality
  }

  /** A pareto plan is tried in the one order that is arranged by tier, cost and position. */
  lemma ParetoPlanOrder(snap: Snapshot, backends: map<string, string>, req: ChatRequest, plan: Proxy.Plan,
                        counter: Count, p: seq<int>)
    requires plan.selector == "pareto"
    ensures var healthy := HealthyOnes(snap, plan.candidates);
      var arranged := Positions(snap, healthy, Bar(req, plan));
      && Arranged(snap, healthy, Bar(req, plan), arranged)
      && Proxy.OrderFor(snap, backends, req, plan, counter) == Pick(At(healthy), arranged)
      && (Arranged(snap, healthy, Bar(req, plan), p) ==> p == arranged)
  {
    hide HealthyOnes, Positions, ParetoOrdered, Arranged, Pick;
    var healthy, bar := HealthyOnes(snap, plan.candidates), Bar(req, plan);
    ParetoIsArranged(snap, plan.candidates, bar);
    if Arranged(snap, healthy, bar, p) {
      OneArrangement(snap, healthy, bar, p, Positions(snap, healthy, bar));
    }
  }

  lemma OneArrangement(snap: Snapshot, healthy: seq<Candidate>, bar: real, p: seq<int>, q: seq<int>)
    requires Arranged(snap, healthy, bar, p) && Arranged(snap, healthy, bar, q)
    ensures p == q
  {
    hide Precedes, CostAt;
    OrderIsAsymmetric(snap, healthy, bar);
    SortedIsUnique(Order(snap, healthy, bar), p, q);
  }

  lemma OrderIsAsymmetric(snap: Snapshot, healthy: seq<Candidate>, bar: real)
    ensures Asymmetric(Order(snap, healthy, bar))
  {
  }

  /** In a whole execution of a pareto plan a below-bar candidate is dispatched to only after every healthy
      in-tier one has been and has failed. */
  lemma ParetoPlanInTierFirst(env: Env, from: Run, snap: Snapshot, plan: Proxy.Plan, counter: Count, j: nat, c: Candidate)
    requires from == Start(from.ctx, from.sink, from.suspects, from.retries) && FL.Unused(from.sink)
    requires plan.selector == "pareto"
    requires var (r, _) := Execution(env, from, Proxy.OrderFor(snap, env.backends, env.req, plan, counter));
      j < |r.dispatched| && r.dispatched[j].cand.quality < Bar(env.req, plan)
    requires c in plan.candidates && IsHealthy(snap, c.backend)
    requires c.quality >= Bar(env.req, plan) && c.backend in env.backends
    ensures var (r, _) := Execution(env, from, Proxy.OrderFor(snap, env.backends, env.req, plan, counter));
      exists i :: 0 <= i < j && r.dispatched[i].cand == c && L.Fails(env, i, c)
  {
    hide Execution, ParetoOrdered, L.Fails;
    FL.InTierFirst(env, from, snap, plan.candidates, Bar(env.req, plan), j, c);
  }

  // ----- all other plans -----

  /** How many steps behind the start of the rotation a position is. */
  function Turn(x: int, start: nat, n: nat): int {
    if x >= start then x - start else x + n - start
  }

  predicate SpeaksIt(backends: map<string, string>, c: Candidate, protocol: string) {
    c.backend in backends && backends[c.backend] == protocol
  }

  /** Candidates of the consumer's protocol come first, each group in the order of the rotation. */
  predicate Ahead(healthy: seq<Candidate>, backends: map<string, string>, consumer: string, start: nat, x: int, y: int) {
    var sx := consumer != "" && SpeaksIt(backends, At(healthy)(x), consumer);
    var sy := consumer != "" && SpeaksIt(backends, At(healthy)(y), consumer);
    (sx && !sy) || (sx == sy && Turn(x, start, |healthy|) < Turn(y, start, |healthy|))
  }

  ghost function TurnOrder(healthy: seq<Candidate>, backends: map<string, string>, consumer: string, start: nat)
    : (int, int) -> bool
  {
    (x, y) => Ahead(healthy, backends, consumer, start, x, y)
  }

  /** Every position once, in that order. */
  ghost predicate Turned(healthy: seq<Candidate>, backends: map<string, string>, consumer: string, start: nat, p: seq<int>) {
    && (forall x :: x in p <==> 0 <= x < |healthy|)
    && Sorted(TurnOrder(healthy, backends, consumer, start), p)
  }

  /** Positions of the rotated list as positions of the list. */
  function Unrotated(q: seq<int>, start: nat, n: nat): (p: seq<int>)
    ensures |p| == |q|
    ensures forall k :: 0 <= k < |q| ==> p[k] == if start + q[k] < n then start + q[k] else start + q[k] - n
  {
    seq(|q|, k requires 0 <= k < |q| => if start + q[k] < n then start + q[k] else start + q[k] - n)
  }

  predicate Within(q: seq<int>, n: nat) {
    forall k :: 0 <= k < |q| ==> 0 <= q[k] < n
  }

  lemma UnrotatedPicks(healthy: seq<Candidate>, q: seq<int>, start: nat)
    requires start < |healthy| && Within(q, |healthy|)
    ensures Pick(At(Rotate(healthy, start)), q) == Pick(At(healthy), Unrotated(q, start, |healthy|))
    ensures forall k :: 0 <= k < |q| ==> Turn(Unrotated(q, start, |healthy|)[k], start, |healthy|) == q[k]
  {
    var n, rot, p := |healthy|, Rotate(healthy, start), Unrotated(q, start, |healthy|);
    forall k | 0 <= k < |q| ensures At(rot)(q[k]) == At(healthy)(p[k]) {
      assert rot[q[k]] == if start + q[k] < n then healthy[start + q[k]] else healthy[start + q[k] - n];
    }
    assert Pick(At(rot), q) == Pick(At(healthy), p);
  }

  /** The positions of one protocol group. */
  lemma GroupLaw(healthy: seq<Candidate>, keep: Candidate -> bool, start: nat) returns (p: seq<int>)
    requires start < |healthy|
    ensures Filter(keep, Rotate(healthy, start)) == Pick(At(healthy), p)
    ensures forall x :: x in p <==> 0 <= x < |healthy| && keep(healthy[x])
    ensures forall i, j :: 0 <= i < j < |p| ==> Turn(p[i], start, |healthy|) < Turn(p[j], start, |healthy|)
  {
    hide Filter, Kept;
    var n, rot := |healthy|, Rotate(healthy, start);
    var q := Kept(keep, rot, n);
    assert rot[..n] == rot;
    KeptPicks(keep, rot, n);
    KeptHas(keep, rot, n);
    KeptAscends(keep, rot, n);
    forall k | 0 <= k < |q| ensures 0 <= q[k] < n {
      var y := q[k];
      assert y in q;
    }
    UnrotatedPicks(healthy, q, start);
    p := Unrotated(q, start, n);
    GroupHas(healthy, keep, start, q, p);
  }

  lemma GroupHas(healthy: seq<Candidate>, keep: Candidate -> bool, start: nat, q: seq<int>, p: seq<int>)
    requires start < |healthy| && Within(q, |healthy|) && p == Unrotated(q, start, |healthy|)
    requires forall y :: y in q <==> 0 <= y < |healthy| && keep(Rotate(healthy, start)[y])
    ensures forall x :: x in p <==> 0 <= x < |healthy| && keep(healthy[x])
  {
    var n, rot := |healthy|, Rotate(healthy, start);
    forall x | x in p ensures 0 <= x < n && keep(healthy[x]) {
      var k :| 0 <= k < |p| && p[k] == x;
      assert q[k] in q;
    }
    forall x | 0 <= x < n && keep(healthy[x]) ensures x in p {
      var y := Turn(x, start, n);
      assert rot[y] == healthy[x];
      assert y in q;
      var k :| 0 <= k < |q| && q[k] == y;
      assert p[k] == x;
    }
  }

  function Everyone(): Candidate -> bool {
    (c: Candidate) => true
  }

  /** A round-robin plan is tried in the one order that puts the consumer's protocol first and keeps the
      rotation, which starts at the counter's value, within both groups. */
  lemma RoundRobinPlanOrder(snap: Snapshot, backends: map<string, string>, req: ChatRequest, plan: Proxy.Plan,
                            counter: Count, q: seq<int>) returns (p: seq<int>)
    requires plan.selector != "pareto" && HealthyOnes(snap, plan.candidates) != []
    ensures var healthy := HealthyOnes(snap, plan.candidates);
      var start := counter % |healthy|;
      && Turned(healthy, backends, req.consumer, start, p)
      && Proxy.OrderFor(snap, backends, req, plan, counter) == Pick(At(healthy), p)
      && (Turned(healthy, backends, req.consumer, start, q) ==> q == p)
  {
    hide HealthyOnes, Filter, Turned;
    var healthy := HealthyOnes(snap, plan.candidates);
    var start := counter % |healthy|;
    p := PreferredPositions(healthy, backends, req.consumer, start);
    if Turned(healthy, backends, req.consumer, start, q) {
      OneTurning(healthy, backends, req.consumer, start, q, p);
    }
  }

  lemma OneTurning(healthy: seq<Candidate>, backends: map<string, string>, consumer: string, start: nat,
                   q: seq<int>, p: seq<int>)
    requires Turned(healthy, backends, consumer, start, q) && Turned(healthy, backends, consumer, start, p)
    ensures q == p
  {
    SortedIsUnique(TurnOrder(healthy, backends, consumer, start), q, p);
  }

  lemma PreferredPositions(healthy: seq<Candidate>, backends: map<string, string>, consumer: string, start: nat)
    returns (p: seq<int>)
    requires start < |healthy|
    ensures Turned(healthy, backends, consumer, start, p)
    ensures Preferred(Rotate(healthy, start), backends, consumer) == Pick(At(healthy), p)
  {
    hide Filter, Speaks;
    var rot := Rotate(healthy, start);
    if consumer == "" || |healthy| < 2 {
      AllKept(Everyone(), rot);
      p := GroupLaw(healthy, Everyone(), start);
      AllTurned(healthy, backends, consumer, start, p);
    } else {
      var a := GroupLaw(healthy, Speaking(backends, consumer), start);
      var b := GroupLaw(healthy, NotSpeaking(backends, consumer), start);
      p := a + b;
      assert Pick(At(healthy), a + b) == Pick(At(healthy), a) + Pick(At(healthy), b);
      GroupsTurned(healthy, backends, consumer, start, a, b);
    }
  }

  lemma AllTurned(healthy: seq<Candidate>, backends: map<string, string>, consumer: string, start: nat, p: seq<int>)
    requires start < |healthy| && (consumer == "" || |healthy| < 2)
    requires forall x :: x in p <==> 0 <= x < |healthy|
    requires forall i, j :: 0 <= i < j < |p| ==> Turn(p[i], start, |healthy|) < Turn(p[j], start, |healthy|)
    ensures Turned(healthy, backends, consumer, start, p)
  {
    hide Turn;
    forall i, j | 0 <= i < j < |p| ensures TurnOrder(healthy, backends, consumer, start)(p[i], p[j]) {
      var x, y := p[i], p[j];
      assert x in p && y in p;
    }
  }

  lemma GroupsTurned(healthy: seq<Candidate>, backends: map<string, string>, consumer: string, start: nat,
                     a: seq<int>, b: seq<int>)
    requires start < |healthy| && consumer != ""
    requires forall x :: x in a <==> 0 <= x < |healthy| && Speaks(backends, healthy[x], consumer)
    requires forall x :: x in b <==> 0 <= x < |healthy| && !Speaks(backends, healthy[x], consumer)
    requires forall i, j :: 0 <= i < j < |a| ==> Turn(a[i], start, |healthy|) < Turn(a[j], start, |healthy|)
    requires forall i, j :: 0 <= i < j < |b| ==> Turn(b[i], start, |healthy|) < Turn(b[j], start, |healthy|)
    ensures Turned(healthy, backends, consumer, start, a + b)
  {
    hide Turn;
    var p := a + b;
    forall i, j | 0 <= i < j < |p| ensures TurnOrder(healthy, backends, consumer, start)(p[i], p[j]) {
      var x, y := p[i], p[j];
      assert i < |a| ==> x in a;
      assert i >= |a| ==> x in b;
      assert j < |a| ==> y in a;
      assert j >= |a| ==> y in b;
    }
  }

  /** Whom a round-robin plan is tried on first: the leading candidate of the consumer's protocol, or, when
      there is none or no preference, the candidate at the counter's turn; then the order is the rotation. */
  lemma RoundRobinPlanHead(snap: Snapshot, backends: map<string, string>, req: ChatRequest, plan: Proxy.Plan,
                           counter: Count)
    requires plan.selector != "pareto" && HealthyOnes(snap, plan.candidates) != []
    ensures var healthy := HealthyOnes(snap, plan.candidates);
      var start, same := counter % |healthy|, SameFlags(healthy, backends, req.consumer);
      var order := Proxy.OrderFor(snap, backends, req, plan, counter);
      && |order| == |healthy|
      && (if req.consumer != "" && Any(same) then order[0] == healthy[Lead(same, start)]
          else forall i :: 0 <= i < |healthy| ==>
            order[i] == healthy[if start + i < |healthy| then start + i else start + i - |healthy|])
  {
    hide HealthyOnes, Rotate, Preferred, Lead, Any, SameFlags;
    var healthy := HealthyOnes(snap, plan.candidates);
    var start, same := counter % |healthy|, SameFlags(healthy, backends, req.consumer);
    RotatedAt(healthy, start);
    PreferredLength(Rotate(healthy, start), backends, req.consumer);
    if req.consumer != "" && Any(same) {
      LeadIsFirst(healthy, backends, req.consumer, start);
    } else {
      RotationStands(healthy, backends, req.consumer, start);
    }
  }

  lemma RotatedAt(healthy: seq<Candidate>, start: nat)
    requires start < |healthy|
    ensures |Rotate(healthy, start)| == |healthy|
    ensures forall i :: 0 <= i < |healthy| ==>
      Rotate(healthy, start)[i] == healthy[if start + i < |healthy| then start + i else start + i - |healthy|]
  {
  }

  lemma PreferredLength(cands: seq<Candidate>, backends: map<string, string>, consumer: string)
    ensures |Preferred(cands, backends, consumer)| == |cands|
  {
    hide Filter;
    SplitLength(cands, Speaking(backends, consumer), NotSpeaking(backends, consumer));
  }

  lemma RotationStands(healthy: seq<Candidate>, backends: map<string, string>, consumer: string, start: nat)
    requires start < |healthy| && (consumer == "" || !Any(SameFlags(healthy, backends, consumer)))
    ensures Preferred(Rotate(healthy, start), backends, consumer) == Rotate(healthy, start)
  {
    hide Filter;
    if consumer != "" {
      var same := SameFlags(healthy, backends, consumer);
      forall k | 0 <= k < |healthy| ensures !Speaks(backends, Rotate(healthy, start)[k], consumer) {
        assert !same[if start + k < |healthy| then start + k else start + k - |healthy|];
      }
      NobodySpeaks(Rotate(healthy, start), backends, consumer);
    }
  }

  lemma {:induction false} SplitLength(s: seq<Candidate>, keep: Candidate -> bool, drop: Candidate -> bool)
    requires forall c :: drop(c) == !keep(c)
    ensures |Filter(keep, s)| + |Filter(drop, s)| == |s|
  {
    if s != [] {
      SplitLength(s[..|s| - 1], keep, drop);
    }
  }

  lemma NobodySpeaks(s: seq<Candidate>, backends: map<string, string>, consumer: string)
    requires forall k :: 0 <= k < |s| ==> !Speaks(backends, s[k], consumer)
    ensures Filter(Speaking(backends, consumer), s) == [] && Filter(NotSpeaking(backends, consumer), s) == s
  {
    hide Speaks;
    assert forall k :: 0 <= k < |s| ==> !Speaking(backends, consumer)(s[k]) && NotSpeaking(backends, consumer)(s[k]);
    NoneKept(Speaking(backends, consumer), s);
    AllKept(NotSpeaking(backends, consumer), s);
  }

  lemma {:induction false} NoneKept(keep: Candidate -> bool, s: seq<Candidate>)
    requires forall k :: 0 <= k < |s| ==> !keep(s[k])
    ensures Filter(keep, s) == []
  {
    if s != [] {
      NoneKept(keep, s[..|s| - 1]);
    }
  }

  lemma {:induction false} AllKept(keep: Candidate -> bool, s: seq<Candidate>)
    requires forall k :: 0 <= k < |s| ==> keep(s[k])
    ensures Filter(keep, s) == s
  {
    if s != [] {
      AllKept(keep, s[..|s| - 1]);
      assert s == s[..|s| - 1] + [s[|s| - 1]];
    }
  }

  /** Each ordering of a round-robin plan with a healthy candidate moves the turn on by one, modulo 2^64;
      pareto plans and plans with nobody healthy leave it. */
  lemma TurnAdvances(snap: Snapshot, plan: Proxy.Plan, counter: Count)
    ensures var after := Proxy.CounterAfter(snap, plan, counter);
      if plan.selector == "pareto" || (forall c :: c in plan.candidates ==> !IsHealthy(snap, c.backend)) then
        after == counter
      else after == if counter == 0xFFFF_FFFF_FFFF_FFFF then 0 else counter + 1
  {
    hide Filter;
    var healthy := HealthyOnes(snap, plan.candidates);
    forall c ensures c in healthy <==> c in plan.candidates && IsHealthy(snap, c.backend) {
      FilterHas(HealthyIn(snap), plan.candidates, c);
    }
    if healthy != [] {
      var c := healthy[0];
      assert c in healthy;
    }
    NextIs(counter);
  }

  lemma NextIs(counter: Count)
    ensures Next(counter) == if counter == 0xFFFF_FFFF_FFFF_FFFF then 0 else counter + 1
  {
    if counter + 1 < WRAP {
      ModOnce(counter + 1, WRAP);
    } else {
      ModOnce(WRAP, WRAP);
    }
  }
}
