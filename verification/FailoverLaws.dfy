/** The guarantees of one whole proxy execution, for all candidates, answers and cancellation points. */
module FailoverLaws {
  import opened Wrappers
  import opened Codec
  import opened Upstream
  import opened ProxyRun
  import opened ProxyLaws
  import opened Selectors
  import opened StableSort
  import RP = ReplyLaws
  import AL = AnswerLaws
  import opened Relay
  import F = Fleet
  import Proxy
  import S = SinkStates

  /** Nothing has been written. */
  predicate Unused(sink: S.SinkState) {
    !sink.wrote && sink.wire.heads == []
  }

  predicate StatusFor(ending: Ending, status: int) {
    match ending
    case NoneHealthy => status == 503
    case Exhausted => status == 502
    case BadEncoding => status == 400
    case Replied(_) => !IsRetryable(status) && status != 0
    case _ => status == 0
  }

  /** Every run settles as its ending says, and the dispatches follow the given order. */
  lemma ExecutionLaw(env: Env, from: Run, ordered: seq<F.Candidate>)
    requires from == Start(from.ctx, from.sink, from.suspects, from.retries) && Unused(from.sink)
    ensures var (r, e) := Execution(env, from, ordered);
      && Settled(env, from, r, e) && Traced(env, from, r, e)
      && StatusFor(e, r.outcome.status)
      && (e == NoneHealthy <==> ordered == [])
      && (env.req.encodable && env.req.nativeEncodable ==> r.outcome.failovers == Minus1(|r.dispatched|))
      && Cands(r.dispatched) <= Known(env.backends, ordered)
      && (e == Exhausted ==> |r.dispatched| == MAX_ATTEMPTS || Cands(r.dispatched) == Known(env.backends, ordered))
  {
    hide Loop, Settled, Traced, Trying, Tracing, Known, Cands;
    StartTries(env, from);
    if ordered == [] {
      TryingIsSettled(env, from, from, from.(outcome := from.outcome.(status := 503)), NoneHealthy);
      StartTraced(env, from, ordered);
      if env.req.encodable && env.req.nativeEncodable {
        EncodableIsExact(env, from, from.(outcome := from.outcome.(status := 503)), NoneHealthy);
      }
    } else {
      LoopLaw(env, from, from, ordered);
      LoopTrace(env, from, from, ordered);
      var (r, e) := Loop(env, from, ordered);
      assert [] + Known(env.backends, ordered) == Known(env.backends, ordered);
      NoCands();
      Fill(env, from, r, e);
      if env.req.encodable && env.req.nativeEncodable {
        EncodableIsExact(env, from, r, e);
      }
    }
  }

  lemma EncodableIsExact(env: Env, from: Run, run: Run, ending: Ending)
    requires Settled(env, from, run, ending) && Traced(env, from, run, ending)
    requires env.req.encodable && env.req.nativeEncodable
    ensures run.outcome.failovers == Minus1(|run.dispatched|)
  {
    hide AllFail, Alone, Names, Committed;
  }

  lemma NoCands()
    ensures Cands([]) == []
  {
  }

  lemma StartTries(env: Env, from: Run)
    requires from == Start(from.ctx, from.sink, from.suspects, from.retries) && Unused(from.sink)
    ensures Trying(from, from) && Tracing(env, from, from) && from.dispatched == []
  {
  }

  lemma StartTraced(env: Env, from: Run, ordered: seq<F.Candidate>)
    requires from.dispatched == []
    ensures Traced(env, from, from.(outcome := from.outcome.(status := 503)), NoneHealthy)
    ensures Cands(from.dispatched) == []
  {
  }

  /** The status filled in for a 502 changes nothing else; the other endings have theirs. */
  lemma Fill(env: Env, from: Run, run: Run, ending: Ending)
    requires Settled(env, from, run, ending) && Traced(env, from, run, ending) && ending != NoneHealthy
    ensures var r := if ending == Exhausted then run.(outcome := run.outcome.(status := 502)) else run;
      Settled(env, from, r, ending) && Traced(env, from, r, ending) && StatusFor(ending, r.outcome.status)
  {
    hide Alone, AllFail, Committed, Names;
  }

  /** The candidates a run may try. */
  function Tries(backends: map<string, Protocol>, ordered: seq<F.Candidate>): seq<F.Candidate> {
    var known := Known(backends, ordered);
    if |known| <= MAX_ATTEMPTS then known else known[..MAX_ATTEMPTS]
  }

  /** With no cancellation and an encodable body the run is decided by which attempts fail: it ends
      at the first one that does not, and in a 502 exactly when there is none. */
  lemma FirstAnswerWins(env: Env, from: Run, ordered: seq<F.Candidate>)
    requires from == Start(from.ctx, from.sink, from.suspects, from.retries) && Unused(from.sink)
    requires from.ctx.Live() && env.req.encodable && env.req.nativeEncodable && ordered != []
    ensures var (r, e) := Execution(env, from, ordered);
      var tries := Tries(env.backends, ordered);
      && (e == Exhausted <==> forall k :: 0 <= k < |tries| ==> Fails(env, k, tries[k]))
      && (e == Exhausted ==> r.outcome.status == 502 && Cands(r.dispatched) == tries)
      && (e != Exhausted ==> var n := |r.dispatched|;
            && e.Replied? && 0 < n <= |tries| && Cands(r.dispatched) == tries[..n]
            && !Fails(env, n - 1, tries[n - 1])
            && (forall k :: 0 <= k < n - 1 ==> Fails(env, k, tries[k])))
  {
    hide Execution, Settled, Fails, Alone, Known;
    ExecutionLaw(env, from, ordered);
    var (r, e) := Execution(env, from, ordered);
    SettledBound(env, from, r, e);
    var cs, n := Cands(r.dispatched), |r.dispatched|;
    var tries := Tries(env.backends, ordered);
    assert cs == tries[..n];
    if e != Exhausted {
      assert AllFail(env, r.dispatched[..n - 1]);
      forall k | 0 <= k < n - 1 ensures Fails(env, k, tries[k]) {
        assert r.dispatched[..n - 1][k] == r.dispatched[k];
      }
    }
  }

  lemma SettledBound(env: Env, from: Run, run: Run, ending: Ending)
    requires Settled(env, from, run, ending)
    ensures |run.dispatched| <= MAX_ATTEMPTS
  {
    hide Names;
  }

  // ----- pareto plans -----

  lemma {:induction false} KnownAppend(backends: map<string, Protocol>, a: seq<F.Candidate>, b: seq<F.Candidate>)
    ensures Known(backends, a + b) == Known(backends, a) + Known(backends, b)
  {
    if a == [] {
      assert a + b == b;
    } else {
      assert (a + b)[1..] == a[1..] + b;
      KnownAppend(backends, a[1..], b);
    }
  }

  lemma {:induction false} KnownHas(backends: map<string, Protocol>, cands: seq<F.Candidate>, c: F.Candidate)
    ensures c in Known(backends, cands) <==> c in cands && c.backend in backends
  {
    if cands != [] {
      KnownHas(backends, cands[1..], c);
      assert cands == [cands[0]] + cands[1..];
    }
  }

  lemma {:induction false} InsertHas<T>(key: T -> real, s: seq<T>, x: T, y: T)
    ensures y in InsertLast(key, s, x) <==> y in s || y == x
  {
    if s != [] && !(key(s[|s| - 1]) <= key(x)) {
      InsertHas(key, s[..|s| - 1], x, y);
      assert s == s[..|s| - 1] + [s[|s| - 1]];
    }
  }

  lemma {:induction false} SortHas<T>(key: T -> real, s: seq<T>, y: T)
    ensures y in SortBy(key, s) <==> y in s
  {
    if s != [] {
      SortHas(key, s[..|s| - 1], y);
      InsertHas(key, SortBy(key, s[..|s| - 1]), s[|s| - 1], y);
      assert s == s[..|s| - 1] + [s[|s| - 1]];
    }
  }

  lemma TierHas(snap: F.Snapshot, backends: map<string, Protocol>, healthy: seq<F.Candidate>,
                keep: F.Candidate -> bool, c: F.Candidate)
    ensures c in Known(backends, Ranked(snap, F.Filter(keep, healthy)))
       <==> c in healthy && keep(c) && c.backend in backends
  {
    hide SortBy, Known, F.Filter;
    KnownHas(backends, Ranked(snap, F.Filter(keep, healthy)), c);
    SortHas(CostIn(snap), F.Filter(keep, healthy), c);
    F.FilterHas(keep, healthy, c);
  }

  /** On a pareto plan, whenever a below-bar candidate is dispatched to, every healthy in-tier
      candidate with a configured backend was dispatched to before it and failed. */
  lemma InTierFirst(env: Env, from: Run, snap: F.Snapshot, cands: seq<F.Candidate>, bar: real, j: nat, c: F.Candidate)
    requires from == Start(from.ctx, from.sink, from.suspects, from.retries) && Unused(from.sink)
    requires var (r, _) := Execution(env, from, ParetoOrdered(snap, cands, bar));
      j < |r.dispatched| && r.dispatched[j].cand.quality < bar
    requires c in cands && F.IsHealthy(snap, c.backend) && c.quality >= bar && c.backend in env.backends
    ensures var (r, _) := Execution(env, from, ParetoOrdered(snap, cands, bar));
      exists i :: 0 <= i < j && r.dispatched[i].cand == c && Fails(env, i, c)
  {
    hide Execution, Settled, Fails, Alone, Known, Ranked, F.Filter;
    var ordered := ParetoOrdered(snap, cands, bar);
    var (r, e) := Execution(env, from, ordered);
    ExecutionLaw(env, from, ordered);
    var healthy := HealthyOnes(snap, cands);
    var above := Known(env.backends, Ranked(snap, F.Filter(Clears(bar), healthy)));
    var below := Known(env.backends, Ranked(snap, F.Filter(Misses(bar), healthy)));
    KnownAppend(env.backends, Ranked(snap, F.Filter(Clears(bar), healthy)),
                Ranked(snap, F.Filter(Misses(bar), healthy)));
    var cs := Cands(r.dispatched);
    assert cs <= above + below;
    F.FilterHas(HealthyIn(snap), cands, c);
    TierHas(snap, env.backends, healthy, Clears(bar), c);
    var i :| 0 <= i < |above| && above[i] == c;
    assert j < |above| ==> cs[j] in above;
    TierHas(snap, env.backends, healthy, Clears(bar), cs[j]);
    assert cs[i] == c;
    FailedBefore(env, from, r, e, i, j);
  }

  lemma FailedBefore(env: Env, from: Run, run: Run, ending: Ending, i: nat, j: nat)
    requires Traced(env, from, run, ending) && i < j < |run.dispatched|
    ensures Fails(env, i, run.dispatched[i].cand)
  {
    hide Fails, Alone;
    if ending.Replied? {
      assert run.dispatched[..|run.dispatched| - 1][i] == run.dispatched[i];
    }
  }

  /** The candidates to try are the healthy ones of the plan. */
  lemma OrderedAreHealthy(snap: F.Snapshot, backends: map<string, Protocol>, req: ChatRequest, plan: Proxy.Plan,
                          counter: Count, c: F.Candidate)
    ensures c in Proxy.OrderFor(snap, backends, req, plan, counter)
       <==> c in plan.candidates && F.IsHealthy(snap, c.backend)
  {
    hide SortBy, F.Filter;
    var healthy := HealthyOnes(snap, plan.candidates);
    F.FilterHas(HealthyIn(snap), plan.candidates, c);
    if plan.selector == Proxy.PARETO {
      var bar := if req.qualityBar.Some? then req.qualityBar.value else plan.minQuality;
      F.FilterHas(Clears(bar), healthy, c);
      F.FilterHas(Misses(bar), healthy, c);
      SortHas(CostIn(snap), F.Filter(Clears(bar), healthy), c);
      SortHas(CostIn(snap), F.Filter(Misses(bar), healthy), c);
    } else if healthy != [] {
      var k := counter % |healthy|;
      var rotated := Rotate(healthy, k);
      assert healthy == healthy[..k] + healthy[k..];
      F.FilterHas(Speaking(backends, req.consumer), rotated, c);
      F.FilterHas(NotSpeaking(backends, req.consumer), rotated, c);
    }
  }

  /** A plan has nobody to try exactly when no candidate is healthy in the snapshot Execute reads,
      whatever the snapshot was that resolved the name. */
  lemma NobodyHealthy(snap: F.Snapshot, backends: map<string, Protocol>, req: ChatRequest, plan: Proxy.Plan,
                      counter: Count)
    ensures Proxy.OrderFor(snap, backends, req, plan, counter) == []
       <==> forall c :: c in plan.candidates ==> !F.IsHealthy(snap, c.backend)
  {
    hide Proxy.OrderFor;
    var ordered := Proxy.OrderFor(snap, backends, req, plan, counter);
    forall c ensures c in ordered <==> c in plan.candidates && F.IsHealthy(snap, c.backend) {
      OrderedAreHealthy(snap, backends, req, plan, counter, c);
    }
    if ordered != [] {
      var c := ordered[0];
      assert c in ordered;
    }
  }

  // ----- what the client gets -----

  /** Dispatch number `k` went to `cand`, and the client whose sink was `was` has its answer and nothing
      else. */
  ghost predicate AnsweredBy(env: Env, was: S.SinkState, ctx: Ctx, k: nat, cand: F.Candidate,
                             sink: S.SinkState, o: Outcome) {
    && cand.backend in env.backends && o.failovers == k
    && var way := AL.WayOf(env.req, env.backends[cand.backend]);
      && !AL.Lost(env.codec, way, env.answers(k))
      && AL.Sent(env.codec, way, ctx.(checks := ctx.checks + 2 * k + 1), env.answers(k), was, cand, sink, o)
  }

  /** After a reply the client has received that reply and nothing of the attempts before it. */
  lemma ClientGetsTheReply(env: Env, from: Run, ordered: seq<F.Candidate>)
    requires from == Start(from.ctx, from.sink, from.suspects, from.retries) && RP.Untouched(from.sink)
    ensures var (r, e) := Execution(env, from, ordered);
      e.Replied? ==>
        var n := |r.dispatched|;
        && 0 < n <= MAX_ATTEMPTS && r.dispatched[n - 1].cand in ordered
        && AnsweredBy(env, from.sink, from.ctx, n - 1, r.dispatched[n - 1].cand, r.sink, r.outcome)
  {
    hide Execution, Alone, Known, Cands, Committed, Names, AL.Lost, AL.Sent, AnsweredBy;
    ExecutionLaw(env, from, ordered);
    var (r, e) := Execution(env, from, ordered);
    if e.Replied? {
      var n := |r.dispatched|;
      var cand := r.dispatched[n - 1].cand;
      AL.FailsIff(env, n - 1, cand);
      AloneSends(env, from, n - 1, cand);
      var cs := Cands(r.dispatched);
      assert cs[n - 1] == Known(env.backends, ordered)[n - 1];
      KnownHas(env.backends, ordered, cand);
    }
  }

  lemma AloneSends(env: Env, from: Run, k: nat, cand: F.Candidate)
    requires RP.Untouched(from.sink) && !Fails(env, k, cand)
    requires cand.backend in env.backends && ReplyOf(env, k, cand) != Failed && Alone(env, from, k, cand).Done?
    ensures var done := Alone(env, from, k, cand);
      AnsweredBy(env, from.sink, from.ctx, k, cand, done.sink, done.outcome)
  {
    hide Receive, Handle, AL.Sent, AL.Lost, BodyValue.Broken;
    var way, a := AL.WayOf(env.req, env.backends[cand.backend]), env.answers(k);
    AL.FailsIff(env, k, cand);
    AL.ReceiveIs(env.codec, way, a);
    AL.HandleSends(env.codec, env.req, way, from.ctx.(checks := from.ctx.checks + 2 * k + 1), a, from.sink, cand,
      NO_OUTCOME.(backend := cand.backend, upstreamModel := cand.model, protocol := env.backends[cand.backend],
                  failovers := k));
  }

  /** The recorded status is the one the client sees, if and only if the reply is no stream with a 2xx
      status other than 200. */
  lemma StatusIsSeen(env: Env, from: Run, ordered: seq<F.Candidate>)
    requires from == Start(from.ctx, from.sink, from.suspects, from.retries) && RP.Untouched(from.sink)
    ensures var (r, e) := Execution(env, from, ordered);
      e.Replied? ==>
        && |r.sink.wire.heads| == 1
        && (r.sink.wire.heads[0].status == r.outcome.status
            <==> !(env.req.stream && IsSuccess(r.outcome.status) && r.outcome.status != 200))
  {
    hide Execution;
    ClientGetsTheReply(env, from, ordered);
  }

  /** A streamed 201 is recorded as 201 and sent as 200. */
  lemma CreatedIsSentAs200(codec: Codec, sink: S.SinkState)
    requires RP.Untouched(sink)
    ensures var cand := F.Candidate("m", "o", 0.0);
      var req := ChatRequest("openai", "m", true, true, None, true, true);
      var env := Env(codec, map["o" := "openai"], req, (k: nat) => Answered(201, "", [], false));
      var (r, e) := Execution(env, Start(Ctx(0, None), sink, [], 0), [cand]);
      e.Replied? && r.outcome.status == 201 && |r.sink.wire.heads| == 1 && r.sink.wire.heads[0].status == 200
  {
    hide Execution, Alone;
    var cand := F.Candidate("m", "o", 0.0);
    var req := ChatRequest("openai", "m", true, true, None, true, true);
    var env := Env(codec, map["o" := "openai"], req, (k: nat) => Answered(201, "", [], false));
    var from := Start(Ctx(0, None), sink, [], 0);
    KnownFirst(env.backends, [cand]);
    assert Known(env.backends, [cand][1..]) == [];
    FirstAnswerWins(env, from, [cand]);
    assert !Fails(env, 0, Tries(env.backends, [cand])[0]);
    ClientGetsTheReply(env, from, [cand]);
  }
}
