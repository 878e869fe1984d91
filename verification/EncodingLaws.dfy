/** Failovers and dispatches: an attempt whose body cannot be built is counted and never dispatched.
    When that makes the two numbers disagree. */
module EncodingLaws {
  import opened Wrappers
  import opened Upstream
  import opened ProxyRun
  import opened ProxyLaws
  import opened FailoverLaws
  import F = Fleet
  import S = SinkStates
  import C = Codec

  /** The body for the candidate can be built. */
  predicate Sendable(backends: map<string, Protocol>, req: ChatRequest, cand: F.Candidate)
    requires cand.backend in backends
  {
    if NativeRelay(req, backends[cand.backend]) then req.nativeEncodable else req.encodable
  }

  predicate CanSend(backends: map<string, Protocol>, req: ChatRequest, cand: F.Candidate) {
    cand.backend in backends && Sendable(backends, req, cand)
  }

  predicate AllCanSend(backends: map<string, Protocol>, req: ChatRequest, cands: seq<F.Candidate>) {
    forall k :: 0 <= k < |cands| ==> CanSend(backends, req, cands[k])
  }

  /** One live attempt either dispatches to a candidate it can send to, or ends on one it cannot. */
  lemma AttemptEncodes(env: Env, run: Run, cand: F.Candidate)
    requires cand.backend in env.backends && run.sent < MAX_ATTEMPTS && !run.ctx.Cancelled()
    ensures var (next, ending) := Attempt(env, run, cand);
      if Sendable(env.backends, env.req, cand) then
        next.dispatched == run.dispatched + [Dispatch(cand, run.sink.wrote)] && ending != Some(BadEncoding)
      else next.dispatched == run.dispatched && ending == Some(BadEncoding)
  {
    hide Handle, Receive, ProxyRun.Named;
  }

  lemma {:induction false} LoopEncodes(env: Env, from: Run, run: Run, cands: seq<F.Candidate>)
    requires Trying(from, run) && AllCanSend(env.backends, env.req, Cands(run.dispatched))
    ensures var (r, e) := Loop(env, run, cands);
      var all, n := Cands(run.dispatched) + Known(env.backends, cands), |r.dispatched|;
      && AllCanSend(env.backends, env.req, Cands(r.dispatched))
      && (e == BadEncoding ==> n < |all| && !CanSend(env.backends, env.req, all[n]))
    decreases |cands|
  {
    hide Send, Prepare, Settled, Trying, Begin, Names, CanSend, Attempt;
    AttemptUnfolds(env, run, cands);
    if cands != [] && cands[0].backend !in env.backends {
      LoopEncodes(env, from, run, cands[1..]);
    } else if cands != [] && run.sent < MAX_ATTEMPTS && !run.ctx.Cancelled() {
      var cand := cands[0];
      AttemptEncodes(env, run, cand);
      SendableIs(env, cand);
      KnownFirst(env.backends, cands);
      var (next, ending) := Attempt(env, run, cand);
      if Sendable(env.backends, env.req, cand) {
        var d := Dispatch(cand, run.sink.wrote);
        assert Cands(run.dispatched + [d]) == Cands(run.dispatched) + [cand];
        if ending == None {
          AttemptLaw(env, from, run, cand);
          LoopEncodes(env, from, next, cands[1..]);
          CandsThen(env.backends, run.dispatched, cand, cands, next.dispatched);
        }
      }
    }
  }

  lemma SendableIs(env: Env, cand: F.Candidate)
    requires cand.backend in env.backends
    ensures CanSend(env.backends, env.req, cand) == Sendable(env.backends, env.req, cand)
  {
  }

  /** The attempts of the loop that are no dispatch. */
  lemma AttemptUnfolds(env: Env, run: Run, cands: seq<F.Candidate>)
    ensures cands != [] ==> var (next, ending) := Attempt(env, run, cands[0]);
      && (cands[0].backend !in env.backends ==> next == run && ending == None)
      && (cands[0].backend in env.backends && run.sent >= MAX_ATTEMPTS ==> next == run && ending == Some(Exhausted))
      && (cands[0].backend in env.backends && run.sent < MAX_ATTEMPTS && run.ctx.Cancelled() ==>
            next.dispatched == run.dispatched && ending == Some(CancelledBefore))
  {
    hide Prepare;
  }

  // ----- failovers against dispatches -----

  /** Failovers are the dispatches after the first. */
  predicate Exact(run: Run) {
    run.outcome.failovers == Minus1(|run.dispatched|)
  }

  /** Of the candidates a run may try, the first cannot be sent to, or all can. */
  predicate Uniform(backends: map<string, Protocol>, req: ChatRequest, ordered: seq<F.Candidate>) {
    var tries := Tries(backends, ordered);
    tries == [] || !CanSend(backends, req, tries[0]) || AllCanSend(backends, req, tries)
  }

  /** Where a run that met a body it could not build stands. */
  lemma BadEncodingIs(env: Env, from: Run, ordered: seq<F.Candidate>)
    requires from == Start(from.ctx, from.sink, from.suspects, from.retries) && Unused(from.sink)
    ensures var (r, e) := Execution(env, from, ordered);
      var tries, n := Tries(env.backends, ordered), |r.dispatched|;
      && (if e == BadEncoding then r.outcome.failovers == n else Exact(r))
      && n <= |tries| && Cands(r.dispatched) == tries[..n] && AllCanSend(env.backends, env.req, tries[..n])
      && (e == BadEncoding ==> n < |tries| && !CanSend(env.backends, env.req, tries[n]))
      && (e == Exhausted ==> n == |tries|)
  {
    hide Loop, Traced, Trying, Tracing, Known, Cands, CanSend, Names, Committed;
    ExecutionLaw(env, from, ordered);
    StartTries(env, from);
    NoCands();
    if ordered != [] {
      LoopEncodes(env, from, from, ordered);
      assert [] + Known(env.backends, ordered) == Known(env.backends, ordered);
    } else {
      NoneKnown(env.backends);
    }
    var (r, e) := Execution(env, from, ordered);
    assert r.sent <= MAX_ATTEMPTS && |r.dispatched| <= r.sent;
    assert Cands(r.dispatched) <= Known(env.backends, ordered);
    assert Cands(r.dispatched) == Tries(env.backends, ordered)[..|r.dispatched|];
  }

  lemma NoneKnown(backends: map<string, Protocol>)
    ensures Known(backends, []) == []
  {
  }

  /** Failovers are exact in every run over these candidates, whatever is answered and whenever it is
      cancelled, if and only if no candidate that cannot be sent to follows one that can. */
  lemma ExactIffUniform(codec: C.Codec, backends: map<string, Protocol>, req: ChatRequest, sink: S.SinkState,
                        suspects: seq<string>, retries: nat, ordered: seq<F.Candidate>)
    requires Unused(sink)
    ensures Uniform(backends, req, ordered) <==>
      forall answers: nat -> Answer, ctx: Ctx ::
        Exact(Execution(Env(codec, backends, req, answers), Start(ctx, sink, suspects, retries), ordered).0)
  {
    hide Execution, Uniform, Exact;
    if Uniform(backends, req, ordered) {
      forall answers: nat -> Answer, ctx: Ctx
        ensures Exact(Execution(Env(codec, backends, req, answers), Start(ctx, sink, suspects, retries), ordered).0)
      {
        UniformIsExact(Env(codec, backends, req, answers), Start(ctx, sink, suspects, retries), ordered);
      }
    } else {
      MixedIsNot(Env(codec, backends, req, Silence()), Start(Ctx(0, None), sink, suspects, retries), ordered);
    }
  }

  lemma UniformIsExact(env: Env, from: Run, ordered: seq<F.Candidate>)
    requires from == Start(from.ctx, from.sink, from.suspects, from.retries) && Unused(from.sink)
    requires Uniform(env.backends, env.req, ordered)
    ensures Exact(Execution(env, from, ordered).0)
  {
    hide Execution, CanSend, Tries;
    BadEncodingIs(env, from, ordered);
    var (r, e) := Execution(env, from, ordered);
    var tries := Tries(env.backends, ordered);
    assert |r.dispatched| > 0 ==> CanSend(env.backends, env.req, tries[..|r.dispatched|][0]);
  }

  /** No backend can be reached. */
  function Silence(): nat -> Answer {
    (k: nat) => Unreachable
  }

  lemma SilenceFails(env: Env, k: nat, cand: F.Candidate)
    requires env.answers == Silence() && cand.backend in env.backends
    ensures Fails(env, k, cand)
  {
  }

  /** One dispatch too few: the attempt that could not be built is counted as a failover as well. */
  lemma MixedIsNot(env: Env, from: Run, ordered: seq<F.Candidate>)
    requires from == Start(from.ctx, from.sink, from.suspects, from.retries) && Unused(from.sink)
    requires from.ctx.Live() && env.answers == Silence() && !Uniform(env.backends, env.req, ordered)
    ensures var (r, e) := Execution(env, from, ordered);
      e == BadEncoding && r.outcome.failovers == |r.dispatched| > 0 && !Exact(r)
  {
    hide Execution, CanSend, Tries, Settled, Fails, Alone, Known, Silence;
    BadEncodingIs(env, from, ordered);
    ExecutionLaw(env, from, ordered);
    var (r, e) := Execution(env, from, ordered);
    var tries, n := Tries(env.backends, ordered), |r.dispatched|;
    if e.Replied? {
      var cand := r.dispatched[n - 1].cand;
      SilenceFails(env, n - 1, cand);
      assert false;
    }
    assert tries[..|tries|] == tries;
    assert e == Exhausted || e == BadEncoding || e == NoneHealthy;
    NothingToTry(env.backends, ordered);
  }

  lemma NothingToTry(backends: map<string, Protocol>, ordered: seq<F.Candidate>)
    ensures ordered == [] ==> Tries(backends, ordered) == []
  {
  }

  // ----- an input -----

  const ANTHROPIC_THEN_OPENAI: map<string, Protocol> := map["a" := ANTHROPIC, "o" := "openai"]

  const BOTH: seq<F.Candidate> := [F.Candidate("m", "a", 0.0), F.Candidate("m", "o", 0.0)]

  /** The consumer's own body can be sent on, its canonical form cannot. */
  const NATIVE_ONLY: ChatRequest := ChatRequest(ANTHROPIC, "m", false, true, None, false, true)

  /** An Anthropic backend that cannot be reached, then an OpenAI backend no body can be built for: one
      dispatch and one failover. */
  lemma OneDispatchOneFailover(codec: C.Codec, sink: S.SinkState)
    requires Unused(sink)
    ensures var (r, e) := Execution(Env(codec, ANTHROPIC_THEN_OPENAI, NATIVE_ONLY, Silence()),
                                    Start(Ctx(0, None), sink, [], 0), BOTH);
      e == BadEncoding && |r.dispatched| == 1 && r.outcome.failovers == 1
  {
    hide Execution, Silence;
    var env, from := Env(codec, ANTHROPIC_THEN_OPENAI, NATIVE_ONLY, Silence()), Start(Ctx(0, None), sink, [], 0);
    BothAreKnown();
    var tries := Tries(env.backends, BOTH);
    assert CanSend(env.backends, env.req, tries[0]) && !CanSend(env.backends, env.req, tries[1]);
    MixedIsNot(env, from, BOTH);
    BadEncodingIs(env, from, BOTH);
  }

  lemma BothAreKnown()
    ensures Known(ANTHROPIC_THEN_OPENAI, BOTH) == BOTH
  {
    var last := BOTH[1..];
    assert last == [BOTH[1]] && last[1..] == [];
    assert Known(ANTHROPIC_THEN_OPENAI, last) == last;
  }
}
