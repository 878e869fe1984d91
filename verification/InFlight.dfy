/** The in-flight gauge of one backend under concurrency (internal/backend/client.go,
    internal/backend/anthropic.go): any number of calls, their steps interleaved in any way. The steps of
    one call run in program order; each addition to the gauge is a step of its own. */
module InFlight {

  /** Where one call stands. `armed` is the flag its deferred clean-up looks at. */
  datatype Phase =
    | Ready                      // before acquire
    | Calling(armed: bool)       // the slot is taken; after disarm the response body owns it
    | Leaving                    // the clean-up has found itself armed and is about to subtract
    | Handed                     // the caller has the body
    | Closing                    // the first Close runs the one-shot clean-up
    | Closed                     // the body's clean-up has run
    | Gone                       // the call has failed and its clean-up has run

  datatype Action =
    | Acquire    // Add(1)
    | Disarm     // ownership passes to the body
    | Return     // the deferred clean-up runs
    | Subtract   // Add(-1), from either clean-up
    | Close      // the caller closes the body, perhaps again

  datatype State = State(gauge: int, calls: seq<Phase>, taken: seq<nat>, given: seq<nat>)

  function Fresh(n: nat): State {
    State(0, seq(n, _ => Ready), [], [])
  }

  /** The next state of one call; an action it is not ready for does nothing. */
  function Moved(p: Phase, a: Action): Phase {
    match (p, a)
    case (Ready, Acquire) => Calling(true)
    case (Calling(_), Disarm) => Calling(false)
    case (Calling(armed), Return) => if armed then Leaving else Handed
    case (Leaving, Subtract) => Gone
    case (Handed, Close) => Closing
    case (Closing, Subtract) => Closed
    case _ => p
  }

  function Step(s: State, i: nat, a: Action): State
    requires i < |s.calls|
  {
    var p := s.calls[i];
    var moved := s.(calls := s.calls[i := Moved(p, a)]);
    if p == Ready && a == Acquire then moved.(gauge := s.gauge + 1, taken := s.taken + [i])
    else if (p == Leaving || p == Closing) && a == Subtract then moved.(gauge := s.gauge - 1, given := s.given + [i])
    else moved
  }

  /** A schedule: which call acts next, and how. */
  function Run(s: State, schedule: seq<(nat, Action)>): State {
    if schedule == [] then s
    else
      var before := Run(s, schedule[..|schedule| - 1]);
      var (i, a) := schedule[|schedule| - 1];
      if i < |before.calls| then Step(before, i, a) else before
  }

  /** The call has taken a slot and not given it back. */
  predicate Holds(p: Phase) {
    p.Calling? || p.Leaving? || p.Handed? || p.Closing?
  }

  function Held(calls: seq<Phase>): nat {
    if calls == [] then 0 else Held(calls[..|calls| - 1]) + if Holds(calls[|calls| - 1]) then 1 else 0
  }

  predicate Once(s: seq<nat>) {
    forall i, j :: 0 <= i < j < |s| ==> s[i] != s[j]
  }

  predicate Conserved(s: State) {
    && s.gauge == Held(s.calls) == |s.taken| - |s.given|
    && Once(s.taken) && Once(s.given)
    && (forall i :: i in s.given ==> i in s.taken)
    && (forall i :: i in s.taken ==> i < |s.calls|)
    && (forall i :: 0 <= i < |s.calls| ==>
          && (i in s.taken <==> !s.calls[i].Ready?)
          && (i in s.given <==> s.calls[i].Closed? || s.calls[i].Gone?))
  }

  lemma {:induction false} HeldUpdate(calls: seq<Phase>, i: nat, p: Phase)
    requires i < |calls|
    ensures Held(calls[i := p]) == Held(calls) - (if Holds(calls[i]) then 1 else 0) + (if Holds(p) then 1 else 0)
  {
    var after, init := calls[i := p], calls[..|calls| - 1];
    if i < |init| {
      HeldUpdate(init, i, p);
      assert after[..|calls| - 1] == init[i := p];
    } else {
      assert after[..|calls| - 1] == init;
    }
  }

  lemma StepConserves(s: State, i: nat, a: Action)
    requires Conserved(s) && i < |s.calls|
    ensures Conserved(Step(s, i, a))
  {
    HeldUpdate(s.calls, i, Moved(s.calls[i], a));
  }

  lemma {:induction false} NoneHeld(n: nat)
    ensures Held(seq(n, _ => Ready)) == 0
  {
    if n > 0 {
      assert seq(n, _ => Ready)[..n - 1] == seq(n - 1, _ => Ready);
      NoneHeld(n - 1);
    }
  }

  /** Under every schedule the gauge is the number of calls that hold a slot, and no call gives back a
      slot twice or one it has not taken. */
  lemma {:induction false} EveryScheduleConserves(n: nat, schedule: seq<(nat, Action)>)
    ensures var s := Run(Fresh(n), schedule);
      Conserved(s) && s.gauge >= 0 && |s.calls| == n
  {
    if schedule == [] {
      NoneHeld(n);
    } else {
      EveryScheduleConserves(n, schedule[..|schedule| - 1]);
      var before := Run(Fresh(n), schedule[..|schedule| - 1]);
      var (i, a) := schedule[|schedule| - 1];
      if i < |before.calls| {
        StepConserves(before, i, a);
      }
    }
  }

  predicate Settled(p: Phase) {
    p.Ready? || p.Closed? || p.Gone?
  }

  lemma {:induction false} SettledHoldNothing(calls: seq<Phase>)
    ensures Held(calls) == 0 <==> forall i :: 0 <= i < |calls| ==> !Holds(calls[i])
  {
    if calls != [] {
      var init := calls[..|calls| - 1];
      SettledHoldNothing(init);
      assert forall i :: 0 <= i < |init| ==> init[i] == calls[i];
    }
  }

  /** The gauge is back at zero exactly when every call has failed, been closed or not started. */
  lemma QuiescentIsZero(n: nat, schedule: seq<(nat, Action)>)
    ensures var s := Run(Fresh(n), schedule);
      |s.calls| == n && (s.gauge == 0 <==> forall i :: 0 <= i < n ==> Settled(s.calls[i]))
  {
    EveryScheduleConserves(n, schedule);
    SettledHoldNothing(Run(Fresh(n), schedule).calls);
  }

  /** From any point on a schedule, one close and its clean-up settle a handed-out body, and any
      further close changes nothing. */
  lemma CloseOnce(s: State, i: nat)
    requires i < |s.calls| && s.calls[i].Handed? && Conserved(s)
    ensures var done := Step(Step(s, i, Close), i, Subtract);
      && done.calls == s.calls[i := Closed] && done.gauge == s.gauge - 1
      && Step(done, i, Close) == done && Step(done, i, Subtract) == done
  {
    var done := Step(Step(s, i, Close), i, Subtract);
    assert done.calls == s.calls[i := Closed];
    assert done.calls[i := Closed] == done.calls;
  }
}
