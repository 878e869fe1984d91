/** The health monitor (internal/backend/health.go): its loop keeps a latency history and publishes a
    snapshot after every tick and every suspect re-probe. Probe outcomes and their order are given. */
module Monitor {
  import opened Wrappers
  import opened Fleet
  import opened StableSort

  const LATENCY_WINDOW: nat := 20
  const SUSPECT_BUFFER: nat := 64

  /** One finished probe; a failed one found no models. */
  datatype Probe = Probe(name: string, healthy: bool, models: Models, latency: int, inFlight: int)

  // ----- what a backend's published state means, from all its probes so far -----

  function Latencies(log: seq<Probe>, name: string): seq<int> {
    if log == [] then []
    else
      var p := log[|log| - 1];
      Latencies(log[..|log| - 1], name) + if p.name == name && p.healthy then [p.latency] else []
  }

  function LastModels(log: seq<Probe>, name: string): Models {
    if log == [] then {}
    else
      var p := log[|log| - 1];
      if p.name == name && p.healthy then p.models else LastModels(log[..|log| - 1], name)
  }

  function LastProbe(log: seq<Probe>, name: string): (r: Option<Probe>)
    ensures r.Some? ==> r.value in log && r.value.name == name
    ensures r == None ==> forall p :: p in log ==> p.name != name
  {
    if log == [] then None
    else if log[|log| - 1].name == name then Some(log[|log| - 1])
    else LastProbe(log[..|log| - 1], name)
  }

  function Recent(s: seq<int>): seq<int> {
    if |s| > LATENCY_WINDOW then s[|s| - LATENCY_WINDOW..] else s
  }

  function UpperMedian(s: seq<int>): int {
    if s == [] then 0 else SortBy(AsReal, s)[|s| / 2]
  }

  /** Healthy and load as of the last probe, models as of the last successful one, the median of the
      last successful latencies. */
  function StateOf(log: seq<Probe>, name: string): BackendState
    requires LastProbe(log, name).Some?
  {
    var last := LastProbe(log, name).value;
    BackendState(name, last.healthy, LastModels(log, name), UpperMedian(Recent(Latencies(log, name))), last.inFlight)
  }

  ghost predicate Publishes(snap: Snapshot, log: seq<Probe>) {
    forall n :: (n in snap <==> LastProbe(log, n).Some?) && (n in snap ==> snap[n] == StateOf(log, n))
  }

  type History = map<string, seq<int>>

  function Samples(history: History, name: string): seq<int> {
    if name in history then history[name] else []
  }

  ghost predicate Remembers(history: History, log: seq<Probe>) {
    forall n :: Samples(history, n) == Recent(Latencies(log, n))
  }

  lemma RecentNext(s: seq<int>, x: int)
    ensures Recent(Recent(s) + [x]) == Recent(s + [x])
  {
  }

  lemma LogNext(log: seq<Probe>, p: Probe)
    ensures forall n :: Latencies(log + [p], n) == Latencies(log, n) + if p.name == n && p.healthy then [p.latency] else []
    ensures forall n :: LastModels(log + [p], n) == if p.name == n && p.healthy then p.models else LastModels(log, n)
    ensures forall n :: LastProbe(log + [p], n) == if p.name == n then Some(p) else LastProbe(log, n)
  {
    assert (log + [p])[..|log|] == log;
  }

  // ----- the monitor -----

  class Monitor {
    const clients: seq<string>
    var snap: Snapshot
    var history: History
    var suspects: seq<string>
    ghost var log: seq<Probe>

    ghost predicate Valid()
      reads this
    {
      && Publishes(snap, log) && Remembers(history, log)
      && |suspects| <= SUSPECT_BUFFER
      && (forall n :: n in snap ==> n in clients)
    }

    constructor (clients: seq<string>)
      ensures Valid() && this.clients == clients && log == [] && suspects == [] && snap == map[]
    {
      this.clients := clients;
      snap, history, suspects, log := map[], map[], [], [];
    }

    /** A request for a fast re-probe; dropped when the channel is full. */
    method Suspect(name: string)
      requires Valid()
      modifies this`suspects
      ensures Valid()
      ensures suspects == Queue(old(suspects), name)
    {
      if |suspects| < SUSPECT_BUFFER {
        suspects := suspects + [name];
      }
    }

    /** One result: the history is updated and the backend's state computed, from the models in `prev`
        when the probe failed. */
    method Fold(prev: Snapshot, r: Probe) returns (s: BackendState)
      requires Remembers(history, log)
      requires r.name in prev ==> prev[r.name].models == LastModels(log, r.name)
      requires r.name !in prev ==> LastModels(log, r.name) == {}
      requires !r.healthy ==> r.models == {}
      modifies this`history, this`log
      ensures log == old(log) + [r] && Remembers(history, log)
      ensures LastProbe(log, r.name).Some? && s == StateOf(log, r.name)
    {
      hide SortBy, Latencies, LastModels, LastProbe, UpperMedian;
      LogNext(log, r);
      RecentNext(Latencies(log, r.name), r.latency);
      if r.healthy {
        var h := Samples(history, r.name) + [r.latency];
        if |h| > LATENCY_WINDOW {
          h := h[|h| - LATENCY_WINDOW..];
        }
        history := history[r.name := h];
      }
      var models := r.models;
      if !r.healthy && r.name in prev {
        models := prev[r.name].models;
      }
      log := log + [r];
      var p50 := Median(Samples(history, r.name));
      s := BackendState(r.name, r.healthy, models, p50, r.inFlight);
    }

    /** A tick: every client is probed, the results arrive in some order, and a new snapshot is built
        from them alone. */
    method ProbeAll(results: seq<Probe>)
      requires Valid() && Round(results, clients)
      modifies this`snap, this`history, this`log
      ensures Valid() && log == old(log) + results
      ensures forall n :: n in snap <==> n in clients
    {
      hide StateOf, Latencies, LastModels, LastProbe, Remembers;
      var prev, backends: Snapshot := snap, map[];
      ghost var log0 := log;
      for k := 0 to |results|
        invariant log == log0 + results[..k] && Remembers(history, log)
        invariant Publishes(snap, log0) && snap == prev
        invariant Untouched(log0, log, results, k)
        invariant Built(backends, log, results, k)
      {
        var r := results[k];
        assert results[..k + 1] == results[..k] + [r];
        KnownModels(prev, log0, log, r.name, results, k);
        ghost var before := log;
        var s := Fold(prev, r);
        BuiltNext(backends, log0, before, r, s, results, k);
        backends := backends[r.name := s];
      }
      assert results[..|results|] == results;
      AllBuilt(backends, log0, log, snap, results, clients);
      snap := backends;
    }

    /** A suspect re-probe: one backend's state is replaced, the others are carried over; an unknown
        name does nothing. */
    method ProbeOne(r: Probe)
      requires Valid() && Plausible(r)
      modifies this`snap, this`history, this`log
      ensures Valid()
      ensures if r.name in clients then log == old(log) + [r] && snap.Keys == old(snap.Keys) + {r.name}
        else log == old(log) && snap == old(snap) && history == old(history)
    {
      hide UpperMedian, Latencies, LastModels, LastProbe, Remembers, Publishes;
      KnownNow(snap, log, r.name);
      if r.name !in clients {
        return;
      }
      ghost var before := log;
      var s := Fold(snap, r);
      PublishesNext(snap, before, r, s);
      snap := snap[r.name := s];
    }
  }

  // ----- the loop -----

  /** What may happen next: a tick with its results, the channel being read and its backend re-probed
      with an outcome, or a request suspecting a backend. */
  datatype Step =
    | Tick(results: seq<Probe>)
    | Reprobe(outcome: Probe)
    | Suspicion(name: string)

  datatype Track = Track(suspects: seq<string>, log: seq<Probe>)

  function Follow(clients: seq<string>, t: Track, step: Step): Track {
    match step
    case Tick(results) => t.(log := t.log + results)
    case Suspicion(name) => t.(suspects := Queue(t.suspects, name))
    case Reprobe(outcome) =>
      if t.suspects == [] then t
      else
        Track(t.suspects[1..],
              if t.suspects[0] in clients then t.log + [outcome.(name := t.suspects[0])] else t.log)
  }

  function FollowAll(clients: seq<string>, t: Track, steps: seq<Step>): Track {
    if steps == [] then t
    else Follow(clients, FollowAll(clients, t, steps[..|steps| - 1]), steps[|steps| - 1])
  }

  ghost predicate Possible(step: Step, clients: seq<string>) {
    match step
    case Tick(results) => Round(results, clients)
    case Reprobe(outcome) => Plausible(outcome)
    case Suspicion(_) => true
  }

  /** After any steps the snapshot is the function of the whole probe log, and covers every client. */
  method Loop(m: Monitor, first: seq<Probe>, steps: seq<Step>)
    requires m.Valid() && m.log == [] && m.suspects == []
    requires Round(first, m.clients) && forall k :: 0 <= k < |steps| ==> Possible(steps[k], m.clients)
    modifies m
    ensures m.Valid() && Publishes(m.snap, m.log)
    ensures Track(m.suspects, m.log) == FollowAll(m.clients, Track([], first), steps)
    ensures forall n :: n in m.snap <==> n in m.clients
  {
    hide Publishes, Remembers, Round;
    m.ProbeAll(first);
    assert [] + first == first;
    for k := 0 to |steps|
      invariant m.Valid() && forall n :: n in m.snap <==> n in m.clients
      invariant Track(m.suspects, m.log) == FollowAll(m.clients, Track([], first), steps[..k])
    {
      assert steps[..k + 1][..k] == steps[..k];
      assert Possible(steps[k], m.clients);
      match steps[k]
      case Tick(results) => m.ProbeAll(results);
      case Suspicion(name) => m.Suspect(name);
      case Reprobe(outcome) =>
        if m.suspects != [] {
          var name := m.suspects[0];
          m.suspects := m.suspects[1..];
          m.ProbeOne(outcome.(name := name));
        }
    }
    assert steps[..|steps|] == steps;
  }

  predicate Plausible(r: Probe) {
    !r.healthy ==> r.models == {}
  }

  /** One plausible result for every client, in any order. */
  ghost predicate Round(results: seq<Probe>, clients: seq<string>) {
    && (forall k :: 0 <= k < |results| ==> results[k].name in clients && Plausible(results[k]))
    && (forall i, j :: 0 <= i < j < |results| ==> results[i].name != results[j].name)
    && (forall n :: n in clients ==> Among(n, results, |results|))
  }

  /** `n` is the name of one of the first `k` results. */
  ghost predicate Among(n: string, results: seq<Probe>, k: nat) {
    exists i :: 0 <= i < k && i < |results| && results[i].name == n
  }

  ghost predicate Untouched(log0: seq<Probe>, log: seq<Probe>, results: seq<Probe>, k: nat) {
    forall n :: !Among(n, results, k) ==>
      LastProbe(log, n) == LastProbe(log0, n) && LastModels(log, n) == LastModels(log0, n)
  }

  ghost predicate Built(backends: Snapshot, log: seq<Probe>, results: seq<Probe>, k: nat) {
    forall n :: (n in backends <==> Among(n, results, k))
      && (n in backends ==> LastProbe(log, n).Some? && backends[n] == StateOf(log, n))
  }

  lemma {:induction false} NeverProbed(log: seq<Probe>, name: string)
    requires LastProbe(log, name) == None
    ensures LastModels(log, name) == {}
  {
    if log != [] {
      NeverProbed(log[..|log| - 1], name);
    }
  }

  lemma KnownModels(prev: Snapshot, log0: seq<Probe>, log: seq<Probe>, name: string, results: seq<Probe>, k: nat)
    requires Publishes(prev, log0) && Untouched(log0, log, results, k) && !Among(name, results, k)
    ensures name in prev ==> prev[name].models == LastModels(log, name)
    ensures name !in prev ==> LastModels(log, name) == {}
  {
    hide LastModels, LastProbe;
    if name !in prev {
      NeverProbed(log0, name);
    }
  }

  lemma KnownNow(snap: Snapshot, log: seq<Probe>, name: string)
    requires Publishes(snap, log)
    ensures name in snap ==> snap[name].models == LastModels(log, name)
    ensures name !in snap ==> LastModels(log, name) == {}
  {
    hide LastModels, LastProbe, UpperMedian;
    if name !in snap {
      NeverProbed(log, name);
    }
  }

  lemma BuiltNext(backends: Snapshot, log0: seq<Probe>, log: seq<Probe>, r: Probe, s: BackendState,
                  results: seq<Probe>, k: nat)
    requires k < |results| && r == results[k] && !Among(r.name, results, k)
    requires Untouched(log0, log, results, k) && Built(backends, log, results, k)
    requires LastProbe(log + [r], r.name).Some? && s == StateOf(log + [r], r.name)
    ensures Untouched(log0, log + [r], results, k + 1) && Built(backends[r.name := s], log + [r], results, k + 1)
  {
    hide StateOf, LastModels, LastProbe;
    forall n ensures Among(n, results, k + 1) <==> Among(n, results, k) || n == r.name {
      assert n == r.name ==> results[k].name == n;
    }
    forall n | n != r.name && !Among(n, results, k + 1)
      ensures LastProbe(log + [r], n) == LastProbe(log0, n) && LastModels(log + [r], n) == LastModels(log0, n)
    {
      OtherNext(log, r, n);
    }
    forall n | n != r.name && n in backends
      ensures LastProbe(log + [r], n).Some? && backends[n] == StateOf(log + [r], n)
    {
      OtherNext(log, r, n);
    }
  }

  /** A probe leaves what is known of other backends as it was. */
  lemma OtherNext(log: seq<Probe>, r: Probe, n: string)
    requires n != r.name
    ensures LastProbe(log + [r], n) == LastProbe(log, n) && LastModels(log + [r], n) == LastModels(log, n)
    ensures LastProbe(log, n).Some? ==> StateOf(log + [r], n) == StateOf(log, n)
  {
    hide UpperMedian;
    LogNext(log, r);
    assert Latencies(log, n) + [] == Latencies(log, n);
  }

  lemma PublishesNext(snap: Snapshot, log: seq<Probe>, r: Probe, s: BackendState)
    requires Publishes(snap, log)
    requires LastProbe(log + [r], r.name).Some? && s == StateOf(log + [r], r.name)
    ensures Publishes(snap[r.name := s], log + [r])
  {
    hide StateOf, LastModels, LastProbe;
    forall n | n != r.name
      ensures LastProbe(log + [r], n) == LastProbe(log, n)
      ensures LastProbe(log, n).Some? ==> StateOf(log + [r], n) == StateOf(log, n)
    {
      OtherNext(log, r, n);
    }
  }

  lemma AllBuilt(backends: Snapshot, log0: seq<Probe>, log: seq<Probe>, prev: Snapshot, results: seq<Probe>,
                 clients: seq<string>)
    requires Built(backends, log, results, |results|) && Untouched(log0, log, results, |results|)
    requires Publishes(prev, log0) && Round(results, clients) && forall n :: n in prev ==> n in clients
    ensures Publishes(backends, log) && forall n :: n in backends <==> n in clients
  {
    hide Latencies, LastModels, LastProbe, UpperMedian, StateOf;
    forall n ensures Among(n, results, |results|) <==> n in clients {
    }
  }

  function Queue(suspects: seq<string>, name: string): seq<string> {
    if |suspects| < SUSPECT_BUFFER then suspects + [name] else suspects
  }

  method Median(samples: seq<int>) returns (m: int)
    ensures m == UpperMedian(samples)
  {
    if samples == [] {
      return 0;
    }
    hide SortBy;
    var cp := new int[|samples|](i requires 0 <= i < |samples| => samples[i]);
    assert cp[..] == samples;
    SortInPlace(cp, AsReal);
    ghost var sorted := cp[..];
    assert sorted == SortBy(AsReal, samples);
    m := cp[cp.Length / 2];
    assert m == sorted[|samples| / 2];
  }
}
