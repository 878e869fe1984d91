/** What the monitor's numbers mean, and what becomes of a suspicion. */
module MonitorLaws {
  import opened Wrappers
  import opened Fleet
  import opened StableSort
  import opened Monitor

  // ----- the median -----

  function Below(s: seq<int>, m: int): nat {
    if s == [] then 0 else Below(s[..|s| - 1], m) + if s[|s| - 1] < m then 1 else 0
  }

  function AtMost(s: seq<int>, m: int): nat {
    if s == [] then 0 else AtMost(s[..|s| - 1], m) + if s[|s| - 1] <= m then 1 else 0
  }

  lemma {:induction false} InsertCounts(s: seq<int>, x: int, m: int)
    ensures Below(InsertLast(AsReal, s, x), m) == Below(s, m) + if x < m then 1 else 0
    ensures AtMost(InsertLast(AsReal, s, x), m) == AtMost(s, m) + if x <= m then 1 else 0
  {
    if s != [] && !(s[|s| - 1] <= x) {
      InsertCounts(s[..|s| - 1], x, m);
      var r := InsertLast(AsReal, s[..|s| - 1], x);
      assert InsertLast(AsReal, s, x) == r + [s[|s| - 1]];
      assert (r + [s[|s| - 1]])[..|r|] == r;
    } else {
      assert InsertLast(AsReal, s, x) == s + [x] && (s + [x])[..|s|] == s;
    }
  }

  lemma {:induction false} SortCounts(s: seq<int>, m: int)
    ensures Below(SortBy(AsReal, s), m) == Below(s, m) && AtMost(SortBy(AsReal, s), m) == AtMost(s, m)
  {
    if s != [] {
      SortCounts(s[..|s| - 1], m);
      InsertCounts(SortBy(AsReal, s[..|s| - 1]), s[|s| - 1], m);
    }
  }

  /** In an ascending list position `k` has at most `k` smaller ones, and more than `k` not larger. */
  lemma {:induction false} AscendingCounts(r: seq<int>, k: nat, n: nat)
    requires Ascending(r) && k < |r| && n <= |r|
    ensures Below(r[..n], r[k]) <= if n <= k then n else k
    ensures AtMost(r[..n], r[k]) >= if n <= k then n else k + 1
  {
    if n > 0 {
      AscendingCounts(r, k, n - 1);
      assert r[..n][..n - 1] == r[..n - 1];
    }
  }

  /** `m` is a sample, at most half of the samples are smaller, and more than half are not larger. */
  predicate Middle(s: seq<int>, m: int) {
    m in s && Below(s, m) <= |s| / 2 < AtMost(s, m)
  }

  lemma MedianIsMiddle(s: seq<int>)
    requires s != []
    ensures Middle(s, UpperMedian(s))
  {
    var r := SortBy(AsReal, s);
    SortAscends(s);
    AscendingCounts(r, |s| / 2, |r|);
    assert r[..|r|] == r;
    SortCounts(s, r[|s| / 2]);
    assert r[|s| / 2] in multiset(r);
  }

  lemma {:induction false} CountsRise(s: seq<int>, m: int, k: int)
    requires m < k
    ensures AtMost(s, m) <= Below(s, k)
  {
    if s != [] {
      CountsRise(s[..|s| - 1], m, k);
    }
  }

  /** No other number is in the middle. */
  lemma MiddleIsMedian(s: seq<int>, m: int)
    requires Middle(s, m)
    ensures m == UpperMedian(s)
  {
    MedianIsMiddle(s);
    var u := UpperMedian(s);
    if m < u {
      CountsRise(s, m, u);
    } else if u < m {
      CountsRise(s, u, m);
    }
  }

  // ----- suspicions -----

  /** A suspicion is pending afterwards unless the channel was full without it, so a dropped one need
      not be covered by a pending re-probe of the same name. */
  lemma PendingUnlessFull(suspects: seq<string>, name: string)
    ensures name in Queue(suspects, name) <==> |suspects| < 64 || name in suspects
    ensures suspects <= Queue(suspects, name) && |Queue(suspects, name)| <= |suspects| + 1
  {
  }

  /** `k` suspicions of one name. */
  function Suspicions(name: string, k: nat): seq<Step> {
    seq(k, _ => Suspicion(name))
  }

  lemma {:induction false} SuspicionsQueue(clients: seq<string>, first: seq<Probe>, name: string, k: nat)
    requires k <= SUSPECT_BUFFER
    ensures FollowAll(clients, Track([], first), Suspicions(name, k)) == Track(seq(k, _ => name), first)
  {
    if k > 0 {
      SuspicionsQueue(clients, first, name, k - 1);
      assert Suspicions(name, k)[..k - 1] == Suspicions(name, k - 1);
      assert seq(k - 1, _ => name) + [name] == seq(k, _ => name);
    }
  }

  /** After 64 suspicions of one backend, one of another is dropped, and no pending re-probe covers it. */
  lemma DroppedIsNotCovered(clients: seq<string>, first: seq<Probe>, name: string, other: string)
    requires name != other
    ensures var t := FollowAll(clients, Track([], first), Suspicions(other, SUSPECT_BUFFER) + [Suspicion(name)]);
      |t.suspects| == SUSPECT_BUFFER && name !in t.suspects && t.log == first
  {
    var steps := Suspicions(other, SUSPECT_BUFFER);
    SuspicionsQueue(clients, first, other, SUSPECT_BUFFER);
    assert (steps + [Suspicion(name)])[..|steps|] == steps;
  }

  predicate ProbedSince(log: seq<Probe>, from: nat, name: string) {
    exists k :: from <= k < |log| && log[k].name == name
  }

  lemma {:induction false} LogGrows(clients: seq<string>, t: Track, steps: seq<Step>)
    ensures t.log <= FollowAll(clients, t, steps).log
  {
    if steps != [] {
      LogGrows(clients, t, steps[..|steps| - 1]);
    }
  }

  /** Dropped or not, a suspected client has been probed again once a tick has passed. */
  lemma {:induction false} TickCovers(clients: seq<string>, t: Track, steps: seq<Step>, k: nat, name: string)
    requires name in clients && k < |steps| && steps[k].Tick? && Round(steps[k].results, clients)
    ensures ProbedSince(FollowAll(clients, t, steps).log, |t.log|, name)
  {
    var init, last := steps[..|steps| - 1], steps[|steps| - 1];
    var before, after := FollowAll(clients, t, init), FollowAll(clients, t, steps);
    LogGrows(clients, t, init);
    if k < |init| {
      TickCovers(clients, t, init, k, name);
      var j :| |t.log| <= j < |before.log| && before.log[j].name == name;
      assert before.log <= after.log;
      assert after.log[j].name == name;
    } else {
      assert Among(name, last.results, |last.results|);
      var i :| 0 <= i < |last.results| && last.results[i].name == name;
      assert after.log[|before.log| + i].name == name;
    }
  }

  /** How many of the steps read the channel. */
  function Reads(steps: seq<Step>): nat {
    if steps == [] then 0 else Reads(steps[..|steps| - 1]) + if steps[|steps| - 1].Reprobe? then 1 else 0
  }

  /** Pending suspicions are served in order: the one at position `j` waits for `j + 1` reads, whatever
      ticks and suspicions come between. */
  lemma {:induction false} PendingIsServed(clients: seq<string>, t: Track, steps: seq<Step>, j: nat, name: string)
    requires name in clients && j < |t.suspects| && t.suspects[j] == name
    ensures var after := FollowAll(clients, t, steps);
      if Reads(steps) <= j then j - Reads(steps) < |after.suspects| && after.suspects[j - Reads(steps)] == name
      else ProbedSince(after.log, |t.log|, name)
  {
    if steps != [] {
      var init := steps[..|steps| - 1];
      PendingIsServed(clients, t, init, j, name);
      LogGrows(clients, t, init);
      var before, after := FollowAll(clients, t, init), FollowAll(clients, t, steps);
      StepGrows(clients, before, steps[|steps| - 1]);
      if Reads(init) > j {
        var k :| |t.log| <= k < |before.log| && before.log[k].name == name;
        assert after.log[k].name == name;
      } else if Reads(steps) > j {
        assert after.log[|before.log|].name == name;
      }
    }
  }

  lemma StepGrows(clients: seq<string>, t: Track, step: Step)
    ensures t.log <= Follow(clients, t, step).log
  {
  }

  // ----- a published state, by positions in the log -----

  /** `k` is the last position up to which probes of `name` satisfy `which`. */
  predicate LastAt(log: seq<Probe>, name: string, healthyOnly: bool, k: nat) {
    && k < |log| && log[k].name == name && (healthyOnly ==> log[k].healthy)
    && forall i :: k < i < |log| ==> log[i].name != name || (healthyOnly && !log[i].healthy)
  }

  lemma {:induction false} LastProbeIs(log: seq<Probe>, name: string, k: nat)
    requires LastAt(log, name, false, k)
    ensures LastProbe(log, name) == Some(log[k])
  {
    var init := log[..|log| - 1];
    if k < |init| {
      assert log[|init|].name != name;
      LastProbeIs(init, name, k);
    }
  }

  lemma {:induction false} LastModelsAre(log: seq<Probe>, name: string, k: nat)
    requires LastAt(log, name, true, k)
    ensures LastModels(log, name) == log[k].models
  {
    var init := log[..|log| - 1];
    if k < |init| {
      assert log[|init|].name != name || !log[|init|].healthy;
      LastModelsAre(init, name, k);
    }
  }

  lemma {:induction false} NoModels(log: seq<Probe>, name: string)
    requires forall i :: 0 <= i < |log| ==> log[i].name != name || !log[i].healthy
    ensures LastModels(log, name) == {} && Latencies(log, name) == []
  {
    if log != [] {
      NoModels(log[..|log| - 1], name);
    }
  }

  function Succeeded(name: string): Probe -> bool {
    (p: Probe) => p.name == name && p.healthy
  }

  lemma {:induction false} LatenciesAre(log: seq<Probe>, name: string)
    ensures var good := Filter(Succeeded(name), log);
      |Latencies(log, name)| == |good| && forall i :: 0 <= i < |good| ==> Latencies(log, name)[i] == good[i].latency
  {
    if log != [] {
      LatenciesAre(log[..|log| - 1], name);
    }
  }

  /** What is published of a backend last probed at `k`: that probe's health and load, the models of the last
      successful probe, if any, and the middle of the last twenty successful latencies. */
  lemma StateIs(log: seq<Probe>, name: string, k: nat)
    requires LastAt(log, name, false, k)
    ensures LastProbe(log, name).Some?
    ensures var s := StateOf(log, name);
      var good := Latencies(log, name);
      && s.name == name && s.healthy == log[k].healthy && s.inFlight == log[k].inFlight
      && (forall j :: 0 <= j < |log| && LastAt(log, name, true, j) ==> s.models == log[j].models)
      && (good == [] ==> s.p50 == 0)
      && (good != [] ==> Middle(if |good| <= 20 then good else good[|good| - 20..], s.p50))
  {
    hide LastProbe, LastModels, Latencies, UpperMedian, Middle;
    LastProbeIs(log, name, k);
    forall j | 0 <= j < |log| && LastAt(log, name, true, j) ensures LastModels(log, name) == log[j].models {
      LastModelsAre(log, name, j);
    }
    var good := Latencies(log, name);
    if good == [] {
      NoMedian();
    } else {
      MedianIsMiddle(if |good| <= 20 then good else good[|good| - 20..]);
    }
  }

  lemma NoMedian()
    ensures UpperMedian([]) == 0
  {
  }
}
