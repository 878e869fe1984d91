/** The two selectors and the protocol preference (internal/router/selector.go,
    internal/router/proxy.go). */
module Selectors {
  import opened Wrappers
  import opened Fleet
  import opened StableSort

  // ----- what each selector orders -----

  function HealthyIn(snap: Snapshot): Candidate -> bool {
    (c: Candidate) => IsHealthy(snap, c.backend)
  }

  function Clears(bar: real): Candidate -> bool {
    (c: Candidate) => c.quality >= bar
  }

  function Misses(bar: real): Candidate -> bool {
    (c: Candidate) => !(c.quality >= bar)
  }

  function Speaking(backends: map<string, string>, consumer: string): Candidate -> bool {
    (c: Candidate) => Speaks(backends, c, consumer)
  }

  function NotSpeaking(backends: map<string, string>, consumer: string): Candidate -> bool {
    (c: Candidate) => !Speaks(backends, c, consumer)
  }

  function CostIn(snap: Snapshot): Candidate -> real {
    (c: Candidate) => Cost(snap, c)
  }

  function HealthyOnes(snap: Snapshot, cands: seq<Candidate>): seq<Candidate> {
    Filter(HealthyIn(snap), cands)
  }

  function Rotate<T>(s: seq<T>, k: nat): seq<T>
    requires k <= |s|
  {
    s[k..] + s[..k]
  }

  /** One per second of median latency, a half per request in flight. */
  function Cost(snap: Snapshot, c: Candidate): real {
    if c.backend !in snap then 0.0
    else 1.0 * (snap[c.backend].p50 as real / 1000000000.0) + 0.5 * (snap[c.backend].inFlight as real)
  }

  function Ranked(snap: Snapshot, cands: seq<Candidate>): seq<Candidate> {
    SortBy(CostIn(snap), cands)
  }

  function ParetoOrdered(snap: Snapshot, cands: seq<Candidate>, bar: real): seq<Candidate> {
    var healthy := HealthyOnes(snap, cands);
    Ranked(snap, Filter(Clears(bar), healthy))
    + Ranked(snap, Filter(Misses(bar), healthy))
  }

  /** Candidates of the consumer's protocol first. */
  function Preferred(cands: seq<Candidate>, backends: map<string, string>, consumer: string): seq<Candidate> {
    if consumer == "" || |cands| < 2 then cands
    else
      Filter(Speaking(backends, consumer), cands)
      + Filter(NotSpeaking(backends, consumer), cands)
  }

  predicate Speaks(backends: map<string, string>, c: Candidate, consumer: string) {
    c.backend in backends && backends[c.backend] == consumer
  }

  // ----- the selectors -----

  method FilterHealthy(snap: Snapshot, cands: seq<Candidate>) returns (out: seq<Candidate>)
    ensures out == HealthyOnes(snap, cands)
  {
    out := [];
    for k := 0 to |cands|
      invariant out == Filter(HealthyIn(snap), cands[..k])
    {
      FilterNext(HealthyIn(snap), cands, k);
      if cands[k].backend in snap && snap[cands[k].backend].healthy {
        out := out + [cands[k]];
      }
    }
    assert cands[..|cands|] == cands;
  }

  const WRAP: nat := 0x1_0000_0000_0000_0000

  type Count = c: nat | c < WRAP

  /** atomic.Uint64 arithmetic. */
  function Next(c: Count): Count {
    (c + 1) % WRAP
  }

  class RoundRobinSelector {
    var counter: Count

    constructor ()
      ensures counter == 0
    {
      counter := 0;
    }

    method Order(snap: Snapshot, cands: seq<Candidate>) returns (out: seq<Candidate>)
      modifies this
      ensures var healthy := HealthyOnes(snap, cands);
        if healthy == [] then out == [] && counter == old(counter)
        else out == Rotate(healthy, old(counter) % |healthy|) && counter == Next(old(counter))
    {
      var healthy := FilterHealthy(snap, cands);
      var n := |healthy|;
      if n == 0 {
        return [];
      }
      hide HealthyOnes, Rotate;
      NextBack(counter);
      counter := (counter + 1) % WRAP;
      var start := ((counter + WRAP - 1) % WRAP) % n;
      out := RotateFrom(healthy, start);
    }
  }

  method RotateFrom(s: seq<Candidate>, start: nat) returns (out: seq<Candidate>)
    requires start < |s|
    ensures out == Rotate(s, start)
  {
    var n := |s|;
    out := [];
    for i := 0 to n
      invariant |out| == i && forall k :: 0 <= k < i ==> out[k] == Rotate(s, start)[k]
    {
      ModOnce(start + i, n);
      out := out + [s[(start + i) % n]];
    }
  }

  /** Subtracting one again gives the value before the addition, across the wrap too. */
  lemma NextBack(c: Count)
    ensures (Next(c) + WRAP - 1) % WRAP == c
  {
    if c + 1 < WRAP {
      ModOnce(c + 1, WRAP);
      ModOnce(c + WRAP, WRAP);
    } else {
      ModOnce(WRAP, WRAP);
      ModOnce(WRAP - 1, WRAP);
    }
  }

  lemma ModOnce(x: nat, n: nat)
    requires 0 < n && x < 2 * n
    ensures x % n == if x < n then x else x - n
  {
  }

  /** rankByCost, on the slice it is given. */
  method RankByCost(snap: Snapshot, cands: array<Candidate>)
    modifies cands
    ensures cands[..] == Ranked(snap, old(cands[..]))
  {
    SortInPlace(cands, CostIn(snap));
  }

  lemma NoneRanked(snap: Snapshot)
    ensures Ranked(snap, []) == []
  {
  }

  method RankTier(snap: Snapshot, tier: seq<Candidate>) returns (out: seq<Candidate>)
    ensures out == Ranked(snap, tier)
  {
    hide Ranked;
    var a := new Candidate[|tier|](i requires 0 <= i < |tier| => tier[i]);
    assert a[..] == tier;
    RankByCost(snap, a);
    out := a[..];
  }

  /** `override` is the request's own quality bar, when it names one. */
  method ParetoOrder(snap: Snapshot, cands: seq<Candidate>, minQuality: real, override: Option<real>)
    returns (out: seq<Candidate>)
    ensures out == ParetoOrdered(snap, cands, if override.Some? then override.value else minQuality)
  {
    hide Ranked, HealthyOnes;
    var bar := minQuality;
    if override.Some? {
      bar := override.value;
    }
    var healthy := FilterHealthy(snap, cands);
    if healthy == [] {
      NoneRanked(snap);
      return [];
    }
    var inTier, relaxed := [], [];
    for k := 0 to |healthy|
      invariant inTier == Filter(Clears(bar), healthy[..k]) && relaxed == Filter(Misses(bar), healthy[..k])
    {
      FilterNext(Clears(bar), healthy, k);
      FilterNext(Misses(bar), healthy, k);
      if healthy[k].quality >= bar {
        inTier := inTier + [healthy[k]];
      } else {
        relaxed := relaxed + [healthy[k]];
      }
    }
    assert healthy[..|healthy|] == healthy;
    inTier := RankTier(snap, inTier);
    relaxed := RankTier(snap, relaxed);
    out := inTier + relaxed;
  }

  method PreferSameProtocol(cands: seq<Candidate>, backends: map<string, string>, consumer: string)
    returns (out: seq<Candidate>)
    ensures out == Preferred(cands, backends, consumer)
  {
    if consumer == "" || |cands| < 2 {
      return cands;
    }
    var same, other := [], [];
    for k := 0 to |cands|
      invariant same == Filter(Speaking(backends, consumer), cands[..k])
      invariant other == Filter(NotSpeaking(backends, consumer), cands[..k])
    {
      FilterNext(Speaking(backends, consumer), cands, k);
      FilterNext(NotSpeaking(backends, consumer), cands, k);
      if cands[k].backend in backends && backends[cands[k].backend] == consumer {
        same := same + [cands[k]];
      } else {
        other := other + [cands[k]];
      }
    }
    assert cands[..|cands|] == cands;
    out := same + other;
  }
}
