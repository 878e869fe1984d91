/** The pareto order is the unique list of the healthy candidates sorted by tier, cost and original
    position. */
module ParetoLaws {
  import opened Fleet
  import opened StableSort
  import opened Selectors

  /** Candidate number `i`, by position. */
  function At(cands: seq<Candidate>): int -> Candidate {
    (i: int) => if 0 <= i < |cands| then cands[i] else Candidate("", "", 0.0)
  }

  /** The positions of `cands` a filter keeps, ascending. */
  function Kept(keep: Candidate -> bool, cands: seq<Candidate>, n: nat): seq<int>
    requires n <= |cands|
  {
    if n == 0 then [] else Kept(keep, cands, n - 1) + if keep(cands[n - 1]) then [n - 1] else []
  }

  lemma {:induction false} KeptPicks(keep: Candidate -> bool, cands: seq<Candidate>, n: nat)
    requires n <= |cands|
    ensures Filter(keep, cands[..n]) == Pick(At(cands), Kept(keep, cands, n))
    decreases n
  {
    hide Filter;
    if n == 0 {
      NoneFiltered(keep, cands[..0]);
      assert Pick(At(cands), []) == [];
    } else {
      KeptPicks(keep, cands, n - 1);
      FilterNext(keep, cands, n - 1);
    }
  }

  lemma {:induction false} KeptHas(keep: Candidate -> bool, cands: seq<Candidate>, n: nat)
    requires n <= |cands|
    ensures forall y :: y in Kept(keep, cands, n) <==> 0 <= y < n && keep(cands[y])
    decreases n
  {
    if n > 0 {
      KeptHas(keep, cands, n - 1);
    }
  }

  lemma {:induction false} KeptAscends(keep: Candidate -> bool, cands: seq<Candidate>, n: nat)
    requires n <= |cands|
    ensures Rising(Kept(keep, cands, n))
    decreases n
  {
    if n > 0 {
      KeptAscends(keep, cands, n - 1);
      KeptHas(keep, cands, n - 1);
      var before := Kept(keep, cands, n - 1);
      forall i | 0 <= i < |before| ensures before[i] < n - 1 {
        var y := before[i];
        assert y in before;
      }
      assert Rising(before + [n - 1]);
    }
  }

  lemma NoneFiltered(keep: Candidate -> bool, s: seq<Candidate>)
    requires s == []
    ensures Filter(keep, s) == []
  {
  }

  function CostAt(snap: Snapshot, cands: seq<Candidate>): int -> real {
    (i: int) => CostIn(snap)(At(cands)(i))
  }

  /** The pareto order as positions. */
  function Positions(snap: Snapshot, healthy: seq<Candidate>, bar: real): seq<int> {
    SortBy(CostAt(snap, healthy), Kept(Clears(bar), healthy, |healthy|))
    + SortBy(CostAt(snap, healthy), Kept(Misses(bar), healthy, |healthy|))
  }

  /** Earlier: in the tier before below the bar, then cheaper, then listed before. */
  predicate Precedes(snap: Snapshot, healthy: seq<Candidate>, bar: real, x: int, y: int) {
    var inX, inY := At(healthy)(x).quality >= bar, At(healthy)(y).quality >= bar;
    (inX && !inY) || (inX == inY && Below(CostAt(snap, healthy), x, y))
  }

  ghost function Order(snap: Snapshot, healthy: seq<Candidate>, bar: real): (int, int) -> bool {
    (x, y) => Precedes(snap, healthy, bar, x, y)
  }

  /** Every position once, sorted by tier, cost and position. */
  ghost predicate Arranged(snap: Snapshot, healthy: seq<Candidate>, bar: real, p: seq<int>) {
    && (forall x :: x in p <==> 0 <= x < |healthy|)
    && Sorted(Order(snap, healthy, bar), p)
  }

  lemma TierLaw(snap: Snapshot, healthy: seq<Candidate>, keep: Candidate -> bool)
    ensures var s := SortBy(CostAt(snap, healthy), Kept(keep, healthy, |healthy|));
      && Ranked(snap, Filter(keep, healthy)) == Pick(At(healthy), s)
      && Ordered(CostAt(snap, healthy), s)
      && forall y :: y in s <==> 0 <= y < |healthy| && keep(healthy[y])
  {
    hide SortBy, Kept, Filter, Cost;
    var ps := Kept(keep, healthy, |healthy|);
    KeptPicks(keep, healthy, |healthy|);
    KeptHas(keep, healthy, |healthy|);
    KeptAscends(keep, healthy, |healthy|);
    assert healthy[..|healthy|] == healthy;
    SortOrders(CostAt(snap, healthy), ps);
    SortMapped(CostIn(snap), At(healthy), CostAt(snap, healthy), ps);
  }

  /** The selector returns the candidates at its positions, and the positions are arranged. */
  lemma ParetoIsArranged(snap: Snapshot, cands: seq<Candidate>, bar: real)
    ensures var healthy := HealthyOnes(snap, cands);
      var p := Positions(snap, healthy, bar);
      ParetoOrdered(snap, cands, bar) == Pick(At(healthy), p) && Arranged(snap, healthy, bar, p)
  {
    hide SortBy, Kept, Filter, Ranked, HealthyOnes, Cost;
    var healthy := HealthyOnes(snap, cands);
    TierLaw(snap, healthy, Clears(bar));
    TierLaw(snap, healthy, Misses(bar));
    var a := SortBy(CostAt(snap, healthy), Kept(Clears(bar), healthy, |healthy|));
    var b := SortBy(CostAt(snap, healthy), Kept(Misses(bar), healthy, |healthy|));
    assert Pick(At(healthy), a + b) == Pick(At(healthy), a) + Pick(At(healthy), b);
    JoinTiers(snap, healthy, bar, a, b);
  }

  lemma JoinTiers(snap: Snapshot, healthy: seq<Candidate>, bar: real, a: seq<int>, b: seq<int>)
    requires Ordered(CostAt(snap, healthy), a) && Ordered(CostAt(snap, healthy), b)
    requires forall y :: y in a <==> 0 <= y < |healthy| && healthy[y].quality >= bar
    requires forall y :: y in b <==> 0 <= y < |healthy| && !(healthy[y].quality >= bar)
    ensures Arranged(snap, healthy, bar, a + b)
  {
    hide CostAt, Below;
    var p := a + b;
    forall k | 0 <= k < |a| ensures 0 <= a[k] < |healthy| && healthy[a[k]].quality >= bar {
      var y := a[k];
      assert y in a;
    }
    forall k | 0 <= k < |b| ensures 0 <= b[k] < |healthy| && !(healthy[b[k]].quality >= bar) {
      var y := b[k];
      assert y in b;
    }
    forall i, j | 0 <= i < j < |p| ensures Order(snap, healthy, bar)(p[i], p[j]) {
      if j < |a| {
        assert Below(CostAt(snap, healthy), a[i], a[j]);
      } else if i >= |a| {
        assert Below(CostAt(snap, healthy), b[i - |a|], b[j - |a|]);
      }
    }
  }

  /** No other arrangement exists, so every arranged list of positions is the pareto order. */
  lemma ParetoIsUnique(snap: Snapshot, cands: seq<Candidate>, bar: real, p: seq<int>)
    requires Arranged(snap, HealthyOnes(snap, cands), bar, p)
    ensures ParetoOrdered(snap, cands, bar) == Pick(At(HealthyOnes(snap, cands)), p)
  {
    hide ParetoOrdered, HealthyOnes, Positions, CostAt;
    var healthy := HealthyOnes(snap, cands);
    ParetoIsArranged(snap, cands, bar);
    SortedIsUnique(Order(snap, healthy, bar), p, Positions(snap, healthy, bar));
  }

  // ----- the cost -----

  /** Twice the cost in nanoseconds: two for one of median latency, a whole second for a request in flight. */
  function Weight(s: BackendState): int {
    2 * s.p50 + 1000000000 * s.inFlight
  }

  /** One backend is cheaper than another exactly when it weighs less; one without a state costs nothing. */
  lemma CostIsWeight(snap: Snapshot, a: Candidate, b: Candidate)
    ensures a.backend in snap && b.backend in snap ==>
      (Cost(snap, a) < Cost(snap, b) <==> Weight(snap[a.backend]) < Weight(snap[b.backend]))
    ensures a.backend in snap ==> (Cost(snap, a) == 0.0 <==> Weight(snap[a.backend]) == 0)
    ensures a.backend !in snap ==> Cost(snap, a) == 0.0
  {
    if a.backend in snap {
      CostScaled(snap, a);
    }
    if b.backend in snap {
      CostScaled(snap, b);
    }
  }

  lemma CostScaled(snap: Snapshot, c: Candidate)
    requires c.backend in snap
    ensures Cost(snap, c) * 2000000000.0 == Weight(snap[c.backend]) as real
  {
  }

  /** A second of latency costs as much as two requests in flight. */
  lemma SecondIsTwoRequests(snap: Snapshot, c: Candidate)
    requires c.backend in snap
    ensures var s := snap[c.backend];
      Cost(snap[c.backend := s.(p50 := s.p50 + 1000000000)], c) == Cost(snap[c.backend := s.(inFlight := s.inFlight + 2)], c)
  {
    var s := snap[c.backend];
    CostScaled(snap[c.backend := s.(p50 := s.p50 + 1000000000)], c);
    CostScaled(snap[c.backend := s.(inFlight := s.inFlight + 2)], c);
  }
}
