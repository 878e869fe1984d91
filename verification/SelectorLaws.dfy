/** What the selectors promise: fair rotation, the load share protocol preference leaves, and the
    pareto order as the only one of its kind. */
module SelectorLaws {
  import opened Fleet
  import opened StableSort
  import opened Selectors

  // ----- round robin: consecutive calls on one list of n candidates -----

  /** How often index `j` comes first in `k` calls from counter value `c` on. */
  function Firsts(c: Count, k: nat, n: nat, j: nat): nat
    requires n > 0
    decreases k
  {
    if k == 0 then 0 else (if c % n == j then 1 else 0) + Firsts(Next(c), k - 1, n, j)
  }

  /** Positions on a circle of n. */
  function Wrap(x: nat, n: nat): (r: nat)
    requires x < 2 * n
    ensures r < n
  {
    if x < n then x else x - n
  }

  /** How many of the calls 0, 1, .., k-1 are d, d+n, d+2n, .. */
  function Turns(k: int, d: nat, n: nat): nat
    requires d < n
    decreases if k <= d then 0 else k
  {
    if k <= d then 0 else 1 + Turns(k - n, d, n)
  }

  lemma {:induction false} TurnsShift(k: int, d: nat, n: nat, s: nat)
    requires d + s < n
    ensures Turns(k + s, d + s, n) == Turns(k, d, n)
    decreases if k <= d then 0 else k
  {
    if k > d {
      TurnsShift(k - n, d, n, s);
    }
  }

  /** The counter does not wrap during `k` calls, or its wrap is no jump on a circle of n. */
  predicate Smooth(c: Count, k: nat, n: nat)
    requires n > 0
  {
    c + k <= WRAP || WRAP % n == 0
  }

  lemma NextMod(c: Count, n: nat)
    requires n > 0 && Smooth(c, 2, n)
    ensures Next(c) % n == Wrap(c % n + 1, n)
  {
    StepMod(c, n);
    if c + 1 < WRAP {
      ModOnce(c + 1, WRAP);
    } else {
      ModOnce(WRAP, WRAP);
      ModOnce(0, n);
    }
  }

  /** Index `j` comes first at the calls that are its distance from the start, counted round. */
  lemma {:induction false} FirstsIsTurns(c: Count, k: nat, n: nat, j: nat)
    requires j < n && Smooth(c, k, n)
    ensures Firsts(c, k, n, j) == Turns(k, Wrap(j + n - c % n, n), n)
    decreases k
  {
    if k > 0 {
      if k > 1 {
        NextMod(c, n);
        if c + 1 < WRAP {
          ModOnce(c + 1, WRAP);
        }
        FirstsIsTurns(Next(c), k - 1, n, j);
      }
      OneTurn(k, c % n, n, j);
    }
  }

  /** Counting from position `p`: one for the call at `p` itself, then on from the next position. */
  lemma OneTurn(k: nat, p: nat, n: nat, j: nat)
    requires 0 < k && p < n && j < n
    ensures var next := Wrap(p + 1, n);
      Turns(k, Wrap(j + n - p, n), n)
        == (if p == j then 1 else 0) + Turns(k - 1, Wrap(j + n - next, n), n)
  {
    if p == j {
      TurnsShift(k - n, 0, n, n - 1);
    } else {
      TurnsShift(k - 1, Wrap(j + n - p, n) - 1, n, 1);
    }
  }

  lemma {:induction false} TurnsAreEven(k: int, d: nat, e: nat, n: nat)
    requires d < n && e < n
    ensures -1 <= Turns(k, d, n) - Turns(k, e, n) <= 1
    decreases if k <= d && k <= e then 0 else k
  {
    if k > d && k > e {
      TurnsAreEven(k - n, d, e, n);
    } else if k > d {
      assert Turns(k - n, d, n) == 0;
    } else if k > e {
      assert Turns(k - n, e, n) == 0;
    }
  }

  /** In `k` calls from `c` on, no two of n indices differ by more than one in how often they come first. */
  predicate Fair(c: Count, k: nat, n: nat, i: nat, j: nat)
    requires n > 0
  {
    -1 <= Firsts(c, k, n, i) - Firsts(c, k, n, j) <= 1
  }

  /** Over any consecutive calls the rotation is fair, unless the counter wraps on a length that does not
      divide its range. */
  lemma Fairness(c: Count, k: nat, n: nat, i: nat, j: nat)
    requires i < n && j < n && Smooth(c, k, n)
    ensures Fair(c, k, n, i, j)
  {
    FirstsIsTurns(c, k, n, i);
    FirstsIsTurns(c, k, n, j);
    TurnsAreEven(k, Wrap(i + n - c % n, n), Wrap(j + n - c % n, n), n);
  }

  /** Where the counter wraps and n does not divide its range, one index comes first twice before
      another has come first at all. */
  lemma WrapIsUnfair(n: nat)
    requires n > 0 && WRAP % n != 0
    ensures var r := WRAP % n;
      Firsts(WRAP - 1, 1 + r, n, r - 1) == 2 && Firsts(WRAP - 1, 1 + r, n, n - 1) == 0
  {
    var r, last: Count := WRAP % n, WRAP - 1;
    StepMod(last, n);
    ModOnce(WRAP, WRAP);
    ModOnce(0, n);
    assert last % n == r - 1;
    forall j: nat | j < n ensures Firsts(0, r, n, j) == Turns(r, j, n) {
      RemainderFits(n);
      FirstsIsTurns(0, r, n, j);
    }
    assert Turns(r - n, r - 1, n) == 0;
  }

  lemma RemainderFits(n: nat)
    requires n > 0
    ensures WRAP % n <= WRAP
  {
    var q := WRAP / n;
    assert WRAP == n * q + WRAP % n;
  }

  /** Three candidates: the first leads twice in a row over the wrap, the second not at all. */
  lemma WrapIsUnfairForThree()
    ensures Firsts(WRAP - 1, 2, 3, 0) == 2 && Firsts(WRAP - 1, 2, 3, 1) == 0
  {
    var last: Count := WRAP - 1;
    assert last % 3 == 0 && Next(last) == 0;
    assert forall j: nat :: Firsts(0, 0, 3, j) == 0;
    assert forall j: nat :: Firsts(0, 1, 3, j) == if j == 0 then 1 else 0;
  }

  /** The rotation of n candidates is fair over every run of calls exactly when n divides the range of
      the counter. */
  lemma FairIffDivides(n: nat)
    requires n > 0
    ensures (forall c: Count, k: nat, i: nat, j: nat :: i < n && j < n ==> Fair(c, k, n, i, j)) <==> WRAP % n == 0
  {
    if WRAP % n == 0 {
      forall c: Count, k: nat, i: nat, j: nat | i < n && j < n ensures Fair(c, k, n, i, j) {
        Fairness(c, k, n, i, j);
      }
    } else {
      WrapIsUnfair(n);
      assert !Fair(WRAP - 1, 1 + WRAP % n, n, WRAP % n - 1, n - 1);
    }
  }

  /** The rotation moves on by one at every call, the wrapping one included, exactly when the list
      length divides the counter's range. */
  lemma WrapKeepsTurn(n: nat)
    requires 0 < n < WRAP
    ensures (forall c: Count :: Next(c) % n == (c % n + 1) % n) <==> WRAP % n == 0
  {
    var last: Count := WRAP - 1;
    ModOnce(WRAP, WRAP);
    assert Next(last) == 0;
    ModOnce(0, n);
    StepMod(last, n);
    forall c: Count ensures c != last ==> Next(c) % n == (c % n + 1) % n {
      if c != last {
        ModOnce(c + 1, WRAP);
        StepMod(c, n);
      }
    }
  }

  lemma StepMod(c: nat, n: nat)
    requires n > 0
    ensures (c + 1) % n == (c % n + 1) % n == Wrap(c % n + 1, n)
  {
    var q, r := c / n, c % n;
    assert c == n * q + r;
    if r + 1 < n {
      Remainder(c + 1, n, q, r + 1);
      Remainder(r + 1, n, 0, r + 1);
    } else {
      Remainder(c + 1, n, q + 1, 0);
      Remainder(n, n, 1, 0);
    }
  }

  lemma Remainder(x: nat, n: nat, q: nat, r: nat)
    requires r < n && x == n * q + r
    ensures x % n == r
  {
    var q', r' := x / n, x % n;
    assert x == n * q' + r';
    if q' < q {
      MulGap(n, q', q);
    } else if q < q' {
      MulGap(n, q, q');
    }
  }

  lemma {:induction false} MulGap(n: nat, a: nat, b: nat)
    requires a < b
    ensures n * a + n <= n * b
    decreases b
  {
    if a + 1 < b {
      MulGap(n, a, b - 1);
      assert n * b == n * (b - 1) + n;
    }
  }

  // ----- protocol preference on top of rotation -----

  predicate Any(same: seq<bool>) {
    exists i :: 0 <= i < |same| && same[i]
  }

  /** Whether the position `d` steps on from `r`, going round, speaks the protocol. */
  predicate Meets(same: seq<bool>, r: nat, d: nat)
    requires r < |same| && d < |same|
  {
    same[Wrap(r + d, |same|)]
  }

  /** The first same-protocol position met from `r + d` on, going round. */
  function LeadFrom(same: seq<bool>, r: nat, d: nat): (l: nat)
    requires r < |same| && d <= |same|
    ensures l < |same|
    decreases |same| - d
  {
    if d == |same| then r
    else if Meets(same, r, d) then Wrap(r + d, |same|)
    else LeadFrom(same, r, d + 1)
  }

  /** The position that leads after rotation by `r` and preference. */
  function Lead(same: seq<bool>, r: nat): nat
    requires r < |same|
  {
    LeadFrom(same, r, 0)
  }

  /** How many positions just before `i`, going round, speak another protocol. */
  function RunFrom(same: seq<bool>, i: nat, d: nat): (m: nat)
    requires i < |same| && d < |same|
    ensures d <= m < |same|
    decreases |same| - d
  {
    if d + 1 < |same| && !same[Back(same, i, d + 1)] then RunFrom(same, i, d + 1) else d
  }

  function Run(same: seq<bool>, i: nat): (m: nat)
    requires i < |same|
    ensures m < |same|
  {
    RunFrom(same, i, 0)
  }

  function Back(same: seq<bool>, i: nat, d: nat): (r: nat)
    requires i < |same| && d <= |same|
    ensures r < |same|
  {
    Wrap(i + |same| - d, |same|)
  }

  /** The rotations after which position `i` leads. */
  function Leads(same: seq<bool>, i: nat): set<nat> {
    set r: nat | 0 <= r < |same| && Lead(same, r) == i
  }

  /** The run is maximal: only other-protocol positions in it, and it stops at one that is not or at
      having gone all the way round. */
  lemma {:induction false} RunLaw(same: seq<bool>, i: nat, d: nat)
    requires i < |same| && d < |same|
    requires forall e :: 1 <= e <= d ==> !same[Back(same, i, e)]
    ensures var m := RunFrom(same, i, d);
      && (forall e :: 1 <= e <= m ==> !same[Back(same, i, e)])
      && (m + 1 < |same| ==> same[Back(same, i, m + 1)])
    decreases |same| - d
  {
    if d + 1 < |same| && !same[Back(same, i, d + 1)] {
      RunLaw(same, i, d + 1);
    }
  }

  /** LeadFrom stops at the nearest same-protocol position. */
  lemma {:induction false} LeadLaw(same: seq<bool>, r: nat, d: nat, e: nat)
    requires r < |same| && d <= e < |same| && Meets(same, r, e)
    requires forall f :: d <= f < e ==> !Meets(same, r, f)
    ensures LeadFrom(same, r, d) == Wrap(r + e, |same|)
    decreases e - d
  {
    if d < e {
      LeadLaw(same, r, d + 1, e);
    }
  }

  /** Position `i` leads from `r` exactly when the way from `r` to `i` stays in the run before `i`. */
  lemma LeadsIff(same: seq<bool>, i: nat, e: nat)
    requires i < |same| && same[i] && e < |same|
    ensures Lead(same, Back(same, i, e)) == i <==> e <= Run(same, i)
  {
    var n, r, m := |same|, Back(same, i, e), Run(same, i);
    RunLaw(same, i, 0);
    assert Wrap(r + e, n) == i;
    if e <= m {
      forall f | 0 <= f < e ensures !Meets(same, r, f) {
        assert Wrap(r + f, n) == Back(same, i, e - f);
      }
      LeadLaw(same, r, 0, e);
    } else {
      NearestLeads(same, i, e, m + 1);
    }
  }

  /** With another same-protocol position between, `i` does not lead. */
  lemma {:induction false} NearestLeads(same: seq<bool>, i: nat, e: nat, b: nat)
    requires i < |same| && 0 < b <= e < |same| && same[Back(same, i, b)]
    ensures Lead(same, Back(same, i, e)) != i
  {
    LeadsBefore(same, i, e, b, 0);
  }

  lemma {:induction false} LeadsBefore(same: seq<bool>, i: nat, e: nat, b: nat, d: nat)
    requires i < |same| && 0 < b <= e < |same| && same[Back(same, i, b)] && d <= e - b
    ensures LeadFrom(same, Back(same, i, e), d) != i
    decreases e - b - d
  {
    var n, r := |same|, Back(same, i, e);
    assert Wrap(r + d, n) == Back(same, i, e - d);
    if !Meets(same, r, d) {
      LeadsBefore(same, i, e, b, d + 1);
    }
  }

  /** The rotations led by `i` are the m+1 steps back from it. */
  function Steps(same: seq<bool>, i: nat, m: nat): set<nat>
    requires i < |same| && m < |same|
  {
    if m == 0 then {Back(same, i, 0)} else Steps(same, i, m - 1) + {Back(same, i, m)}
  }

  function Dist(same: seq<bool>, i: nat, r: nat): (e: nat)
    requires i < |same| && r < |same|
    ensures e < |same| && Back(same, i, e) == r
  {
    if r <= i then i - r else i + |same| - r
  }

  lemma {:induction false} StepsLaw(same: seq<bool>, i: nat, m: nat)
    requires i < |same| && m < |same|
    ensures |Steps(same, i, m)| == m + 1
    ensures forall r: nat :: r in Steps(same, i, m) <==> r < |same| && Dist(same, i, r) <= m
    decreases m
  {
    hide Back, Dist;
    forall r: nat | r < |same| ensures Dist(same, i, r) >= 0 && (Dist(same, i, r) == m <==> r == Back(same, i, m)) {
      BackDist(same, i, m, r);
    }
    if m > 0 {
      StepsLaw(same, i, m - 1);
    }
  }

  lemma BackDist(same: seq<bool>, i: nat, m: nat, r: nat)
    requires i < |same| && m < |same| && r < |same|
    ensures Dist(same, i, r) == m <==> r == Back(same, i, m)
  {
  }

  /** Over the n rotations a same-protocol candidate leads once for itself and once for every
      other-protocol candidate in the cyclic run just before it. */
  lemma LoadShare(same: seq<bool>, i: nat)
    requires i < |same| && same[i]
    ensures |Leads(same, i)| == 1 + Run(same, i)
  {
    var n, m := |same|, Run(same, i);
    StepsLaw(same, i, m);
    forall r: nat ensures r in Leads(same, i) <==> r in Steps(same, i, m) {
      if r < n {
        LeadsIff(same, i, Dist(same, i, r));
      }
    }
    assert Leads(same, i) == Steps(same, i, m);
  }

  /** The shares of the same-protocol candidates below `k`, added up. */
  function ShareSum(same: seq<bool>, k: nat): nat
    requires k <= |same|
  {
    if k == 0 then 0 else ShareSum(same, k - 1) + if same[k - 1] then |Leads(same, k - 1)| else 0
  }

  function LedBelow(same: seq<bool>, k: nat): set<nat> {
    set r: nat | 0 <= r < |same| && Lead(same, r) < k
  }

  lemma {:induction false} LeadIsSame(same: seq<bool>, r: nat, d: nat)
    requires r < |same| && d <= |same| && (exists e :: d <= e < |same| && Meets(same, r, e))
    ensures var l := LeadFrom(same, r, d); l < |same| && same[l]
    decreases |same| - d
  {
    if !Meets(same, r, d) {
      LeadIsSame(same, r, d + 1);
    }
  }

  lemma SomeAhead(same: seq<bool>, r: nat)
    requires r < |same| && Any(same)
    ensures exists e :: 0 <= e < |same| && Meets(same, r, e)
  {
    var i :| 0 <= i < |same| && same[i];
    var e := if r <= i then i - r else i + |same| - r;
    assert Wrap(r + e, |same|) == i;
    assert Meets(same, r, e);
  }

  lemma {:induction false} SharesCount(same: seq<bool>, k: nat)
    requires k <= |same| && Any(same)
    ensures ShareSum(same, k) == |LedBelow(same, k)|
    decreases k
  {
    if k == 0 {
      assert LedBelow(same, 0) == {};
    } else {
      SharesCount(same, k - 1);
      assert LedBelow(same, k) == LedBelow(same, k - 1) + Leads(same, k - 1);
      assert LedBelow(same, k - 1) !! Leads(same, k - 1);
      if !same[k - 1] {
        forall r: nat | r < |same| ensures Lead(same, r) != k - 1 {
          SomeAhead(same, r);
          LeadIsSame(same, r, 0);
        }
        assert Leads(same, k - 1) == {};
      }
    }
  }

  function Upto(n: nat): set<nat> {
    if n == 0 then {} else Upto(n - 1) + {n - 1}
  }

  lemma {:induction false} UptoLaw(n: nat)
    ensures |Upto(n)| == n
    ensures forall r: nat :: r in Upto(n) <==> r < n
    decreases n
  {
    if n > 0 {
      UptoLaw(n - 1);
    }
  }

  /** No rotation is lost: the shares add up to n. */
  lemma LoadShareSum(same: seq<bool>)
    requires Any(same)
    ensures ShareSum(same, |same|) == |same|
  {
    SharesCount(same, |same|);
    UptoLaw(|same|);
    forall r: nat | r < |same| ensures Lead(same, r) < |same| {
      SomeAhead(same, r);
      LeadIsSame(same, r, 0);
    }
    assert LedBelow(same, |same|) == Upto(|same|);
  }

  function SameFlags(healthy: seq<Candidate>, backends: map<string, string>, consumer: string): (same: seq<bool>)
    ensures |same| == |healthy|
    ensures forall k :: 0 <= k < |healthy| ==> same[k] == Speaks(backends, healthy[k], consumer)
  {
    seq(|healthy|, k requires 0 <= k < |healthy| => Speaks(backends, healthy[k], consumer))
  }

  /** What the router computes agrees: the head of the preferred rotation is the leading position. */
  lemma LeadIsFirst(healthy: seq<Candidate>, backends: map<string, string>, consumer: string, r: nat)
    requires r < |healthy| && consumer != ""
    requires Any(SameFlags(healthy, backends, consumer))
    ensures var out := Preferred(Rotate(healthy, r), backends, consumer);
      out != [] && out[0] == healthy[Lead(SameFlags(healthy, backends, consumer), r)]
  {
    var same := SameFlags(healthy, backends, consumer);
    var rot := Rotate(healthy, r);
    SomeAhead(same, r);
    LeadIsSame(same, r, 0);
    if |healthy| >= 2 {
      HeadOfFilter(healthy, backends, consumer, r, 0);
      assert rot[0..] == rot;
    } else {
      assert r == 0 && Lead(same, 0) == 0;
    }
  }

  lemma {:induction false} HeadOfFilter(healthy: seq<Candidate>, backends: map<string, string>, consumer: string,
                                        r: nat, d: nat)
    requires r < |healthy| && d <= |healthy|
    requires var same := SameFlags(healthy, backends, consumer);
      exists e :: d <= e < |same| && Meets(same, r, e)
    ensures var f := Filter(Speaking(backends, consumer), Rotate(healthy, r)[d..]);
      f != [] && f[0] == healthy[LeadFrom(SameFlags(healthy, backends, consumer), r, d)]
    decreases |healthy| - d
  {
    hide Filter;
    var same := SameFlags(healthy, backends, consumer);
    var rot := Rotate(healthy, r);
    assert rot[d] == healthy[Wrap(r + d, |same|)];
    assert rot[d..] == [rot[d]] + rot[d + 1..];
    FilterCons(Speaking(backends, consumer), rot[d], rot[d + 1..]);
    assert Speaking(backends, consumer)(rot[d]) == Meets(same, r, d);
    if !Meets(same, r, d) {
      HeadOfFilter(healthy, backends, consumer, r, d + 1);
    }
  }

  lemma {:induction false} FilterCons<T>(keep: T -> bool, x: T, s: seq<T>)
    ensures Filter(keep, [x] + s) == (if keep(x) then [x] else []) + Filter(keep, s)
    decreases |s|
  {
    if s == [] {
      assert [x] + s == [x] && [x][..0] == [];
    } else {
      assert ([x] + s)[..|s|] == [x] + s[..|s| - 1];
      FilterCons(keep, x, s[..|s| - 1]);
    }
  }
}
