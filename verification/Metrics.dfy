/** The metrics owner (internal/observability/metrics.go): it applies the operations it receives, one
    after the other, and renders what it has counted. */
module Metrics {
  import F = Fleet

  /** Upper bounds of the histogram buckets in seconds. */
  const BOUNDS: seq<real> := [0.05, 0.1, 0.25, 0.5, 1.0, 2.0, 5.0, 10.0, 30.0, 60.0]

  datatype Key = Key(backend: string, model: string, status: int)

  datatype Op =
    | RequestDone(key: Key, secs: real)
    | Failover
    | InFlight(delta: int)
    | Health(backend: string, healthy: bool)

  // ----- what the counters mean, from all operations so far -----

  function Count(ops: seq<Op>, which: Op -> bool): nat {
    if ops == [] then 0 else Count(ops[..|ops| - 1], which) + if which(ops[|ops| - 1]) then 1 else 0
  }

  function Within(bound: real): Op -> bool {
    (op: Op) => op.RequestDone? && op.secs <= bound
  }

  function IsDone(): Op -> bool {
    (op: Op) => op.RequestDone?
  }

  function IsFailover(): Op -> bool {
    (op: Op) => op.Failover?
  }

  function For(key: Key): Op -> bool {
    (op: Op) => op.RequestDone? && op.key == key
  }

  function In(bucket: nat): Op -> bool {
    (op: Op) => op.RequestDone? && Bucket(op.secs, 0) == bucket
  }

  function Gauge(ops: seq<Op>): int {
    if ops == [] then 0
    else
      var op := ops[|ops| - 1];
      Gauge(ops[..|ops| - 1]) + if op.InFlight? then op.delta else 0
  }

  function Sum(ops: seq<Op>): real {
    if ops == [] then 0.0
    else
      var op := ops[|ops| - 1];
      Sum(ops[..|ops| - 1]) + if op.RequestDone? then op.secs else 0.0
  }

  /** What was last said of each backend. */
  function LastHealth(ops: seq<Op>): map<string, bool> {
    if ops == [] then map[]
    else
      var op := ops[|ops| - 1];
      var before := LastHealth(ops[..|ops| - 1]);
      if op.Health? then before[op.backend := op.healthy] else before
  }

  /** The first bucket from `i` on whose bound is not exceeded, or the last one. */
  function Bucket(secs: real, i: nat): (k: nat)
    requires i <= |BOUNDS|
    ensures i <= k <= |BOUNDS|
    ensures forall j :: i <= j < k ==> BOUNDS[j] < secs
    ensures k < |BOUNDS| ==> secs <= BOUNDS[k]
    decreases |BOUNDS| - i
  {
    if i == |BOUNDS| || secs <= BOUNDS[i] then i else Bucket(secs, i + 1)
  }

  lemma CountNext(ops: seq<Op>, op: Op, which: Op -> bool)
    ensures Count(ops + [op], which) == Count(ops, which) + if which(op) then 1 else 0
  {
    assert (ops + [op])[..|ops|] == ops;
  }

  lemma TotalsNext(ops: seq<Op>, op: Op)
    ensures Gauge(ops + [op]) == Gauge(ops) + if op.InFlight? then op.delta else 0
    ensures Sum(ops + [op]) == Sum(ops) + if op.RequestDone? then op.secs else 0.0
    ensures LastHealth(ops + [op])
         == if op.Health? then LastHealth(ops)[op.backend := op.healthy] else LastHealth(ops)
  {
    assert (ops + [op])[..|ops|] == ops;
  }

  lemma BoundsAscend(i: nat, j: nat)
    requires i <= j < |BOUNDS|
    ensures BOUNDS[i] <= BOUNDS[j]
  {
  }

  /** A latency falls into one of the first `i + 1` buckets exactly when it is within bound `i`. */
  lemma BucketIff(secs: real, i: nat)
    requires i < |BOUNDS|
    ensures Bucket(secs, 0) <= i <==> secs <= BOUNDS[i]
  {
    var k := Bucket(secs, 0);
    if k <= i {
      BoundsAscend(k, i);
    }
  }

  /** What lies in the first `n` buckets. */
  function Below(ops: seq<Op>, n: nat): nat {
    if n == 0 then 0 else Below(ops, n - 1) + Count(ops, In(n - 1))
  }

  lemma {:induction false} BelowNext(ops: seq<Op>, op: Op, n: nat)
    ensures Below(ops + [op], n) == Below(ops, n) + if op.RequestDone? && Bucket(op.secs, 0) < n then 1 else 0
  {
    if n > 0 {
      BelowNext(ops, op, n - 1);
      CountNext(ops, op, In(n - 1));
    }
  }

  lemma {:induction false} NothingBelow(n: nat)
    ensures Below([], n) == 0
  {
    if n > 0 {
      NothingBelow(n - 1);
    }
  }

  /** Cumulative buckets count the latencies within each bound. */
  lemma {:induction false} BelowIsWithin(ops: seq<Op>, i: nat)
    requires i < |BOUNDS|
    ensures Below(ops, i + 1) == Count(ops, Within(BOUNDS[i]))
  {
    if ops == [] {
      NothingBelow(i + 1);
    } else {
      var init, op := ops[..|ops| - 1], ops[|ops| - 1];
      assert ops == init + [op];
      BelowIsWithin(init, i);
      BelowNext(init, op, i + 1);
      if op.RequestDone? {
        BucketIff(op.secs, i);
      }
    }
  }

  lemma {:induction false} AllBelow(ops: seq<Op>)
    ensures Below(ops, |BOUNDS| + 1) == Count(ops, IsDone())
  {
    if ops == [] {
      NothingBelow(|BOUNDS| + 1);
    } else {
      var init, op := ops[..|ops| - 1], ops[|ops| - 1];
      assert ops == init + [op];
      AllBelow(init);
      BelowNext(init, op, |BOUNDS| + 1);
    }
  }

  lemma {:induction false} WithinRises(ops: seq<Op>, a: real, b: real)
    requires a <= b
    ensures Count(ops, Within(a)) <= Count(ops, Within(b)) <= Count(ops, IsDone())
  {
    if ops != [] {
      WithinRises(ops[..|ops| - 1], a, b);
    }
  }

  // ----- the owner -----

  /** The numbers of one scrape. */
  datatype Scrape = Scrape(
    requests: map<Key, nat>, rows: seq<nat>, inf: nat, sum: real, count: nat, inFlight: int, failovers: nat,
    health: map<string, bool>)

  class Owner {
    var requests: map<Key, nat>
    const buckets: array<nat>
    var latencySum: real
    var latencyCount: nat
    var inFlight: int
    var failovers: nat
    var health: map<string, bool>
    ghost var ops: seq<Op>

    ghost predicate Valid()
      reads this, buckets
    {
      && buckets.Length == |BOUNDS| + 1
      && (forall i :: 0 <= i < buckets.Length ==> buckets[i] == Count(ops, In(i)))
      && (forall k :: (if k in requests then requests[k] else 0) == Count(ops, For(k)))
      && latencySum == Sum(ops) && latencyCount == Count(ops, IsDone())
      && inFlight == Gauge(ops) && failovers == Count(ops, IsFailover()) && health == LastHealth(ops)
    }

    constructor ()
      ensures Valid() && ops == [] && fresh(buckets)
    {
      requests, latencySum, latencyCount, inFlight, failovers, health, ops := map[], 0.0, 0, 0, 0, map[], [];
      buckets := new nat[|BOUNDS| + 1](_ => 0);
    }

    method Apply(op: Op)
      requires Valid()
      modifies this, buckets
      ensures Valid() && ops == old(ops) + [op]
    {
      hide Count, Gauge, Sum, LastHealth, Bucket;
      forall which { CountNext(ops, op, which); }
      TotalsNext(ops, op);
      ops := ops + [op];
      match op
      case RequestDone(key, secs) =>
        requests := requests[key := (if key in requests then requests[key] else 0) + 1];
        latencySum, latencyCount := latencySum + secs, latencyCount + 1;
        Place(secs);
      case Failover => failovers := failovers + 1;
      case InFlight(delta) => inFlight := inFlight + delta;
      case Health(backend, healthy) => health := health[backend := healthy];
    }

    method Place(secs: real)
      requires buckets.Length == |BOUNDS| + 1
      modifies buckets
      ensures forall i :: 0 <= i < buckets.Length ==>
        buckets[i] == old(buckets[i]) + if i == Bucket(secs, 0) then 1 else 0
    {
      var i := 0;
      while i < |BOUNDS|
        invariant 0 <= i <= |BOUNDS| && Bucket(secs, 0) == Bucket(secs, i)
        invariant forall j :: 0 <= j < buckets.Length ==> buckets[j] == old(buckets[j])
      {
        if secs <= BOUNDS[i] {
          buckets[i] := buckets[i] + 1;
          return;
        }
        i := i + 1;
      }
      buckets[buckets.Length - 1] := buckets[buckets.Length - 1] + 1;
    }

    /** Every row counts the recorded latencies within its bound; +Inf counts all of them. */
    method Render() returns (s: Scrape)
      requires Valid()
      ensures |s.rows| == |BOUNDS|
        && forall i :: 0 <= i < |BOUNDS| ==> s.rows[i] == Count(ops, Within(BOUNDS[i]))
      ensures s.inf == s.count == Count(ops, IsDone())
      ensures forall k :: (if k in s.requests then s.requests[k] else 0) == Count(ops, For(k))
      ensures s.sum == Sum(ops) && s.inFlight == Gauge(ops) && s.failovers == Count(ops, IsFailover())
      ensures s.health == LastHealth(ops)
    {
      hide Count, Bucket, Gauge, Sum, LastHealth, Within;
      var rows, cumulative := [], 0;
      for i := 0 to |BOUNDS|
        invariant |rows| == i && cumulative == Below(ops, i)
        invariant forall j :: 0 <= j < i ==> rows[j] == Count(ops, Within(BOUNDS[j]))
      {
        cumulative := cumulative + buckets[i];
        BelowIsWithin(ops, i);
        rows := rows + [cumulative];
      }
      cumulative := cumulative + buckets[buckets.Length - 1];
      AllBelow(ops);
      s := Scrape(requests, rows, cumulative, latencySum, latencyCount, inFlight, failovers, health);
    }
  }

  /** The rendered rows never fall, and +Inf closes them. */
  lemma RowsRise(ops: seq<Op>, i: nat, j: nat)
    requires i <= j < |BOUNDS|
    ensures Count(ops, Within(BOUNDS[i])) <= Count(ops, Within(BOUNDS[j])) <= Count(ops, IsDone())
  {
    BoundsAscend(i, j);
    WithinRises(ops, BOUNDS[i], BOUNDS[j]);
  }

  // ----- the counts, by the operations themselves -----

  lemma {:induction false} CountIsFilter(ops: seq<Op>, which: Op -> bool)
    ensures Count(ops, which) == |F.Filter(which, ops)| <= |ops|
  {
    if ops != [] {
      CountIsFilter(ops[..|ops| - 1], which);
    }
  }

  /** A backend's gauge shows what was last said of it, if anything was. */
  lemma {:induction false} HealthIsLast(ops: seq<Op>, backend: string, k: nat)
    requires k < |ops| && ops[k].Health? && ops[k].backend == backend
    requires forall i :: k < i < |ops| ==> !(ops[i].Health? && ops[i].backend == backend)
    ensures backend in LastHealth(ops) && LastHealth(ops)[backend] == ops[k].healthy
  {
    if k < |ops| - 1 {
      assert !(ops[|ops| - 1].Health? && ops[|ops| - 1].backend == backend);
      HealthIsLast(ops[..|ops| - 1], backend, k);
    }
  }

  lemma {:induction false} HealthIsSaid(ops: seq<Op>, backend: string)
    requires backend in LastHealth(ops)
    ensures exists k :: 0 <= k < |ops| && ops[k].Health? && ops[k].backend == backend
  {
    var last := ops[|ops| - 1];
    if !(last.Health? && last.backend == backend) {
      HealthIsSaid(ops[..|ops| - 1], backend);
    }
  }
}
