/** The health snapshot and the routing options read from it (internal/model/snapshot.go,
    internal/router/contract.go). */
module Fleet {
  type Models = set<string>

  /** `p50` is in nanoseconds. */
  datatype BackendState = BackendState(
    name: string, healthy: bool, models: Models, p50: int, inFlight: int)

  type Snapshot = map<string, BackendState>

  datatype Candidate = Candidate(model: string, backend: string, quality: real)

  predicate IsHealthy(snap: Snapshot, name: string) {
    name in snap && snap[name].healthy
  }

  function Filter<T>(keep: T -> bool, s: seq<T>): (r: seq<T>)
    ensures |r| <= |s|
  {
    if s == [] then []
    else Filter(keep, s[..|s| - 1]) + if keep(s[|s| - 1]) then [s[|s| - 1]] else []
  }

  lemma FilterNext<T>(keep: T -> bool, s: seq<T>, k: nat)
    requires k < |s|
    ensures Filter(keep, s[..k + 1]) == Filter(keep, s[..k]) + if keep(s[k]) then [s[k]] else []
  {
    assert s[..k + 1][..k] == s[..k];
  }

  lemma {:induction false} FilterHas<T>(keep: T -> bool, s: seq<T>, x: T)
    ensures x in Filter(keep, s) <==> x in s && keep(x)
  {
    if s != [] {
      FilterHas(keep, s[..|s| - 1], x);
      assert s == s[..|s| - 1] + [s[|s| - 1]];
    }
  }
}
