/** sort.SliceStable as the repository uses it: in place, by an ascending key, equal keys keeping
    their order. */
module StableSort {

  /** `x` placed after every element whose key is not above its own. */
  function InsertLast<T>(key: T -> real, s: seq<T>, x: T): (r: seq<T>)
    ensures |r| == |s| + 1
  {
    if s == [] || key(s[|s| - 1]) <= key(x) then s + [x]
    else InsertLast(key, s[..|s| - 1], x) + [s[|s| - 1]]
  }

  function SortBy<T>(key: T -> real, s: seq<T>): (r: seq<T>)
    ensures |r| == |s|
  {
    if s == [] then [] else InsertLast(key, SortBy(key, s[..|s| - 1]), s[|s| - 1])
  }

  /** Insertion sort in the array itself. */
  method SortInPlace<T>(a: array<T>, key: T -> real)
    modifies a
    ensures a[..] == SortBy(key, old(a[..]))
  {
    hide InsertLast;
    ghost var was := a[..];
    for i := 0 to a.Length
      invariant a[..i] == SortBy(key, was[..i])
      invariant a[i..] == was[i..]
    {
      assert was[i] == a[i..][0] == a[i];
      InsertInPlace(a, key, i);
      assert was[..i + 1][..i] == was[..i];
      assert a[i + 1..] == was[i..][1..];
    }
    assert a[..] == a[..a.Length] && was == was[..a.Length];
  }

  /** Moves element `i` down into the sorted elements before it. */
  method InsertInPlace<T>(a: array<T>, key: T -> real, i: nat)
    requires i < a.Length
    modifies a
    ensures a[..i + 1] == InsertLast(key, old(a[..i]), old(a[i]))
    ensures a[i + 1..] == old(a[i + 1..])
  {
    hide InsertLast;
    ghost var s, x := a[..i], a[i];
    var j := i;
    assert s[..i] == s && s[i..] == [] && InsertLast(key, s, x) + s[i..] == InsertLast(key, s, x);
    while j > 0 && key(a[j]) < key(a[j - 1])
      invariant j <= i && a[j] == x
      invariant forall k :: 0 <= k < j ==> a[k] == s[k]
      invariant forall k :: j < k <= i ==> a[k] == s[k - 1]
      invariant forall k :: i < k < a.Length ==> a[k] == old(a[k])
      invariant InsertLast(key, s, x) == InsertLast(key, s[..j], x) + s[j..]
    {
      InsertStep(key, s, x, j);
      a[j], a[j - 1] := a[j - 1], a[j];
      j := j - 1;
    }
    InsertHere(key, s, x, j);
    assert a[..i + 1] == s[..j] + [x] + s[j..];
  }

  lemma InsertStep<T>(key: T -> real, s: seq<T>, x: T, j: nat)
    requires 0 < j <= |s| && key(x) < key(s[j - 1])
    ensures InsertLast(key, s[..j], x) + s[j..] == InsertLast(key, s[..j - 1], x) + s[j - 1..]
  {
    assert s[..j][..j - 1] == s[..j - 1];
    assert [s[j - 1]] + s[j..] == s[j - 1..];
  }

  lemma InsertHere<T>(key: T -> real, s: seq<T>, x: T, j: nat)
    requires j <= |s| && (j == 0 || key(s[j - 1]) <= key(x))
    ensures InsertLast(key, s[..j], x) == s[..j] + [x]
  {
  }

  // ----- what the order is: sorted, and the only one -----

  /** Strictly ascending by key, then by position. */
  ghost predicate Ordered(key: int -> real, s: seq<int>) {
    forall i, j :: 0 <= i < j < |s| ==> Below(key, s[i], s[j])
  }

  predicate Below(key: int -> real, x: int, y: int) {
    key(x) < key(y) || (key(x) == key(y) && x < y)
  }

  lemma {:induction false} InsertKeepsOrder(key: int -> real, s: seq<int>, x: int)
    requires Ordered(key, s) && forall y :: y in s ==> y < x
    ensures Ordered(key, InsertLast(key, s, x))
    ensures forall y :: y in InsertLast(key, s, x) <==> y in s || y == x
    decreases |s|
  {
    if s == [] || key(s[|s| - 1]) <= key(x) {
      forall k | 0 <= k < |s| ensures Below(key, s[k], x) {
        assert s[k] in s;
        assert k < |s| - 1 ==> Below(key, s[k], s[|s| - 1]);
      }
    } else {
      var init, last := s[..|s| - 1], s[|s| - 1];
      assert s == init + [last];
      forall i, j | 0 <= i < j < |init| ensures Below(key, init[i], init[j]) {
        assert Below(key, s[i], s[j]);
      }
      forall y | y in init ensures y < x {
        assert y in s;
      }
      InsertKeepsOrder(key, init, x);
      var r := InsertLast(key, init, x);
      forall k | 0 <= k < |r| ensures Below(key, r[k], last) {
        assert r[k] in r;
        if r[k] in init {
          var m :| 0 <= m < |init| && init[m] == r[k];
          assert Below(key, s[m], s[|s| - 1]);
        }
      }
    }
  }

  predicate Rising(s: seq<int>) {
    forall i, j :: 0 <= i < j < |s| ==> s[i] < s[j]
  }

  /** Sorting an ascending list of positions gives the strict order over the same positions. */
  lemma {:induction false} SortOrders(key: int -> real, s: seq<int>)
    requires Rising(s)
    ensures Ordered(key, SortBy(key, s))
    ensures forall y :: y in SortBy(key, s) <==> y in s
    decreases |s|
  {
    if s != [] {
      var init, last := s[..|s| - 1], s[|s| - 1];
      SortOrders(key, init);
      forall y | y in SortBy(key, init) ensures y < last {
        var m :| 0 <= m < |init| && init[m] == y;
        assert s[m] < s[|s| - 1];
      }
      assert s == init + [last];
      InsertKeepsOrder(key, SortBy(key, init), last);
    }
  }

  /** Sorting values is sorting their positions. */
  lemma {:induction false} SortMapped<T>(key: T -> real, at: int -> T, keyAt: int -> real, s: seq<int>)
    requires forall i :: keyAt(i) == key(at(i))
    ensures SortBy(key, Pick(at, s)) == Pick(at, SortBy(keyAt, s))
    decreases |s|
  {
    if s != [] {
      var init, last := s[..|s| - 1], s[|s| - 1];
      assert Pick(at, s)[..|s| - 1] == Pick(at, init);
      SortMapped(key, at, keyAt, init);
      InsertMapped(key, at, keyAt, SortBy(keyAt, init), last);
    }
  }

  lemma {:induction false} InsertMapped<T>(key: T -> real, at: int -> T, keyAt: int -> real, s: seq<int>, x: int)
    requires forall i :: keyAt(i) == key(at(i))
    ensures InsertLast(key, Pick(at, s), at(x)) == Pick(at, InsertLast(keyAt, s, x))
    decreases |s|
  {
    assert keyAt(x) == key(at(x));
    if s != [] {
      var init, last := s[..|s| - 1], s[|s| - 1];
      assert keyAt(last) == key(at(last));
      assert Pick(at, s)[..|s| - 1] == Pick(at, init);
      InsertMapped(key, at, keyAt, init, x);
    }
  }

  function Pick<T>(at: int -> T, s: seq<int>): (r: seq<T>)
    ensures |r| == |s| && forall k :: 0 <= k < |s| ==> r[k] == at(s[k])
  {
    seq(|s|, k requires 0 <= k < |s| => at(s[k]))
  }

  // ----- a strict order leaves one arrangement -----

  ghost predicate Asymmetric(lt: (int, int) -> bool) {
    forall x, y :: lt(x, y) ==> !lt(y, x)
  }

  ghost predicate Sorted(lt: (int, int) -> bool, p: seq<int>) {
    forall i, j :: 0 <= i < j < |p| ==> lt(p[i], p[j])
  }

  lemma {:induction false} SortedIsUnique(lt: (int, int) -> bool, p: seq<int>, q: seq<int>)
    requires Asymmetric(lt) && Sorted(lt, p) && Sorted(lt, q)
    requires forall x :: x in p <==> x in q
    ensures p == q
    decreases |p|
  {
    if q != [] {
      var y := q[0];
      assert y in q;
      assert y in p;
    }
    if p != [] {
      var x := p[0];
      assert x in p;
      assert x in q;
      HeadIsLeast(lt, p, q[0]);
      HeadIsLeast(lt, q, p[0]);
      TailHas(lt, p);
      TailHas(lt, q);
      SortedIsUnique(lt, p[1..], q[1..]);
      assert p == [p[0]] + p[1..] && q == [q[0]] + q[1..];
    }
  }

  lemma HeadIsLeast(lt: (int, int) -> bool, p: seq<int>, x: int)
    requires Sorted(lt, p) && x in p
    ensures x == p[0] || lt(p[0], x)
  {
  }

  lemma TailHas(lt: (int, int) -> bool, p: seq<int>)
    requires Asymmetric(lt) && Sorted(lt, p) && p != []
    ensures Sorted(lt, p[1..])
    ensures forall x :: x in p[1..] <==> x in p && x != p[0]
  {
    assert p == [p[0]] + p[1..];
    forall k | 0 <= k < |p[1..]| ensures p[1..][k] != p[0] {
      assert lt(p[0], p[k + 1]);
    }
  }

  // ----- sorting plain numbers -----

  predicate Ascending(s: seq<int>) {
    forall i, j :: 0 <= i < j < |s| ==> s[i] <= s[j]
  }

  function AsReal(v: int): real {
    v as real
  }

  lemma {:induction false} InsertAscends(s: seq<int>, x: int)
    requires Ascending(s)
    ensures var r := InsertLast(AsReal, s, x);
      Ascending(r) && multiset(r) == multiset(s) + multiset{x}
    decreases |s|
  {
    if s == [] || s[|s| - 1] <= x {
      AscendsAt(s, x);
    } else {
      var init, last := s[..|s| - 1], s[|s| - 1];
      InsertAscends(init, x);
      var r := InsertLast(AsReal, init, x);
      assert InsertLast(AsReal, s, x) == r + [last];
      AscendsThen(init, x, last, r);
      assert multiset(s) == multiset(init) + multiset{last} by { assert s == init + [last]; }
    }
  }

  lemma AscendsAt(s: seq<int>, x: int)
    requires Ascending(s) && (s == [] || s[|s| - 1] <= x)
    ensures Ascending(s + [x])
  {
    assert s != [] ==> forall k :: 0 <= k < |s| ==> s[k] <= s[|s| - 1];
  }

  lemma AscendsThen(init: seq<int>, x: int, last: int, r: seq<int>)
    requires Ascending(r) && multiset(r) == multiset(init) + multiset{x}
    requires x <= last && forall k :: 0 <= k < |init| ==> init[k] <= last
    ensures Ascending(r + [last]) && multiset(r + [last]) == multiset(init) + multiset{last} + multiset{x}
  {
    forall k | 0 <= k < |r| ensures r[k] <= last {
      assert r[k] in multiset(r);
      assert r[k] in multiset(init) || r[k] == x;
    }
  }

  lemma {:induction false} SortAscends(s: seq<int>)
    ensures var r := SortBy(AsReal, s);
      Ascending(r) && multiset(r) == multiset(s)
    decreases |s|
  {
    if s != [] {
      SortAscends(s[..|s| - 1]);
      assert s == s[..|s| - 1] + [s[|s| - 1]];
      InsertAscends(SortBy(AsReal, s[..|s| - 1]), s[|s| - 1]);
    }
  }
}
