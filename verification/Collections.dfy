/** Finite-collection helpers: ascending listings of sets (the iteration order of
    ordered sets and maps), and sums over finite maps. */
module Collections {

  datatype Option<+T> = None | Some(value: T)

  /** A non-empty sequence is its front and its last element. */
  lemma Split<T>(s: seq<T>)
    requires s != []
    ensures s == s[..|s|-1] + [s[|s|-1]]
  {}

  lemma Nil<T>(s: seq<T>)
    requires |s| == 0
    ensures s == []
  {}

  lemma AllOf<T>(s: seq<T>)
    ensures s[..|s|] == s && s[0..] == s
  {}

  lemma TakeTake<T>(s: seq<T>, a: nat, b: nat)
    requires b <= a <= |s|
    ensures s[..a][..b] == s[..b] && (b < a ==> s[..a][b] == s[b])
  {}

  function Min(a: nat, b: nat): nat { if a < b then a else b }

  lemma BothEmpty<T>(a: seq<T>, b: seq<T>)
    requires |a| == 0 && |b| == 0
    ensures a == b
  {}

  lemma AppendNil<T>(s: seq<T>)
    ensures s + [] == s && [] + s == s
  {}

  lemma AppendAssoc<T>(a: seq<T>, b: seq<T>, c: seq<T>)
    ensures a + (b + c) == (a + b) + c
  {}

  lemma Snoc<T>(init: seq<T>, x: T)
    ensures (init + [x])[..|init|] == init && (init + [x])[|init|] == x && |init + [x]| == |init| + 1
    ensures forall k :: 0 <= k <= |init| ==> (init + [x])[..k] == init[..k]
    ensures (init + [x])[..|init| + 1] == init + [x]
    ensures init[..|init|] == init
  {}

  ghost predicate StrictTotalOrder<T(!new)>(less: (T, T) -> bool) {
    && (forall x :: !less(x, x))
    && (forall x, y :: x == y || less(x, y) || less(y, x))
    && (forall x, y, z :: less(x, y) && less(y, z) ==> less(x, z))
  }

  ghost predicate Ascending<T>(s: seq<T>, less: (T, T) -> bool) {
    forall i, j :: 0 <= i < j < |s| ==> less(s[i], s[j])
  }

  function SetOf<T>(s: seq<T>): set<T> {
    set x | x in s
  }

  predicate Distinct<T(==)>(s: seq<T>) {
    forall i, j :: 0 <= i < j < |s| ==> s[i] != s[j]
  }

  /** A non-empty finite set has a least element. */
  lemma {:induction false} LeastExists<T(!new)>(s: set<T>, less: (T, T) -> bool) returns (m: T)
    requires StrictTotalOrder(less) && s != {}
    ensures m in s && forall y :: y in s ==> y == m || less(m, y)
    decreases |s|
  {
    var p :| p in s;
    m := p;
    var rest := s - {p};
    if rest != {} {
      var l := LeastExists(rest, less);
      if less(l, p) { m := l; }
      forall y | y in s ensures y == m || less(m, y) {
        assert y == p || y in rest;
      }
    } else {
      assert s == {p};
    }
  }

  function Least<T(==,!new)>(s: set<T>, less: (T, T) -> bool): (m: T)
    requires StrictTotalOrder(less) && s != {}
    ensures m in s && forall y :: y in s ==> y == m || less(m, y)
  {
    assert exists m :: m in s && forall y :: y in s ==> y == m || less(m, y) by {
      var m := LeastExists(s, less);
    }
    var m :| m in s && forall y :: y in s ==> y == m || less(m, y);
    m
  }

  /** The elements of `s` in ascending order. */
  function SortSet<T(==,!new)>(s: set<T>, less: (T, T) -> bool): (r: seq<T>)
    requires StrictTotalOrder(less)
    ensures |r| == |s|
    ensures forall x :: x in r <==> x in s
  {
    if s == {} then []
    else
      var m := Least(s, less);
      [m] + SortSet(s - {m}, less)
  }

  lemma {:induction false} SortSetAscending<T(!new)>(s: set<T>, less: (T, T) -> bool)
    requires StrictTotalOrder(less)
    ensures Ascending(SortSet(s, less), less)
    ensures SetOf(SortSet(s, less)) == s
  {
    if s != {} {
      var m := Least(s, less);
      var tail := SortSet(s - {m}, less);
      SortSetAscending(s - {m}, less);
      forall i, j | 0 <= i < j < |tail| + 1 ensures less(([m] + tail)[i], ([m] + tail)[j]) {
        assert ([m] + tail)[j] == tail[j-1];
        assert tail[j-1] in tail;
        if i > 0 { assert ([m] + tail)[i] == tail[i-1]; }
      }
    }
  }

  /** An ascending listing is determined by its elements. */
  lemma {:induction false} AscendingUnique<T(!new)>(a: seq<T>, b: seq<T>, less: (T, T) -> bool)
    requires StrictTotalOrder(less)
    requires Ascending(a, less) && Ascending(b, less) && SetOf(a) == SetOf(b)
    ensures a == b
    decreases |a|
  {
    assert forall x :: x in a <==> x in SetOf(a);
    assert forall x :: x in b <==> x in SetOf(b);
    assert (|a| > 0 ==> a[0] in a) && (|b| > 0 ==> b[0] in b);
    if a != [] && b != [] {
      assert a[0] in b && b[0] in a;
      assert a[0] == b[0];
      var a', b' := a[1..], b[1..];
      assert forall x :: x in a <==> x == a[0] || x in a';
      assert forall x :: x in b <==> x == b[0] || x in b';
      assert a[0] !in a' && b[0] !in b';
      assert forall x :: x in SetOf(a') <==> x in a';
      assert SetOf(a') == SetOf(b');
      AscendingUnique(a', b', less);
      assert a == [a[0]] + a' && b == [b[0]] + b';
    }
  }

  lemma {:induction false} DistinctCardinality<T>(s: seq<T>)
    requires Distinct(s)
    ensures |SetOf(s)| == |s|
  {
    if s != [] {
      var init := s[..|s|-1];
      DistinctCardinality(init);
      assert SetOf(s) == SetOf(init) + {s[|s|-1]};
    }
  }

  predicate NatLess(a: nat, b: nat) { a < b }

  lemma BoundOfSome(nums: seq<nat>, bound: nat)
    requires forall i :: 0 <= i < |nums| ==> nums[i] < bound
    ensures |nums| > 0 ==> bound > 0
  {
    if |nums| > 0 { assert nums[0] < bound; }
  }

  lemma NatOrder()
    ensures StrictTotalOrder(NatLess)
  {}

  ghost function Pick<K(!new)>(s: set<K>): (k: K)
    requires s != {}
    ensures k in s
  {
    var k :| k in s; k
  }

  /** Sum of the values of a finite map. */
  ghost function Total<K(!new)>(m: map<K, nat>): nat
    decreases m.Keys
  {
    if m.Keys == {} then 0
    else
      var k := Pick(m.Keys);
      m[k] + Total(m - {k})
  }

  /** The order in which values are added does not matter. */
  lemma {:induction false} TotalRemove<K(!new)>(m: map<K, nat>, k: K)
    requires k in m
    ensures Total(m) == m[k] + Total(m - {k})
    decreases m.Keys
  {
    var p := Pick(m.Keys);
    if p != k {
      TotalRemove(m - {p}, k);
      TotalRemove(m - {k}, p);
      assert m - {p} - {k} == m - {k} - {p};
    }
  }

  lemma TotalInsert<K(!new)>(m: map<K, nat>, k: K, v: nat)
    requires k !in m
    ensures Total(m[k := v]) == Total(m) + v
    ensures |m[k := v]| == |m| + 1
  {
    TotalRemove(m[k := v], k);
    assert m[k := v] - {k} == m;
    assert m[k := v].Keys == m.Keys + {k};
  }

  /** `m` restricted to the keys in `s`. */
  function Only<K(!new), V>(m: map<K, V>, s: set<K>): map<K, V> {
    map k | k in m && k in s :: m[k]
  }

  lemma {:induction false} TotalUnion<K(!new)>(a: map<K, nat>, b: map<K, nat>)
    requires a.Keys !! b.Keys
    ensures Total(a + b) == Total(a) + Total(b)
    decreases b.Keys
  {
    if b.Keys == {} {
      UnionNothing(a, b);
    } else {
      var k := Pick(b.Keys);
      TotalUnion(a, b - {k});
      UnionLess(a, b, k);
      TotalRemove(a + b, k);
    }
  }

  lemma UnionNothing<K, V>(a: map<K, V>, b: map<K, V>)
    requires b.Keys == {}
    ensures a + b == a
  {}

  lemma UnionLess<K, V>(a: map<K, V>, b: map<K, V>, k: K)
    requires a.Keys !! b.Keys && k in b
    ensures (a + b) - {k} == a + (b - {k}) && (a + b)[k] == b[k]
  {}

  /** A sum splits into the part on `s` and the rest. */
  lemma TotalSplit<K(!new)>(m: map<K, nat>, s: set<K>)
    ensures Total(m) == Total(Only(m, s)) + Total(m - s)
  {
    TotalUnion(Only(m, s), m - s);
    OnlyAndRest(m, s);
  }

  lemma OnlyAndRest<K(!new), V>(m: map<K, V>, s: set<K>)
    ensures Only(m, s) + (m - s) == m
  {}

  /** Sum of the values of a finite map. */
  ghost function Sum<K(!new)>(m: map<K, int>): int
    decreases m.Keys
  {
    if m.Keys == {} then 0
    else
      var k := Pick(m.Keys);
      m[k] + Sum(m - {k})
  }

  lemma {:induction false} SumRemove<K(!new)>(m: map<K, int>, k: K)
    requires k in m
    ensures Sum(m) == m[k] + Sum(m - {k})
    decreases m.Keys
  {
    var p := Pick(m.Keys);
    if p != k {
      SumRemove(m - {p}, k);
      SumRemove(m - {k}, p);
      assert m - {p} - {k} == m - {k} - {p};
    }
  }

  lemma SumInsert<K(!new)>(m: map<K, int>, k: K, v: int)
    requires k !in m
    ensures Sum(m[k := v]) == Sum(m) + v
  {
    SumRemove(m[k := v], k);
    assert m[k := v] - {k} == m;
  }

  lemma {:induction false} SumUnion<K(!new)>(a: map<K, int>, b: map<K, int>)
    requires a.Keys !! b.Keys
    ensures Sum(a + b) == Sum(a) + Sum(b)
    decreases b.Keys
  {
    if b.Keys == {} {
      UnionNothing(a, b);
    } else {
      var k := Pick(b.Keys);
      SumUnion(a, b - {k});
      UnionLess(a, b, k);
      SumRemove(a + b, k);
    }
  }
}
