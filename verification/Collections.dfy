/** Facts about sequences without duplicates, finite sums over maps and sequences, and cardinalities. */
module Collections {

  ghost predicate NoDup<T(!new)>(xs: seq<T>) {
    forall i, j :: 0 <= i < j < |xs| ==> xs[i] != xs[j]
  }

  function Elems<T>(xs: seq<T>): set<T> {
    set x | x in xs
  }

  lemma {:induction false} NoDupCardinality<T(!new)>(xs: seq<T>)
    requires NoDup(xs)
    ensures |Elems(xs)| == |xs|
  {
    if xs == [] {
    } else {
      NoDupCardinality(xs[1..]);
      assert xs == [xs[0]] + xs[1..];
      assert Elems(xs) == {xs[0]} + Elems(xs[1..]);
    }
  }

  /** The elements of `xs` other than `x`, in order: `retain(|y| y != x)`. */
  function Without<T(==,!new)>(xs: seq<T>, x: T): (r: seq<T>)
    ensures forall y :: y in r <==> y in xs && y != x
  {
    if xs == [] then []
    else if xs[0] == x then Without(xs[1..], x)
    else [xs[0]] + Without(xs[1..], x)
  }

  lemma {:induction false} WithoutNoDup<T(!new)>(xs: seq<T>, x: T)
    requires NoDup(xs)
    ensures NoDup(Without(xs, x))
  {
    if xs == [] {
    } else {
      WithoutNoDup(xs[1..], x);
      var rest := Without(xs[1..], x);
      assert forall i :: 0 <= i < |rest| ==> rest[i] in xs[1..];
      assert forall y :: y in xs[1..] ==> y != xs[0];
    }
  }

  /** Sum of `f` over the values of a finite map. */
  ghost function MapSum<K, V>(m: map<K, V>, f: V -> nat): nat {
    if m == map[] then 0
    else
      var k :| k in m;
      f(m[k]) + MapSum(m - {k}, f)
  }

  /** Any key may be split off a map sum, not only the one the definition picks. */
  lemma {:induction false} MapSumSplit<K, V>(m: map<K, V>, f: V -> nat, k: K)
    requires k in m
    ensures MapSum(m, f) == f(m[k]) + MapSum(m - {k}, f)
    decreases |m|
  {
    var p :| p in m && MapSum(m, f) == f(m[p]) + MapSum(m - {p}, f);
    if p != k {
      MapSumSplit(m - {p}, f, k);
      MapSumSplit(m - {k}, f, p);
      assert m - {p} - {k} == m - {k} - {p};
    }
  }

  lemma MapSumUpdate<K, V>(m: map<K, V>, f: V -> nat, k: K, v: V)
    ensures MapSum(m[k := v], f) == (if k in m then MapSum(m, f) - f(m[k]) else MapSum(m, f)) + f(v)
  {
    var m' := m[k := v];
    MapSumSplit(m', f, k);
    assert m' - {k} == m - {k};
    if k in m {
      MapSumSplit(m, f, k);
    } else {
      assert m - {k} == m;
    }
  }

  lemma MapSumRemove<K, V>(m: map<K, V>, f: V -> nat, k: K)
    ensures MapSum(m, f) == MapSum(m - {k}, f) + (if k in m then f(m[k]) else 0)
  {
    if k in m {
      MapSumSplit(m, f, k);
    } else {
      assert m - {k} == m;
    }
  }

  /** The part of a map under some keys. */
  function Restricted<K, V>(m: map<K, V>, keys: set<K>): map<K, V> {
    map k | k in m && k in keys :: m[k]
  }

  lemma {:induction false} MapSumPartition<K, V>(m: map<K, V>, gone: set<K>, f: V -> nat)
    requires gone <= m.Keys
    ensures MapSum(m, f) == MapSum(m - gone, f) + MapSum(Restricted(m, gone), f)
    decreases |gone|
  {
    if gone == {} {
      assert m - gone == m;
      assert Restricted(m, gone) == map[];
    } else {
      var k :| k in gone;
      var rest := gone - {k};
      MapSumPartition(m, rest, f);
      MapSumRemove(m - rest, f, k);
      assert m - rest - {k} == m - gone;
      MapSumUpdate(Restricted(m, rest), f, k, m[k]);
      assert Restricted(m, rest)[k := m[k]] == Restricted(m, gone);
    }
  }

  lemma {:induction false} MapSumZero<K, V>(m: map<K, V>, f: V -> nat)
    requires forall k :: k in m ==> f(m[k]) == 0
    ensures MapSum(m, f) == 0
    decreases |m|
  {
    if m == map[] {
    } else {
      var k :| k in m && MapSum(m, f) == f(m[k]) + MapSum(m - {k}, f);
      MapSumZero(m - {k}, f);
    }
  }

  /** Maps with the same weights have the same sum. */
  lemma {:induction false} MapSumSame<K, V>(m: map<K, V>, n: map<K, V>, f: V -> nat)
    requires m.Keys == n.Keys && forall k :: k in m ==> f(m[k]) == f(n[k])
    ensures MapSum(m, f) == MapSum(n, f)
    decreases |m|
  {
    if m == map[] {
      assert n == map[];
    } else {
      var k :| k in m;
      MapSumSplit(m, f, k);
      MapSumSplit(n, f, k);
      MapSumSame(m - {k}, n - {k}, f);
    }
  }

  /** Sum of `f` over a sequence. */
  function Sum<T>(xs: seq<T>, f: T -> nat): nat {
    if xs == [] then 0 else f(xs[0]) + Sum(xs[1..], f)
  }

  lemma {:induction false} SumAppend<T>(xs: seq<T>, ys: seq<T>, f: T -> nat)
    ensures Sum(xs + ys, f) == Sum(xs, f) + Sum(ys, f)
  {
    if xs == [] {
      assert xs + ys == ys;
    } else {
      SumAppend(xs[1..], ys, f);
      assert (xs + ys)[1..] == xs[1..] + ys;
    }
  }

  lemma {:induction false} SumWithout<T>(xs: seq<T>, i: nat, f: T -> nat)
    requires i < |xs|
    ensures Sum(xs, f) == f(xs[i]) + Sum(xs[..i] + xs[i + 1..], f)
    decreases i
  {
    var rest := xs[..i] + xs[i + 1..];
    if i == 0 {
      assert rest == xs[1..];
    } else {
      assert rest[1..] == xs[1..][..i - 1] + xs[1..][i..];
      SumWithout(xs[1..], i - 1, f);
    }
  }

  lemma MultisetOfParts<T>(a: seq<T>, x: T, b: seq<T>)
    ensures multiset(a + [x] + b) == multiset(a + b) + multiset{x}
  {
    assert multiset(a + [x] + b) == multiset(a) + multiset{x} + multiset(b);
    assert multiset(a + b) == multiset(a) + multiset(b);
  }

  lemma MultisetWithout<T>(xs: seq<T>, i: nat)
    requires i < |xs|
    ensures multiset(xs) == multiset(xs[..i] + xs[i + 1..]) + multiset{xs[i]}
  {
    MultisetOfParts(xs[..i], xs[i], xs[i + 1..]);
    assert xs == xs[..i] + [xs[i]] + xs[i + 1..];
  }

  lemma CancelOne<T>(a: multiset<T>, b: multiset<T>, x: T)
    requires a + multiset{x} == b + multiset{x}
    ensures a == b
  {
    assert a == a + multiset{x} - multiset{x};
    assert b == b + multiset{x} - multiset{x};
  }

  lemma SameRest<T>(xs: seq<T>, ys: seq<T>, i: nat)
    requires multiset(xs) == multiset(ys) && xs != []
    requires i < |ys| && ys[i] == xs[0]
    ensures multiset(xs[1..]) == multiset(ys[..i] + ys[i + 1..])
  {
    MultisetWithout(xs, 0);
    MultisetWithout(ys, i);
    assert xs[..0] + xs[1..] == xs[1..];
    CancelOne(multiset(xs[1..]), multiset(ys[..i] + ys[i + 1..]), xs[0]);
  }

  /** A sum depends on the elements and their multiplicities only, not on their order. */
  lemma {:induction false} SumPermutation<T>(xs: seq<T>, ys: seq<T>, f: T -> nat)
    requires multiset(xs) == multiset(ys)
    ensures Sum(xs, f) == Sum(ys, f)
    decreases |xs|
  {
    if xs == [] {
      assert |multiset(ys)| == |ys|;
    } else {
      assert xs[0] in multiset(ys);
      var i :| 0 <= i < |ys| && ys[i] == xs[0];
      SameRest(xs, ys, i);
      SumPermutation(xs[1..], ys[..i] + ys[i + 1..], f);
      SumWithout(ys, i, f);
    }
  }

  /** An injective image has as many elements as its source. */
  lemma {:induction false} ImageCardinality<A, B>(s: set<A>, t: set<B>, f: A -> B)
    requires forall x, y :: x in s && y in s && f(x) == f(y) ==> x == y
    requires t == set x | x in s :: f(x)
    ensures |s| == |t|
    decreases |s|
  {
    if s == {} {
    } else {
      var a :| a in s;
      var s', t' := s - {a}, t - {f(a)};
      assert t' == set x | x in s' :: f(x);
      ImageCardinality(s', t', f);
    }
  }
}
