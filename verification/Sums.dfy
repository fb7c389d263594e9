/** Finite sums. */
module Sums {

  ghost function SumTo(n: nat, f: nat -> nat): nat {
    if n == 0 then 0 else SumTo(n - 1, f) + f(n - 1)
  }

  lemma {:induction false} SumEqual(n: nat, f: nat -> nat, g: nat -> nat)
    requires forall i :: 0 <= i < n ==> f(i) == g(i)
    ensures SumTo(n, f) == SumTo(n, g)
  {
    if n > 0 {
      SumEqual(n - 1, f, g);
    }
  }

  lemma {:induction false} SumReplace(n: nat, f: nat -> nat, g: nat -> nat, at: nat)
    requires at < n
    requires forall i :: 0 <= i < n && i != at ==> f(i) == g(i)
    ensures SumTo(n, g) + f(at) == SumTo(n, f) + g(at)
  {
    if at < n - 1 {
      SumReplace(n - 1, f, g, at);
    } else {
      SumEqual(n - 1, f, g);
    }
  }

  lemma SumOneMore(n: nat, f: nat -> nat, g: nat -> nat, at: nat, more: nat)
    requires at < n
    requires forall i :: 0 <= i < n && i != at ==> f(i) == g(i)
    requires g(at) == f(at) + more
    ensures SumTo(n, g) == SumTo(n, f) + more
  {
    SumReplace(n, f, g, at);
  }

  lemma {:induction false} SumZero(n: nat, f: nat -> nat)
    requires forall i :: 0 <= i < n ==> f(i) == 0
    ensures SumTo(n, f) == 0
  {
    if n > 0 {
      SumZero(n - 1, f);
    }
  }

  lemma {:induction false} SumAdd(n: nat, f: nat -> nat, g: nat -> nat, h: nat -> nat)
    requires forall i :: 0 <= i < n ==> h(i) == f(i) + g(i)
    ensures SumTo(n, h) == SumTo(n, f) + SumTo(n, g)
  {
    if n > 0 {
      SumAdd(n - 1, f, g, h);
    }
  }

  lemma {:induction false} SumAtMost(n: nat, f: nat -> nat, bound: nat)
    requires forall i :: 0 <= i < n ==> f(i) <= bound
    ensures SumTo(n, f) <= n * bound
  {
    if n > 0 {
      SumAtMost(n - 1, f, bound);
    }
  }

  lemma {:induction false} SumAtMostEach(n: nat, f: nat -> nat, g: nat -> nat)
    requires forall i :: 0 <= i < n ==> f(i) <= g(i)
    ensures SumTo(n, f) <= SumTo(n, g)
  {
    if n > 0 {
      SumAtMostEach(n - 1, f, g);
    }
  }

  ghost function Row(m: nat, f: (nat, nat) -> nat, i: nat): nat {
    SumTo(m, j => f(i, j))
  }

  ghost function Column(n: nat, f: (nat, nat) -> nat, j: nat): nat {
    SumTo(n, i => f(i, j))
  }

  /** Rows first or columns first. */
  lemma {:induction false} SumSwap(n: nat, m: nat, f: (nat, nat) -> nat)
    ensures SumTo(n, i => Row(m, f, i)) == SumTo(m, j => Column(n, f, j))
  {
    var columns := (j: nat) => Column(n, f, j);
    if n == 0 {
      SumZero(m, columns);
    } else {
      SumSwap(n - 1, m, f);
      var last := (j: nat) => f(n - 1, j);
      var before := (j: nat) => Column(n - 1, f, j);
      forall j | 0 <= j < m ensures columns(j) == before(j) + last(j) {
        SumEqual(n - 1, i => f(i, j), i => f(i, j));
      }
      SumAdd(m, before, last, columns);
      SumEqual(m, last, j => f(n - 1, j));
    }
  }

  /** The sum of a map's values. */
  ghost function MapSum<K>(m: map<K, nat>): nat {
    if m == map[] then 0
    else
      var k :| k in m;
      m[k] + MapSum(m - {k})
  }

  lemma {:induction false} MapSumSplit<K>(m: map<K, nat>, k: K)
    requires k in m
    ensures MapSum(m) == m[k] + MapSum(m - {k})
    decreases |m|
  {
    var j :| j in m && MapSum(m) == m[j] + MapSum(m - {j});
    if j != k {
      MapSumSplit(m - {j}, k);
      MapSumSplit(m - {k}, j);
      assert m - {j} - {k} == m - {k} - {j};
    }
  }

  lemma MapSumUpdate<K>(m: map<K, nat>, k: K, v: nat)
    ensures MapSum(m[k := v]) == MapSum(m) - (if k in m then m[k] else 0) + v
  {
    var m' := m[k := v];
    MapSumSplit(m', k);
    if k in m {
      MapSumSplit(m, k);
      assert m' - {k} == m - {k};
    } else {
      assert m' - {k} == m;
    }
  }

  lemma {:induction false} MapSumAdd<K>(m: map<K, nat>, a: map<K, nat>, b: map<K, nat>)
    requires m.Keys == a.Keys == b.Keys
    requires forall k :: k in m ==> m[k] == a[k] + b[k]
    ensures MapSum(m) == MapSum(a) + MapSum(b)
    decreases |m|
  {
    if m == map[] {
      assert a == map[] && b == map[];
    } else {
      var k :| k in m;
      MapSumSplit(m, k);
      MapSumSplit(a, k);
      MapSumSplit(b, k);
      MapSumAdd(m - {k}, a - {k}, b - {k});
    }
  }

  /** If the non-zero values are at the listed keys and none exceeds the bound. */
  lemma {:induction false} MapSumAtMost<K>(m: map<K, nat>, keys: seq<K>, bound: nat)
    requires forall k :: k in m && k !in keys ==> m[k] == 0
    requires forall k :: k in m ==> m[k] <= bound
    ensures MapSum(m) <= |keys| * bound
    decreases |keys|
  {
    if keys == [] {
      MapSumZero(m);
    } else {
      var k, rest := keys[0], keys[1..];
      assert keys == [k] + rest;
      assert |keys| * bound == bound + |rest| * bound;
      if k in m {
        MapSumSplit(m, k);
        MapSumAtMost(m - {k}, rest, bound);
      } else {
        MapSumAtMost(m, rest, bound);
      }
    }
  }

  lemma {:induction false} MapSumZero<K>(m: map<K, nat>)
    requires forall k :: k in m ==> m[k] == 0
    ensures MapSum(m) == 0
    decreases |m|
  {
    if m != map[] {
      var k :| k in m;
      MapSumSplit(m, k);
      MapSumZero(m - {k});
    }
  }

  lemma {:induction false} MapSumScaled<K>(m: map<K, nat>, m': map<K, nat>, times: nat)
    requires m.Keys == m'.Keys
    requires forall k :: k in m ==> m[k] <= times * m'[k]
    ensures MapSum(m) <= times * MapSum(m')
    decreases |m|
  {
    if m == map[] {
      assert m' == map[];
    } else {
      var k :| k in m;
      MapSumSplit(m, k);
      MapSumSplit(m', k);
      MapSumScaled(m - {k}, m' - {k}, times);
      assert times * (m'[k] + MapSum(m' - {k})) == times * m'[k] + times * MapSum(m' - {k});
    }
  }
}
