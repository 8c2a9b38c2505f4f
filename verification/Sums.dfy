/** Sums over the values of finite maps, independent of any enumeration order. */
module Sums {
  ghost function Sum<K>(m: map<K, int>): int {
    if m == map[] then 0 else var k :| k in m; m[k] + Sum(m - {k})
  }

  /** Any key may be taken first. */
  lemma {:induction false} SumTake<K>(m: map<K, int>, k: K)
    requires k in m
    ensures Sum(m) == m[k] + Sum(m - {k})
    decreases |m|
  {
    var first :| first in m && Sum(m) == m[first] + Sum(m - {first});
    if first != k {
      SumTake(m - {first}, k);
      SumTake(m - {k}, first);
      assert m - {first} - {k} == m - {k} - {first};
    }
  }

  lemma SumUpdate<K>(m: map<K, int>, k: K, v: int)
    ensures Sum(m[k := v]) == Sum(m) - (if k in m then m[k] else 0) + v
  {
    SumTake(m[k := v], k);
    assert m[k := v] - {k} == m - {k};
    if k in m {
      SumTake(m, k);
    } else {
      assert m - {k} == m;
    }
  }

  /** Maps that agree but for one key differ in their sums by that key's values. */
  lemma SumDiffer<K>(m: map<K, int>, m': map<K, int>, k: K)
    requires m - {k} == m' - {k}
    ensures Sum(m') - (if k in m' then m'[k] else 0) == Sum(m) - (if k in m then m[k] else 0)
  {
    if k in m { SumTake(m, k); } else { assert m - {k} == m; }
    if k in m' { SumTake(m', k); } else { assert m' - {k} == m'; }
  }

  lemma {:induction false} SumAtMost<K>(m: map<K, int>, n: map<K, int>)
    requires m.Keys <= n.Keys
    requires forall k | k in m :: m[k] <= n[k]
    requires forall k | k in n :: n[k] >= 0
    ensures Sum(m) <= Sum(n)
    decreases |n|
  {
    if n != map[] {
      var k :| k in n;
      SumTake(n, k);
      if k in m { SumTake(m, k); } else { assert m - {k} == m; }
      SumAtMost(m - {k}, n - {k});
    } else {
      assert m == map[];
    }
  }

  lemma OneMore(c: int, n: int)
    ensures c * (n + 1) == c * n + c
  {
  }

  lemma PartsLess<K>(m: map<K, int>, s: set<K>, k: K)
    ensures k in s ==> m - {k} - s == m - s
    ensures k in s ==> m - (m.Keys - s) - {k} == m - {k} - ((m - {k}).Keys - s)
  {
  }

  lemma NoneInside<K>(m: map<K, int>, s: set<K>)
    requires m.Keys !! s
    ensures m - s == m && Sum(m - (m.Keys - s)) == 0
  {
    assert m - (m.Keys - s) == map[];
  }

  lemma Fewer<K>(m: map<K, int>, k: K)
    requires k in m
    ensures |m - {k}| < |m|
  {
    assert m == (m - {k})[k := m[k]];
  }

  lemma {:induction false} SumSplit<K>(m: map<K, int>, s: set<K>)
    ensures Sum(m) == Sum(m - s) + Sum(m - (m.Keys - s))
    decreases |m|
  {
    hide Sum;
    if k :| k in m && k in s {
      PartsLess(m, s, k);
      SumTake(m, k);
      SumTake(m - (m.Keys - s), k);
      Fewer(m, k);
      SumSplit(m - {k}, s);
    } else {
      NoneInside(m, s);
    }
  }

  lemma {:induction false} SumNonNegative<K>(m: map<K, int>)
    requires forall k | k in m :: m[k] >= 0
    ensures Sum(m) >= 0
    decreases |m|
  {
    if k :| k in m {
      SumTake(m, k);
      assert m == (m - {k})[k := m[k]];
      SumNonNegative(m - {k});
    } else {
      assert m == map[];
    }
  }

  /** Demands bounded by one of two kinds of charges sum to at most both. */
  lemma {:induction false} SumCovered<K>(demands: map<K, int>, charges: map<K, int>, units: map<K, int>)
    requires forall k | k in charges :: charges[k] >= 0
    requires forall k | k in units :: units[k] >= 0
    requires forall k | k in demands ::
      demands[k] <= if k in charges then charges[k] else if k in units then units[k] else 0
    ensures Sum(demands) <= Sum(charges) + Sum(units)
    decreases |demands|
  {
    if k :| k in demands {
      SumTake(demands, k);
      assert demands == (demands - {k})[k := demands[k]];
      if k in charges {
        SumTake(charges, k);
        SumCovered(demands - {k}, charges - {k}, units);
      } else if k in units {
        SumTake(units, k);
        SumCovered(demands - {k}, charges, units - {k});
      } else {
        SumCovered(demands - {k}, charges, units);
      }
    } else {
      assert demands == map[];
      SumNonNegative(charges);
      SumNonNegative(units);
    }
  }

  lemma {:induction false} SumPlus<K>(m: map<K, int>, a: map<K, int>, b: map<K, int>)
    requires m.Keys == a.Keys && b.Keys <= a.Keys
    requires forall k | k in m :: m[k] == a[k] + if k in b then b[k] else 0
    ensures Sum(m) == Sum(a) + Sum(b)
    decreases |m|
  {
    if k :| k in m {
      SumTake(m, k);
      SumTake(a, k);
      assert m == (m - {k})[k := m[k]];
      if k in b { SumTake(b, k); } else { assert b - {k} == b; }
      SumPlus(m - {k}, a - {k}, b - {k});
    } else {
      assert m == map[] && a == map[] && b == map[];
    }
  }

  function Constant<K>(keys: set<K>, c: int): map<K, int> { map k | k in keys :: if k in keys then c else 0 }

  lemma {:induction false} SumConstant<K>(keys: set<K>, c: int)
    ensures Sum(Constant(keys, c)) == c * |keys|
    decreases |keys|
  {
    if keys == {} {
      assert Constant(keys, c) == map[];
    } else {
      var k :| k in keys;
      SumTake(Constant(keys, c), k);
      assert Constant(keys, c) - {k} == Constant(keys - {k}, c);
      SumConstant(keys - {k}, c);
      OneMore(c, |keys - {k}|);
    }
  }
}
