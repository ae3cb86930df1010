/** Sums of a weight over a finite set. */
module Sums {

  ghost function Total<K>(keys: set<K>, weight: K -> int): int {
    if keys == {} then 0
    else
      var k :| k in keys;
      weight(k) + Total(keys - {k}, weight)
  }

  lemma {:induction false} TotalTakeOut<K>(keys: set<K>, weight: K -> int, k: K)
    requires k in keys
    ensures Total(keys, weight) == weight(k) + Total(keys - {k}, weight)
    decreases keys
  {
    var first :| first in keys && Total(keys, weight) == weight(first) + Total(keys - {first}, weight);
    if first != k {
      TotalTakeOut(keys - {first}, weight, k);
      TotalTakeOut(keys - {k}, weight, first);
      assert keys - {first} - {k} == keys - {k} - {first};
    }
  }

  lemma {:induction false} TotalAgrees<K>(keys: set<K>, v: K -> int, w: K -> int)
    requires forall k :: k in keys ==> v(k) == w(k)
    ensures Total(keys, v) == Total(keys, w)
    decreases keys
  {
    if keys != {} {
      var k :| k in keys;
      TotalTakeOut(keys, v, k);
      TotalTakeOut(keys, w, k);
      TotalAgrees(keys - {k}, v, w);
    }
  }

  lemma {:induction false} TotalOfUnion<K>(a: set<K>, b: set<K>, weight: K -> int)
    requires a !! b
    ensures Total(a + b, weight) == Total(a, weight) + Total(b, weight)
    decreases a
  {
    if a == {} {
      assert a + b == b;
    } else {
      var k :| k in a;
      TotalTakeOut(a, weight, k);
      TotalTakeOut(a + b, weight, k);
      assert a + b - {k} == (a - {k}) + b;
      TotalOfUnion(a - {k}, b, weight);
    }
  }

  lemma {:induction false} TotalNonNegative<K>(keys: set<K>, weight: K -> int)
    requires forall k :: k in keys ==> 0 <= weight(k)
    ensures 0 <= Total(keys, weight)
    decreases keys
  {
    if keys != {} {
      var k :| k in keys;
      TotalTakeOut(keys, weight, k);
      TotalNonNegative(keys - {k}, weight);
    }
  }

  lemma {:induction false} TotalOfZeros<K>(keys: set<K>, weight: K -> int)
    requires forall k :: k in keys ==> weight(k) == 0
    ensures Total(keys, weight) == 0
    decreases keys
  {
    if keys != {} {
      var k :| k in keys;
      TotalTakeOut(keys, weight, k);
      TotalOfZeros(keys - {k}, weight);
    }
  }

  /** Two weights that differ on one key only. */
  lemma TotalOneChanged<K>(keys: set<K>, v: K -> int, w: K -> int, k: K)
    requires k in keys && forall j :: j in keys && j != k ==> v(j) == w(j)
    ensures Total(keys, w) == Total(keys, v) - v(k) + w(k)
  {
    TotalTakeOut(keys, v, k);
    TotalTakeOut(keys, w, k);
    TotalAgrees(keys - {k}, v, w);
  }
}
