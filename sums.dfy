/** `Object.values(m).reduce((sum, amount) => sum + amount, 0)`: the total of a
    dictionary's values. JavaScript adds in key-insertion order; over `real`
    the order does not matter, which `SumValuesRemove` makes precise. */
module Sums {

  /** Some key of a non-empty map (the order in which the sum visits keys). */
  ghost function PickKey<K>(m: map<K, real>): (k: K)
    requires |m| > 0
    ensures k in m
  {
    var k :| k in m; k
  }

  /** The sum of all values of `m`. */
  ghost function SumValues<K>(m: map<K, real>): real
    decreases |m|
  {
    if |m| == 0 then 0.0
    else
      var k := PickKey(m);
      m[k] + SumValues(m - {k})
  }

  /** Any key may be taken out first: the sum is independent of the order in
      which the values are added. */
  lemma {:induction false} SumValuesRemove<K>(m: map<K, real>, k: K)
    requires k in m
    ensures SumValues(m) == m[k] + SumValues(m - {k})
    decreases |m|
  {
    var j := PickKey(m);
    if j != k {
      assert k in m - {j};
      SumValuesRemove(m - {j}, k);
      assert j in m - {k};
      SumValuesRemove(m - {k}, j);
      assert m - {j} - {k} == m - {k} - {j};
    }
  }

  /** The value of `k` in `m`, 0 when `k` is absent (`m[k] || 0`). */
  function Lookup<K>(m: map<K, real>, k: K): (r: real)
    ensures k in m ==> r == m[k]
    ensures k !in m ==> r == 0.0
  {
    if k in m then m[k] else 0.0
  }

  /** Setting one key changes the total by exactly the change at that key. */
  lemma SumValuesUpdate<K>(m: map<K, real>, k: K, v: real)
    ensures SumValues(m[k := v]) == SumValues(m) - Lookup(m, k) + v
  {
    var m' := m[k := v];
    SumValuesRemove(m', k);
    assert m' - {k} == m - {k};
    if k in m {
      SumValuesRemove(m, k);
    } else {
      assert m - {k} == m;
    }
  }

  /** A list holds no key twice. */
  predicate Distinct<K(==)>(ks: seq<K>) {
    forall i, j :: 0 <= i < j < |ks| ==> ks[i] != ks[j]
  }

  /** The values of `m` at the keys of `ks`, added in list order. */
  function SumAt<K>(m: map<K, real>, ks: seq<K>): real
    requires forall k :: k in ks ==> k in m
  {
    if ks == [] then 0.0 else m[ks[0]] + SumAt(m, ks[1..])
  }

  /** When `ks` lists every key of `m` exactly once, adding the values in the
      list's order gives the map's total. */
  lemma {:induction false} SumValuesAsList<K>(m: map<K, real>, ks: seq<K>)
    requires Distinct(ks)
    requires m.Keys == set k | k in ks
    ensures SumValues(m) == SumAt(m, ks)
  {
    if ks == [] {
      assert m == map[];
    } else {
      var k, rest := ks[0], ks[1..];
      SumValuesRemove(m, k);
      TailListsRest(m, ks);
      SumValuesAsList(m - {k}, rest);
      SumAtAgree(m - {k}, m, rest);
    }
  }

  /** Taking the first key off the list and off the map keeps the list a
      listing of the map's keys. */
  lemma TailListsRest<K>(m: map<K, real>, ks: seq<K>)
    requires Distinct(ks) && |ks| > 0
    requires m.Keys == set k | k in ks
    ensures Distinct(ks[1..])
    ensures (m - {ks[0]}).Keys == set x | x in ks[1..]
  {
    var k, rest := ks[0], ks[1..];
    forall i, j | 0 <= i < j < |rest| ensures rest[i] != rest[j] {
      assert rest[i] == ks[i + 1] && rest[j] == ks[j + 1];
    }
    forall x | x in rest ensures x != k && x in m {
      var i :| 0 <= i < |rest| && rest[i] == x;
      assert ks[i + 1] == x;
    }
    forall x | x in m - {k} ensures x in rest {
      var i :| 0 <= i < |ks| && ks[i] == x;
      assert rest[i - 1] == x;
    }
  }

  /** Two maps that agree on the listed keys give the same list sum. */
  lemma {:induction false} SumAtAgree<K>(m1: map<K, real>, m2: map<K, real>, ks: seq<K>)
    requires forall k :: k in ks ==> k in m1 && k in m2 && m1[k] == m2[k]
    ensures SumAt(m1, ks) == SumAt(m2, ks)
  {
    if ks != [] {
      assert forall k :: k in ks[1..] ==> k in ks;
      SumAtAgree(m1, m2, ks[1..]);
    }
  }
}
