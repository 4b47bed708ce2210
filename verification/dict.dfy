/**
 An insertion-ordered dictionary with the semantics of a Python `dict`:
 a sequence of entries whose keys are distinct, iterated in the order the
 keys were first inserted. `Get` is `d.get(k, default)` and `Set` is
 `d[k] = v`, which overwrites in place or appends a new key at the end.
 */
module Dict {
  import opened Sums

  datatype Entry<K, V> = Entry(key: K, value: V)

  /** The keys, in iteration order (`d.keys()`). */
  function Keys<K, V>(d: seq<Entry<K, V>>): (ks: seq<K>)
    ensures |ks| == |d|
    ensures forall i :: 0 <= i < |d| ==> ks[i] == d[i].key
  {
    if |d| == 0 then [] else [d[0].key] + Keys(d[1..])
  }

  /** The values, in iteration order (`d.values()`). */
  function Values<K, V>(d: seq<Entry<K, V>>): (vs: seq<V>)
    ensures |vs| == |d|
  {
    if |d| == 0 then [] else [d[0].value] + Values(d[1..])
  }

  /** A well-formed dictionary holds every key at most once. */
  predicate Valid<K(==), V>(d: seq<Entry<K, V>>)
  {
    forall i, j :: 0 <= i < j < |d| ==> d[i].key != d[j].key
  }

  /** `d.get(k, default)`: the value stored under `k`, or `default` when `k` is absent. */
  function Get<K(==), V>(d: seq<Entry<K, V>>, k: K, default: V): (v: V)
    ensures k !in Keys(d) ==> v == default
    ensures Valid(d) ==> forall i :: 0 <= i < |d| && d[i].key == k ==> v == d[i].value
  {
    if |d| == 0 then default
    else if d[0].key == k then d[0].value
    else Get(d[1..], k, default)
  }

  /** `d[k] = v`: overwrites the entry for `k` where it stands, or appends a new one. */
  function Set<K(==), V>(d: seq<Entry<K, V>>, k: K, v: V): (r: seq<Entry<K, V>>)
    ensures Keys(r) == if k in Keys(d) then Keys(d) else Keys(d) + [k]
    ensures Valid(d) ==> Valid(r)
    ensures Valid(d) ==> forall i :: 0 <= i < |r| ==>
              r[i].value == if r[i].key == k then v else d[i].value
  {
    if |d| == 0 then [Entry(k, v)]
    else if d[0].key == k then [Entry(k, v)] + d[1..]
    else
      var rest := Set(d[1..], k, v);
      var r := [d[0]] + rest;
      assert Keys(d) == [d[0].key] + Keys(d[1..]);
      assert Keys(r) == [d[0].key] + Keys(rest);
      assert Valid(d) ==> Valid(d[1..]) && d[0].key !in Keys(rest);
      assert forall i :: 1 <= i < |r| ==> r[i] == rest[i - 1];
      r
  }

  /** Reading back a key just written yields the written value. */
  lemma GetSetSame<K, V>(d: seq<Entry<K, V>>, k: K, v: V, default: V)
    requires Valid(d)
    ensures Get(Set(d, k, v), k, default) == v
  {
    var r := Set(d, k, v);
    assert k in Keys(r);
    var i :| 0 <= i < |r| && Keys(r)[i] == k;
  }

  /** Writing one key leaves every other key's lookup unchanged. */
  lemma GetSetOther<K, V>(d: seq<Entry<K, V>>, k: K, v: V, k': K, default: V)
    requires Valid(d)
    requires k' != k
    ensures Get(Set(d, k, v), k', default) == Get(d, k', default)
  {
    var r := Set(d, k, v);
    if k' in Keys(d) {
      var i :| 0 <= i < |d| && Keys(d)[i] == k';
      assert r[i].key == k';
    } else {
      assert k' !in Keys(r);
    }
  }

  /** The dictionary as a map; for a duplicated key the first entry wins, as in `Get`. */
  function ToMap<K(==), V>(d: seq<Entry<K, V>>): (m: map<K, V>)
    ensures forall k <- m.Keys :: k in Keys(d)
    ensures forall k <- Keys(d) :: k in m
    ensures Valid(d) ==> forall i :: 0 <= i < |d| ==> m[d[i].key] == d[i].value
  {
    if |d| == 0 then map[]
    else
      var rest := ToMap(d[1..]);
      assert Valid(d) ==> Valid(d[1..]);
      assert forall i :: 1 <= i < |d| ==> d[i] == d[1..][i - 1];
      rest[d[0].key := d[0].value]
  }

  /**
   The sum of a real-valued dictionary's values changes, under `d[k] = v`,
   by exactly the replaced value (0 for a new key) taken out and `v` put in.
   */
  lemma {:induction false} SumValuesSet<K>(d: seq<Entry<K, real>>, k: K, v: real)
    ensures Sum(Values(Set(d, k, v))) == Sum(Values(d)) - Get(d, k, 0.0) + v
    decreases |d|
  {
    if |d| == 0 {
      assert Values(Set(d, k, v)) == [] + [v];
      SumSnoc([], v);
    } else if d[0].key == k {
      assert Values(Set(d, k, v)) == [v] + Values(d[1..]);
      SumCons(v, Values(d[1..]));
      SumCons(d[0].value, Values(d[1..]));
    } else {
      SumValuesSet(d[1..], k, v);
      assert Values(Set(d, k, v)) == [d[0].value] + Values(Set(d[1..], k, v));
      SumCons(d[0].value, Values(Set(d[1..], k, v)));
      SumCons(d[0].value, Values(d[1..]));
    }
  }

  /** `d[k] = d.get(k, 0) + x`: adds `x` to the amount under `k`, a new key starting from 0. */
  function AddTo<K(==)>(d: seq<Entry<K, real>>, k: K, x: real): (r: seq<Entry<K, real>>)
    ensures Sum(Values(r)) == Sum(Values(d)) + x
  {
    var sum := Get(d, k, 0.0) + x;
    SumValuesSet(d, k, sum);
    Set(d, k, sum)
  }

  /** After `d[k] = d.get(k, 0) + x`, a lookup of `k` has grown by `x` and any other lookup is unchanged. */
  lemma GetAddTo<K>(d: seq<Entry<K, real>>, k: K, x: real, t: K)
    requires Valid(d)
    ensures Get(AddTo(d, k, x), t, 0.0) == Get(d, t, 0.0) + (if t == k then x else 0.0)
  {
    var sum := Get(d, k, 0.0) + x;
    if t == k {
      GetSetSame(d, k, sum, 0.0);
    } else {
      GetSetOther(d, k, sum, t, 0.0);
    }
  }
}
