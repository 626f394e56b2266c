/**
 * An insertion-ordered map from keys to lists of values, the shape of the
 * `LinkedHashMap<K, Collection<V>>` that holds a request template's headers and
 * queries and a method's parameter names. `put` on a key already present
 * replaces its values where the key stands; `put` on a new key adds it last.
 */
module Multimap {
  import opened Wrappers

  datatype Entry<K, V> = Entry(key: K, values: seq<V>)

  type Multimap<K, V> = seq<Entry<K, V>>

  /** The keys in iteration order. */
  function Keys<K, V>(m: Multimap<K, V>): (ks: seq<K>)
    ensures |ks| == |m|
    ensures forall i :: 0 <= i < |m| ==> ks[i] == m[i].key
  {
    seq(|m|, i requires 0 <= i < |m| => m[i].key)
  }

  /** No key appears twice, as in any Java map. */
  ghost predicate Distinct<K, V>(m: Multimap<K, V>)
  {
    forall i, j :: 0 <= i < j < |m| ==> m[i].key != m[j].key
  }

  /** Where the entry for `k` stands: the first one with that key. */
  function Find<K(==), V>(m: Multimap<K, V>, k: K): (r: Option<nat>)
    ensures r.None? <==> k !in Keys(m)
    ensures r.Some? ==> r.value < |m| && m[r.value].key == k
    ensures r.Some? ==> forall j :: 0 <= j < r.value ==> m[j].key != k
  {
    if m == [] then None
    else if m[0].key == k then Some(0)
    else
      match Find(m[1..], k)
      case None =>
        KeysCons(m);
        None
      case Some(i) =>
        assert m[i + 1] == m[1..][i];
        Some(i + 1)
  }

  /** The keys of a non-empty map are its first key followed by the keys of the rest. */
  lemma KeysCons<K, V>(m: Multimap<K, V>)
    requires m != []
    ensures Keys(m) == [m[0].key] + Keys(m[1..])
  {
  }

  /** `Find` sees only the keys: maps with the same keys in the same order find every key at the same place. */
  lemma {:induction false} FindByKeys<K, V>(m: Multimap<K, V>, m': Multimap<K, V>, k: K)
    requires Keys(m) == Keys(m')
    ensures Find(m, k) == Find(m', k)
  {
    if m != [] {
      assert m[0].key == Keys(m)[0] == Keys(m')[0] == m'[0].key;
      assert Keys(m[1..]) == Keys(m)[1..] == Keys(m')[1..] == Keys(m'[1..]);
      FindByKeys(m[1..], m'[1..], k);
    }
  }

  /** The first entry with key `k` is the one `Find` finds. */
  lemma FindAt<K, V>(m: Multimap<K, V>, k: K, i: nat)
    requires i < |m| && m[i].key == k
    requires forall j :: 0 <= j < i ==> m[j].key != k
    ensures Find(m, k) == Some(i)
  {
    assert Keys(m)[i] == k;
  }

  /** `map.get(k)`: the values stored under `k`, or None for `null`. */
  function Get<K(==), V>(m: Multimap<K, V>, k: K): (r: Option<seq<V>>)
    ensures r.None? <==> k !in Keys(m)
  {
    match Find(m, k)
    case None => None
    case Some(i) => Some(m[i].values)
  }

  /** The values under `k`, empty when `k` is absent. */
  function ValuesOf<K(==), V>(m: Multimap<K, V>, k: K): seq<V>
  {
    match Get(m, k)
    case None => []
    case Some(vs) => vs
  }

  /**
   * `map.put(k, vs)`: the entry for `k` takes the new values where it stands,
   * or a new entry is added last.
   */
  function Put<K(==, !new), V>(m: Multimap<K, V>, k: K, vs: seq<V>): (r: Multimap<K, V>)
    ensures Get(r, k) == Some(vs)
    ensures forall k' :: k' != k ==> Get(r, k') == Get(m, k')
    ensures Keys(r) == if k in Keys(m) then Keys(m) else Keys(m) + [k]
  {
    match Find(m, k)
    case None =>
      var r := m + [Entry(k, vs)];
      assert Keys(r) == Keys(m) + [k];
      FindAt(r, k, |m|);
      forall k' | k' != k ensures Get(r, k') == Get(m, k') {
        var f := Find(m, k');
        if f.Some? {
          assert r[f.value] == m[f.value];
          FindAt(r, k', f.value);
        }
      }
      r
    case Some(i) =>
      var r := m[i := Entry(k, vs)];
      assert Keys(r) == Keys(m);
      forall k' ensures Find(r, k') == Find(m, k') {
        FindByKeys(r, m, k');
      }
      r
  }

  /** `put` never makes a key appear twice. */
  lemma PutDistinct<K(!new), V>(m: Multimap<K, V>, k: K, vs: seq<V>)
    ensures Distinct(m) ==> Distinct(Put(m, k, vs))
  {
    var r := Put(m, k, vs);
    if Distinct(m) {
      forall i, j | 0 <= i < j < |r| ensures r[i].key != r[j].key {
        assert r[i].key == Keys(r)[i] && r[j].key == Keys(r)[j];
        if j < |m| {
          assert Keys(m)[i] == m[i].key && Keys(m)[j] == m[j].key;
        }
      }
    }
  }

  /** Appends one value to the list under `k`, starting a list when `k` is absent. */
  function Add<K(==, !new), V>(m: Multimap<K, V>, k: K, v: V): (r: Multimap<K, V>)
    ensures ValuesOf(r, k) == ValuesOf(m, k) + [v]
    ensures forall k' :: k' != k ==> Get(r, k') == Get(m, k')
    ensures Keys(r) == if k in Keys(m) then Keys(m) else Keys(m) + [k]
    ensures Distinct(m) ==> Distinct(r)
  {
    PutDistinct(m, k, ValuesOf(m, k) + [v]);
    Put(m, k, ValuesOf(m, k) + [v])
  }

  /** `put` on a key not yet present appends it, leaving every earlier entry where it was. */
  lemma PutNewKey<K(!new), V>(m: Multimap<K, V>, k: K, vs: seq<V>)
    requires k !in Keys(m)
    ensures Put(m, k, vs) == m + [Entry(k, vs)]
  {
  }

  /** Adding under a new key appends an entry holding just that value. */
  lemma AddNewKey<K(!new), V>(m: Multimap<K, V>, k: K, v: V)
    requires k !in Keys(m)
    ensures Add(m, k, v) == m + [Entry(k, [v])]
  {
    assert ValuesOf(m, k) + [v] == [v];
    PutNewKey(m, k, [v]);
  }
}
