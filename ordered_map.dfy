/**
 * The JavaScript `Map` (and the string-keyed object records) the registries mutate:
 * a Dafny map paired with the keys in insertion order. Setting a key that is already
 * present keeps its position; setting a new key appends it; deleting removes it.
 * Iteration (`keys()`, `values()`, `for ... of`) follows `keys`.
 */
module OrderedMap {
  import opened Common

  ghost predicate Distinct<K>(s: seq<K>) {
    forall i, j :: 0 <= i < j < |s| ==> s[i] != s[j]
  }

  /** `s` with every occurrence of `k` removed, order otherwise kept. */
  function Without<K(==,!new)>(s: seq<K>, k: K): (r: seq<K>)
    ensures forall x :: x in r <==> x in s && x != k
    ensures |r| <= |s|
  {
    if s == [] then []
    else if s[0] == k then Without(s[1..], k)
    else [s[0]] + Without(s[1..], k)
  }

  lemma {:induction false} WithoutDistinct<K(!new)>(s: seq<K>, k: K)
    ensures Distinct(s) ==> Distinct(Without(s, k))
  {
    if s != [] && Distinct(s) {
      assert Distinct(s[1..]);
      WithoutDistinct(s[1..], k);
      if s[0] != k {
        var r := Without(s, k);
        assert r == [s[0]] + Without(s[1..], k);
        assert s[0] !in s[1..];
        forall i, j | 0 <= i < j < |r| ensures r[i] != r[j] {
          if i == 0 {
            assert r[j] in Without(s[1..], k);
          }
        }
      }
    }
  }

  /** Removing a key that does not occur changes nothing. */
  lemma {:induction false} WithoutAbsent<K(!new)>(s: seq<K>, k: K)
    ensures k !in s ==> Without(s, k) == s
  {
    if s != [] {
      WithoutAbsent(s[1..], k);
    }
  }

  /** Removing a key that occurs once shortens the sequence by one. */
  lemma {:induction false} WithoutLength<K(!new)>(s: seq<K>, k: K)
    requires Distinct(s) && k in s
    ensures |Without(s, k)| == |s| - 1
  {
    assert Distinct(s[1..]);
    if s[0] == k {
      assert k !in s[1..];
      WithoutAbsent(s[1..], k);
    } else {
      WithoutLength(s[1..], k);
    }
  }

  /** Removing a key just appended to a sequence that lacked it gives the sequence back. */
  lemma {:induction false} WithoutAppended<K(!new)>(s: seq<K>, k: K)
    requires k !in s
    ensures Without(s + [k], k) == s
  {
    if s != [] {
      assert (s + [k])[1..] == s[1..] + [k];
      WithoutAppended(s[1..], k);
    }
  }

  datatype OMap<K(==,!new), V> = OMap(keys: seq<K>, vals: map<K, V>) {

    /** The keys in order are exactly the map's keys, each once. */
    ghost predicate Valid() {
      Distinct(keys) && (forall k :: k in vals <==> k in keys)
    }

    predicate Has(k: K) {
      k in vals
    }

    /** `m.get(k)`. */
    function Get(k: K): Option<V> {
      if k in vals then Some(vals[k]) else None
    }

    function Size(): nat {
      |keys|
    }

    /** `m.set(k, v)`. */
    function Set(k: K, v: V): (r: OMap<K, V>)
      ensures Valid() ==> r.Valid()
      ensures r.Get(k) == Some(v)
      ensures forall k' :: k' != k ==> r.Get(k') == Get(k')
      ensures Has(k) ==> r.keys == keys
      ensures !Has(k) ==> r.keys == keys + [k]
    {
      if k in vals then OMap(keys, vals[k := v]) else OMap(keys + [k], vals[k := v])
    }

    /** `m.delete(k)`. */
    function Delete(k: K): (r: OMap<K, V>)
      ensures Valid() ==> r.Valid()
      ensures r.Get(k) == None
      ensures forall k' :: k' != k ==> r.Get(k') == Get(k')
      ensures r.keys == Without(keys, k)
      ensures Valid() && !Has(k) ==> r == this
    {
      WithoutDistinct(keys, k);
      WithoutAbsent(keys, k);
      OMap(Without(keys, k), vals - {k})
    }

    /** `Array.from(m.values())`. */
    function Values(): (r: seq<V>)
      requires Valid()
      ensures |r| == |keys|
      ensures forall i :: 0 <= i < |keys| ==> r[i] == vals[keys[i]]
    {
      seq(|keys|, i requires 0 <= i < |keys| => vals[keys[i]])
    }
  }

  function Empty<K(==,!new), V>(): (r: OMap<K, V>)
    ensures r.Valid() && r.keys == []
    ensures forall k :: r.Get(k) == None
  {
    OMap([], map[])
  }

  /** A fresh key appended by `set` is the last one visited by iteration. */
  lemma SetNewIsLast<K(!new), V>(m: OMap<K, V>, k: K, v: V)
    requires m.Valid() && !m.Has(k)
    ensures m.Set(k, v).Values() == m.Values() + [v]
  {
  }

  /** Overwriting an existing key replaces its value in place in iteration order. */
  lemma {:induction false} SetExistingInPlace<K(!new), V>(m: OMap<K, V>, k: K, v: V, i: nat)
    requires m.Valid() && i < |m.keys| && m.keys[i] == k
    ensures m.Set(k, v).Values() == m.Values()[i := v]
  {
    var r := m.Set(k, v);
    forall j | 0 <= j < |m.keys| ensures r.Values()[j] == m.Values()[i := v][j] {
      if j != i {
        assert m.keys[j] != k;
      }
    }
  }
}
