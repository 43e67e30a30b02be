/** Python's `OrderedDict` (and insertion-ordered `dict`): the keys in
    insertion order and the key-to-value mapping. Assigning to a present key
    replaces its value and keeps its position; assigning to a new key
    appends it. */
module OrderedDicts {
  import opened Wrappers

  datatype ODict<K(==, !new), V> = ODict(keys: seq<K>, vals: map<K, V>) {
    /** Every key appears once in the order, and the order lists exactly the mapped keys. */
    predicate Valid() {
      && (forall i, j :: 0 <= i < j < |keys| ==> keys[i] != keys[j])
      && (forall k :: k in keys ==> k in vals)
      && (forall k :: k in vals ==> k in keys)
    }

    /** `d.get(k)`. */
    function Get(k: K): (r: Option<V>)
      ensures r.Some? <==> k in vals
      ensures r.Some? ==> r.value == vals[k]
    {
      if k in vals then Some(vals[k]) else None
    }

    /** `d[k] = v`. */
    function Put(k: K, v: V): (r: ODict<K, V>)
      ensures r.keys == if k in keys then keys else keys + [k]
      ensures r.Get(k) == Some(v)
      ensures forall k' :: k' in vals && k' != k ==> r.Get(k') == Get(k')
      ensures Valid() ==> r.Valid()
    {
      ODict(if k in keys then keys else keys + [k], vals[k := v])
    }

    function Size(): nat { |keys| }

    /** `for k in ks: d[k] = m[k]`, one assignment after another. */
    function PutAll(ks: seq<K>, m: map<K, V>): ODict<K, V>
      requires forall k :: k in ks ==> k in m
    {
      if ks == [] then this
      else PutAll(ks[..|ks| - 1], m).Put(ks[|ks| - 1], m[ks[|ks| - 1]])
    }

    /** One more assignment extends the prefix of assignments by one. */
    lemma PutAllSnoc(ks: seq<K>, m: map<K, V>, i: nat)
      requires i < |ks| && forall t :: 0 <= t <= i ==> ks[t] in m
      ensures forall k :: k in ks[..i + 1] ==> k in m
      ensures PutAll(ks[..i + 1], m) == PutAll(ks[..i], m).Put(ks[i], m[ks[i]])
    {
      assert ks[..i + 1][..i] == ks[..i];
    }

    lemma {:induction false} PutAllValid(ks: seq<K>, m: map<K, V>)
      requires Valid() && forall k :: k in ks ==> k in m
      ensures PutAll(ks, m).Valid()
    {
      if ks != [] {
        PutAllValid(ks[..|ks| - 1], m);
      }
    }

    /** After the assignments every assigned key holds its new value and
        every other key its old one. */
    lemma {:induction false} PutAllGet(ks: seq<K>, m: map<K, V>)
      requires forall k :: k in ks ==> k in m
      ensures forall k :: PutAll(ks, m).Get(k) == if k in ks then Some(m[k]) else Get(k)
    {
      if ks != [] {
        var n := |ks| - 1;
        assert forall k :: k in ks <==> k in ks[..n] || k == ks[n];
        PutAllGet(ks[..n], m);
      }
    }

    /** The old keys keep their places and every assigned key is present. */
    lemma {:induction false} PutAllKeys(ks: seq<K>, m: map<K, V>)
      requires forall k :: k in ks ==> k in m
      ensures forall k :: k in PutAll(ks, m).keys <==> k in keys || k in ks
      ensures keys <= PutAll(ks, m).keys
    {
      if ks != [] {
        var n := |ks| - 1;
        assert forall k :: k in ks <==> k in ks[..n] || k == ks[n];
        PutAllKeys(ks[..n], m);
      }
    }

    /** Starting from no keys, assigning pairwise distinct keys lists them in assignment order. */
    lemma {:induction false} PutAllKeysInOrder(ks: seq<K>, m: map<K, V>)
      requires forall k :: k in ks ==> k in m
      requires keys == [] && forall i, j :: 0 <= i < j < |ks| ==> ks[i] != ks[j]
      ensures PutAll(ks, m).keys == ks
    {
      if ks != [] {
        var n := |ks| - 1;
        PutAllKeysInOrder(ks[..n], m);
        assert ks[n] !in ks[..n];
        assert ks == ks[..n] + [ks[n]];
      }
    }
  }

  function Empty<K(==, !new), V>(): (d: ODict<K, V>)
    ensures d.Valid() && d.keys == []
  {
    ODict([], map[])
  }
}
