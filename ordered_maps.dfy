/** Python's OrderedDict: a map that remembers the order in which its keys were first inserted. */
module OrderedMaps {

  datatype OrderedMap<K(==,!new), V> = OrderedMap(keys: seq<K>, values: map<K, V>) {

    /** Each key once, and exactly the keys of `values`. */
    ghost predicate Valid() {
      && (forall i, j :: 0 <= i < j < |keys| ==> keys[i] != keys[j])
      && (forall k :: k in values <==> k in keys)
    }

    /**
     * `d[k] = v`: a new key goes to the end; an existing key gets the new value and keeps its
     * position.
     */
    function Insert(k: K, v: V): (r: OrderedMap<K, V>)
      requires Valid()
      ensures r.Valid()
      ensures k in keys ==> r.keys == keys
      ensures k !in keys ==> r.keys == keys + [k]
      ensures r.values == values[k := v]
    {
      if k in keys then OrderedMap(keys, values[k := v]) else OrderedMap(keys + [k], values[k := v])
    }

    /** `d.itervalues()`, in key order. */
    function Values(): (r: seq<V>)
      requires Valid()
      ensures |r| == |keys|
      ensures forall i :: 0 <= i < |keys| ==> r[i] == values[keys[i]]
    {
      seq(|keys|, i requires 0 <= i < |keys| => values[keys[i]])
    }
  }

  function Empty<K(==,!new), V>(): (r: OrderedMap<K, V>)
    ensures r.Valid() && r.keys == []
  {
    OrderedMap([], map[])
  }

  /** `before` is a prefix of `after`: the keys already there stayed where they were. */
  predicate IsPrefix<K(==)>(before: seq<K>, after: seq<K>) {
    |before| <= |after| && after[..|before|] == before
  }
}
