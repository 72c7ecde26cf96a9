/** JavaScript's `Map`: a finite map that remembers the order in which its keys were first set. */
module JsMap {
  import opened Sequences

  datatype OrderedMap<K(==,!new), V> = OrderedMap(keys: seq<K>, entries: map<K, V>) {

    predicate Valid() {
      && Distinct(keys)
      && (set k | k in keys) == entries.Keys
    }

    /** Setting a key that is present keeps its position; a new key goes last. */
    function Set(k: K, v: V): OrderedMap<K, V> {
      OrderedMap(if k in entries then keys else keys + [k], entries[k := v])
    }

    function Delete(k: K): OrderedMap<K, V> {
      OrderedMap(Without(keys, k), entries - {k})
    }

    /** A key that is set again keeps its place, a new one goes last, and the others keep theirs when one is deleted. */
    lemma OrderIsKept(k: K, v: V, before: seq<K>, after: seq<K>)
      requires Valid() && keys == before + [k] + after
      ensures Set(k, v).keys == keys && Delete(k).keys == before + after
      ensures Delete(k).Set(k, v).keys == before + after + [k]
    {
      assert k in keys;
      forall x | x in before + after
        ensures x != k
      {
        var i :| 0 <= i < |before + after| && (before + after)[i] == x;
        assert keys[if i < |before| then i else i + 1] == x && keys[|before|] == k;
      }
      assert k !in before && k !in after by {
        assert forall x | x in before :: x in before + after;
        assert forall x | x in after :: x in before + after;
      }
      WithoutKeepsOrder(before, k, after);
    }

    lemma SetValid(k: K, v: V)
      requires Valid()
      ensures Set(k, v).Valid()
    {
    }

    lemma DeleteValid(k: K)
      requires Valid()
      ensures Delete(k).Valid()
    {
      WithoutElements(keys, k);
      WithoutDistinct(keys, k);
      var m := Delete(k);
      assert forall x :: x in keys <==> x in (set y | y in keys);
      assert forall x :: x in m.keys <==> x in keys && x != k;
      assert (set x | x in m.keys) == m.entries.Keys;
    }
  }

  function Empty<K(!new), V>(): OrderedMap<K, V> {
    OrderedMap([], map[])
  }
}
