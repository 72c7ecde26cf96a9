/** Sequences without repetition. */
module Sequences {

  predicate Distinct<T(==)>(s: seq<T>) {
    forall i, j :: 0 <= i < j < |s| ==> s[i] != s[j]
  }

  lemma DistinctTail<T>(s: seq<T>)
    requires Distinct(s) && s != []
    ensures Distinct(s[1..]) && s[0] !in s[1..]
  {
  }

  lemma DistinctAppend<T>(s: seq<T>, x: T)
    requires Distinct(s) && x !in s
    ensures Distinct(s + [x])
  {
  }

  lemma DistinctConcat<T>(s: seq<T>, t: seq<T>)
    requires Distinct(s) && Distinct(t) && forall x | x in t :: x !in s
    ensures Distinct(s + t)
  {
    forall i, j | 0 <= i < j < |s + t|
      ensures (s + t)[i] != (s + t)[j]
    {
      assert j >= |s| ==> (s + t)[j] in t;
    }
  }

  lemma {:induction false} DistinctOnce<T>(s: seq<T>, x: T)
    requires Distinct(s) && x in s
    ensures multiset(s)[x] == 1
  {
    assert s == [s[0]] + s[1..];
    if s[0] == x {
      DistinctTail(s);
    } else {
      DistinctOnce(s[1..], x);
    }
  }

  lemma {:induction false} DistinctCount<T>(s: seq<T>)
    requires Distinct(s)
    ensures |set x | x in s| == |s|
  {
    if s == [] {
    } else {
      DistinctTail(s);
      DistinctCount(s[1..]);
      assert s == [s[0]] + s[1..];
      assert (set x | x in s) == {s[0]} + (set x | x in s[1..]);
    }
  }

  function Without<K(==)>(keys: seq<K>, k: K): seq<K> {
    if keys == [] then []
    else (if keys[0] == k then [] else [keys[0]]) + Without(keys[1..], k)
  }

  lemma WithoutElements<K(!new)>(keys: seq<K>, k: K)
    ensures forall x :: x in Without(keys, k) <==> x in keys && x != k
  {
  }

  lemma WithoutDistinct<K(!new)>(keys: seq<K>, k: K)
    requires Distinct(keys)
    ensures Distinct(Without(keys, k))
  {
    if keys == [] {
    } else {
      var w := Without(keys[1..], k);
      WithoutDistinct(keys[1..], k);
      WithoutElements(keys[1..], k);
      assert keys[0] !in keys[1..];
      assert forall j :: 0 <= j < |w| ==> w[j] in w;
    }
  }

  /** What is left keeps its order. */
  lemma {:induction false} WithoutKeepsOrder<K(!new)>(a: seq<K>, k: K, b: seq<K>)
    requires k !in a && k !in b
    ensures Without(a + [k] + b, k) == a + b && Without(a, k) == a
  {
    if a == [] {
      NothingToRemove(b, k);
      assert ([k] + b)[1..] == b && [] + [k] + b == [k] + b;
    } else {
      WithoutKeepsOrder(a[1..], k, b);
      assert (a + [k] + b)[1..] == a[1..] + [k] + b;
      assert a == [a[0]] + a[1..];
    }
  }

  lemma {:induction false} NothingToRemove<K(!new)>(keys: seq<K>, k: K)
    requires k !in keys
    ensures Without(keys, k) == keys
  {
    if keys == [] {
    } else {
      NothingToRemove(keys[1..], k);
      assert keys == [keys[0]] + keys[1..];
    }
  }
}
