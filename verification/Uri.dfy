/** The renaming of query keys, one after the other, to camelCase. */
module Uri {
  import opened Sequences
  import opened Utility

  /** The key gives its value to its camelCase form, and is removed. */
  function CamelCaseQuery<V>(queries: map<string, V>, key: string): map<string, V>
    requires key in queries
  {
    var cased := ToCamelCase(key);
    if cased == key then queries else queries[cased := queries[key]] - {key}
  }

  /** The reduction over the keys of the query; only a key's own step removes it. */
  function AddQuery<V>(queries: map<string, V>, keys: seq<string>): map<string, V>
    requires Distinct(keys) && forall k | k in keys :: k in queries
    decreases |keys|
  {
    if keys == [] then queries
    else
      DistinctTail(keys);
      AddQuery(CamelCaseQuery(queries, keys[0]), keys[1..])
  }

  /** An order in which the keys of the query may be enumerated. */
  ghost predicate IsOrder<V>(keys: seq<string>, queries: map<string, V>) {
    Distinct(keys) && forall k :: k in keys <==> k in queries
  }

  // ---------- Without a clash, every key is renamed on its own

  /** The keys share a form, or the first one's form is the other key. */
  ghost predicate Clash(k: string, j: string) {
    ToCamelCase(k) == ToCamelCase(j) || ToCamelCase(k) == j
  }

  /** No key clashes with one that comes later in the order. */
  ghost predicate NoClashIn(keys: seq<string>) {
    forall i, j | 0 <= i < j < |keys| :: !Clash(keys[i], keys[j])
  }

  ghost function Forms(ks: set<string>): set<string> {
    set k | k in ks :: ToCamelCase(k)
  }

  ghost predicate Named<V>(q: map<string, V>, name: string, v: V) {
    name in q && q[name] == v
  }

  /** The name of a key's value when the first `n` keys are done. */
  function Name(keys: seq<string>, n: nat, i: nat): string
    requires i < |keys|
  {
    if i < n then ToCamelCase(keys[i]) else keys[i]
  }

  ghost predicate IsName(keys: seq<string>, n: nat, x: string) {
    exists i: nat | i < |keys| :: x == Name(keys, n, i)
  }

  /** Every key's value is under its name, and nothing else is there. */
  ghost predicate Partly<V>(queries: map<string, V>, q: map<string, V>, keys: seq<string>, n: nat) {
    && (forall i: nat | i < |keys| :: keys[i] in queries && Named(q, Name(keys, n, i), queries[keys[i]]))
    && (forall x | x in q :: IsName(keys, n, x))
  }

  lemma OthersStay<V>(q: map<string, V>, key: string, name: string)
    requires key in q && name in q && name != key && name != ToCamelCase(key)
    ensures name in CamelCaseQuery(q, key) && CamelCaseQuery(q, key)[name] == q[name]
  {
  }

  lemma StepKeepsValues<V>(queries: map<string, V>, q: map<string, V>, keys: seq<string>, n: nat, i: nat)
    requires NoClashIn(keys) && Distinct(keys) && n < |keys| && i < |keys| && Partly(queries, q, keys, n)
    ensures keys[n] in q && Named(CamelCaseQuery(q, keys[n]), Name(keys, n + 1, i), queries[keys[i]])
  {
    assert Named(q, Name(keys, n, n), queries[keys[n]]);
    assert Named(q, Name(keys, n, i), queries[keys[i]]);
    if i < n {
      assert !Clash(keys[i], keys[n]);
      OthersStay(q, keys[n], Name(keys, n, i));
    } else if n < i {
      assert !Clash(keys[n], keys[i]);
      OthersStay(q, keys[n], Name(keys, n, i));
    }
  }

  lemma StepAddsNothing<V>(queries: map<string, V>, q: map<string, V>, keys: seq<string>, n: nat, x: string)
    requires n < |keys| && keys[n] in q && Distinct(keys)
    requires x in CamelCaseQuery(q, keys[n]) && (x in q ==> IsName(keys, n, x))
    ensures IsName(keys, n + 1, x)
  {
    if x == ToCamelCase(keys[n]) {
      assert x == Name(keys, n + 1, n);
    } else {
      var i: nat :| i < |keys| && x == Name(keys, n, i);
      assert x == Name(keys, n + 1, i);
    }
  }

  lemma {:induction false} RestRenames<V>(queries: map<string, V>, q: map<string, V>, keys: seq<string>, n: nat)
    requires NoClashIn(keys) && Distinct(keys) && n <= |keys| && Partly(queries, q, keys, n)
    requires Distinct(keys[n..]) && forall k | k in keys[n..] :: k in q
    ensures Partly(queries, AddQuery(q, keys[n..]), keys, |keys|)
    decreases |keys| - n
  {
    if n == |keys| {
    } else {
      var q' := CamelCaseQuery(q, keys[n]);
      forall i: nat | i < |keys|
        ensures Named(q', Name(keys, n + 1, i), queries[keys[i]])
      {
        StepKeepsValues(queries, q, keys, n, i);
      }
      forall x | x in q'
        ensures IsName(keys, n + 1, x)
      {
        StepAddsNothing(queries, q, keys, n, x);
      }
      DistinctTail(keys[n..]);
      assert keys[n..][1..] == keys[n + 1..];
      RestRenames(queries, q', keys, n + 1);
    }
  }

  ghost predicate DistinctForms(ks: set<string>) {
    forall k, j | k in ks && j in ks && k != j :: ToCamelCase(k) != ToCamelCase(j)
  }

  lemma OneFormMore(ks: set<string>, k: string)
    requires DistinctForms(ks) && k in ks
    ensures DistinctForms(ks - {k}) && ToCamelCase(k) !in Forms(ks - {k})
    ensures Forms(ks) == Forms(ks - {k}) + {ToCamelCase(k)}
  {
  }

  lemma {:induction false} ImageSize(ks: set<string>)
    requires DistinctForms(ks)
    ensures |Forms(ks)| == |ks|
  {
    if ks == {} {
    } else {
      var k :| k in ks;
      OneFormMore(ks, k);
      ImageSize(ks - {k});
    }
  }

  lemma FormsAreDistinct<V>(queries: map<string, V>, keys: seq<string>)
    requires NoClashIn(keys) && IsOrder(keys, queries)
    ensures DistinctForms(queries.Keys)
  {
    forall k, j | k in queries && j in queries && k != j
      ensures ToCamelCase(k) != ToCamelCase(j)
    {
      assert k in keys && j in keys;
      var m, n :| 0 <= m < |keys| && 0 <= n < |keys| && keys[m] == k && keys[n] == j;
      assert if m < n then !Clash(keys[m], keys[n]) else !Clash(keys[n], keys[m]);
    }
  }

  /** Every key's form has that key's value, nothing else is there, and nothing is lost. */
  ghost predicate IsRenaming<V>(queries: map<string, V>, r: map<string, V>) {
    && (forall k | k in queries :: Named(r, ToCamelCase(k), queries[k]))
    && r.Keys == Forms(queries.Keys)
    && |r| == |queries|
  }

  lemma NamesAreForms<V>(queries: map<string, V>, r: map<string, V>, keys: seq<string>)
    requires Partly(queries, r, keys, |keys|) && IsOrder(keys, queries)
    ensures forall k | k in queries :: Named(r, ToCamelCase(k), queries[k])
    ensures r.Keys == Forms(queries.Keys)
  {
    forall k | k in queries
      ensures Named(r, ToCamelCase(k), queries[k])
    {
      assert k in keys;
      var i :| 0 <= i < |keys| && keys[i] == k;
      assert Named(r, Name(keys, |keys|, i), queries[keys[i]]);
    }
    forall x | x in r
      ensures x in Forms(queries.Keys)
    {
      assert IsName(keys, |keys|, x);
      var i: nat :| i < |keys| && x == Name(keys, |keys|, i);
      assert keys[i] in keys;
    }
  }

  lemma StartPartly<V>(queries: map<string, V>, keys: seq<string>)
    requires IsOrder(keys, queries)
    ensures Partly(queries, queries, keys, 0)
  {
    forall x | x in queries
      ensures IsName(keys, 0, x)
    {
      assert x in keys;
      var i :| 0 <= i < |keys| && keys[i] == x;
      assert x == Name(keys, 0, i);
    }
  }

  /** If no key clashes with a later one, each key is renamed as if it were alone. */
  lemma EveryKeyIsRenamed<V>(queries: map<string, V>, keys: seq<string>)
    requires NoClashIn(keys) && IsOrder(keys, queries)
    ensures IsRenaming(queries, AddQuery(queries, keys))
  {
    var r := AddQuery(queries, keys);
    assert Partly(queries, r, keys, |keys|) by {
      StartPartly(queries, keys);
      assert keys[0..] == keys;
      RestRenames(queries, queries, keys, 0);
    }
    NamesAreForms(queries, r, keys);
    assert |r| == |queries| by {
      FormsAreDistinct(queries, keys);
      ImageSize(queries.Keys);
      assert |r| == |r.Keys|;
    }
  }

  // ---------- With a clash, an entry is lost

  lemma StepShrinks<V>(q: map<string, V>, key: string)
    requires key in q
    ensures |CamelCaseQuery(q, key)| == if ToCamelCase(key) != key && ToCamelCase(key) in q then |q| - 1 else |q|
  {
  }

  lemma {:induction false} NeverGrows<V>(q: map<string, V>, keys: seq<string>)
    requires Distinct(keys) && forall k | k in keys :: k in q
    ensures |AddQuery(q, keys)| <= |q|
    decreases |keys|
  {
    if keys == [] {
    } else {
      DistinctTail(keys);
      StepShrinks(q, keys[0]);
      NeverGrows(CamelCaseQuery(q, keys[0]), keys[1..]);
    }
  }

  /** A key whose form is already taken for good loses an entry. */
  lemma {:induction false} TakenLoses<V>(q: map<string, V>, keys: seq<string>, j: nat)
    requires Distinct(keys) && forall k | k in keys :: k in q
    requires j < |keys| && ToCamelCase(keys[j]) in q && ToCamelCase(keys[j]) !in keys
    ensures |AddQuery(q, keys)| < |q|
    decreases |keys|
  {
    DistinctTail(keys);
    StepShrinks(q, keys[0]);
    var q' := CamelCaseQuery(q, keys[0]);
    if j == 0 {
      NeverGrows(q', keys[1..]);
    } else {
      assert keys[1..][j - 1] == keys[j];
      TakenLoses(q', keys[1..], j - 1);
    }
  }

  lemma {:induction false} ClashLoses<V>(q: map<string, V>, keys: seq<string>, i: nat, j: nat)
    requires Distinct(keys) && forall k | k in keys :: k in q
    requires i < j < |keys| && Clash(keys[i], keys[j])
    ensures |AddQuery(q, keys)| < |q|
    decreases |keys|
  {
    DistinctTail(keys);
    StepShrinks(q, keys[0]);
    var q' := CamelCaseQuery(q, keys[0]);
    assert keys[1..][j - 1] == keys[j];
    if i > 0 {
      assert keys[1..][i - 1] == keys[i];
      ClashLoses(q', keys[1..], i - 1, j - 1);
    } else if ToCamelCase(keys[0]) in keys[1..] {
      NeverGrows(q', keys[1..]);
    } else {
      TakenLoses(q', keys[1..], j - 1);
    }
  }

  /** In a given order, an entry is lost exactly if two keys share a form or a key's form is a key that comes later. */
  lemma NothingIsLostInOrderIff<V>(queries: map<string, V>, keys: seq<string>)
    requires IsOrder(keys, queries)
    ensures NoClashIn(keys) <==> |AddQuery(queries, keys)| == |queries|
    ensures NoClashIn(keys) <==> IsRenaming(queries, AddQuery(queries, keys))
  {
    if NoClashIn(keys) {
      EveryKeyIsRenamed(queries, keys);
    } else {
      var i, j :| 0 <= i < j < |keys| && Clash(keys[i], keys[j]);
      ClashLoses(queries, keys, i, j);
    }
  }

  // ---------- Which entry is kept

  /** One step moves the key's value to its form, over any that was there, and touches nothing else. */
  lemma StepMoves<V>(q: map<string, V>, key: string)
    requires key in q
    ensures var q', cased := CamelCaseQuery(q, key), ToCamelCase(key);
            && Named(q', cased, q[key]) && (cased != key ==> key !in q')
            && (forall k | k != key && k != cased :: k in q' <==> k in q)
            && (forall k | k != key && k != cased && k in q && k in q' :: q'[k] == q[k])
  {
  }

  lemma {:induction false} FormStays<V>(q: map<string, V>, keys: seq<string>, form: string)
    requires Distinct(keys) && forall k | k in keys :: k in q
    requires form in q && forall k | k in keys :: k != form && ToCamelCase(k) != form
    ensures Named(AddQuery(q, keys), form, q[form])
    decreases |keys|
  {
    if keys == [] {
    } else {
      DistinctTail(keys);
      StepMoves(q, keys[0]);
      assert keys[0] in keys && forall k | k in keys[1..] :: k in keys;
      FormStays(CamelCaseQuery(q, keys[0]), keys[1..], form);
    }
  }

  /** When keys share a form, the last of them decides its value, provided that no form is a key that comes later. */
  lemma {:induction false} LastKeyWins<V>(q: map<string, V>, keys: seq<string>, i: nat)
    requires Distinct(keys) && forall k | k in keys :: k in q
    requires forall a, b | 0 <= a < b < |keys| :: ToCamelCase(keys[a]) != keys[b]
    requires i < |keys| && forall j | i < j < |keys| :: ToCamelCase(keys[j]) != ToCamelCase(keys[i])
    ensures Named(AddQuery(q, keys), ToCamelCase(keys[i]), q[keys[i]])
    decreases |keys|
  {
    DistinctTail(keys);
    StepMoves(q, keys[0]);
    var q' := CamelCaseQuery(q, keys[0]);
    if i == 0 {
      forall k | k in keys[1..]
        ensures k != ToCamelCase(keys[0]) && ToCamelCase(k) != ToCamelCase(keys[0])
      {
        var j :| 1 <= j < |keys| && keys[j] == k;
      }
      FormStays(q', keys[1..], ToCamelCase(keys[0]));
    } else {
      assert keys[1..][i - 1] == keys[i];
      LastKeyWins(q', keys[1..], i - 1);
    }
  }

  // ---------- Over all orders

  /** No two keys share a form, and no form of a key is another key. */
  ghost predicate NoClash<V>(queries: map<string, V>) {
    forall k, j | k in queries && j in queries && k != j :: !Clash(k, j)
  }

  lemma {:induction false} Enumerate(s: set<string>) returns (keys: seq<string>)
    ensures Distinct(keys) && forall k :: k in keys <==> k in s
  {
    if s == {} {
      keys := [];
    } else {
      var k :| k in s;
      var rest := Enumerate(s - {k});
      DistinctAppend(rest, k);
      keys := rest + [k];
    }
  }

  lemma OrdersDoNotClash<V>(queries: map<string, V>, keys: seq<string>)
    requires NoClash(queries) && IsOrder(keys, queries)
    ensures NoClashIn(keys)
  {
    forall i, j | 0 <= i < j < |keys|
      ensures !Clash(keys[i], keys[j])
    {
      assert keys[i] in keys && keys[j] in keys;
    }
  }

  /** The order that takes the two keys first. */
  lemma OrderFrom<V>(queries: map<string, V>, k: string, j: string) returns (keys: seq<string>)
    requires k in queries && j in queries && k != j
    ensures IsOrder(keys, queries) && |keys| >= 2 && keys[0] == k && keys[1] == j
  {
    var others := Enumerate(queries.Keys - {k, j});
    DistinctConcat([k, j], others);
    keys := [k, j] + others;
  }

  /** No entry is lost, whatever order the keys come in, exactly when there is no clash. */
  lemma NothingIsLostIff<V>(queries: map<string, V>)
    ensures NoClash(queries) <==>
            (forall keys | IsOrder(keys, queries) :: |AddQuery(queries, keys)| == |queries|)
  {
    if NoClash(queries) {
      forall keys | IsOrder(keys, queries)
        ensures |AddQuery(queries, keys)| == |queries|
      {
        OrdersDoNotClash(queries, keys);
        NothingIsLostInOrderIff(queries, keys);
      }
    } else {
      var k, j :| k in queries && j in queries && k != j && Clash(k, j);
      var keys := OrderFrom(queries, k, j);
      NothingIsLostInOrderIff(queries, keys);
    }
  }
}
