/** Mapping URI queries to options: registration of descriptors, and the reduction that `parse` does over them. */
module QueryParser {
  import opened Wrappers
  import opened JsMap

  /** A query value is present once or several times; an absent one is not in the map. */
  datatype Raw = One(value: string) | Many(values: seq<string>)

  type Queries = map<string, Raw>

  type Parser<!V> = Raw -> Result<V, string>

  datatype QueryDescriptor<!V> =
    QueryDescriptor(source: string, target: Option<string>, parser: Option<Parser<V>>)

  datatype MapEntry<!V> = MapEntry(target: string, parser: Parser<V>)

  type Functions<!V> = OrderedMap<string, MapEntry<V>>

  // ---------- Registration

  /** Without a parser the raw value is kept; without a target it is the source. */
  function ToEntry<V>(d: QueryDescriptor<V>, asIs: Raw -> V): MapEntry<V> {
    MapEntry(
      if d.target.Some? then d.target.value else d.source,
      if d.parser.Some? then d.parser.value else (raw: Raw) => Success(asIs(raw)))
  }

  function Register<V>(descriptors: seq<QueryDescriptor<V>>, asIs: Raw -> V): Functions<V> {
    if descriptors == [] then Empty()
    else
      var last := descriptors[|descriptors| - 1];
      Register(descriptors[..|descriptors| - 1], asIs).Set(last.source, ToEntry(last, asIs))
  }

  predicate LastOf<V>(descriptors: seq<QueryDescriptor<V>>, i: nat) {
    i < |descriptors| && forall j | i < j < |descriptors| :: descriptors[j].source != descriptors[i].source
  }

  predicate FirstOf<V>(descriptors: seq<QueryDescriptor<V>>, i: nat) {
    i < |descriptors| && forall j | 0 <= j < i :: descriptors[j].source != descriptors[i].source
  }

  /** A source that is described several times is parsed as its last descriptor says. */
  lemma {:induction false} LastDescriptorCounts<V>(descriptors: seq<QueryDescriptor<V>>, asIs: Raw -> V, i: nat)
    requires LastOf(descriptors, i)
    ensures var m := Register(descriptors, asIs); var d := descriptors[i];
            && d.source in m.entries
            && m.entries[d.source].target == (if d.target.Some? then d.target.value else d.source)
            && (d.parser.Some? ==> m.entries[d.source].parser == d.parser.value)
            && (d.parser.None? ==> forall raw :: m.entries[d.source].parser(raw) == Success(asIs(raw)))
  {
    var front := descriptors[..|descriptors| - 1];
    if i == |front| {
    } else {
      assert LastOf(front, i);
      LastDescriptorCounts(front, asIs, i);
    }
  }

  lemma {:induction false} RegisterValid<V>(descriptors: seq<QueryDescriptor<V>>, asIs: Raw -> V)
    ensures Register(descriptors, asIs).Valid()
    ensures Registered(Register(descriptors, asIs))
  {
    if descriptors == [] {
    } else {
      var front, last := descriptors[..|descriptors| - 1], descriptors[|descriptors| - 1];
      RegisterValid(front, asIs);
      Register(front, asIs).SetValid(last.source, ToEntry(last, asIs));
    }
  }

  /** The sources in the order in which each was described first. */
  function FirstSources<V>(descriptors: seq<QueryDescriptor<V>>): seq<string> {
    if descriptors == [] then []
    else
      var n := |descriptors| - 1;
      FirstSources(descriptors[..n]) + (if FirstOf(descriptors, n) then [descriptors[n].source] else [])
  }

  lemma {:induction false} SourcesAreRegistered<V>(descriptors: seq<QueryDescriptor<V>>, asIs: Raw -> V, k: string)
    ensures k in Register(descriptors, asIs).entries
            <==> exists i | 0 <= i < |descriptors| :: descriptors[i].source == k
  {
    if descriptors == [] {
    } else {
      var n := |descriptors| - 1;
      SourcesAreRegistered(descriptors[..n], asIs, k);
      assert forall i | 0 <= i < n :: descriptors[..n][i] == descriptors[i];
    }
  }

  lemma FirstOfIff<V>(descriptors: seq<QueryDescriptor<V>>, asIs: Raw -> V, n: nat)
    requires n < |descriptors|
    ensures FirstOf(descriptors, n) <==> descriptors[n].source !in Register(descriptors[..n], asIs).entries
  {
    SourcesAreRegistered(descriptors[..n], asIs, descriptors[n].source);
    assert forall i | 0 <= i < n :: descriptors[..n][i] == descriptors[i];
  }

  /** But its position is that of its first descriptor. */
  lemma {:induction false} FirstPositionCounts<V>(descriptors: seq<QueryDescriptor<V>>, asIs: Raw -> V)
    ensures Register(descriptors, asIs).keys == FirstSources(descriptors)
  {
    if descriptors == [] {
    } else {
      var n := |descriptors| - 1;
      FirstPositionCounts(descriptors[..n], asIs);
      FirstOfIff(descriptors, asIs, n);
    }
  }

  // ---------- parse

  /** The sources that the query has, in the parser's order. */
  function WithSources(keys: seq<string>, query: Queries): (r: seq<string>)
    ensures forall k | k in r :: k in keys && k in query
  {
    if keys == [] then []
    else
      var k := keys[|keys| - 1];
      WithSources(keys[..|keys| - 1], query) + (if k in query then [k] else [])
  }

  function AppendParsed<V>(functions: Functions<V>, query: Queries, previous: map<string, V>, source: string)
    : Result<map<string, V>, string>
    requires source in functions.entries && source in query
  {
    var entry := functions.entries[source];
    var parsed :- entry.parser(query[source]);
    Success(previous[entry.target := parsed])
  }

  function Reduce<V>(functions: Functions<V>, query: Queries, sources: seq<string>, init: map<string, V>)
    : Result<map<string, V>, string>
    requires forall k | k in sources :: k in functions.entries && k in query
  {
    if sources == [] then Success(init)
    else
      var previous :- Reduce(functions, query, sources[..|sources| - 1], init);
      AppendParsed(functions, query, previous, sources[|sources| - 1])
  }

  function Parse<V>(functions: Functions<V>, query: Queries, init: map<string, V>): Result<map<string, V>, string>
    requires Registered(functions)
  {
    var r := Reduce(functions, query, WithSources(functions.keys, query), init);
    if r.Success? then r else Failure("query parsing failed: " + r.error)
  }

  // ---------- What it means

  /** The position among `keys` of the last entry with that target whose source the query has, if there is one. */
  ghost predicate LastFor<V>(functions: Functions<V>, keys: seq<string>, query: Queries, target: string, i: nat) {
    && i < |keys| && Serves(functions, query, target, keys[i])
    && forall j | i < j < |keys| :: !Serves(functions, query, target, keys[j])
  }

  ghost predicate Serves<V>(functions: Functions<V>, query: Queries, target: string, k: string) {
    k in functions.entries && k in query && functions.entries[k].target == target
  }

  ghost predicate Parses<V>(functions: Functions<V>, query: Queries, k: string) {
    k in functions.entries && k in query ==> functions.entries[k].parser(query[k]).Success?
  }

  ghost predicate Registered<V>(functions: Functions<V>) {
    forall k :: k in functions.keys <==> k in functions.entries
  }

  ghost predicate ParsedInto<V>(functions: Functions<V>, query: Queries, k: string, r: map<string, V>, target: string) {
    && k in functions.entries && k in query
    && functions.entries[k].parser(query[k]).Success?
    && target in r && r[target] == functions.entries[k].parser(query[k]).value
  }

  /** A target that no present source has is left as it was; any other holds what the last one of its entries parses. */
  ghost predicate Pointwise<V>(
      functions: Functions<V>, keys: seq<string>, query: Queries, init: map<string, V>, r: map<string, V>,
      target: string)
  {
    && (forall i: nat | LastFor(functions, keys, query, target, i) :: ParsedInto(functions, query, keys[i], r, target))
    && ((forall i | 0 <= i < |keys| :: !Serves(functions, query, target, keys[i])) ==>
          (target in r <==> target in init) && (target in init ==> r[target] == init[target]))
  }

  /** The reduction over a front of the keys, then the next key. */
  lemma ReduceStep<V>(functions: Functions<V>, query: Queries, front: seq<string>, k: string, init: map<string, V>)
    requires k in functions.entries && forall x | x in front :: x in functions.entries
    ensures var r := Reduce(functions, query, WithSources(front, query), init);
            Reduce(functions, query, WithSources(front + [k], query), init)
            == if r.Failure? || k !in query then r else AppendParsed(functions, query, r.value, k)
  {
    assert (front + [k])[..|front|] == front;
    var sources := WithSources(front, query);
    if k in query {
      assert (sources + [k])[..|sources|] == sources;
    } else {
      assert sources + [] == sources;
    }
  }

  lemma PointwiseStep<V>(
      functions: Functions<V>, query: Queries, front: seq<string>, k: string, init: map<string, V>,
      r: map<string, V>, r': map<string, V>, target: string)
    requires k in functions.entries && Pointwise(functions, front, query, init, r, target)
    requires if k in query then AppendParsed(functions, query, r, k) == Success(r') else r' == r
    ensures Pointwise(functions, front + [k], query, init, r', target)
  {
    var keys := front + [k];
    if Serves(functions, query, target, k) {
      assert keys[|front|] == k;
    } else {
      forall i: nat | LastFor(functions, keys, query, target, i)
        ensures ParsedInto(functions, query, keys[i], r', target)
      {
        assert forall j | i < j < |front| :: keys[j] == front[j];
        assert LastFor(functions, front, query, target, i);
      }
      assert forall i | 0 <= i < |front| :: keys[i] == front[i];
    }
  }

  lemma {:induction false} ReducePointwise<V>(
      functions: Functions<V>, keys: seq<string>, query: Queries, init: map<string, V>, target: string)
    requires forall k | k in keys :: k in functions.entries
    ensures var r := Reduce(functions, query, WithSources(keys, query), init);
            r.Success? ==> Pointwise(functions, keys, query, init, r.value, target)
  {
    if keys == [] {
    } else {
      var front, k := keys[..|keys| - 1], keys[|keys| - 1];
      assert keys == front + [k];
      ReducePointwise(functions, front, query, init, target);
      ReduceStep(functions, query, front, k, init);
      var r, r' := Reduce(functions, query, WithSources(front, query), init),
                   Reduce(functions, query, WithSources(keys, query), init);
      if r'.Success? {
        PointwiseStep(functions, query, front, k, init, r.value, r'.value, target);
      }
    }
  }

  /** Every target of a parsed query is determined on its own, by the last entry that serves it. */
  lemma ParseIsPointwise<V>(functions: Functions<V>, query: Queries, init: map<string, V>, target: string)
    requires Registered(functions) && Parse(functions, query, init).Success?
    ensures Pointwise(functions, functions.keys, query, init, Parse(functions, query, init).value, target)
  {
    ReducePointwise(functions, functions.keys, query, init, target);
  }

  /** And it is determined for every target: if an entry serves it, one of them is the last. */
  lemma {:induction false} SomeEntryIsLast<V>(
      functions: Functions<V>, keys: seq<string>, query: Queries, target: string, i: nat)
    requires i < |keys| && Serves(functions, query, target, keys[i])
    ensures exists j: nat :: LastFor(functions, keys, query, target, j)
    decreases |keys| - i
  {
    if j :| i < j < |keys| && Serves(functions, query, target, keys[j]) {
      SomeEntryIsLast(functions, keys, query, target, j);
    } else {
      assert LastFor(functions, keys, query, target, i);
    }
  }

  /** Parsing fails exactly when the parser of some present source does, with the error of the first that does. */
  lemma {:induction false} ReduceFailsIff<V>(
      functions: Functions<V>, keys: seq<string>, query: Queries, init: map<string, V>)
    requires forall k | k in keys :: k in functions.entries
    ensures var r := Reduce(functions, query, WithSources(keys, query), init);
            && (r.Success? <==> forall i | 0 <= i < |keys| :: Parses(functions, query, keys[i]))
            && (forall i | 0 <= i < |keys| && !Parses(functions, query, keys[i])
                           && (forall j | 0 <= j < i :: Parses(functions, query, keys[j])) ::
                  r == Failure(functions.entries[keys[i]].parser(query[keys[i]]).error))
  {
    if keys == [] {
    } else {
      var front, k := keys[..|keys| - 1], keys[|keys| - 1];
      assert keys == front + [k];
      ReduceFailsIff(functions, front, query, init);
      ReduceStep(functions, query, front, k, init);
    }
  }

  lemma ParseFailsIff<V>(functions: Functions<V>, query: Queries, init: map<string, V>)
    requires Registered(functions)
    ensures var keys, r := functions.keys, Parse(functions, query, init);
            && (r.Success? <==> forall i | 0 <= i < |keys| :: Parses(functions, query, keys[i]))
            && (forall i | 0 <= i < |keys| && !Parses(functions, query, keys[i])
                           && (forall j | 0 <= j < i :: Parses(functions, query, keys[j])) ::
                  r == Failure("query parsing failed: " + functions.entries[keys[i]].parser(query[keys[i]]).error))
  {
    ReduceFailsIff(functions, functions.keys, query, init);
  }
}
