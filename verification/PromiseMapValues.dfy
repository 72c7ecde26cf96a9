/** Where the values of a `PromiseMap` come from. */
module PromiseMapValues {
  import opened Wrappers
  import opened PromiseMapSpec
  import opened PromiseMapRuns

  /** Every value on its way to a key, or arrived there, is one that was offered for that key. */
  ghost predicate Genuine<K(!new), V>(heap: seq<Cell<K, V>>, tasks: map<nat, Task<K, V>>, offered: set<(K, V)>) {
    && (forall t | t in tasks && tasks[t].source.Plain? :: (tasks[t].key, tasks[t].source.value) in offered)
    && (forall p: nat | p < |heap| :: CellGenuine(heap[p], offered))
  }

  ghost predicate CellGenuine<K, V>(c: Cell<K, V>, offered: set<(K, V)>) {
    c.state.Settled? && c.state.outcome.Value? ==> (c.key, c.state.outcome.value) in offered
  }

  lemma RestartKeeps<K(!new), V>(s: State<K, V>, k: K)
    ensures Restart(s, k).heap == s.heap && Restart(s, k).tasks == s.tasks && Restart(s, k).promises == s.promises
  {
  }

  lemma ResolveGenuine<K(!new), V>(s: State<K, V>, k: K, source: Source<V>, offered: set<(K, V)>)
    requires Genuine(s.heap, s.tasks, offered) && (source.Plain? ==> (k, source.value) in offered)
    ensures Genuine(Resolve(s, k, source).heap, Resolve(s, k, source).tasks, offered)
  {
    assert forall p: nat | p < |s.heap| :: CellGenuine(s.heap[p], offered);
  }

  lemma RejectGenuine<K(!new), V>(s: State<K, V>, k: K, reason: Reason, offered: set<(K, V)>)
    requires Genuine(s.heap, s.tasks, offered)
    ensures Genuine(Reject(s, k, reason).heap, Reject(s, k, reason).tasks, offered)
  {
  }

  lemma {:induction false} RejectEachGenuine<K(!new), V>(
      s: State<K, V>, keys: seq<K>, reason: Reason, offered: set<(K, V)>)
    requires Genuine(s.heap, s.tasks, offered)
    ensures var s' := RejectEach(s, keys, reason); Genuine(s'.heap, s'.tasks, offered)
  {
    if keys == [] {
    } else {
      RejectEachGenuine(s, keys[..|keys| - 1], reason, offered);
      RejectGenuine(RejectEach(s, keys[..|keys| - 1], reason), keys[|keys| - 1], reason, offered);
    }
  }

  lemma DeleteGenuine<K(!new), V>(s: State<K, V>, k: K, reason: Reason, offered: set<(K, V)>)
    requires Genuine(s.heap, s.tasks, offered)
    ensures Genuine(DoDelete(s, k, reason).heap, DoDelete(s, k, reason).tasks, offered)
  {
  }

  /** What an operation offers to a key: a plain value, or the value that a promise-like settles with. */
  ghost function OfferedBy<K(!new), V>(s: State<K, V>, op: Op<K, V>): set<(K, V)>
    requires Enabled(s, op)
  {
    match op
    case OpResolve(k, Plain(v)) => {(k, v)}
    case OpComplete(t, Value(v)) => if s.tasks[t].source.Thenable? then {(s.tasks[t].key, v)} else {}
    case _ => {}
  }

  /** As long as only offered values are put in, only offered values come out. */
  lemma ApplyGenuine<K(!new), V>(s: State<K, V>, op: Op<K, V>, offered: set<(K, V)>)
    requires Genuine(s.heap, s.tasks, offered) && Tracked(s.promises, s.heap, s.tasks)
    requires Enabled(s, op) && OfferedBy(s, op) <= offered
    ensures Genuine(Apply(s, op).heap, Apply(s, op).tasks, offered)
  {
    match op
    case OpGet(k) => assert forall p: nat | p < |s.heap| :: CellGenuine(s.heap[p], offered);
    case OpResolve(k, source) => ResolveGenuine(s, k, source, offered);
    case OpReject(k, reason) => RejectGenuine(s, k, reason, offered);
    case OpRejectAll(reason) => RejectEachGenuine(s, s.data.keys, reason, offered);
    case OpDelete(k) => DeleteGenuine(s, k, Deleted, offered);
    case OpClear => assert forall p: nat | p < |s.heap| :: CellGenuine(s.heap[p], offered);
    case OpComplete(t, o) => CompleteGenuine(s, t, o, offered);
    case OpFire(t) => DeleteGenuine(s, s.timers[t].key, TimedOut, offered);
    case OpTick(elapsed) =>
  }

  lemma CompleteGenuine<K(!new), V>(s: State<K, V>, t: nat, o: Outcome<V>, offered: set<(K, V)>)
    requires Genuine(s.heap, s.tasks, offered) && Tracked(s.promises, s.heap, s.tasks)
    requires Enabled(s, OpComplete(t, o)) && OfferedBy(s, OpComplete(t, o)) <= offered
    ensures Genuine(Complete(s, t, o).heap, Complete(s, t, o).tasks, offered)
  {
    assert forall p: nat | p < |s.heap| :: CellGenuine(s.heap[p], offered);
    if o.Value? && s.tasks[t].source.Thenable? {
      assert (s.tasks[t].key, o.value) in OfferedBy(s, OpComplete(t, o));
    }
  }

  /** Everything a run offers. */
  ghost function Offered<K(!new), V>(s: State<K, V>, ops: seq<Op<K, V>>): set<(K, V)>
    requires Feasible(s, ops)
    decreases |ops|
  {
    if ops == [] then {} else OfferedBy(s, ops[0]) + Offered(Apply(s, ops[0]), ops[1..])
  }

  lemma {:induction false} RunGenuine<K(!new), V>(s: State<K, V>, ops: seq<Op<K, V>>, offered: set<(K, V)>)
    requires Sound(s) && Genuine(s.heap, s.tasks, offered) && Feasible(s, ops) && Offered(s, ops) <= offered
    ensures Genuine(Run(s, ops).heap, Run(s, ops).tasks, offered)
    decreases |ops|
  {
    if ops == [] {
    } else {
      ApplyGenuine(s, ops[0], offered);
      ApplySound(s, ops[0]);
      RunGenuine(Apply(s, ops[0]), ops[1..], offered);
    }
  }

  /**
   * In every run, with promise-likes that settle as they please, a promise of a key only ever carries a value that
   * was offered to that very key: a plain one, or one that a promise-like it was resolved with settled with.
   */
  lemma ValuesWereOffered<K(!new), V>(timeout: Option<nat>, ops: seq<Op<K, V>>, p: nat)
    requires Feasible(Init(timeout), ops)
    requires var s := Run(Init<K, V>(timeout), ops);
             p < |s.heap| && OutcomeOf(s.heap, p).Some? && OutcomeOf(s.heap, p).value.Value?
    ensures var s := Run(Init<K, V>(timeout), ops);
            (s.heap[p].key, OutcomeOf(s.heap, p).value.value) in Offered(Init(timeout), ops)
  {
    var s0: State<K, V> := Init(timeout);
    PromiseMapRuns.RunSound(s0, ops);
    RunGenuine(s0, ops, Offered(s0, ops));
    OutcomeGenuine(Run(s0, ops), p, Offered(s0, ops));
  }

  // ---------- Maps that are only resolved with plain values

  ghost predicate AllPlain<K, V>(tasks: map<nat, Task<K, V>>) {
    forall t | t in tasks :: tasks[t].source.Plain?
  }

  lemma {:induction false} RejectEachTasks<K(!new), V>(s: State<K, V>, keys: seq<K>, reason: Reason)
    ensures RejectEach(s, keys, reason).tasks == s.tasks
  {
    if keys == [] {
    } else {
      RejectEachTasks(s, keys[..|keys| - 1], reason);
    }
  }

  lemma ApplyPlain<K(!new), V>(s: State<K, V>, op: Op<K, V>)
    requires AllPlain(s.tasks) && Enabled(s, op) && (op.OpResolve? ==> op.source.Plain?)
    ensures AllPlain(Apply(s, op).tasks)
  {
    match op
    case OpRejectAll(reason) => RejectEachTasks(s, s.data.keys, reason);
    case _ =>
  }

  /** A promise that carries a value carries one offered for its own key. */
  lemma OutcomeGenuine<K(!new), V>(s: State<K, V>, p: nat, offered: set<(K, V)>)
    requires Genuine(s.heap, s.tasks, offered) && Tracked(s.promises, s.heap, s.tasks) && p < |s.heap|
    ensures OutcomeOf(s.heap, p).Some? && OutcomeOf(s.heap, p).value.Value? ==>
              (s.heap[p].key, OutcomeOf(s.heap, p).value.value) in offered
  {
    assert CellOk(s.heap, s.tasks, p) && CellGenuine(s.heap[p], offered);
    if s.heap[p].state.Following? {
      assert CellGenuine(s.heap[s.heap[p].state.target], offered);
    }
  }
}
