/** What every run of a `PromiseMap` keeps. */
module PromiseMapRuns {
  import opened Wrappers
  import opened JsMap
  import opened PromiseMapSpec

  // ---------- Invariants

  /** Every key with a promise has data, and only such a key holds functions or a timer. */
  ghost predicate Indexed<K(!new)>(promises: map<K, nat>, data: OrderedMap<K, MapData>) {
    && data.Valid()
    && promises.Keys <= data.entries.Keys
    && (forall k | k in data.entries ::
          data.entries[k].functions.Some? || data.entries[k].timer.Some? ==> k in promises)
  }

  ghost predicate CellOk<K, V>(heap: seq<Cell<K, V>>, tasks: map<nat, Task<K, V>>, p: nat)
    requires p < |heap|
  {
    var c := heap[p];
    match c.state
    case Held => c.byGet
    case Following(t) => c.byGet && t < |heap| && heap[t].key == c.key && !heap[t].byGet
                         && (heap[t].state.Awaiting? || heap[t].state.Settled?)
    case Awaiting => !c.byGet && p in tasks
    case Settled(_) => true
  }

  /** Promises are kept for the key they were made for, and follow only `doResolve` promises of that key. */
  ghost predicate Tracked<K(!new), V>(
      promises: map<K, nat>, heap: seq<Cell<K, V>>, tasks: map<nat, Task<K, V>>)
  {
    && (forall k | k in promises :: promises[k] < |heap| && heap[promises[k]].key == k)
    && (forall t | t in tasks :: t < |heap| && heap[t].state.Awaiting? && heap[t].key == tasks[t].key)
    && (forall p: nat | p < |heap| :: CellOk(heap, tasks, p))
  }

  /** Called exactly once, or never called and sitting in the entry of its key. */
  ghost predicate LinearAt<K(!new), V>(entries: map<K, MapData>, c: Cell<K, V>, p: nat) {
    if !c.byGet then c.calls == 0 && !c.state.Held?
    else if c.state.Held? then c.calls == 0 && c.key in entries && entries[c.key].functions == Some(p)
    else c.calls == 1
  }

  ghost predicate HoldsOwn<K(!new), V>(promises: map<K, nat>, heap: seq<Cell<K, V>>, k: K, d: MapData) {
    d.functions.Some? ==>
      var p := d.functions.value;
      p < |heap| && heap[p].state.Held? && heap[p].key == k && k in promises && promises[k] == p
  }

  ghost predicate Linear<K(!new), V>(promises: map<K, nat>, entries: map<K, MapData>, heap: seq<Cell<K, V>>) {
    && (forall p: nat | p < |heap| :: LinearAt(entries, heap[p], p))
    && (forall k | k in entries :: HoldsOwn(promises, heap, k, entries[k]))
  }

  /** A recorded timer is live, is its key's own, and is due one timeout after the key was last settled. */
  ghost predicate TimerOk<K(!new), V>(s: State<K, V>, k: K, t: nat) {
    && s.timeout.Some?
    && t in s.timers && s.timers[t].key == k
    && k in s.settledAt && s.timers[t].due == s.settledAt[k] + s.timeout.value
  }

  ghost predicate TimersOk<K(!new), V>(s: State<K, V>) {
    && (forall t | t in s.timers :: t < s.nextTimer)
    && (forall k | k in s.data.entries && s.data.entries[k].timer.Some? :: TimerOk(s, k, s.data.entries[k].timer.value))
  }

  /** With a timeout, an entry that is owned waits for its settlement or for its expiry, never both. */
  ghost predicate OneOf(d: MapData) {
    d.functions.Some? != d.timer.Some?
  }

  ghost predicate Timed<K(!new), V>(s: State<K, V>) {
    && TimersOk(s)
    && (s.timeout.Some? ==> forall k | k in s.promises && k in s.data.entries :: OneOf(s.data.entries[k]))
  }

  ghost predicate Sound<K(!new), V>(s: State<K, V>) {
    && Indexed(s.promises, s.data)
    && Tracked(s.promises, s.heap, s.tasks)
    && Linear(s.promises, s.data.entries, s.heap)
    && Timed(s)
  }

  // ---------- Every operation keeps them

  lemma GetIndexed<K(!new), V>(s: State<K, V>, k: K)
    requires Indexed(s.promises, s.data)
    ensures Indexed(Get(s, k).promises, Get(s, k).data)
  {
  }

  lemma GetTracked<K(!new), V>(s: State<K, V>, k: K)
    requires Tracked(s.promises, s.heap, s.tasks)
    ensures Tracked(Get(s, k).promises, Get(s, k).heap, s.tasks)
  {
    var heap := Get(s, k).heap;
    forall p: nat | p < |heap|
      ensures CellOk(heap, s.tasks, p)
    {
      assert p < |s.heap| ==> CellOk(s.heap, s.tasks, p);
    }
  }

  lemma GetLinear<K(!new), V>(s: State<K, V>, k: K)
    requires Indexed(s.promises, s.data)
    requires Tracked(s.promises, s.heap, s.tasks)
    requires Linear(s.promises, s.data.entries, s.heap)
    ensures Linear(Get(s, k).promises, Get(s, k).data.entries, Get(s, k).heap)
  {
    var s' := Get(s, k);
    forall p: nat | p < |s'.heap|
      ensures LinearAt(s'.data.entries, s'.heap[p], p)
    {
      assert p < |s.heap| ==> LinearAt(s.data.entries, s.heap[p], p);
    }
    forall x | x in s'.data.entries
      ensures HoldsOwn(s'.promises, s'.heap, x, s'.data.entries[x])
    {
      assert x in s.data.entries ==> HoldsOwn(s.promises, s.heap, x, s.data.entries[x]);
    }
  }

  lemma GetTimed<K(!new), V>(s: State<K, V>, k: K)
    requires Indexed(s.promises, s.data)
    requires Timed(s)
    ensures Timed(Get(s, k))
  {
  }

  // Settling ends with `Restart`, which touches one entry's timer only.

  lemma RestartIndexed<K(!new), V>(s: State<K, V>, k: K)
    requires Indexed(s.promises, s.data) && k in s.promises
    ensures Indexed(s.promises, Restart(s, k).data)
  {
  }

  lemma RestartLinear<K(!new), V>(s: State<K, V>, k: K)
    requires Linear(s.promises, s.data.entries, s.heap)
    ensures Linear(s.promises, Restart(s, k).data.entries, s.heap)
  {
  }

  lemma RestartTimed<K(!new), V>(s: State<K, V>, k: K)
    requires TimersOk(s) && k in s.data.entries && s.data.entries[k].functions.None?
    requires s.timeout.Some? ==> forall x | x in s.promises && x in s.data.entries && x != k :: OneOf(s.data.entries[x])
    ensures Timed(Restart(s, k))
  {
  }

  lemma SetIndexed<K(!new)>(p: map<K, nat>, p': map<K, nat>, data: OrderedMap<K, MapData>, k: K, d: MapData)
    requires Indexed(p, data) && p'.Keys == p.Keys + {k}
    ensures Indexed(p', data.Set(k, d))
  {
  }

  lemma SetTimers<K(!new), V>(s: State<K, V>, s1: State<K, V>, k: K, d: MapData)
    requires Timed(s) && d.timer == TimerOf(s, k)
    requires s1.timers == s.timers && s1.nextTimer == s.nextTimer && s1.timeout == s.timeout
    requires s1.settledAt == s.settledAt && s1.data == s.data.Set(k, d) && s1.promises.Keys == s.promises.Keys + {k}
    ensures TimersOk(s1)
    ensures s.timeout.Some? ==>
              forall x | x in s1.promises && x in s1.data.entries && x != k :: OneOf(s1.data.entries[x])
  {
  }

  /** A new promise for `k`, awaiting its task or already settled, may or may not become the key's own. */
  lemma AppendTracked<K(!new), V>(
      promises: map<K, nat>, promises': map<K, nat>, heap: seq<Cell<K, V>>, tasks: map<nat, Task<K, V>>,
      tasks': map<nat, Task<K, V>>, c: Cell<K, V>)
    requires Tracked(promises, heap, tasks) && !c.byGet
    requires promises' == promises || promises' == promises[c.key := |heap|]
    requires || (c.state.Settled? && tasks' == tasks)
             || (c.state.Awaiting? && exists source :: tasks' == tasks[|heap| := Task(c.key, source)])
    ensures Tracked(promises', heap + [c], tasks')
  {
    forall p: nat | p < |heap + [c]|
      ensures CellOk(heap + [c], tasks', p)
    {
      assert p < |heap| ==> CellOk(heap, tasks, p);
    }
  }

  lemma CallTracked<K(!new), V>(
      promises: map<K, nat>, heap: seq<Cell<K, V>>, tasks: map<nat, Task<K, V>>, p: nat, to: PromiseState<V>)
    requires Tracked(promises, heap, tasks) && p < |heap| && heap[p].state.Held?
    requires to.Settled? || (to.Following? && to.target < |heap| && heap[to.target].key == heap[p].key
                             && !heap[to.target].byGet && heap[to.target].state.Awaiting?)
    ensures Tracked(promises, Call(heap, p, to), tasks)
  {
    forall q: nat | q < |heap|
      ensures CellOk(Call(heap, p, to), tasks, q)
    {
      assert CellOk(heap, tasks, q);
    }
  }

  lemma AppendLinear<K(!new), V>(
      promises: map<K, nat>, promises': map<K, nat>, entries: map<K, MapData>, heap: seq<Cell<K, V>>, c: Cell<K, V>)
    requires Linear(promises, entries, heap) && !c.byGet && c.calls == 0 && !c.state.Held?
    requires || promises' == promises
             || (promises' == promises[c.key := |heap|] && (c.key in entries ==> entries[c.key].functions.None?))
    ensures Linear(promises', entries, heap + [c])
  {
  }

  lemma CallLinear<K(!new), V>(
      promises: map<K, nat>, entries: map<K, MapData>, heap: seq<Cell<K, V>>, k: K, d: MapData, to: PromiseState<V>)
    requires Linear(promises, entries, heap) && !to.Held? && d.functions.None?
    ensures Linear(promises, entries[k := d],
                   CallHeld(heap, if k in entries then entries[k].functions else None, to))
  {
  }

  lemma ResolveSound<K(!new), V>(s: State<K, V>, k: K, source: Source<V>)
    requires Sound(s)
    ensures Sound(Resolve(s, k, source))
  {
    var t, held := |s.heap|, HeldFor(s, k);
    var c: Cell<K, V> := Cell(k, false, 0, Awaiting);
    var d := MapData(None, Pending, TimerOf(s, k));
    var s1 := Resolving(s, k, source);
    HeldIsOwn(s, k);
    SetIndexed(s.promises, s1.promises, s.data, k, d);
    AppendTracked(s.promises, s1.promises, s.heap, s.tasks, s1.tasks, c);
    if held.Some? {
      CallTracked(s1.promises, s.heap + [c], s1.tasks, held.value, Following(t));
    }
    AppendLinear(s.promises, s1.promises, s.data.entries, s.heap, c);
    CallLinear(s1.promises, s.data.entries, s.heap + [c], k, d, Following(t));
    SettleSound(s, s1, k, d);
  }

  lemma HeldIsOwn<K(!new), V>(s: State<K, V>, k: K)
    requires Sound(s)
    ensures HeldFor(s, k).Some? ==> HoldsOwn(s.promises, s.heap, k, s.data.entries[k])
  {
  }

  lemma SettleSound<K(!new), V>(s: State<K, V>, s1: State<K, V>, k: K, d: MapData)
    requires Timed(s) && d.timer == TimerOf(s, k) && d.functions.None?
    requires s1.timers == s.timers && s1.nextTimer == s.nextTimer && s1.timeout == s.timeout
    requires s1.settledAt == s.settledAt && s1.data == s.data.Set(k, d) && s1.promises.Keys == s.promises.Keys + {k}
    requires Indexed(s1.promises, s1.data)
    requires Tracked(s1.promises, s1.heap, s1.tasks)
    requires Linear(s1.promises, s1.data.entries, s1.heap)
    ensures Sound(Restart(s1, k))
  {
    SetTimers(s, s1, k, d);
    RestartIndexed(s1, k);
    RestartLinear(s1, k);
    RestartTimed(s1, k);
  }

  lemma RejectSound<K(!new), V>(s: State<K, V>, k: K, reason: Reason)
    requires Sound(s)
    ensures Sound(Reject(s, k, reason))
  {
    var held := HeldFor(s, k);
    var rejected: PromiseState<V> := Settled(Error(reason));
    var c: Cell<K, V> := Cell(k, false, 0, rejected);
    var d := MapData(None, Rejected, TimerOf(s, k));
    var s1 := Rejecting(s, k, reason);
    HeldIsOwn(s, k);
    SetIndexed(s.promises, s1.promises, s.data, k, d);
    CallLinear(s.promises, s.data.entries, s.heap, k, d, rejected);
    if held.Some? {
      CallTracked(s.promises, s.heap, s.tasks, held.value, rejected);
    } else {
      AppendTracked(s.promises, s1.promises, s.heap, s.tasks, s.tasks, c);
      AppendLinear(s.promises, s1.promises, s1.data.entries, s.heap, c);
    }
    SettleSound(s, s1, k, d);
  }

  lemma {:induction false} RejectEachSound<K(!new), V>(s: State<K, V>, keys: seq<K>, reason: Reason)
    requires Sound(s)
    ensures Sound(RejectEach(s, keys, reason))
  {
    if keys == [] {
    } else {
      RejectEachSound(s, keys[..|keys| - 1], reason);
      RejectSound(RejectEach(s, keys[..|keys| - 1], reason), keys[|keys| - 1], reason);
    }
  }

  lemma DeleteSound<K(!new), V>(s: State<K, V>, k: K, reason: Reason)
    requires Sound(s)
    ensures Sound(DoDelete(s, k, reason))
  {
    var s', held := DoDelete(s, k, reason), HeldFor(s, k);
    s.data.DeleteValid(k);
    HeldIsOwn(s, k);
    if held.Some? {
      CallTracked(s.promises, s.heap, s.tasks, held.value, Settled(Error(reason)));
    }
    assert Tracked(s'.promises, s'.heap, s'.tasks);
    DeleteLinear(s, k, reason);
    DeleteTimers(s, k, reason);
  }

  lemma DeleteLinear<K(!new), V>(s: State<K, V>, k: K, reason: Reason)
    requires Linear(s.promises, s.data.entries, s.heap)
    ensures var s' := DoDelete(s, k, reason); Linear(s'.promises, s'.data.entries, s'.heap)
  {
  }

  lemma DeleteTimers<K(!new), V>(s: State<K, V>, k: K, reason: Reason)
    requires Timed(s)
    ensures Timed(DoDelete(s, k, reason))
  {
  }

  lemma ClearSound<K(!new), V>(s: State<K, V>)
    requires Sound(s)
    ensures Sound(Clear(s))
  {
    var s' := Clear(s);
    forall p: nat | p < |s.heap|
      ensures CellOk(s'.heap, s'.tasks, p) && LinearAt(s'.data.entries, s'.heap[p], p)
    {
      assert CellOk(s.heap, s.tasks, p) && LinearAt(s.data.entries, s.heap[p], p);
    }
  }

  lemma CompleteSound<K(!new), V>(s: State<K, V>, t: nat, o: Outcome<V>)
    requires Sound(s) && t in s.tasks && t < |s.heap|
    ensures Sound(Complete(s, t, o))
  {
    var s', k := Complete(s, t, o), s.tasks[t].key;
    var d := s'.data.entries[k];
    s.data.SetValid(k, d);
    forall p: nat | p < |s.heap|
      ensures CellOk(s'.heap, s'.tasks, p)
    {
      assert CellOk(s.heap, s.tasks, p);
    }
    assert Tracked(s'.promises, s'.heap, s'.tasks);
    CompleteLinear(s, t, o);
    CompleteTimers(s, t, o);
  }

  lemma CompleteLinear<K(!new), V>(s: State<K, V>, t: nat, o: Outcome<V>)
    requires Linear(s.promises, s.data.entries, s.heap)
    requires t in s.tasks && t < |s.heap| && s.heap[t].state.Awaiting?
    ensures var s' := Complete(s, t, o); Linear(s'.promises, s'.data.entries, s'.heap)
  {
  }

  lemma CompleteTimers<K(!new), V>(s: State<K, V>, t: nat, o: Outcome<V>)
    requires Sound(s) && t in s.tasks && t < |s.heap|
    ensures Timed(Complete(s, t, o))
  {
  }

  lemma FireTimers<K(!new), V>(s: State<K, V>, timer: nat)
    requires Timed(s) && timer in s.timers
    ensures Timed(Fire(s, timer))
  {
    var k, s' := s.timers[timer].key, Fire(s, timer);
    forall x | x in s'.data.entries && s'.data.entries[x].timer.Some?
      ensures TimerOk(s', x, s'.data.entries[x].timer.value)
    {
      assert TimerOk(s, x, s.data.entries[x].timer.value);
    }
  }

  lemma FireSound<K(!new), V>(s: State<K, V>, timer: nat)
    requires Sound(s) && timer in s.timers
    ensures Sound(Fire(s, timer))
  {
    FireTimers(s, timer);
    DeleteSound(s, s.timers[timer].key, TimedOut);
  }

  lemma TickSound<K(!new), V>(s: State<K, V>, elapsed: nat)
    requires Sound(s)
    ensures Sound(s.(clock := s.clock + elapsed))
  {
  }

  lemma ApplySound<K(!new), V>(s: State<K, V>, op: Op<K, V>)
    requires Sound(s) && Enabled(s, op)
    ensures Sound(Apply(s, op))
  {
    match op
    case OpGet(k) => GetIndexed(s, k); GetTracked(s, k); GetLinear(s, k); GetTimed(s, k);
    case OpResolve(k, source) => ResolveSound(s, k, source);
    case OpReject(k, reason) => RejectSound(s, k, reason);
    case OpRejectAll(reason) => RejectEachSound(s, s.data.keys, reason);
    case OpDelete(k) => DeleteSound(s, k, Deleted);
    case OpClear => ClearSound(s);
    case OpComplete(t, o) => CompleteSound(s, t, o);
    case OpFire(t) => FireSound(s, t);
    case OpTick(elapsed) => TickSound(s, elapsed);
  }

  lemma {:induction false} RunSound<K(!new), V>(s: State<K, V>, ops: seq<Op<K, V>>)
    requires Sound(s) && Feasible(s, ops)
    ensures Sound(Run(s, ops))
    decreases |ops|
  {
    if ops == [] {
    } else {
      ApplySound(s, ops[0]);
      RunSound(Apply(s, ops[0]), ops[1..]);
    }
  }
}
