/** The container itself. Every method makes exactly the step its specification says. */
module PromiseMaps {
  import opened Wrappers
  import opened JsMap
  import opened PromiseMapSpec
  import opened PromiseMapRuns
  import opened PromiseMapRejectAll
  import opened PromiseMapSteps

  class PromiseMap<K(==,!new), V> {
    var promises: map<K, nat>
    var data: OrderedMap<K, MapData>
    const timeout: Option<nat>

    // The runtime around the container
    var heap: seq<Cell<K, V>>
    var tasks: map<nat, Task<K, V>>
    var timers: map<nat, Timer<K>>
    var nextTimer: nat
    var clock: nat
    ghost var settledAt: map<K, nat>

    ghost function View(): State<K, V>
      reads this
    {
      State(timeout, promises, data, heap, tasks, timers, nextTimer, clock, settledAt)
    }

    ghost predicate Valid()
      reads this
    {
      Sound(View())
    }

    constructor (timeout: Option<nat>)
      ensures Valid() && View() == Init(timeout)
    {
      this.timeout := timeout;
      promises, data := map[], Empty();
      heap, tasks, timers, nextTimer, clock := [], map[], map[], 0, 0;
      settledAt := map[];
    }

    // ---------- Queries

    method Has(key: K) returns (b: bool)
      requires Valid()
      ensures b ==> IsOneOf(key)
      ensures b == (key in View().promises)
    {
      b := key in promises;
    }

    ghost predicate IsOneOf(key: K)
      reads this
    {
      HasStatus(View(), key, Pending) || HasStatus(View(), key, Fulfilled) || HasStatus(View(), key, Rejected)
    }

    method IsPending(key: K) returns (b: bool)
      ensures b == HasStatus(View(), key, Pending)
    {
      b := key in data.entries && data.entries[key].status == Pending;
    }

    method IsFulfilled(key: K) returns (b: bool)
      ensures b == HasStatus(View(), key, Fulfilled)
    {
      b := key in data.entries && data.entries[key].status == Fulfilled;
    }

    method IsRejected(key: K) returns (b: bool)
      ensures b == HasStatus(View(), key, Rejected)
    {
      b := key in data.entries && data.entries[key].status == Rejected;
    }

    // ---------- Settle functions of a promise

    method CallFunctions(p: nat, to: PromiseState<V>)
      modifies `heap
      ensures heap == Call(old(heap), p, to)
    {
      if p < |heap| {
        var c := heap[p];
        heap := heap[p := c.(calls := c.calls + 1, state := if c.state.Held? then to else c.state)];
      }
    }

    method ClearTimeout(timer: nat)
      modifies `timers
      ensures timers == old(timers) - {timer}
    {
      timers := timers - {timer};
    }

    // ---------- Operations

    method Get(key: K) returns (p: nat)
      requires Valid()
      modifies this
      ensures Valid() && View() == PromiseMapSpec.Get(old(View()), key)
      ensures key in View().promises && p == View().promises[key] && p < |heap| && heap[p].key == key
    {
      ghost var s := View();
      GetIndexed(s, key); GetTracked(s, key); GetLinear(s, key); GetTimed(s, key);
      if key in promises {
        return promises[key];
      }
      p := |heap|;
      heap := heap + [Cell(key, true, 0, Held)];
      data := data.Set(key, MapData(Some(p), Pending, None));
      promises := promises[key := p];
    }

    method Resolve(key: K, source: Source<V>) returns (isNew: bool)
      requires Valid()
      modifies this
      ensures Valid() && View() == PromiseMapSpec.Resolve(old(View()), key, source)
      ensures isNew == (key !in old(View()).data.entries)
    {
      ghost var s := View();
      ResolveSound(s, key, source);
      var hasKey := key in data.entries;
      if hasKey {
        var newData := ResolveExisting(key, data.entries[key], source);
        data := data.Set(key, newData);
      } else {
        var t := DoResolve(key, source);
        promises := promises[key := t];
        data := data.Set(key, MapData(None, Pending, None));
      }
      assert View() == Resolving(s, key, source);
      var timed := SetTimeout(key);
      return !hasKey;
    }

    method Reject(key: K, reason: Reason) returns (isNew: bool)
      requires Valid()
      modifies this
      ensures Valid() && View() == PromiseMapSpec.Reject(old(View()), key, reason)
      ensures isNew == (key !in old(View()).data.entries)
    {
      ghost var s := View();
      RejectSound(s, key, reason);
      var hasKey := key in data.entries;
      if hasKey {
        var newData := RejectExisting(key, data.entries[key], reason);
        data := data.Set(key, newData);
      } else {
        promises := promises[key := |heap|];
        heap := heap + [Cell(key, false, 0, Settled(Error(reason)))];
        data := data.Set(key, MapData(None, Rejected, None));
      }
      assert View() == Rejecting(s, key, reason);
      var timed := SetTimeout(key);
      return !hasKey;
    }

    method ResolveExisting(key: K, d: MapData, source: Source<V>) returns (newData: MapData)
      modifies `heap, `tasks, `promises
      ensures tasks == old(tasks)[|old(heap)| := Task(key, source)]
      ensures heap == CallHeld(old(heap) + [Cell(key, false, 0, Awaiting)], d.functions, Following(|old(heap)|))
      ensures promises == if d.functions.Some? then old(promises) else old(promises)[key := |old(heap)|]
      ensures newData == MapData(None, Pending, d.timer)
    {
      var t := DoResolve(key, source);
      if d.functions.Some? {
        CallFunctions(d.functions.value, Following(t));
      } else {
        promises := promises[key := t];
      }
      newData := RemoveFunctions(d).(status := Pending);
    }

    method RejectExisting(key: K, d: MapData, reason: Reason) returns (newData: MapData)
      modifies `heap, `promises
      ensures heap == if d.functions.Some? then Call(old(heap), d.functions.value, Settled(Error(reason)))
                      else old(heap) + [Cell(key, false, 0, Settled(Error(reason)))]
      ensures promises == if d.functions.Some? then old(promises) else old(promises)[key := |old(heap)|]
      ensures newData == MapData(None, Rejected, d.timer)
    {
      if d.functions.Some? {
        CallFunctions(d.functions.value, Settled(Error(reason)));
      } else {
        promises := promises[key := |heap|];
        heap := heap + [Cell(key, false, 0, Settled(Error(reason)))];
      }
      newData := RemoveFunctions(d).(status := Rejected);
    }

    static function RemoveFunctions(d: MapData): MapData {
      d.(functions := None)
    }

    /** Runs up to its first `await`; `Finish` is the rest. */
    method DoResolve(key: K, source: Source<V>) returns (t: nat)
      modifies `heap, `tasks
      ensures t == |old(heap)| && heap == old(heap) + [Cell(key, false, 0, Awaiting)]
      ensures tasks == old(tasks)[t := Task(key, source)]
    {
      t := |heap|;
      heap := heap + [Cell(key, false, 0, Awaiting)];
      tasks := tasks[t := Task(key, source)];
    }

    /** The value that the `doResolve` call `t` awaits has settled. */
    method Finish(t: nat, o: Outcome<V>)
      requires Valid() && t in tasks && t < |heap|
      modifies this
      ensures Valid() && View() == Complete(old(View()), t, o)
    {
      CompleteSound(View(), t, o);
      SetStatus(tasks[t].key, if o.Value? then Fulfilled else Rejected);
      heap := heap[t := heap[t].(state := Settled(o))];
      tasks := tasks - {t};
    }

    method SetStatus(key: K, status: Status)
      modifies `data
      ensures data == old(data).Set(key, (if key in old(data).entries then old(data).entries[key]
                                          else MapData(None, Pending, None)).(status := status))
    {
      var toSet;
      if key !in data.entries {
        toSet := MapData(None, status, None);
      } else {
        toSet := data.entries[key].(status := status);
      }
      data := data.Set(key, toSet);
    }

    method SetTimeout(key: K) returns (timed: bool)
      requires key in data.entries
      modifies `timers, `nextTimer, `data, `settledAt
      ensures View() == Restart(old(View()), key) && timed == timeout.Some?
    {
      settledAt := settledAt[key := clock];
      if timeout.None? {
        return false;
      }
      var d := data.entries[key];
      if d.timer.Some? {
        ClearTimeout(d.timer.value);
      }
      timers := timers[nextTimer := Timer(key, clock + timeout.value)];
      data := data.Set(key, d.(timer := Some(nextTimer)));
      nextTimer := nextTimer + 1;
      return true;
    }

    /** Visits the live entries while `Reject` rewrites them. */
    method RejectAll(reason: Reason) returns (numRejected: nat)
      requires Valid()
      modifies this
      ensures Valid() && View() == PromiseMapSpec.RejectAll(old(View()), reason)
      ensures numRejected == |RejectableKeys(old(View()))|
    {
      ghost var s := View();
      numRejected := 0;
      var i := 0;
      assert s.data.keys[..0] == [];
      while i < |data.keys|
        invariant i <= |data.keys| && Valid()
        invariant data.keys == s.data.keys && View() == RejectEach(s, s.data.keys[..i], reason)
        invariant numRejected == |RejectableAmong(s, s.data.keys[..i])|
      {
        var key := data.keys[i];
        RejectVisit(s, i, reason);
        if data.entries[key].status == Pending && data.entries[key].functions.Some? {
          var isNew := Reject(key, reason);
          numRejected := numRejected + 1;
        }
        i := i + 1;
      }
      assert s.data.keys[..i] == s.data.keys;
      assert RejectableAmong(s, s.data.keys) == RejectableKeys(s);
    }

    method Delete(key: K) returns (deleted: bool)
      requires Valid()
      modifies this
      ensures Valid() && View() == Apply(old(View()), OpDelete(key))
      ensures key !in View().promises && key !in View().data.entries
      ensures deleted == (key in old(View()).promises)
    {
      DeleteLaw(View(), key);
      deleted := DoDelete(key, Deleted);
    }

    method DoDelete(key: K, reason: Reason) returns (deleted: bool)
      requires Valid()
      modifies this
      ensures Valid() && View() == PromiseMapSpec.DoDelete(old(View()), key, reason)
      ensures deleted == (key in old(View()).promises)
    {
      DeleteSound(View(), key, reason);
      if key in data.entries {
        var d := data.entries[key];
        if d.functions.Some? {
          CallFunctions(d.functions.value, Settled(Error(reason)));
        }
        if d.timer.Some? {
          ClearTimeout(d.timer.value);
        }
      }
      data := data.Delete(key);
      deleted := key in promises;
      promises := promises - {key};
    }

    /** A timer that is due runs its callback. */
    method Fire(timer: nat) returns (deleted: bool)
      requires Valid() && timer in timers
      modifies this
      ensures Valid() && View() == PromiseMapSpec.Fire(old(View()), timer)
      ensures deleted == (old(timers)[timer].key in old(View()).promises)
    {
      ghost var s := View();
      FireSound(s, timer);
      var key := timers[timer].key;
      deleted := DoDelete(key, TimedOut);
      timers := timers - {timer};
      assert View().timers == PromiseMapSpec.Fire(s, timer).timers;
    }

    method Clear() returns (numDeleted: nat)
      requires Valid()
      modifies this
      ensures Valid() && View() == PromiseMapSpec.Clear(old(View()))
      ensures numDeleted == |old(View()).promises|
    {
      ghost var s := View();
      ClearSound(s);
      var i := 0;
      while i < |data.keys|
        invariant i <= |data.keys|
        invariant View() == s.(heap := heap)
        invariant ClearedTo(s, heap, i)
      {
        var key := data.keys[i];
        ClearVisit(s, heap, i);
        if data.entries[key].functions.Some? {
          CallFunctions(data.entries[key].functions.value, Settled(Error(Cleared)));
        }
        i := i + 1;
      }
      assert s.data.keys[..i] == s.data.keys;
      ClearedAll(s);
      assert heap == PromiseMapSpec.Clear(s).heap;
      numDeleted := |promises|;
      promises := map[];
      data := Empty();
    }

    method Tick(elapsed: nat)
      requires Valid()
      modifies `clock
      ensures Valid() && View() == old(View()).(clock := old(clock) + elapsed)
    {
      TickSound(View(), elapsed);
      clock := clock + elapsed;
    }
  }

  ghost function RejectableAmong<K(!new), V>(s: State<K, V>, keys: seq<K>): set<K> {
    set k | k in keys && Rejectable(s, k)
  }

  ghost function RejectableKeys<K(!new), V>(s: State<K, V>): set<K> {
    set k | k in s.data.entries && Rejectable(s, k)
  }

  /** Rejecting the keys before it has not touched the entry that is visited next. */
  lemma RejectVisit<K(!new), V>(s: State<K, V>, i: nat, reason: Reason)
    requires Sound(s) && i < |s.data.keys|
    ensures var s1, k := RejectEach(s, s.data.keys[..i], reason), s.data.keys[i];
            && k in s1.data.entries && s1.data.entries[k] == s.data.entries[k]
            && PromiseMapSpec.Reject(s1, k, reason).data.keys == s.data.keys
            && RejectEach(s, s.data.keys[..i + 1], reason)
               == (if Rejectable(s, k) then PromiseMapSpec.Reject(s1, k, reason) else s1)
            && |RejectableAmong(s, s.data.keys[..i + 1])|
               == |RejectableAmong(s, s.data.keys[..i])| + (if Rejectable(s, k) then 1 else 0)
  {
    var front, k := s.data.keys[..i], s.data.keys[i];
    KeysAreEntries(s.data);
    HeldAreUnanswered(s);
    RejectEachPointwise(s, front, reason);
    assert s.data.keys[..i + 1] == front + [k];
    assert (front + [k])[..|front + [k]| - 1] == front;
    CountVisit(s, front, k);
  }

  lemma CountVisit<K(!new), V>(s: State<K, V>, front: seq<K>, k: K)
    requires k !in front
    ensures |RejectableAmong(s, front + [k])| == |RejectableAmong(s, front)| + (if Rejectable(s, k) then 1 else 0)
  {
    if Rejectable(s, k) {
      assert RejectableAmong(s, front + [k]) == RejectableAmong(s, front) + {k};
    } else {
      assert RejectableAmong(s, front + [k]) == RejectableAmong(s, front);
    }
  }

  ghost function ClearedCell<K(!new), V>(s: State<K, V>, p: nat, keys: seq<K>): Cell<K, V>
    requires p < |s.heap|
  {
    if s.heap[p].key in keys && Owed(s, p) then Call(s.heap, p, Settled(Error(Cleared)))[p] else s.heap[p]
  }

  ghost predicate ClearedTo<K(!new), V>(s: State<K, V>, heap: seq<Cell<K, V>>, i: nat) {
    && i <= |s.data.keys| && |heap| == |s.heap|
    && forall p: nat | p < |s.heap| :: heap[p] == ClearedCell(s, p, s.data.keys[..i])
  }

  lemma ClearVisit<K(!new), V>(s: State<K, V>, heap: seq<Cell<K, V>>, i: nat)
    requires Sound(s) && i < |s.data.keys| && ClearedTo(s, heap, i)
    ensures s.data.keys[i] in s.data.entries
    ensures ClearedTo(s, CallHeld(heap, HeldFor(s, s.data.keys[i]), Settled(Error(Cleared))), i + 1)
  {
    var k := s.data.keys[i];
    KeysAreEntries(s.data);
    HeldIsOwn(s, k);
    assert s.data.keys[..i + 1] == s.data.keys[..i] + [k];
  }

  lemma ClearedAll<K(!new), V>(s: State<K, V>)
    requires Sound(s)
    ensures forall p: nat | p < |s.heap| :: ClearedCell(s, p, s.data.keys) == PromiseMapSpec.Clear(s).heap[p]
  {
  }
}
