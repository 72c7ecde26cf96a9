/** What a `PromiseMap` promises its callers, over whole runs. */
module PromiseMapLaws {
  import opened Wrappers
  import opened Sequences
  import opened PromiseMapSpec
  import opened PromiseMapRuns
  import opened PromiseMapRejectAll

  // ---------- Every promise handed out is answered once, or is still owed an answer

  /** In every run, a promise made by `get` either waits in its key's entry, or was settled by exactly one call. */
  lemma EveryGetterIsOwedOrAnsweredOnce<K(!new), V>(timeout: Option<nat>, ops: seq<Op<K, V>>, p: nat)
    requires Feasible(Init(timeout), ops)
    requires var s := Run(Init(timeout), ops); p < |s.heap| && s.heap[p].byGet
    ensures var s := Run(Init(timeout), ops);
            if Owed(s, p) then s.heap[p].state.Held? && s.heap[p].calls == 0
            else !s.heap[p].state.Held? && s.heap[p].calls == 1
  {
    RunSound(Init<K, V>(timeout), ops);
    var s := Run(Init(timeout), ops);
    assert LinearAt(s.data.entries, s.heap[p], p);
  }

  /** A promise keeps its key; a promise that follows or is settled stays so. */
  ghost predicate CellGrows<K, V>(c: Cell<K, V>, c': Cell<K, V>) {
    && c'.key == c.key && c'.byGet == c.byGet && c.calls <= c'.calls
    && (c.state.Following? || c.state.Settled? ==> c'.state == c.state)
    && (c.state.Awaiting? ==> c'.state.Awaiting? || c'.state.Settled?)
  }

  ghost predicate Grows<K, V>(heap: seq<Cell<K, V>>, heap': seq<Cell<K, V>>) {
    |heap| <= |heap'| && forall p: nat | p < |heap| :: CellGrows(heap[p], heap'[p])
  }

  lemma {:induction false} RejectEachGrows<K(!new), V>(s: State<K, V>, keys: seq<K>, reason: Reason)
    ensures Grows(s.heap, RejectEach(s, keys, reason).heap)
  {
    if keys == [] {
    } else {
      RejectEachGrows(s, keys[..|keys| - 1], reason);
    }
  }

  lemma ApplyGrows<K(!new), V>(s: State<K, V>, op: Op<K, V>)
    requires Sound(s) && Enabled(s, op)
    ensures Grows(s.heap, Apply(s, op).heap)
  {
    match op
    case OpResolve(k, source) =>
      var heap := s.heap + [Cell(k, false, 0, Awaiting)];
      assert Grows(s.heap, heap);
      CallHeldGrows(heap, HeldFor(s, k), Following(|s.heap|));
    case OpReject(k, reason) => CallHeldGrows(s.heap, HeldFor(s, k), Settled(Error(reason)));
    case OpRejectAll(reason) => RejectEachGrows(s, s.data.keys, reason);
    case OpDelete(k) => CallHeldGrows(s.heap, HeldFor(s, k), Settled(Error(Deleted)));
    case OpFire(t) => CallHeldGrows(s.heap, HeldFor(s, s.timers[t].key), Settled(Error(TimedOut)));
    case _ =>
  }

  lemma CallHeldGrows<K, V>(heap: seq<Cell<K, V>>, held: Option<nat>, to: PromiseState<V>)
    ensures Grows(heap, CallHeld(heap, held, to))
  {
  }

  /** No operation takes back the outcome of a promise, its key, or a call of its settle functions. */
  lemma {:induction false} OutcomesAreFinal<K(!new), V>(s: State<K, V>, ops: seq<Op<K, V>>, p: nat)
    requires Sound(s) && Feasible(s, ops) && p < |s.heap|
    ensures var s' := Run(s, ops);
            && p < |s'.heap| && CellGrows(s.heap[p], s'.heap[p])
            && (OutcomeOf(s.heap, p).Some? ==> OutcomeOf(s'.heap, p) == OutcomeOf(s.heap, p))
    decreases |ops|
  {
    if ops == [] {
    } else {
      var s1 := Apply(s, ops[0]);
      ApplySound(s, ops[0]);
      ApplyGrows(s, ops[0]);
      assert CellGrows(s.heap[p], s1.heap[p]);
      if s.heap[p].state.Following? {
        assert CellOk(s.heap, s.tasks, p);
        assert CellGrows(s.heap[s.heap[p].state.target], s1.heap[s.heap[p].state.target]);
      }
      OutcomesAreFinal(s1, ops[1..], p);
    }
  }

  // ---------- has, isPending, isFulfilled, isRejected

  /** In every run an owned key has one status; a key left by a late completion has no functions and no timer. */
  lemma OwnedKeysHaveOneStatus<K(!new), V>(timeout: Option<nat>, ops: seq<Op<K, V>>, k: K)
    requires Feasible(Init(timeout), ops)
    ensures var s := Run(Init(timeout), ops);
            && (k in s.promises ==>
                  multiset{HasStatus(s, k, Pending), HasStatus(s, k, Fulfilled), HasStatus(s, k, Rejected)}[true] == 1)
            && (k !in s.promises ==> HeldFor(s, k).None? && TimerOf(s, k).None?)
  {
    RunSound(Init<K, V>(timeout), ops);
  }

  // ---------- Expiry

  /** In every run with a timeout, an owned key waits for its settlement or for its expiry, never both or neither. */
  lemma OwnedKeysWaitOnce<K(!new), V>(timeout: nat, ops: seq<Op<K, V>>, k: K)
    requires Feasible(Init(Some(timeout)), ops)
    requires k in Run(Init<K, V>(Some(timeout)), ops).promises
    ensures var s := Run(Init(Some(timeout)), ops);
            HeldFor(s, k).Some? != TimerOf(s, k).Some?
  {
    RunSound(Init<K, V>(Some(timeout)), ops);
    RunTimeout(Init<K, V>(Some(timeout)), ops);
    var s := Run(Init(Some(timeout)), ops);
    assert OneOf(s.data.entries[k]);
  }

  lemma {:induction false} RejectEachTimeout<K(!new), V>(s: State<K, V>, keys: seq<K>, reason: Reason)
    ensures RejectEach(s, keys, reason).timeout == s.timeout
    ensures RejectEach(s, keys, reason).clock == s.clock
  {
    if keys == [] {
    } else {
      RejectEachTimeout(s, keys[..|keys| - 1], reason);
    }
  }

  lemma {:induction false} RunTimeout<K(!new), V>(s: State<K, V>, ops: seq<Op<K, V>>)
    requires Feasible(s, ops)
    ensures Run(s, ops).timeout == s.timeout
    decreases |ops|
  {
    if ops == [] {
    } else {
      match ops[0] {
        case OpRejectAll(reason) => RejectEachTimeout(s, s.data.keys, reason);
        case _ =>
      }
      RunTimeout(Apply(s, ops[0]), ops[1..]);
    }
  }

  /** Every live timer is the one its key records. */
  ghost predicate NoStrays<K(!new), V>(s: State<K, V>) {
    forall t | t in s.timers :: TimerOf(s, s.timers[t].key) == Some(t)
  }

  lemma GetNoStrays<K(!new), V>(s: State<K, V>, k: K)
    requires NoStrays(s) && Indexed(s.promises, s.data)
    ensures NoStrays(Get(s, k))
  {
  }

  lemma RestartNoStrays<K(!new), V>(s: State<K, V>, k: K)
    requires NoStrays(s)
    ensures NoStrays(Restart(s, k))
  {
  }

  lemma ResolveNoStrays<K(!new), V>(s: State<K, V>, k: K, source: Source<V>)
    requires NoStrays(s)
    ensures NoStrays(Resolve(s, k, source))
  {
    RestartNoStrays(Resolving(s, k, source), k);
  }

  lemma RejectNoStrays<K(!new), V>(s: State<K, V>, k: K, reason: Reason)
    requires NoStrays(s)
    ensures NoStrays(Reject(s, k, reason))
  {
    RestartNoStrays(Rejecting(s, k, reason), k);
  }

  lemma {:induction false} RejectEachNoStrays<K(!new), V>(s: State<K, V>, keys: seq<K>, reason: Reason)
    requires NoStrays(s)
    ensures NoStrays(RejectEach(s, keys, reason))
  {
    if keys == [] {
    } else {
      RejectEachNoStrays(s, keys[..|keys| - 1], reason);
      RejectNoStrays(RejectEach(s, keys[..|keys| - 1], reason), keys[|keys| - 1], reason);
    }
  }

  lemma DeleteNoStrays<K(!new), V>(s: State<K, V>, k: K, reason: Reason)
    requires NoStrays(s)
    ensures NoStrays(DoDelete(s, k, reason))
  {
  }

  lemma CompleteNoStrays<K(!new), V>(s: State<K, V>, t: nat, o: Outcome<V>)
    requires NoStrays(s) && t in s.tasks && t < |s.heap|
    ensures NoStrays(Complete(s, t, o))
  {
  }

  lemma FireNoStrays<K(!new), V>(s: State<K, V>, t: nat)
    requires NoStrays(s) && t in s.timers
    ensures NoStrays(Fire(s, t))
  {
  }

  lemma ClearNoStrays<K(!new), V>(s: State<K, V>)
    ensures NoStrays(Clear(s)) <==> s.timers == map[]
  {
    if t :| t in s.timers {
      assert TimerOf(Clear(s), s.timers[t].key).None?;
    }
  }

  /** The only operation that leaves a timer astray is `clear`, and it does so exactly when one was running. */
  lemma NoStraysUnlessCleared<K(!new), V>(s: State<K, V>, op: Op<K, V>)
    requires Sound(s) && NoStrays(s) && Enabled(s, op)
    ensures NoStrays(Apply(s, op)) <==> !(op.OpClear? && s.timers != map[])
  {
    match op
    case OpGet(k) => GetNoStrays(s, k);
    case OpResolve(k, source) => ResolveNoStrays(s, k, source);
    case OpReject(k, reason) => RejectNoStrays(s, k, reason);
    case OpRejectAll(reason) => RejectEachNoStrays(s, s.data.keys, reason);
    case OpDelete(k) => DeleteNoStrays(s, k, Deleted);
    case OpClear => ClearNoStrays(s);
    case OpComplete(t, o) => CompleteNoStrays(s, t, o);
    case OpFire(t) => FireNoStrays(s, t);
    case OpTick(e) =>
  }

  /** Every `clear` of a run happens when no timer is running. */
  ghost predicate ClearsIdle<K(!new), V>(s: State<K, V>, ops: seq<Op<K, V>>)
    requires Feasible(s, ops)
    decreases |ops|
  {
    ops == [] || ((ops[0].OpClear? ==> s.timers == map[]) && ClearsIdle(Apply(s, ops[0]), ops[1..]))
  }

  lemma {:induction false} RunNoStrays<K(!new), V>(s: State<K, V>, ops: seq<Op<K, V>>)
    requires Sound(s) && NoStrays(s) && Feasible(s, ops) && ClearsIdle(s, ops)
    ensures NoStrays(Run(s, ops))
    decreases |ops|
  {
    if ops == [] {
    } else {
      ApplySound(s, ops[0]);
      NoStraysUnlessCleared(s, ops[0]);
      RunNoStrays(Apply(s, ops[0]), ops[1..]);
    }
  }

  // ---------- When a key was last settled

  /** The operation settles the key: `rejectAll` does it to a pending key whose promise is still held. */
  ghost predicate Settles<K(!new), V>(s: State<K, V>, op: Op<K, V>, k: K) {
    match op
    case OpResolve(x, _) => x == k
    case OpReject(x, _) => x == k
    case OpRejectAll(_) => HasStatus(s, k, Pending) && s.data.entries[k].functions.Some?
    case _ => false
  }

  /** The time at which a run last settled the key, if it did; else the one given. */
  ghost function LastSettle<K(!new), V>(s: State<K, V>, ops: seq<Op<K, V>>, k: K, before: Option<nat>): Option<nat>
    requires Feasible(s, ops)
    decreases |ops|
  {
    if ops == [] then before
    else LastSettle(Apply(s, ops[0]), ops[1..], k, if Settles(s, ops[0], k) then Some(s.clock) else before)
  }

  ghost function SettledAt<K(!new), V>(s: State<K, V>, k: K): Option<nat> {
    if k in s.settledAt then Some(s.settledAt[k]) else None
  }

  lemma RejectSettledAt<K(!new), V>(s: State<K, V>, x: K, reason: Reason, k: K)
    ensures SettledAt(Reject(s, x, reason), k) == if x == k then Some(s.clock) else SettledAt(s, k)
    ensures Reject(s, x, reason).clock == s.clock
  {
  }

  /** Rejecting other keys before it leaves a key to be rejected or not as it was. */
  lemma FrontKeeps<K(!new), V>(s: State<K, V>, front: seq<K>, k: K, reason: Reason)
    requires Sound(s) && Distinct(front) && k !in front && forall x | x in front :: x in s.data.entries
    ensures Rejectable(RejectEach(s, front, reason), k) == Rejectable(s, k)
  {
    HeldAreUnanswered(s);
    RejectEachPointwise(s, front, reason);
  }

  lemma {:induction false} RejectEachSettledAt<K(!new), V>(s: State<K, V>, keys: seq<K>, reason: Reason, k: K)
    requires Sound(s) && Distinct(keys) && forall x | x in keys :: x in s.data.entries
    ensures var s' := RejectEach(s, keys, reason);
            && SettledAt(s', k) == (if k in keys && Rejectable(s, k) then Some(s.clock) else SettledAt(s, k))
            && s'.clock == s.clock
  {
    if keys == [] {
    } else {
      var front, last := keys[..|keys| - 1], keys[|keys| - 1];
      assert keys == front + [last];
      FrontKeeps(s, front, last, reason);
      RejectEachSettledAt(s, front, reason, k);
      RejectSettledAt(RejectEach(s, front, reason), last, reason, k);
    }
  }

  lemma ApplySettledAt<K(!new), V>(s: State<K, V>, op: Op<K, V>, k: K)
    requires Sound(s) && Enabled(s, op)
    ensures SettledAt(Apply(s, op), k) == if Settles(s, op, k) then Some(s.clock) else SettledAt(s, k)
  {
    match op
    case OpRejectAll(reason) =>
      KeysAreEntries(s.data);
      RejectEachSettledAt(s, s.data.keys, reason, k);
    case _ =>
  }

  lemma {:induction false} RunSettledAt<K(!new), V>(s: State<K, V>, ops: seq<Op<K, V>>, k: K)
    requires Sound(s) && Feasible(s, ops)
    ensures SettledAt(Run(s, ops), k) == LastSettle(s, ops, k, SettledAt(s, k))
    decreases |ops|
  {
    if ops == [] {
    } else {
      ApplySettledAt(s, ops[0], k);
      ApplySound(s, ops[0]);
      RunSettledAt(Apply(s, ops[0]), ops[1..], k);
    }
  }

  // ---------- Expiry

  /** Some timer may evict the key now. */
  ghost predicate CanExpire<K(!new), V>(s: State<K, V>, k: K) {
    exists t :: Enabled(s, OpFire(t)) && s.timers[t].key == k
  }

  /** The key is owned, and its promise does not wait for its first settlement. */
  ghost predicate IsSettled<K(!new), V>(s: State<K, V>, k: K) {
    k in s.promises && s.promises[k] < |s.heap| && !s.heap[s.promises[k]].state.Held?
  }

  /**
   * If `clear` is only called when no timer is running, a key can be evicted if and only if it is owned, its promise
   * does not wait, and the run last settled it at least one timeout ago, however often it did.
   */
  lemma ExpiryIsExact<K(!new), V>(timeout: nat, ops: seq<Op<K, V>>, k: K)
    requires Feasible(Init(Some(timeout)), ops) && ClearsIdle(Init(Some(timeout)), ops)
    ensures var s := Run(Init(Some(timeout)), ops);
            var last := LastSettle(Init(Some(timeout)), ops, k, None);
            CanExpire(s, k) <==> IsSettled(s, k) && last.Some? && last.value + timeout <= s.clock
  {
    var s0: State<K, V> := Init(Some(timeout));
    var s := Run(s0, ops);
    RunSound(s0, ops);
    RunTimeout(s0, ops);
    RunNoStrays(s0, ops);
    RunSettledAt(s0, ops, k);
    TimerOfSettled(s, k);
    if IsSettled(s, k) {
      assert CanExpire(s, k) <==> Enabled(s, OpFire(TimerOf(s, k).value));
    }
  }

  lemma TimerOfSettled<K(!new), V>(s: State<K, V>, k: K)
    requires Sound(s) && NoStrays(s) && s.timeout.Some?
    ensures IsSettled(s, k) ==> TimerOf(s, k).Some? && TimerOk(s, k, TimerOf(s, k).value)
    ensures forall t | t in s.timers && s.timers[t].key == k :: IsSettled(s, k) && TimerOf(s, k) == Some(t)
  {
    if k in s.data.entries {
      assert HoldsOwn(s.promises, s.heap, k, s.data.entries[k]);
    }
    if k in s.promises {
      assert OneOf(s.data.entries[k]) && LinearAt(s.data.entries, s.heap[s.promises[k]], s.promises[k]);
    }
  }

  /**
   * If `clear` is only called when no timer is running, the live timers are exactly the recorded ones, and a timer
   * that fires evicts an owned key that the run last settled at least one timeout ago.
   */
  lemma ExpiryIsNeverEarly<K(!new), V>(timeout: nat, ops: seq<Op<K, V>>, t: nat)
    requires Feasible(Init(Some(timeout)), ops) && ClearsIdle(Init(Some(timeout)), ops)
    ensures var s := Run(Init(Some(timeout)), ops);
            && (t in s.timers <==> exists k | k in s.data.entries :: TimerOf(s, k) == Some(t))
            && (Enabled(s, OpFire(t)) ==>
                  var k := s.timers[t].key;
                  var last := LastSettle(Init(Some(timeout)), ops, k, None);
                  && k in s.promises && HeldFor(s, k).None?
                  && last.Some? && last.value + timeout <= s.clock
                  && k !in Fire(s, t).promises && Fire(s, t).promises == s.promises - {k})
  {
    var s0: State<K, V> := Init(Some(timeout));
    RunSound(s0, ops);
    RunTimeout(s0, ops);
    RunNoStrays(s0, ops);
    var s := Run(s0, ops);
    if t in s.timers {
      var k := s.timers[t].key;
      assert TimerOf(s, k) == Some(t) && TimerOk(s, k, t) && OneOf(s.data.entries[k]);
      RunSettledAt(s0, ops, k);
    }
  }

  /** A key is rejected some time after everything was cleared. */
  function ClearedAndRejected<K(!new), V>(s: State<K, V>, elapsed: nat, k: K, reason: Reason): State<K, V> {
    var late := Clear(s);
    Reject(late.(clock := late.clock + elapsed), k, reason)
  }

  /** Some timer may evict the owned key, whatever was done to it just now. */
  ghost predicate EvictsAtOnce<K(!new), V>(s: State<K, V>, k: K) {
    exists t :: Enabled(s, OpFire(t)) && s.timers[t].key == k && k in s.promises && k !in Fire(s, t).promises
  }

  /** After `clear`, a timer that was running evicts its key the moment it is settled again. */
  lemma ClearedTimerEvicts<K(!new), V>(s: State<K, V>, t: nat, reason: Reason)
    requires Sound(s) && s.timeout.Some? && s.timeout.value > 0 && t in s.timers
    ensures EvictsAtOnce(ClearedAndRejected(s, s.timers[t].due, s.timers[t].key, reason), s.timers[t].key)
  {
    var s' := ClearedAndRejected(s, s.timers[t].due, s.timers[t].key, reason);
    assert Enabled(s', OpFire(t));
  }

  /**
   * So `clear` is harmless exactly when no timer is running: otherwise some key can be evicted at the very time at
   * which it is settled afterwards, although the timeout is positive.
   */
  lemma ClearIsHarmlessIff<K(!new), V>(s: State<K, V>, reason: Reason)
    requires Sound(s) && s.timeout.Some? && s.timeout.value > 0
    ensures s.timers == map[] <==>
            (forall elapsed, k :: !EvictsAtOnce(ClearedAndRejected(s, elapsed, k, reason), k))
  {
    if t :| t in s.timers {
      ClearedTimerEvicts(s, t, reason);
    }
  }

  /** That happens: an entry settled once, cleared, and settled again one timeout later is evicted at once. */
  lemma ClearCanExpireEarly<K(!new), V>(timeout: nat, k: K, reason: Reason)
    requires timeout > 0
    ensures var s1: State<K, V> := Reject(Init(Some(timeout)), k, reason);
            EvictsAtOnce(ClearedAndRejected(s1, timeout, k, reason), k)
  {
    RejectSound(Init<K, V>(Some(timeout)), k, reason);
    ClearedTimerEvicts(Reject(Init<K, V>(Some(timeout)), k, reason), 0, reason);
  }
}
