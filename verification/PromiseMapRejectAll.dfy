/** What `rejectAll` does to every entry, and when it leaves nobody without an answer. */
module PromiseMapRejectAll {
  import opened Wrappers
  import opened Sequences
  import opened JsMap
  import opened PromiseMapSpec
  import opened PromiseMapRuns

  /** What `rejectAll` does to the entry of a key. */
  ghost predicate RejectedAt<K(!new), V>(s: State<K, V>, s': State<K, V>, k: K, reason: Reason)
    requires k in s.data.entries && k in s'.data.entries
  {
    if Rejectable(s, k) then
      && s'.data.entries[k].functions.None? && s'.data.entries[k].status.Rejected?
      && AnsweredWith(s'.heap, s.data.entries[k].functions.value, Error(reason))
    else s'.data.entries[k] == s.data.entries[k]
  }

  ghost predicate AnsweredWith<K, V>(heap: seq<Cell<K, V>>, p: nat, o: Outcome<V>) {
    p < |heap| && heap[p].state == Settled(o) && heap[p].calls == 1
  }

  ghost predicate Unanswered<K, V>(heap: seq<Cell<K, V>>, p: nat) {
    p < |heap| && heap[p].state.Held? && heap[p].calls == 0
  }

  /** Apart from the entries and promises of `keys`, only timers differ. */
  ghost predicate SameBeyond<K(!new), V>(s: State<K, V>, s': State<K, V>, keys: seq<K>) {
    && s'.data.keys == s.data.keys && s'.data.entries.Keys == s.data.entries.Keys
    && s'.promises == s.promises && s'.tasks == s.tasks && |s'.heap| == |s.heap|
    && (forall k | k in s.data.entries && k !in keys :: s'.data.entries[k] == s.data.entries[k])
    && (forall p: nat | p < |s.heap| && !(IsRejectable(s, p) && s.heap[p].key in keys) :: s'.heap[p] == s.heap[p])
  }

  ghost predicate IsRejectable<K(!new), V>(s: State<K, V>, p: nat)
    requires p < |s.heap|
  {
    Rejectable(s, s.heap[p].key) && HeldFor(s, s.heap[p].key) == Some(p)
  }

  lemma RejectOne<K(!new), V>(s: State<K, V>, k: K, p: nat, reason: Reason)
    requires Rejectable(s, k) && HeldFor(s, k) == Some(p) && Unanswered(s.heap, p) && s.heap[p].key == k
    ensures SameBeyond(s, Reject(s, k, reason), [k])
    ensures RejectedAt(s, Reject(s, k, reason), k, reason)
  {
  }

  lemma {:induction false} RejectEachPointwise<K(!new), V>(s: State<K, V>, keys: seq<K>, reason: Reason)
    requires Distinct(keys) && forall k | k in keys :: k in s.data.entries
    requires forall k | k in s.data.entries && HeldFor(s, k).Some? ::
               Unanswered(s.heap, HeldFor(s, k).value) && s.heap[HeldFor(s, k).value].key == k
    ensures SameBeyond(s, RejectEach(s, keys, reason), keys)
    ensures forall k | k in keys :: RejectedAt(s, RejectEach(s, keys, reason), k, reason)
  {
    if keys == [] {
    } else {
      var front, k := keys[..|keys| - 1], keys[|keys| - 1];
      var s1 := RejectEach(s, front, reason);
      RejectEachPointwise(s, front, reason);
      assert k !in front && keys == front + [k];
      assert s1.data.entries[k] == s.data.entries[k];
      if Rejectable(s, k) {
        RejectStep(s, s1, front, k, reason);
      }
    }
  }

  lemma RejectStep<K(!new), V>(s: State<K, V>, s1: State<K, V>, front: seq<K>, k: K, reason: Reason)
    requires SameBeyond(s, s1, front) && k !in front && Rejectable(s, k)
    requires forall x | x in front :: x in s.data.entries && RejectedAt(s, s1, x, reason)
    requires forall x | x in s.data.entries && HeldFor(s, x).Some? ::
               Unanswered(s.heap, HeldFor(s, x).value) && s.heap[HeldFor(s, x).value].key == x
    ensures SameBeyond(s, Reject(s1, k, reason), front + [k])
    ensures forall x | x in front + [k] :: RejectedAt(s, Reject(s1, k, reason), x, reason)
  {
    var p := HeldFor(s, k).value;
    assert s1.data.entries[k] == s.data.entries[k] && s1.heap[p] == s.heap[p];
    RejectOne(s1, k, p, reason);
    var s' := Reject(s1, k, reason);
    forall x | x in front
      ensures RejectedAt(s, s', x, reason)
    {
      assert RejectedAt(s, s1, x, reason);
      assert s'.data.entries[x] == s1.data.entries[x];
    }
    assert RejectedAt(s1, s', k, reason);
  }

  lemma KeysAreEntries<K(!new)>(data: OrderedMap<K, MapData>)
    requires data.Valid()
    ensures forall k :: k in data.keys <==> k in data.entries
  {
  }

  lemma HeldAreUnanswered<K(!new), V>(s: State<K, V>)
    requires Sound(s)
    ensures forall k | k in s.data.entries && HeldFor(s, k).Some? ::
              Unanswered(s.heap, HeldFor(s, k).value) && s.heap[HeldFor(s, k).value].key == k
  {
  }

  /** `rejectAll` rejects every pending entry that holds functions with the reason, and changes no other. */
  lemma RejectAllPointwise<K(!new), V>(s: State<K, V>, reason: Reason)
    requires Sound(s)
    ensures SameBeyond(s, RejectAll(s, reason), s.data.keys)
    ensures forall k | k in s.data.entries :: RejectedAt(s, RejectAll(s, reason), k, reason)
  {
    KeysAreEntries(s.data);
    HeldAreUnanswered(s);
    RejectEachPointwise(s, s.data.keys, reason);
  }

  ghost predicate AllAnswered<K(!new), V>(s: State<K, V>) {
    forall p: nat | p < |s.heap| && s.heap[p].byGet :: !s.heap[p].state.Held?
  }

  /** Every entry that holds functions is recorded as pending. */
  ghost predicate HeldArePending<K(!new)>(entries: map<K, MapData>) {
    forall k | k in entries && entries[k].functions.Some? :: entries[k].status.Pending?
  }

  lemma PendingAreAnswered<K(!new), V>(s: State<K, V>, reason: Reason)
    requires Sound(s) && HeldArePending(s.data.entries)
    ensures AllAnswered(RejectAll(s, reason))
  {
    var s' := RejectAll(s, reason);
    RejectAllPointwise(s, reason);
    RejectEachSound(s, s.data.keys, reason);
    forall p: nat | p < |s'.heap| && s'.heap[p].byGet
      ensures !s'.heap[p].state.Held?
    {
      var k := s'.heap[p].key;
      assert LinearAt(s'.data.entries, s'.heap[p], p);
      assert k in s.data.entries ==> RejectedAt(s, s', k, reason);
    }
  }

  lemma SkippedIsUnanswered<K(!new), V>(s: State<K, V>, k: K, reason: Reason)
    requires Sound(s) && HeldFor(s, k).Some? && !HasStatus(s, k, Pending)
    ensures !AllAnswered(RejectAll(s, reason))
  {
    var p := HeldFor(s, k).value;
    HeldIsOwn(s, k);
    assert CellOk(s.heap, s.tasks, p);
    RejectAllPointwise(s, reason);
    assert RejectAll(s, reason).heap[p] == s.heap[p];
  }

  /** It leaves no promise of `get` unanswered exactly when every entry that holds functions is recorded as pending. */
  lemma RejectAllAnswersAllIff<K(!new), V>(s: State<K, V>, reason: Reason)
    requires Sound(s)
    ensures AllAnswered(RejectAll(s, reason)) <==> HeldArePending(s.data.entries)
  {
    if HeldArePending(s.data.entries) {
      PendingAreAnswered(s, reason);
    } else {
      var k :| k in s.data.entries && s.data.entries[k].functions.Some? && !s.data.entries[k].status.Pending?;
      SkippedIsUnanswered(s, k, reason);
    }
  }

  // ---------- Runs after which it always answers all

  /** The operation does not delete, clear or expire a key that has an unfinished `doResolve` call. */
  ghost predicate Keeps<K(!new), V>(s: State<K, V>, op: Op<K, V>)
    requires Enabled(s, op)
  {
    match op
    case OpDelete(k) => !Busy(s, k)
    case OpClear => s.tasks == map[]
    case OpFire(t) => !Busy(s, s.timers[t].key)
    case _ => true
  }

  ghost predicate KeepingRun<K(!new), V>(s: State<K, V>, ops: seq<Op<K, V>>)
    requires Feasible(s, ops)
    decreases |ops|
  {
    ops == [] || (Keeps(s, ops[0]) && KeepingRun(Apply(s, ops[0]), ops[1..]))
  }

  /** A key with an unfinished call is owned, and its functions have been given away. */
  ghost predicate BusyAreOwned<K(!new), V>(
      promises: map<K, nat>, entries: map<K, MapData>, tasks: map<nat, Task<K, V>>)
  {
    forall t | t in tasks ::
      tasks[t].key in promises && tasks[t].key in entries && entries[tasks[t].key].functions.None?
  }

  ghost predicate Answerable<K(!new), V>(s: State<K, V>) {
    Sound(s) && BusyAreOwned(s.promises, s.data.entries, s.tasks) && HeldArePending(s.data.entries)
  }

  lemma RestartAnswerable<K(!new), V>(s: State<K, V>, k: K)
    requires BusyAreOwned(s.promises, s.data.entries, s.tasks) && HeldArePending(s.data.entries)
    ensures var s' := Restart(s, k);
            BusyAreOwned(s'.promises, s'.data.entries, s'.tasks) && HeldArePending(s'.data.entries)
  {
  }

  lemma GetAnswerable<K(!new), V>(s: State<K, V>, k: K)
    requires Answerable(s)
    ensures Answerable(Get(s, k))
  {
    ApplySound(s, OpGet(k));
  }

  lemma ResolvingAnswerable<K(!new), V>(s: State<K, V>, k: K, source: Source<V>)
    requires BusyAreOwned(s.promises, s.data.entries, s.tasks) && HeldArePending(s.data.entries)
    requires HeldFor(s, k).Some? ==> k in s.promises
    ensures var s' := Resolving(s, k, source);
            BusyAreOwned(s'.promises, s'.data.entries, s'.tasks) && HeldArePending(s'.data.entries)
  {
  }

  lemma RejectingAnswerable<K(!new), V>(s: State<K, V>, k: K, reason: Reason)
    requires BusyAreOwned(s.promises, s.data.entries, s.tasks) && HeldArePending(s.data.entries)
    ensures var s' := Rejecting(s, k, reason);
            BusyAreOwned(s'.promises, s'.data.entries, s'.tasks) && HeldArePending(s'.data.entries)
  {
  }

  lemma ResolveAnswerable<K(!new), V>(s: State<K, V>, k: K, source: Source<V>)
    requires Answerable(s)
    ensures Answerable(Resolve(s, k, source))
  {
    ResolveSound(s, k, source);
    HeldIsOwn(s, k);
    ResolvingAnswerable(s, k, source);
    RestartAnswerable(Resolving(s, k, source), k);
  }

  lemma RejectAnswerable<K(!new), V>(s: State<K, V>, k: K, reason: Reason)
    requires Answerable(s)
    ensures Answerable(Reject(s, k, reason))
  {
    RejectSound(s, k, reason);
    RejectingAnswerable(s, k, reason);
    RestartAnswerable(Rejecting(s, k, reason), k);
  }

  lemma {:induction false} RejectEachAnswerable<K(!new), V>(s: State<K, V>, keys: seq<K>, reason: Reason)
    requires Answerable(s)
    ensures Answerable(RejectEach(s, keys, reason))
  {
    if keys == [] {
    } else {
      RejectEachAnswerable(s, keys[..|keys| - 1], reason);
      RejectAnswerable(RejectEach(s, keys[..|keys| - 1], reason), keys[|keys| - 1], reason);
    }
  }

  lemma DeleteAnswerable<K(!new), V>(s: State<K, V>, k: K, reason: Reason)
    requires Answerable(s) && !Busy(s, k)
    ensures Answerable(DoDelete(s, k, reason))
  {
    DeleteSound(s, k, reason);
  }

  lemma CompleteAnswerable<K(!new), V>(s: State<K, V>, t: nat, o: Outcome<V>)
    requires Answerable(s) && t in s.tasks && t < |s.heap|
    ensures Answerable(Complete(s, t, o))
  {
    CompleteSound(s, t, o);
  }

  lemma KeepsAnswerable<K(!new), V>(s: State<K, V>, op: Op<K, V>)
    requires Answerable(s) && Enabled(s, op) && Keeps(s, op)
    ensures Answerable(Apply(s, op))
  {
    match op
    case OpGet(k) => GetAnswerable(s, k);
    case OpResolve(k, source) => ResolveAnswerable(s, k, source);
    case OpReject(k, reason) => RejectAnswerable(s, k, reason);
    case OpRejectAll(reason) => RejectEachAnswerable(s, s.data.keys, reason);
    case OpDelete(k) => DeleteAnswerable(s, k, Deleted);
    case OpClear => ClearSound(s);
    case OpComplete(t, o) => CompleteAnswerable(s, t, o);
    case OpFire(t) => DeleteAnswerable(s, s.timers[t].key, TimedOut); FireSound(s, t);
    case OpTick(elapsed) => TickSound(s, elapsed);
  }

  lemma {:induction false} RunAnswerable<K(!new), V>(s: State<K, V>, ops: seq<Op<K, V>>)
    requires Answerable(s) && Feasible(s, ops) && KeepingRun(s, ops)
    ensures Answerable(Run(s, ops))
    decreases |ops|
  {
    if ops == [] {
    } else {
      KeepsAnswerable(s, ops[0]);
      RunAnswerable(Apply(s, ops[0]), ops[1..]);
    }
  }

  /**
   * If no key is deleted, cleared or expired while its resolution is outstanding, however often keys are settled
   * again, `rejectAll` leaves nobody who called `get` without an answer.
   */
  lemma RejectAllAnswersEveryGetter<K(!new), V>(timeout: Option<nat>, ops: seq<Op<K, V>>, reason: Reason)
    requires Feasible(Init(timeout), ops) && KeepingRun(Init(timeout), ops)
    ensures AllAnswered(RejectAll(Run(Init(timeout), ops), reason))
  {
    RunAnswerable(Init<K, V>(timeout), ops);
    PendingAreAnswered(Run(Init(timeout), ops), reason);
  }

  // ---------- The condition is exact

  /** An unfinished call survives the removal of its key. */
  lemma RemovedTaskRemains<K(!new), V>(s: State<K, V>, op: Op<K, V>) returns (t: nat)
    requires Sound(s) && Enabled(s, op) && !Keeps(s, op)
    ensures var s' := Apply(s, op);
            t in s'.tasks && t < |s'.heap| && s'.tasks[t].key !in s'.promises
  {
    if op.OpClear? {
      t :| t in s.tasks;
    } else {
      var k := if op.OpDelete? then op.key else s.timers[op.timer].key;
      t :| t in s.tasks && s.tasks[t].key == k;
    }
  }

  /** When its key is asked for again, its completion marks the new promise as settled, and `rejectAll` passes it by. */
  lemma LateCompletionHides<K(!new), V>(s: State<K, V>, t: nat, o: Outcome<V>, reason: Reason)
    requires Sound(s) && t in s.tasks && t < |s.heap| && s.tasks[t].key !in s.promises
    ensures !AllAnswered(RejectAll(Complete(Get(s, s.tasks[t].key), t, o), reason))
  {
    var k := s.tasks[t].key;
    var s1 := Get(s, k);
    ApplySound(s, OpGet(k));
    CompleteSound(s1, t, o);
    SkippedIsUnanswered(Complete(s1, t, o), k, reason);
  }

  /** Whatever is asked for and completes next, `rejectAll` then answers every getter. */
  ghost predicate StaysAnswerable<K(!new), V(!new)>(s: State<K, V>, reason: Reason) {
    forall k, t, o | Enabled(Get(s, k), OpComplete(t, o)) :: AllAnswered(RejectAll(Complete(Get(s, k), t, o), reason))
  }

  /** From such a state, an operation keeps the guarantee exactly if it removes no key that is being resolved. */
  lemma KeepsIsExact<K(!new), V(!new)>(s: State<K, V>, op: Op<K, V>, v: V, reason: Reason)
    requires Answerable(s) && Enabled(s, op)
    ensures Keeps(s, op) <==> StaysAnswerable(Apply(s, op), reason)
  {
    var s' := Apply(s, op);
    if Keeps(s, op) {
      KeepsAnswerable(s, op);
      AnswerableStays(s', reason);
    } else {
      var t := RemovedTaskRemains(s, op);
      var task := s'.tasks[t];
      var o := Value(if task.source.Plain? then task.source.value else v);
      ApplySound(s, op);
      LateCompletionHides(s', t, o, reason);
      assert Enabled(Get(s', task.key), OpComplete(t, o));
    }
  }

  lemma AnswerableStays<K(!new), V(!new)>(s: State<K, V>, reason: Reason)
    requires Answerable(s)
    ensures StaysAnswerable(s, reason)
  {
    forall k, t, o | Enabled(Get(s, k), OpComplete(t, o))
      ensures AllAnswered(RejectAll(Complete(Get(s, k), t, o), reason))
    {
      GetAnswerable(s, k);
      CompleteAnswerable(Get(s, k), t, o);
      PendingAreAnswered(Complete(Get(s, k), t, o), reason);
    }
  }
}
