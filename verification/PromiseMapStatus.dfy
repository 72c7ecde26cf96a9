/** When the recorded status of a key is the truth about its promise. */
module PromiseMapStatus {
  import opened Wrappers
  import opened PromiseMapSpec
  import opened PromiseMapRuns

  // ---------- Accurate records

  /** Exactly the owned keys have a record, and it says what their promise carries. */
  ghost predicate Accurate<K(!new), V>(s: State<K, V>) {
    && s.data.entries.Keys == s.promises.Keys
    && forall k | k in s.promises :: HonestAt(s, k)
  }

  ghost predicate HonestAt<K(!new), V>(s: State<K, V>, k: K)
    requires k in s.promises
  {
    HasStatus(s, k, StatusOf(OutcomeOf(s.heap, s.promises[k])))
  }

  /** Every unfinished `doResolve` call is the one its key's promise is waiting for. */
  ghost predicate Linked<K(!new), V>(s: State<K, V>) {
    forall t | t in s.tasks :: s.tasks[t].key in s.promises && Carries(s.heap, s.promises[s.tasks[t].key], t)
  }

  ghost predicate Carries<K, V>(heap: seq<Cell<K, V>>, p: nat, t: nat) {
    p == t || (p < |heap| && heap[p].state == Following(t))
  }

  ghost predicate Current<K(!new), V>(s: State<K, V>) {
    Sound(s) && Accurate(s) && Linked(s)
  }

  /** The operation does not settle, delete, clear or expire a key that has an unfinished `doResolve` call. */
  ghost predicate Quiet<K(!new), V>(s: State<K, V>, op: Op<K, V>)
    requires Enabled(s, op)
  {
    match op
    case OpResolve(k, _) => !Busy(s, k)
    case OpReject(k, _) => !Busy(s, k)
    case OpDelete(k) => !Busy(s, k)
    case OpClear => s.tasks == map[]
    case OpFire(t) => !Busy(s, s.timers[t].key)
    case _ => true
  }

  // ---------- Quiet operations keep the records accurate

  lemma OutcomeKept<K, V>(heap: seq<Cell<K, V>>, heap': seq<Cell<K, V>>, p: nat)
    requires p < |heap| <= |heap'| && heap'[p].state == heap[p].state
    requires heap[p].state.Following? ==>
               heap[p].state.target < |heap| && heap'[heap[p].state.target].state == heap[heap[p].state.target].state
    ensures OutcomeOf(heap', p) == OutcomeOf(heap, p)
  {
  }

  ghost predicate Agree<K(!new), T(!new)>(m: map<K, T>, m': map<K, T>, k: K) {
    && (forall x | x in m && x != k :: x in m' && m'[x] == m[x])
    && (forall x | x in m' && x != k :: x in m)
  }

  /** Touching only the promise of `k` and promises nobody follows leaves all other keys as they were. */
  lemma OthersKept<K(!new), V>(s: State<K, V>, s': State<K, V>, k: K)
    requires Tracked(s.promises, s.heap, s.tasks) && Accurate(s) && Linked(s)
    requires Agree(s.data.entries, s'.data.entries, k) && Agree(s.promises, s'.promises, k)
    requires |s.heap| <= |s'.heap|
    requires forall p: nat | p < |s.heap| ::
               s'.heap[p].state == s.heap[p].state || (s.heap[p].key == k && !s.heap[p].state.Settled?)
    requires forall t | t in s.tasks && t in s'.tasks :: s'.tasks[t] == s.tasks[t]
    requires forall t | t in s'.tasks && s'.tasks[t].key != k :: t in s.tasks
    ensures forall x | x in s.promises && x != k :: x in s'.promises && HonestAt(s', x)
    ensures forall t | t in s'.tasks && s'.tasks[t].key != k ::
              s'.tasks[t].key in s'.promises && Carries(s'.heap, s'.promises[s'.tasks[t].key], t)
  {
    forall x | x in s.promises && x != k
      ensures x in s'.promises && HonestAt(s', x)
    {
      var p := s.promises[x];
      assert CellOk(s.heap, s.tasks, p) && HonestAt(s, x);
      OutcomeKept(s.heap, s'.heap, p);
    }
    forall t | t in s'.tasks && s'.tasks[t].key != k
      ensures s'.tasks[t].key in s'.promises && Carries(s'.heap, s'.promises[s'.tasks[t].key], t)
    {
      assert CellOk(s.heap, s.tasks, s.promises[s.tasks[t].key]);
    }
  }

  lemma GetAccurate<K(!new), V>(s: State<K, V>, k: K)
    requires Tracked(s.promises, s.heap, s.tasks) && Accurate(s) && Linked(s)
    ensures Accurate(Get(s, k)) && Linked(Get(s, k))
  {
    var s' := Get(s, k);
    if k !in s.promises {
      assert Agree(s.data.entries, s'.data.entries, k);
      OthersKept(s, s', k);
      assert HonestAt(s', k);
    }
  }

  lemma RestartAccurate<K(!new), V>(s: State<K, V>, k: K)
    requires Accurate(s) && Linked(s)
    ensures Accurate(Restart(s, k)) && Linked(Restart(s, k))
  {
  }

  lemma ResolvingFollows<K(!new), V>(s: State<K, V>, k: K, source: Source<V>)
    requires Tracked(s.promises, s.heap, s.tasks)
    requires HeldFor(s, k).Some? ==> HoldsOwn(s.promises, s.heap, k, s.data.entries[k])
    ensures var s1 := Resolving(s, k, source);
            && Carries(s1.heap, s1.promises[k], |s.heap|) && HonestAt(s1, k)
            && |s.heap| < |s1.heap| && forall p: nat | p < |s.heap| ::
                 s1.heap[p].state == s.heap[p].state || (s.heap[p].key == k && !s.heap[p].state.Settled?)
  {
  }

  lemma ResolvingAgrees<K(!new), V>(s: State<K, V>, k: K, source: Source<V>)
    requires Accurate(s)
    ensures var s1 := Resolving(s, k, source);
            && Agree(s.data.entries, s1.data.entries, k) && Agree(s.promises, s1.promises, k)
            && (k in s1.promises <==> HeldFor(s, k).None? || k in s.promises) && k in s1.data.entries
            && s1.tasks == s.tasks[|s.heap| := Task(k, source)]
  {
  }

  lemma ResolvingAccurate<K(!new), V>(s: State<K, V>, k: K, source: Source<V>)
    requires Tracked(s.promises, s.heap, s.tasks) && Accurate(s) && Linked(s) && !Busy(s, k)
    requires HeldFor(s, k).Some? ==> HoldsOwn(s.promises, s.heap, k, s.data.entries[k])
    ensures Accurate(Resolving(s, k, source)) && Linked(Resolving(s, k, source))
  {
    var s1 := Resolving(s, k, source);
    ResolvingFollows(s, k, source);
    ResolvingAgrees(s, k, source);
    OthersKept(s, s1, k);
    OnlyNewTask(s, s1, k, source);
  }

  /** The only unfinished call for the key is the new one, which its promise waits for. */
  lemma OnlyNewTask<K(!new), V>(s: State<K, V>, s1: State<K, V>, k: K, source: Source<V>)
    requires !Busy(s, k) && s1.tasks == s.tasks[|s.heap| := Task(k, source)]
    requires k in s1.promises && Carries(s1.heap, s1.promises[k], |s.heap|)
    ensures forall t | t in s1.tasks && s1.tasks[t].key == k :: Carries(s1.heap, s1.promises[k], t)
  {
  }

  lemma RejectingSettles<K(!new), V>(s: State<K, V>, k: K, reason: Reason)
    requires Tracked(s.promises, s.heap, s.tasks)
    requires HeldFor(s, k).Some? ==> HoldsOwn(s.promises, s.heap, k, s.data.entries[k])
    ensures var s1 := Rejecting(s, k, reason);
            && HonestAt(s1, k)
            && |s.heap| <= |s1.heap| && forall p: nat | p < |s.heap| ::
                 s1.heap[p].state == s.heap[p].state || (s.heap[p].key == k && !s.heap[p].state.Settled?)
  {
  }

  lemma RejectingAccurate<K(!new), V>(s: State<K, V>, k: K, reason: Reason)
    requires Tracked(s.promises, s.heap, s.tasks) && Accurate(s) && Linked(s) && !Busy(s, k)
    requires HeldFor(s, k).Some? ==> HoldsOwn(s.promises, s.heap, k, s.data.entries[k])
    ensures Accurate(Rejecting(s, k, reason)) && Linked(Rejecting(s, k, reason))
  {
    var s1 := Rejecting(s, k, reason);
    RejectingSettles(s, k, reason);
    assert Agree(s.data.entries, s1.data.entries, k);
    OthersKept(s, s1, k);
  }

  lemma ResolveCurrent<K(!new), V>(s: State<K, V>, k: K, source: Source<V>)
    requires Current(s) && !Busy(s, k)
    ensures Current(Resolve(s, k, source))
  {
    ResolveSound(s, k, source);
    HeldIsOwn(s, k);
    ResolvingAccurate(s, k, source);
    RestartAccurate(Resolving(s, k, source), k);
  }

  lemma RejectCurrent<K(!new), V>(s: State<K, V>, k: K, reason: Reason)
    requires Current(s) && !Busy(s, k)
    ensures Current(Reject(s, k, reason))
  {
    RejectSound(s, k, reason);
    HeldIsOwn(s, k);
    RejectingAccurate(s, k, reason);
    RestartAccurate(Rejecting(s, k, reason), k);
  }

  lemma HeldIsNotBusy<K(!new), V>(s: State<K, V>, k: K)
    requires Current(s) && HeldFor(s, k).Some?
    ensures !Busy(s, k) && HasStatus(s, k, Pending)
  {
  }

  lemma {:induction false} RejectEachCurrent<K(!new), V>(s: State<K, V>, keys: seq<K>, reason: Reason)
    requires Current(s)
    ensures Current(RejectEach(s, keys, reason))
  {
    if keys == [] {
    } else {
      var s1, k := RejectEach(s, keys[..|keys| - 1], reason), keys[|keys| - 1];
      RejectEachCurrent(s, keys[..|keys| - 1], reason);
      if Rejectable(s1, k) {
        HeldIsNotBusy(s1, k);
        RejectCurrent(s1, k, reason);
      }
    }
  }

  lemma DeleteCurrent<K(!new), V>(s: State<K, V>, k: K, reason: Reason)
    requires Current(s) && !Busy(s, k)
    ensures Current(DoDelete(s, k, reason))
  {
    DeleteSound(s, k, reason);
    HeldIsOwn(s, k);
    OthersKept(s, DoDelete(s, k, reason), k);
  }

  lemma CompleteCurrent<K(!new), V>(s: State<K, V>, t: nat, o: Outcome<V>)
    requires Current(s) && t in s.tasks && t < |s.heap|
    ensures Current(Complete(s, t, o))
  {
    var k, s' := s.tasks[t].key, Complete(s, t, o);
    CompleteSound(s, t, o);
    forall p: nat | p < |s.heap|
      ensures s'.heap[p].state == s.heap[p].state || (s.heap[p].key == k && !s.heap[p].state.Settled?)
    {
      assert p == t ==> CellOk(s.heap, s.tasks, p);
    }
    OthersKept(s, s', k);
    assert Carries(s.heap, s.promises[k], t);
    assert CellOk(s.heap, s.tasks, s.promises[k]);
  }

  lemma QuietKeepsCurrent<K(!new), V>(s: State<K, V>, op: Op<K, V>)
    requires Current(s) && Enabled(s, op) && Quiet(s, op)
    ensures Current(Apply(s, op))
  {
    match op
    case OpGet(k) => ApplySound(s, op); GetAccurate(s, k);
    case OpResolve(k, source) => ResolveCurrent(s, k, source);
    case OpReject(k, reason) => RejectCurrent(s, k, reason);
    case OpRejectAll(reason) => RejectEachCurrent(s, s.data.keys, reason);
    case OpDelete(k) => DeleteCurrent(s, k, Deleted);
    case OpClear => ClearSound(s);
    case OpComplete(t, o) => CompleteCurrent(s, t, o);
    case OpFire(t) => DeleteCurrent(s, s.timers[t].key, TimedOut); FireSound(s, t);
    case OpTick(elapsed) => ApplySound(s, op);
  }

  /** Every operation of a run is quiet where it happens. */
  ghost predicate QuietRun<K(!new), V>(s: State<K, V>, ops: seq<Op<K, V>>)
    requires Feasible(s, ops)
    decreases |ops|
  {
    ops == [] || (Quiet(s, ops[0]) && QuietRun(Apply(s, ops[0]), ops[1..]))
  }

  lemma {:induction false} RunCurrent<K(!new), V>(s: State<K, V>, ops: seq<Op<K, V>>)
    requires Current(s) && Feasible(s, ops) && QuietRun(s, ops)
    ensures Current(Run(s, ops))
    decreases |ops|
  {
    if ops == [] {
    } else {
      QuietKeepsCurrent(s, ops[0]);
      RunCurrent(Apply(s, ops[0]), ops[1..]);
    }
  }

  /** In a quiet run a key is pending while a resolution is outstanding, and otherwise has its promise's outcome. */
  lemma StatusIsTheTruth<K(!new), V>(timeout: Option<nat>, ops: seq<Op<K, V>>, k: K)
    requires Feasible(Init(timeout), ops) && QuietRun(Init(timeout), ops)
    ensures var s := Run(Init(timeout), ops);
            && (Busy(s, k) ==> HasStatus(s, k, Pending))
            && (k in s.data.entries <==> k in s.promises)
            && (k in s.promises ==> HasStatus(s, k, StatusOf(OutcomeOf(s.heap, s.promises[k]))))
  {
    RunCurrent(Init<K, V>(timeout), ops);
    CurrentIsTrue(Run(Init(timeout), ops), k);
  }

  lemma CurrentIsTrue<K(!new), V>(s: State<K, V>, k: K)
    requires Accurate(s) && Linked(s) && Tracked(s.promises, s.heap, s.tasks)
    ensures Busy(s, k) ==> HasStatus(s, k, Pending)
    ensures k in s.promises ==> HasStatus(s, k, StatusOf(OutcomeOf(s.heap, s.promises[k])))
  {
    assert k in s.promises ==> HonestAt(s, k);
  }

  // ---------- The condition is exact

  /** The unfinished call for a key that an operation which is not quiet interferes with. */
  ghost predicate Disturbs<K(!new), V>(s: State<K, V>, op: Op<K, V>, t: nat)
    requires Enabled(s, op) && t in s.tasks
  {
    match op
    case OpResolve(k, _) => s.tasks[t].key == k
    case OpReject(k, _) => s.tasks[t].key == k
    case OpDelete(k) => s.tasks[t].key == k
    case OpClear => true
    case OpFire(timer) => s.tasks[t].key == s.timers[timer].key
    case _ => false
  }

  lemma DisturbedTaskRemains<K(!new), V>(s: State<K, V>, op: Op<K, V>, t: nat)
    requires Current(s) && Enabled(s, op) && t in s.tasks && Disturbs(s, op, t)
    ensures var s', k := Apply(s, op), s.tasks[t].key;
            && t in s'.tasks && t < |s'.heap| && s'.tasks[t] == s.tasks[t]
            && if op.OpResolve? || op.OpReject?
               then k in s'.promises && s'.promises[k] == |s.heap| && |s.heap| < |s'.heap|
                    && s'.heap[|s.heap|].state == if op.OpResolve? then Awaiting else Settled(Error(op.reason))
               else k !in s'.promises
  {
    var k := s.tasks[t].key;
    if HeldFor(s, k).Some? {
      HeldIsNotBusy(s, k);
    }
  }

  /**
   * An operation that is not quiet makes the records lie: the unfinished call it disturbed can still complete,
   * and then records a status its key's promise does not have, or one for a key that is not owned.
   */
  lemma NoisyOperationsLie<K(!new), V>(s: State<K, V>, op: Op<K, V>, v: V) returns (t: nat, o: Outcome<V>)
    requires Current(s) && Enabled(s, op) && !Quiet(s, op)
    ensures Enabled(Apply(s, op), OpComplete(t, o))
    ensures !Accurate(Apply(Apply(s, op), OpComplete(t, o)))
  {
    t :| t in s.tasks && Disturbs(s, op, t);
    DisturbedTaskRemains(s, op, t);
    o := Value(if s.tasks[t].source.Plain? then s.tasks[t].source.value else v);
    LateCompletionLies(Apply(s, op), t, o);
  }

  lemma LateCompletionLies<K(!new), V>(s: State<K, V>, t: nat, o: Outcome<V>)
    requires t in s.tasks && t < |s.heap| && o.Value?
    requires s.tasks[t].key in s.promises ==>
               var p := s.promises[s.tasks[t].key];
               && p < |s.heap| && p != t
               && (s.heap[p].state.Awaiting? || (s.heap[p].state.Settled? && s.heap[p].state.outcome.Error?))
    ensures !Accurate(Complete(s, t, o))
  {
  }

  /** Whatever completes next, the records are accurate after it. */
  ghost predicate StaysAccurate<K(!new), V(!new)>(s: State<K, V>) {
    forall t, o | Enabled(s, OpComplete(t, o)) :: Accurate(Complete(s, t, o))
  }

  lemma CurrentStaysAccurate<K(!new), V(!new)>(s: State<K, V>)
    requires Current(s)
    ensures StaysAccurate(s)
  {
    forall t, o | Enabled(s, OpComplete(t, o))
      ensures Accurate(Complete(s, t, o))
    {
      CompleteCurrent(s, t, o);
    }
  }

  /** So, from accurate records, an operation is quiet exactly when they stay accurate whatever completes next. */
  lemma QuietIsExact<K(!new), V(!new)>(s: State<K, V>, op: Op<K, V>, v: V)
    requires Current(s) && Enabled(s, op)
    ensures Quiet(s, op) <==> StaysAccurate(Apply(s, op))
  {
    if Quiet(s, op) {
      QuietKeepsCurrent(s, op);
      CurrentStaysAccurate(Apply(s, op));
    } else {
      var t, o := NoisyOperationsLie(s, op, v);
    }
  }
}
