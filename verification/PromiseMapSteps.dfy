/**
 * What each call does, told by what can be seen of it: who is answered with what, which promise a key has afterwards,
 * which timer runs for it, and that nothing else changes.
 */
module PromiseMapSteps {
  import opened Wrappers
  import opened PromiseMapSpec
  import opened PromiseMapRuns
  import opened PromiseMapLaws

  // ---------- What stays as it was

  /** All keys but `k` have the promise and the record they had. */
  ghost predicate OthersKept<K(!new), V>(s: State<K, V>, s': State<K, V>, k: K) {
    && (forall x | x != k :: x in s'.promises <==> x in s.promises)
    && (forall x | x != k && x in s.promises && x in s'.promises :: s'.promises[x] == s.promises[x])
    && (forall x | x != k :: x in s'.data.entries <==> x in s.data.entries)
    && (forall x | x != k && x in s.data.entries && x in s'.data.entries :: s'.data.entries[x] == s.data.entries[x])
  }

  /** All promises there were, but `p`, are what they were. */
  ghost predicate CellsKept<K, V>(heap: seq<Cell<K, V>>, heap': seq<Cell<K, V>>, p: Option<nat>) {
    |heap| <= |heap'| && forall q: nat | q < |heap| && p != Some(q) :: heap'[q] == heap[q]
  }

  /** The promise of a key that still waits for its first settlement. */
  ghost function Waiting<K(!new), V>(s: State<K, V>, k: K): Option<nat> {
    if k in s.promises && s.promises[k] < |s.heap| && s.heap[s.promises[k]].state.Held? then Some(s.promises[k])
    else None
  }

  /** All timers but the one recorded for `k` run on. */
  ghost predicate TimersKept<K(!new), V>(s: State<K, V>, s': State<K, V>, k: K) {
    forall t | t in s.timers && !IsTimerOf(s, k, t) :: t in s'.timers && s'.timers[t] == s.timers[t]
  }

  ghost predicate IsTimerOf<K(!new), V>(s: State<K, V>, k: K, t: nat) {
    k in s.data.entries && s.data.entries[k].timer == Some(t)
  }

  /** The key waits exactly if its entry holds settle functions, and they are those of its promise. */
  lemma WaitingIsHeld<K(!new), V>(s: State<K, V>, k: K)
    requires Sound(s)
    ensures HeldFor(s, k) == Waiting(s, k)
    ensures Waiting(s, k).Some? ==> s.heap[Waiting(s, k).value].key == k
  {
    if k in s.promises {
      assert LinearAt(s.data.entries, s.heap[s.promises[k]], s.promises[k]);
    }
    if k in s.data.entries {
      assert HoldsOwn(s.promises, s.heap, k, s.data.entries[k]);
    }
  }

  // ---------- get

  /**
   * An owned key gives the promise it has, whatever became of it, and nothing changes. Any other gets a new promise
   * that waits, and is pending.
   */
  lemma GetLaw<K(!new), V>(s: State<K, V>, k: K)
    requires Sound(s)
    ensures var s' := Apply(s, OpGet(k));
            if k in s.promises then s' == s
            else
              && Waiting(s', k) == Some(|s.heap|) && |s'.heap| == |s.heap| + 1 && s'.heap[|s.heap|].key == k
              && HasStatus(s', k, Pending) && s'.data.entries[k].timer.None?
              && OthersKept(s, s', k) && CellsKept(s.heap, s'.heap, None)
              && s'.timers == s.timers && s'.tasks == s.tasks && s'.clock == s.clock
  {
  }

  // ---------- resolve and reject

  /** With a timeout, the key has one recorded timer, which is new and due one timeout from now; the old one is gone. */
  ghost predicate PutOff<K(!new), V>(s: State<K, V>, s': State<K, V>, k: K) {
    && s'.clock == s.clock && TimersKept(s, s', k)
    && match s.timeout
       case None => s'.timers == s.timers
       case Some(timeout) =>
         && (forall t | t in s.timers && IsTimerOf(s, k, t) :: t !in s'.timers)
         && (exists t :: t in s'.timers && t !in s.timers && IsTimerOf(s', k, t)
                         && s'.timers[t] == Timer(k, s.clock + timeout)
                         && (forall u | u in s'.timers && u != t :: u in s.timers))
  }

  ghost predicate TimersBelow<K(!new), V>(s: State<K, V>) {
    forall t | t in s.timers :: t < s.nextTimer
  }

  lemma RestartPutsOff<K(!new), V>(s: State<K, V>, k: K)
    requires TimersBelow(s) && k in s.data.entries
    ensures PutOff(s, Restart(s, k), k)
    ensures Restart(s, k).heap == s.heap && Restart(s, k).promises == s.promises && Restart(s, k).tasks == s.tasks
    ensures OthersKept(s, Restart(s, k), k)
    ensures var d, d' := s.data.entries[k], Restart(s, k).data.entries[k];
            d'.status == d.status && d'.functions == d.functions
  {
    if s.timeout.Some? {
      assert IsTimerOf(Restart(s, k), k, s.nextTimer);
    }
  }

  /** What is recorded for the key, its timer apart. */
  ghost predicate Recorded<K(!new), V>(s: State<K, V>, k: K, status: Status) {
    HasStatus(s, k, status) && s.data.entries[k].functions.None?
  }

  ghost predicate Resolved<K(!new), V>(s: State<K, V>, s': State<K, V>, k: K, source: Source<V>) {
    var t := |s.heap|;
    && |s'.heap| == t + 1 && s'.heap[t].state.Awaiting? && s'.heap[t].key == k
    && s'.tasks == s.tasks[t := Task(k, source)]
    && k in s'.promises && s'.promises[k] == (if Waiting(s, k).Some? then Waiting(s, k).value else t)
    && (Waiting(s, k).Some? ==> s'.heap[Waiting(s, k).value].state == Following(t))
    && CellsKept(s.heap, s'.heap, Waiting(s, k))
  }

  ghost predicate RejectedWith<K(!new), V>(s: State<K, V>, s': State<K, V>, k: K, reason: Reason) {
    && k in s'.promises && s'.promises[k] == (if Waiting(s, k).Some? then Waiting(s, k).value else |s.heap|)
    && s'.promises[k] < |s'.heap| == |s.heap| + (if Waiting(s, k).Some? then 0 else 1)
    && s'.heap[s'.promises[k]].state == Settled(Error(reason)) && s'.heap[s'.promises[k]].key == k
    && CellsKept(s.heap, s'.heap, Waiting(s, k)) && s'.tasks == s.tasks
  }

  lemma ResolvingLaw<K(!new), V>(s: State<K, V>, k: K, source: Source<V>)
    requires HeldFor(s, k) == Waiting(s, k)
    ensures Resolved(s, Resolving(s, k, source), k, source)
  {
  }

  lemma RejectingLaw<K(!new), V>(s: State<K, V>, k: K, reason: Reason)
    requires HeldFor(s, k) == Waiting(s, k) && (Waiting(s, k).Some? ==> s.heap[Waiting(s, k).value].key == k)
    ensures RejectedWith(s, Rejecting(s, k, reason), k, reason)
  {
  }

  /** Before its expiry is put off, a settled key differs from what it was in its promise and record only. */
  lemma SettlingKeepsOthers<K(!new), V>(s: State<K, V>, k: K, source: Source<V>, reason: Reason)
    ensures OthersKept(s, Resolving(s, k, source), k) && Recorded(Resolving(s, k, source), k, Pending)
    ensures OthersKept(s, Rejecting(s, k, reason), k) && Recorded(Rejecting(s, k, reason), k, Rejected)
    ensures SameTimers(s, Resolving(s, k, source), k) && SameTimers(s, Rejecting(s, k, reason), k)
  {
  }

  ghost predicate SameTimers<K(!new), V>(s: State<K, V>, s1: State<K, V>, k: K) {
    && s1.timers == s.timers && s1.nextTimer == s.nextTimer && s1.clock == s.clock && s1.timeout == s.timeout
    && forall t :: IsTimerOf(s1, k, t) <==> IsTimerOf(s, k, t)
  }

  lemma PutOffFrom<K(!new), V>(s: State<K, V>, s1: State<K, V>, k: K)
    requires SameTimers(s, s1, k) && OthersKept(s, s1, k) && k in s1.data.entries && TimersBelow(s)
    ensures PutOff(s, Restart(s1, k), k) && OthersKept(s, Restart(s1, k), k)
  {
    RestartPutsOff(s1, k);
  }

  /**
   * The promise of a key that waits follows the new resolution; any other key has the resolution's promise from now
   * on. Either way it is pending, and its expiry is put off.
   */
  lemma ResolveLaw<K(!new), V>(s: State<K, V>, k: K, source: Source<V>)
    requires Sound(s)
    ensures var s' := Apply(s, OpResolve(k, source));
            && Resolved(s, s', k, source) && Recorded(s', k, Pending)
            && OthersKept(s, s', k) && PutOff(s, s', k)
  {
    WaitingIsHeld(s, k);
    var s1 := Resolving(s, k, source);
    ResolvingLaw(s, k, source);
    SettlingKeepsOthers(s, k, source, Deleted);
    RestartPutsOff(s1, k);
    PutOffFrom(s, s1, k);
  }

  /** The promise of a key that waits is rejected; any other key has a new rejected promise. Its expiry is put off. */
  lemma RejectLaw<K(!new), V>(s: State<K, V>, k: K, reason: Reason)
    requires Sound(s)
    ensures var s' := Apply(s, OpReject(k, reason));
            && RejectedWith(s, s', k, reason) && Recorded(s', k, Rejected)
            && OthersKept(s, s', k) && PutOff(s, s', k)
  {
    WaitingIsHeld(s, k);
    var s1 := Rejecting(s, k, reason);
    RejectingLaw(s, k, reason);
    SettlingKeepsOthers(s, k, Thenable, reason);
    RestartPutsOff(s1, k);
    PutOffFrom(s, s1, k);
  }

  /** When a resolution ends, all that follow it have its outcome, and its key's record says so. */
  lemma CompleteLaw<K(!new), V>(s: State<K, V>, t: nat, o: Outcome<V>)
    requires Sound(s) && Enabled(s, OpComplete(t, o))
    ensures var s', k := Apply(s, OpComplete(t, o)), s.tasks[t].key;
            && OutcomeOf(s'.heap, t) == Some(o)
            && (forall p: nat | p < |s.heap| && s.heap[p].state == Following(t) :: OutcomeOf(s'.heap, p) == Some(o))
            && |s'.heap| == |s.heap| && CellsKept(s.heap, s'.heap, Some(t))
            && s'.tasks.Keys == s.tasks.Keys - {t} && (forall u | u in s'.tasks :: s'.tasks[u] == s.tasks[u])
            && HasStatus(s', k, if o.Value? then Fulfilled else Rejected)
            && (k in s.data.entries ==> s'.data.entries[k].functions == s.data.entries[k].functions
                                        && s'.data.entries[k].timer == s.data.entries[k].timer)
            && OthersKept(s, s', k) && s'.promises == s.promises && s'.timers == s.timers && s'.clock == s.clock
  {
  }

  /**
   * Whatever happens in between, the promise that a key has after it was resolved carries the outcome of that
   * resolution when it ends: for a plain value, that value.
   */
  lemma ResolutionArrives<K(!new), V>(s: State<K, V>, k: K, source: Source<V>, ops: seq<Op<K, V>>, o: Outcome<V>)
    requires Sound(s) && Feasible(Apply(s, OpResolve(k, source)), ops)
    requires Enabled(Run(Apply(s, OpResolve(k, source)), ops), OpComplete(|s.heap|, o))
    ensures var s1 := Apply(s, OpResolve(k, source));
            var s2 := Apply(Run(s1, ops), OpComplete(|s.heap|, o));
            k in s1.promises && OutcomeOf(s2.heap, s1.promises[k]) == Some(o)
  {
    var s1 := Apply(s, OpResolve(k, source));
    ResolveLaw(s, k, source);
    ApplySound(s, OpResolve(k, source));
    PromiseMapRuns.RunSound(s1, ops);
    OutcomesAreFinal(s1, ops, s1.promises[k]);
    CompleteLaw(Run(s1, ops), |s.heap|, o);
  }

  // ---------- delete, expiry and clear

  /** The key is gone, whoever waited for it is rejected, its timer is stopped, and all else is as it was. */
  ghost predicate Removed<K(!new), V>(s: State<K, V>, s': State<K, V>, k: K, reason: Reason) {
    && k !in s'.promises && k !in s'.data.entries
    && |s'.heap| == |s.heap| && CellsKept(s.heap, s'.heap, Waiting(s, k))
    && (Waiting(s, k).Some? ==> s'.heap[Waiting(s, k).value].state == Settled(Error(reason))
                                && s'.heap[Waiting(s, k).value].calls == 1)
    && OthersKept(s, s', k) && s'.tasks == s.tasks && s'.clock == s.clock
    && (forall t | t in s'.timers :: t in s.timers && s'.timers[t] == s.timers[t] && !IsTimerOf(s, k, t))
  }

  lemma RemovedCells<K(!new), V>(s: State<K, V>, k: K, reason: Reason)
    requires HeldFor(s, k) == Waiting(s, k)
    requires Waiting(s, k).Some? ==> s.heap[Waiting(s, k).value].calls == 0
    ensures var s' := DoDelete(s, k, reason);
            && |s'.heap| == |s.heap| && CellsKept(s.heap, s'.heap, Waiting(s, k))
            && (Waiting(s, k).Some? ==> s'.heap[Waiting(s, k).value].state == Settled(Error(reason))
                                        && s'.heap[Waiting(s, k).value].calls == 1)
  {
  }

  lemma RemovedKey<K(!new), V>(s: State<K, V>, k: K, reason: Reason)
    ensures var s' := DoDelete(s, k, reason);
            && k !in s'.promises && k !in s'.data.entries && OthersKept(s, s', k)
            && s'.tasks == s.tasks && s'.clock == s.clock
  {
  }

  lemma RemovedTimer<K(!new), V>(s: State<K, V>, k: K, reason: Reason)
    ensures var s' := DoDelete(s, k, reason);
            forall t :: t in s'.timers <==> t in s.timers && !IsTimerOf(s, k, t)
    ensures var s' := DoDelete(s, k, reason);
            forall t | t in s'.timers :: s'.timers[t] == s.timers[t]
  {
  }

  lemma DeleteRemoves<K(!new), V>(s: State<K, V>, k: K, reason: Reason)
    requires Sound(s)
    ensures Removed(s, DoDelete(s, k, reason), k, reason) && TimersKept(s, DoDelete(s, k, reason), k)
  {
    WaitingIsHeld(s, k);
    if Waiting(s, k).Some? {
      assert LinearAt(s.data.entries, s.heap[Waiting(s, k).value], Waiting(s, k).value);
    }
    RemovedCells(s, k, reason);
    RemovedKey(s, k, reason);
    RemovedTimer(s, k, reason);
  }

  /** `delete` removes any key, settled or not, and the next `get` makes a promise that did not exist before. */
  lemma DeleteLaw<K(!new), V>(s: State<K, V>, k: K)
    requires Sound(s)
    ensures var s' := Apply(s, OpDelete(k));
            && Removed(s, s', k, Deleted) && TimersKept(s, s', k)
            && Waiting(Apply(s', OpGet(k)), k) == Some(|s.heap|)
  {
    DeleteRemoves(s, k, Deleted);
    DeleteSound(s, k, Deleted);
    GetLaw(DoDelete(s, k, Deleted), k);
  }

  /** A timer that fires is gone, and its key with it. */
  lemma FireLaw<K(!new), V>(s: State<K, V>, t: nat)
    requires Sound(s) && Enabled(s, OpFire(t))
    ensures var s', k := Apply(s, OpFire(t)), s.timers[t].key;
            && Removed(s, s', k, TimedOut) && t !in s'.timers
            && (forall u | u in s.timers && u != t && !IsTimerOf(s, k, u) :: u in s'.timers)
  {
    WaitingIsHeld(s, s.timers[t].key);
    DeleteRemoves(s, s.timers[t].key, TimedOut);
  }

  /** `clear` removes all keys and rejects all promises that waited; but it stops no timer. */
  lemma ClearLaw<K(!new), V>(s: State<K, V>)
    requires Sound(s)
    ensures var s' := Apply(s, OpClear);
            && s'.promises == map[] && s'.data.entries == map[] && |s'.heap| == |s.heap|
            && (forall p: nat | p < |s.heap| ::
                  if s.heap[p].state.Held? then s'.heap[p].state == Settled(Error(Cleared)) && s'.heap[p].calls == 1
                  else s'.heap[p] == s.heap[p])
            && s'.timers == s.timers && s'.tasks == s.tasks && s'.clock == s.clock
  {
    forall p: nat | p < |s.heap|
      ensures Owed(s, p) <==> s.heap[p].state.Held?
      ensures s.heap[p].state.Held? ==> s.heap[p].calls == 0
    {
      assert LinearAt(s.data.entries, s.heap[p], p);
      if Owed(s, p) {
        assert HoldsOwn(s.promises, s.heap, s.heap[p].key, s.data.entries[s.heap[p].key]);
      }
    }
  }
}
