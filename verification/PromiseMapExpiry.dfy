/** Expiry as documented: how long an entry stays after its promise has settled, rather than after the settling call. */
module PromiseMapExpiry {
  import opened Wrappers
  import opened PromiseMapSpec
  import opened PromiseMapRuns
  import opened PromiseMapLaws

  /** No key was settled in the future. */
  ghost predicate Past<K(!new), V>(s: State<K, V>) {
    forall k | k in s.settledAt :: s.settledAt[k] <= s.clock
  }

  lemma {:induction false} RejectEachPast<K(!new), V>(s: State<K, V>, keys: seq<K>, reason: Reason)
    requires Past(s)
    ensures Past(RejectEach(s, keys, reason))
  {
    if keys == [] {
    } else {
      RejectEachPast(s, keys[..|keys| - 1], reason);
    }
  }

  lemma ApplyPast<K(!new), V>(s: State<K, V>, op: Op<K, V>)
    requires Past(s) && Enabled(s, op)
    ensures Past(Apply(s, op))
  {
    match op
    case OpRejectAll(reason) => RejectEachPast(s, s.data.keys, reason);
    case _ =>
  }

  lemma {:induction false} RunPast<K(!new), V>(s: State<K, V>, ops: seq<Op<K, V>>)
    requires Past(s) && Feasible(s, ops)
    ensures Past(Run(s, ops))
    decreases |ops|
  {
    if ops == [] {
    } else {
      ApplyPast(s, ops[0]);
      RunPast(Apply(s, ops[0]), ops[1..]);
    }
  }

  /** Some time from now, the timer may evict the key. */
  ghost predicate MayExpire<K(!new), V>(s: State<K, V>, k: K, t: nat, elapsed: nat) {
    t in s.timers && s.timers[t].key == k && Enabled(s.(clock := s.clock + elapsed), OpFire(t))
  }

  /** Left alone, the key does not expire for less than `time`. */
  ghost predicate StaysFor<K(!new), V>(s: State<K, V>, k: K, time: nat) {
    forall t: nat, elapsed: nat | elapsed < time :: !MayExpire(s, k, t, elapsed)
  }

  /**
   * When the resolution of an owned key is completed, the key stays for one timeout from then on if and only if no
   * time has passed since it was last settled. A plain value is completed at once, a promise-like when it settles.
   */
  lemma DocumentedBoundIff<K(!new), V>(timeout: nat, ops: seq<Op<K, V>>, t: nat, o: Outcome<V>)
    requires timeout > 0
    requires Feasible(Init(Some(timeout)), ops) && ClearsIdle(Init(Some(timeout)), ops)
    requires Enabled(Run(Init(Some(timeout)), ops), OpComplete(t, o))
    requires var s := Run(Init(Some(timeout)), ops); s.tasks[t].key in s.promises && HeldFor(s, s.tasks[t].key).None?
    ensures var s := Run(Init(Some(timeout)), ops);
            var k := s.tasks[t].key;
            StaysFor(Complete(s, t, o), k, timeout)
            <==> LastSettle(Init(Some(timeout)), ops, k, None) == Some(s.clock)
  {
    var s := Run(Init(Some(timeout)), ops);
    RunSound(Init<K, V>(Some(timeout)), ops);
    RunTimeout(Init<K, V>(Some(timeout)), ops);
    RunNoStrays(Init<K, V>(Some(timeout)), ops);
    RunPast(Init<K, V>(Some(timeout)), ops);
    RunSettledAt(Init<K, V>(Some(timeout)), ops, s.tasks[t].key);
    OnlyOwnTimer(s, s.tasks[t].key);
    CompletedStaysIff(s, s.tasks[t].key, t, o);
  }

  /** The one timer of an owned key that was settled. */
  ghost predicate HasOneTimer<K(!new), V>(s: State<K, V>, k: K) {
    && TimerOf(s, k).Some? && s.timeout.Some? && TimerOk(s, k, TimerOf(s, k).value)
    && (forall t | t in s.timers && s.timers[t].key == k :: TimerOf(s, k) == Some(t))
  }

  lemma OnlyOwnTimer<K(!new), V>(s: State<K, V>, k: K)
    requires Sound(s) && NoStrays(s) && s.timeout.Some? && k in s.promises && HeldFor(s, k).None?
    ensures HasOneTimer(s, k)
  {
    assert OneOf(s.data.entries[k]);
  }

  lemma CompletedStaysIff<K(!new), V>(s: State<K, V>, k: K, t: nat, o: Outcome<V>)
    requires HasOneTimer(s, k) && Past(s) && s.timeout.value > 0 && t in s.tasks && t < |s.heap|
    ensures StaysFor(Complete(s, t, o), k, s.timeout.value) <==> s.settledAt[k] == s.clock
  {
    var s' := Complete(s, t, o);
    var timer := TimerOf(s, k).value;
    var elapsed: nat := s.timeout.value - 1;
    assert timer in s'.timers && s'.timers[timer].due == s.settledAt[k] + s.timeout.value;
    if s.settledAt[k] < s.clock {
      assert MayExpire(s', k, timer, elapsed);
    }
  }

  /** A key can even expire while it is pending: one timeout after it was resolved with a promise-like. */
  lemma ExpiresWhilePending<K(!new), V>(timeout: nat, k: K)
    ensures var s1: State<K, V> := Resolve(Init(Some(timeout)), k, Thenable);
            var s2 := s1.(clock := s1.clock + timeout);
            && k in s2.promises && HasStatus(s2, k, Pending) && OutcomeOf(s2.heap, s2.promises[k]).None?
            && Enabled(s2, OpFire(0)) && k !in Fire(s2, 0).promises
  {
  }
}
