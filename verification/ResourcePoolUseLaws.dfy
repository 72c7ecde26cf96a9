/** What `use` promises: exclusive resources, one return per call, and that every batch of calls comes to an end. */
module ResourcePoolUseLaws {
  import opened ResourcePoolSpec
  import opened ResourcePoolRuns
  import opened ResourcePoolUse

  lemma IdleSound<R(!new), U>(max: nat)
    ensures ResourcePoolUse.Sound(Idle<R, U>(max))
  {
  }

  /** In every run, two calls never hold the same resource, and nobody holds a destroyed one. */
  lemma HoldersExcludeEachOther<R(!new), U>(max: nat, steps: seq<Step<R, U>>, q: nat, p: nat)
    requires ResourcePoolUse.Feasible(Idle(max), steps) && q != p
    requires var s := ResourcePoolUse.Run(Idle(max), steps); Holds(s.calls, q) && Holds(s.calls, p)
    ensures var s := ResourcePoolUse.Run(Idle<R, U>(max), steps);
            && s.calls[q].resource != s.calls[p].resource
            && s.calls[q].resource !in s.pool.destroyed
  {
    IdleSound<R, U>(max);
    ResourcePoolUse.RunSound(Idle<R, U>(max), steps);
  }

  /**
   * In every run, a call that is done handed its resource back exactly once, and every other call not at all.
   */
  lemma EveryUseReturnsOnce<R(!new), U>(max: nat, steps: seq<Step<R, U>>, q: nat)
    requires ResourcePoolUse.Feasible(Idle(max), steps)
    requires q in ResourcePoolUse.Run(Idle<R, U>(max), steps).calls
    ensures var s := ResourcePoolUse.Run(Idle<R, U>(max), steps);
            s.handedBack[q] == if s.calls[q].Done? then 1 else 0
  {
    IdleSound<R, U>(max);
    ResourcePoolUse.RunSound(Idle<R, U>(max), steps);
  }

  /** And it is done with the very outcome its body settled with, whether it fulfilled, threw or rejected. */
  lemma {:induction false} OutcomesAreForwarded<R(!new), U>(s: Clients<R, U>, steps: seq<Step<R, U>>, q: nat)
    requires ResourcePoolUse.Sound(s) && ResourcePoolUse.Feasible(s, steps)
    requires q in s.calls ==> !s.calls[q].Ending? && !s.calls[q].Done?
    ensures var s' := ResourcePoolUse.Run(s, steps);
            q in s'.calls && (s'.calls[q].Ending? || s'.calls[q].Done?) ==> Settle(q, s'.calls[q].outcome) in steps
    decreases |steps|
  {
    if steps == [] {
    } else {
      NextSound(s, steps[0]);
      assert forall step | step in steps[1..] :: step in steps;
      if steps[0].Settle? && steps[0].request == q {
        OutcomeStays(Next(s, steps[0]), steps[1..], q);
      } else {
        UnsettledStep(s, steps[0], q);
        OutcomesAreForwarded(Next(s, steps[0]), steps[1..], q);
      }
    }
  }

  lemma UnsettledStep<R, U>(s: Clients<R, U>, step: Step<R, U>, q: nat)
    requires Possible(s, step) && !(step.Settle? && step.request == q)
    requires q in s.calls ==> !s.calls[q].Ending? && !s.calls[q].Done?
    ensures var c := Next(s, step).calls; q in c ==> !c[q].Ending? && !c[q].Done?
  {
  }

  lemma {:induction false} OutcomeStays<R(!new), U>(s: Clients<R, U>, steps: seq<Step<R, U>>, q: nat)
    requires ResourcePoolUse.Sound(s) && ResourcePoolUse.Feasible(s, steps)
    requires q in s.calls && (s.calls[q].Ending? || s.calls[q].Done?)
    ensures var s' := ResourcePoolUse.Run(s, steps);
            q in s'.calls && (s'.calls[q].Ending? || s'.calls[q].Done?) && s'.calls[q].outcome == s.calls[q].outcome
    decreases |steps|
  {
    if steps == [] {
    } else {
      OutcomeStep(s, steps[0], q);
      NextSound(s, steps[0]);
      OutcomeStays(Next(s, steps[0]), steps[1..], q);
    }
  }

  lemma OutcomeStep<R(!new), U>(s: Clients<R, U>, step: Step<R, U>, q: nat)
    requires CallsMatch(s.pool, s.calls) && Exclusive(s.pool.inUse, s.calls) && Possible(s, step)
    requires ResourcePoolRuns.RequestsApart(s.pool)
    requires q in s.calls && (s.calls[q].Ending? || s.calls[q].Done?)
    ensures var c := Next(s, step).calls;
            q in c && (c[q].Ending? || c[q].Done?) && c[q].outcome == s.calls[q].outcome
  {
  }

  /** Everyone who holds a resource, except `q`. */
  ghost function OtherHolders<R, U>(calls: map<nat, Call<R, U>>, q: nat): set<nat> {
    Runners(calls) + Enders(calls) - {q}
  }

  lemma HoldersSplit<R, U>(calls: map<nat, Call<R, U>>, q: nat)
    requires Holds(calls, q)
    ensures |OtherHolders(calls, q)| + 1 == |Runners(calls)| + |Enders(calls)|
  {
    assert Runners(calls) !! Enders(calls);
    assert q in Runners(calls) + Enders(calls);
  }

  /** A call that keeps its resource leaves one less for all others, whether they hold theirs or are about to. */
  lemma OthersShareTheRest<R(!new), U>(max: nat, steps: seq<Step<R, U>>, q: nat)
    requires ResourcePoolUse.Feasible(Idle(max), steps)
    requires Holds(ResourcePoolUse.Run(Idle<R, U>(max), steps).calls, q)
    ensures var s := ResourcePoolUse.Run(Idle<R, U>(max), steps);
            |s.pool.creating| + |s.pool.inFlight| + |OtherHolders(s.calls, q)| + 1 <= max
  {
    IdleSound<R, U>(max);
    ResourcePoolUse.RunSound(Idle<R, U>(max), steps);
    var s := ResourcePoolUse.Run(Idle<R, U>(max), steps);
    HoldersSplit(s.calls, q);
    assert |s.pool.issued| == |s.pool.inFlight| + |s.pool.inUse| + |s.pool.unused| + |s.pool.destroyed|;
    ghost var n := |s.pool.creating| + |s.pool.failed| + |s.pool.issued|;
    assert s.pool.count == n;
    MaxStays(Idle<R, U>(max), steps);
  }

  lemma {:induction false} MaxStays<R, U>(s: Clients<R, U>, steps: seq<Step<R, U>>)
    requires ResourcePoolUse.Feasible(s, steps)
    ensures ResourcePoolUse.Run(s, steps).pool.max == s.pool.max
    decreases |steps|
  {
    if steps == [] {
    } else {
      MaxStays(Next(s, steps[0]), steps[1..]);
    }
  }

  /**
   * Whatever happens between `then` and `catch`, a client that held its resource returns it once: if the body gave
   * a value, `then` does and `catch` does nothing; else `catch` does, and throws only if it was returned meanwhile.
   */
  lemma OneOfThenAndCatchReturns<R, U>(s: Pool<R>, settled: Outcome<U>, r: R, ops: seq<Op<R>>)
    requires r in s.inUse && ResourcePoolSpec.Feasible(Then(s, settled, r).0, ops)
    ensures var (s1, chained) := Then(s, settled, r);
            var s2 := ResourcePoolSpec.Run(s1, ops);
            var (s3, result) := Catch(s2, chained, r);
            && (settled.Value? ==> s1 == Return(s, r) && s3 == s2 && result == settled)
            && (settled.Error? ==> s1 == s && s3 == Return(s2, r))
            && (settled.Error? ==> result == if r in s2.inUse then settled else Error(NOT_OWNED))
  {
  }

  /** A client that did not hold it is refused, and then takes it exactly if somebody has it by then. */
  lemma CatchTakesIff<R, U>(s: Pool<R>, v: U, r: R, ops: seq<Op<R>>)
    requires r !in s.inUse && ResourcePoolSpec.Feasible(Then(s, Outcome<U>.Value(v), r).0, ops)
    ensures var (s1, chained) := Then(s, Outcome<U>.Value(v), r);
            var s2 := ResourcePoolSpec.Run(s1, ops);
            var (s3, result) := Catch(s2, chained, r);
            && s1 == s && result == Error("resource does not belong to this pool")
            && (s3 != s2 <==> r in s2.inUse) && (r in s2.inUse ==> r !in s3.inUse)
  {
  }

  /** For instance, it takes it from whoever got it in between. */
  lemma CatchTakesFromAnother<R(!new), U>(s: Pool<R>, v: U, r: R, q: nat)
    requires ResourcePoolRuns.Sound(s) && q in s.inFlight && s.inFlight[q] == r
    ensures var (s1, chained) := Then(s, Outcome<U>.Value(v), r);
            var (s3, result) := Catch(Deliver(s1, q), chained, r);
            && s1 == s && chained == Error(NOT_OWNED) && result == Error(NOT_OWNED)
            && r in Deliver(s1, q).inUse && s.granted[q] == r && r !in s3.inUse
  {
  }

  // ---------- Every batch of calls comes to an end

  /** `create` works and nobody destroys the pool. */
  ghost predicate Ordinary<R, U>(steps: seq<Step<R, U>>) {
    steps != [] ==>
      !steps[0].FailCreate? && !steps[0].Destroy? && !steps[0].Resume? && Ordinary(steps[1..])
  }

  /** Calls that ask have four stages ahead of them, then three, two and one. */
  ghost function Work<R, U>(s: Clients<R, U>): nat {
    PoolWork(s.pool) + 2 * |Runners(s.calls)| + |Enders(s.calls)|
  }

  ghost function PoolWork<R>(p: Pool<R>): nat {
    4 * (|p.waiting| + |p.creating|) + 3 * |p.inFlight|
  }

  lemma GetWork<R>(p: Pool<R>)
    ensures PoolWork(Get(p)) <= PoolWork(p) + 4
  {
  }

  lemma CreatedWork<R>(p: Pool<R>, q: nat, r: R)
    requires RequestsApart(p) && q in p.creating
    ensures PoolWork(Created(p, q, r)) == PoolWork(p) - 1
  {
  }

  lemma DeliverWork<R>(p: Pool<R>, q: nat)
    requires q in p.inFlight
    ensures PoolWork(Deliver(p, q)) == PoolWork(p) - 3
  {
  }

  lemma ReturnWork<R>(p: Pool<R>, r: R)
    ensures PoolWork(Return(p, r)) <= PoolWork(p)
  {
  }

  /** A new call brings work; every other step does some. */
  lemma StepsWork<R(!new), U>(s: Clients<R, U>, step: Step<R, U>)
    requires ResourcePoolUse.Sound(s) && Possible(s, step)
    requires !step.FailCreate? && !step.Destroy? && !step.Resume?
    ensures 1 + Work(Next(s, step)) <= Work(s) + (if step.Use? then 5 else 0)
  {
    NextHolders(s, step);
    match step
    case Use => GetWork(s.pool);
    case Create(q, r) => CreatedWork(s.pool, q, r);
    case Begin(q) => DeliverWork(s.pool, q);
    case Settle(q, o) =>
    case Finish(q) => ReturnWork(s.pool, s.calls[q].resource);
  }

  /** How many calls of `use` a run makes. */
  ghost function Uses<R, U>(steps: seq<Step<R, U>>): nat {
    if steps == [] then 0 else (if steps[0].Use? then 1 else 0) + Uses(steps[1..])
  }

  lemma {:induction false} RunsAreBounded<R(!new), U>(s: Clients<R, U>, steps: seq<Step<R, U>>)
    requires ResourcePoolUse.Sound(s) && ResourcePoolUse.Feasible(s, steps) && Ordinary(steps)
    ensures |steps| <= Work(s) + 5 * Uses(steps)
    decreases |steps|
  {
    if steps == [] {
    } else {
      NextSound(s, steps[0]);
      StepsWork(s, steps[0]);
      RunsAreBounded(Next(s, steps[0]), steps[1..]);
    }
  }

  lemma {:induction false} UsesAreRequests<R, U>(s: Clients<R, U>, steps: seq<Step<R, U>>)
    requires ResourcePoolUse.Feasible(s, steps)
    ensures ResourcePoolUse.Run(s, steps).pool.requests == s.pool.requests + Uses(steps)
    decreases |steps|
  {
    if steps == [] {
    } else {
      UsesAreRequests(Next(s, steps[0]), steps[1..]);
    }
  }

  /** Nothing of the pool or of a body is left to happen. */
  ghost predicate Quiescent<R, U>(s: Clients<R, U>) {
    && s.pool.creating == {} && s.pool.inFlight == map[]
    && forall q | q in s.calls :: !s.calls[q].Running? && !s.calls[q].Ending?
  }

  /** As long as that is not so, some step other than a new call can be taken. */
  lemma UnlessQuiescentSomethingHappens<R(!new), U>(s: Clients<R, U>, unissued: R, o: Outcome<U>)
    returns (step: Step<R, U>)
    requires unissued !in s.pool.issued && !Quiescent(s)
    ensures Possible(s, step) && Ordinary([step]) && !step.Use?
  {
    if q :| q in s.pool.creating {
      step := Create(q, unissued);
    } else if q :| q in s.pool.inFlight {
      step := Begin(q);
    } else {
      var q :| q in s.calls && (s.calls[q].Running? || s.calls[q].Ending?);
      step := if s.calls[q].Running? then Settle(q, o) else Finish(q);
    }
  }

  /**
   * Any batch of n calls on a new pool, in any interleaving: it takes at most 5n steps, and when nothing more can
   * happen every call is done, nothing is in use, and everything owned, at most min(n, max), is unused.
   */
  lemma EveryBatchEnds<R(!new), U>(max: nat, steps: seq<Step<R, U>>)
    requires max >= 1 && ResourcePoolUse.Feasible(Idle(max), steps) && Ordinary(steps)
    ensures var s := ResourcePoolUse.Run(Idle<R, U>(max), steps);
            var n := Uses(steps);
            && |steps| <= 5 * n
            && (Quiescent(s) ==>
                  && (forall q: nat | q < n :: q in s.calls && s.calls[q].Done?)
                  && s.pool.inUse == {} && s.pool.count == |s.pool.unused| && s.pool.count <= n && s.pool.count <= max)
  {
    var s0 := Idle<R, U>(max);
    var s := ResourcePoolUse.Run(s0, steps);
    IdleSound<R, U>(max);
    ResourcePoolUse.RunSound(s0, steps);
    assert Runners(s0.calls) == {} && Enders(s0.calls) == {};
    RunsAreBounded(s0, steps);
    UsesAreRequests(s0, steps);
    OrdinaryKeeps(s0, steps);
    if Quiescent(s) {
      assert Runners(s.calls) == {} && Enders(s.calls) == {};
      assert s.pool.waiting == [];
    }
  }

  lemma {:induction false} OrdinaryKeeps<R(!new), U>(s: Clients<R, U>, steps: seq<Step<R, U>>)
    requires ResourcePoolUse.Feasible(s, steps) && Ordinary(steps)
    ensures var p, p' := s.pool, ResourcePoolUse.Run(s, steps).pool;
            p'.max == p.max && p'.failed == p.failed && p'.destroyed == p.destroyed
    decreases |steps|
  {
    if steps == [] {
    } else {
      OrdinaryKeeps(Next(s, steps[0]), steps[1..]);
    }
  }
}
