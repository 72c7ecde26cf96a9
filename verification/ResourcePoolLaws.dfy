/** What a `ResourcePool` promises its clients, over whole runs. */
module ResourcePoolLaws {
  import opened Sequences
  import opened ResourcePoolSpec
  import opened ResourcePoolRuns

  // ---------- Conservation

  /** Whatever happens, every call of `create` is accounted for, in exactly one place, and there are at most `max`. */
  lemma ResourcesAreConserved<R(!new)>(max: nat, ops: seq<Op<R>>)
    requires Feasible(Fresh(max), ops)
    ensures var s := Run(Fresh(max), ops);
            && s.count == |s.creating| + |s.failed| + |s.inFlight| + |s.inUse| + |s.unused| + |s.destroyed| <= max
            && RequestsApart(s) && ResourcesApart(s)
  {
    RunSound(Fresh<R>(max), ops);
    RunMax(Fresh<R>(max), ops);
  }

  lemma {:induction false} RunMax<R>(s: Pool<R>, ops: seq<Op<R>>)
    requires Feasible(s, ops)
    ensures Run(s, ops).max == s.max
    decreases |ops|
  {
    if ops == [] {
    } else {
      RunMax(Apply(s, ops[0]), ops[1..]);
    }
  }

  // ---------- Waiting

  /** The resources that the run's successful returns give back, in order. */
  ghost function Returned<R>(s: Pool<R>, ops: seq<Op<R>>): seq<R>
    requires Feasible(s, ops)
    decreases |ops|
  {
    if ops == [] then []
    else
      (if ops[0].OpReturn? && ops[0].resource in s.inUse then [ops[0].resource] else [])
      + Returned(Apply(s, ops[0]), ops[1..])
  }

  /** A request keeps the resource it was granted. */
  lemma {:induction false} GrantsAreFinal<R>(s: Pool<R>, ops: seq<Op<R>>, q: nat)
    requires RequestsApart(s) && Feasible(s, ops) && q in s.granted
    ensures q in Run(s, ops).granted && Run(s, ops).granted[q] == s.granted[q]
    decreases |ops|
  {
    if ops == [] {
    } else {
      ApplyRequests(s, ops[0]);
      GrantsStep(s, ops[0], q);
      GrantsAreFinal(Apply(s, ops[0]), ops[1..], q);
    }
  }

  lemma GrantsStep<R>(s: Pool<R>, op: Op<R>, q: nat)
    requires RequestsApart(s) && Enabled(s, op) && q in s.granted
    ensures q in Apply(s, op).granted && Apply(s, op).granted[q] == s.granted[q]
  {
  }

  lemma WaitingStep<R>(s: Pool<R>, op: Op<R>)
    requires Enabled(s, op) && s.waiting != []
    ensures var s1 := Apply(s, op);
            if op.OpReturn? && op.resource in s.inUse
            then s1.waiting == s.waiting[1..] && s.waiting[0] in s1.granted && s1.granted[s.waiting[0]] == op.resource
            else |s.waiting| <= |s1.waiting| && forall i | 0 <= i < |s.waiting| :: s1.waiting[i] == s.waiting[i]
  {
  }

  /**
   * First come, first served: the waiter at index i gets exactly the resource of the (i+1)-th successful return
   * from now, and waits, behind the same ones, until then.
   */
  lemma {:induction false} WaitersAreServedInOrder<R>(s: Pool<R>, ops: seq<Op<R>>, i: nat)
    requires RequestsApart(s) && Feasible(s, ops) && i < |s.waiting|
    ensures ServedInTurn(s, Run(s, ops), Returned(s, ops), i)
    decreases |ops|
  {
    if ops == [] {
    } else {
      var s1, rs := Apply(s, ops[0]), Returned(Apply(s, ops[0]), ops[1..]);
      ApplyRequests(s, ops[0]);
      WaitingStep(s, ops[0]);
      if ops[0].OpReturn? && ops[0].resource in s.inUse {
        if i == 0 {
          GrantsAreFinal(s1, ops[1..], s.waiting[0]);
        } else {
          WaitersAreServedInOrder(s1, ops[1..], i - 1);
        }
        ServedLater(s, s1, Run(s, ops), ops[0].resource, rs, i);
      } else {
        WaitersAreServedInOrder(s1, ops[1..], i);
        assert [] + rs == rs;
      }
    }
  }

  lemma ServedLater<R>(s: Pool<R>, s1: Pool<R>, s': Pool<R>, r: R, rs: seq<R>, i: nat)
    requires i < |s.waiting| && s1.waiting == s.waiting[1..]
    requires if i == 0
             then s.waiting[0] in s'.granted && s'.granted[s.waiting[0]] == r
             else ServedInTurn(s1, s', rs, i - 1)
    ensures ServedInTurn(s, s', [r] + rs, i)
  {
  }

  ghost predicate ServedInTurn<R>(s: Pool<R>, s': Pool<R>, rs: seq<R>, i: nat)
    requires i < |s.waiting|
  {
    if i < |rs| then s.waiting[i] in s'.granted && s'.granted[s.waiting[i]] == rs[i]
    else i - |rs| < |s'.waiting| && s'.waiting[i - |rs|] == s.waiting[i]
  }

  /** How often a run without destruction asks for a resource. */
  ghost function Gets<R>(ops: seq<Op<R>>): nat {
    if ops == [] then 0 else (if ops[0].OpGet? then 1 else 0) + Gets(ops[1..])
  }

  ghost predicate NothingDestroyed<R>(ops: seq<Op<R>>) {
    ops != [] ==> !ops[0].OpDestroyAll? && !ops[0].OpResumeDestroy? && NothingDestroyed(ops[1..])
  }

  ghost predicate ReusedInTurn<R>(s: Pool<R>, s': Pool<R>, n: nat, i: nat)
    requires i < |s.unused|
  {
    if i < n then s.requests + i in s'.granted && s'.granted[s.requests + i] == s.unused[i]
    else i - n < |s'.unused| && s'.unused[i - n] == s.unused[i]
  }

  lemma UnusedStep<R>(s: Pool<R>, op: Op<R>)
    requires Enabled(s, op) && s.unused != [] && !op.OpDestroyAll? && !op.OpResumeDestroy?
    ensures var s1 := Apply(s, op);
            if op.OpGet?
            then s1.unused == s.unused[1..] && s.requests in s1.granted && s1.granted[s.requests] == s.unused[0]
                 && s1.requests == s.requests + 1
            else s1.requests == s.requests
                 && |s.unused| <= |s1.unused| && forall i | 0 <= i < |s.unused| :: s1.unused[i] == s.unused[i]
  {
  }

  /** Unused resources are reused in the order they came back: the one at index i by the (i+1)-th `get` from now. */
  lemma {:induction false} UnusedAreReusedInOrder<R>(s: Pool<R>, ops: seq<Op<R>>, i: nat)
    requires RequestsApart(s) && Feasible(s, ops) && NothingDestroyed(ops) && i < |s.unused|
    ensures ReusedInTurn(s, Run(s, ops), Gets(ops), i)
    decreases |ops|
  {
    if ops == [] {
    } else {
      var s1 := Apply(s, ops[0]);
      ApplyRequests(s, ops[0]);
      UnusedStep(s, ops[0]);
      if ops[0].OpGet? && i == 0 {
        GrantsAreFinal(s1, ops[1..], s.requests);
      } else {
        UnusedAreReusedInOrder(s1, ops[1..], if ops[0].OpGet? then i - 1 else i);
      }
    }
  }

  /** Somebody who waits is never forgotten: some resource is still on its way or will be given back. */
  lemma WaitersHaveHope<R(!new)>(max: nat, ops: seq<Op<R>>)
    requires max >= 1 && Feasible(Fresh(max), ops)
    ensures var s := Run(Fresh(max), ops);
            s.waiting != [] ==>
              && s.unused == [] && s.count == max
              && (s.failed == {} && s.destroyed == [] ==> s.creating != {} || s.inFlight != map[] || s.inUse != {})
  {
    RunSound(Fresh<R>(max), ops);
    RunMax(Fresh<R>(max), ops);
  }

  // ---------- Destruction

  /** Destroyed resources stay destroyed, are destroyed once, and are in nobody's hands ever after. */
  lemma {:induction false} DestroyedForGood<R(!new)>(s: Pool<R>, ops: seq<Op<R>>, r: R)
    requires Sound(s) && Feasible(s, ops) && r in s.destroyed
    ensures var s' := Run(s, ops);
            && r in s'.destroyed && multiset(s'.destroyed)[r] == 1
            && r !in s'.inUse && r !in s'.unused && (forall q | q in s'.inFlight :: s'.inFlight[q] != r)
    decreases |ops|
  {
    if ops == [] {
      DistinctOnce(s.destroyed, r);
    } else {
      ApplySound(s, ops[0]);
      DestroyedForGood(Apply(s, ops[0]), ops[1..], r);
    }
  }
}
