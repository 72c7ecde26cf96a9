/** When `destroyAll` keeps its word and destroys every resource. */
module ResourcePoolDestroy {
  import opened Sequences
  import opened ResourcePoolSpec
  import opened ResourcePoolRuns

  ghost predicate NoGets<R>(ops: seq<Op<R>>) {
    ops != [] ==> !ops[0].OpGet? && NoGets(ops[1..])
  }

  /** All resources are back, and no `destroyAll` call that heard "empty" has still to run. */
  ghost predicate Ended<R>(s: Pool<R>) {
    s.inUse == {} && s.inFlight == map[] && s.creating == {} && s.ready == 0
  }

  ghost predicate AllDestroyed<R>(s: Pool<R>) {
    (set r | r in s.destroyed) == s.issued
  }

  /** Nothing is on its way, and nobody waits unless at most one resource is in use. */
  ghost predicate Calm<R>(s: Pool<R>) {
    s.creating == {} && s.inFlight == map[] && (s.waiting == [] || |s.inUse| <= 1)
  }

  /** All that listen hear it when the last resource in use is returned and nobody waits for it, and only then. */
  lemma ListenersHearIff<R>(s: Pool<R>, op: Op<R>)
    requires Enabled(s, op)
    ensures var s' := Apply(s, op);
            if op.OpReturn? && s.inUse == {op.resource} && s.waiting == []
            then s'.listening == 0 && s'.ready == s.ready + s.listening
            else
              && s'.listening == s.listening + (if op.OpDestroyAll? && s.inUse != {} then 1 else 0)
              && s'.ready == s.ready - (if op.OpResumeDestroy? then 1 else 0)
  {
  }

  // ---------- If it is called in a calm state, it destroys all

  /** Nothing can come back without being heard of: nobody else holds a resource, or nobody is handed one. */
  ghost predicate Draining<R>(s: Pool<R>) {
    && s.creating == {}
    && ((s.waiting == [] && s.inFlight == map[]) || |s.inFlight| + |s.inUse| <= 1)
    && (s.inUse != {} || s.inFlight != map[] ==> s.listening > 0)
    && (s.inUse == {} && s.inFlight == map[] && s.unused != [] ==> s.ready > 0)
  }

  lemma DeliverDraining<R(!new)>(s: Pool<R>, q: nat)
    requires Draining(s) && q in s.inFlight
    ensures Draining(Deliver(s, q))
  {
    assert (s.inFlight - {q}).Keys == s.inFlight.Keys - {q};
  }

  lemma ReturnDraining<R(!new)>(s: Pool<R>, r: R)
    requires Draining(s)
    ensures Draining(Return(s, r))
  {
    if r in s.inUse && s.waiting != [] {
      assert s.inUse == {r} && s.inFlight == map[] by {
        assert |s.inUse - {r}| == |s.inUse| - 1;
      }
    }
  }

  lemma {:induction false} RunDraining<R(!new)>(s: Pool<R>, ops: seq<Op<R>>)
    requires Draining(s) && Feasible(s, ops) && NoGets(ops)
    ensures Draining(Run(s, ops))
    decreases |ops|
  {
    if ops == [] {
    } else {
      match ops[0] {
        case OpDeliver(q) => DeliverDraining(s, q);
        case OpReturn(r) => ReturnDraining(s, r);
        case _ =>
      }
      RunDraining(Apply(s, ops[0]), ops[1..]);
    }
  }

  lemma DestroyAllDrains<R(!new)>(s: Pool<R>)
    requires Calm(s) && Saturated(s)
    ensures Draining(DestroyAll(s))
  {
  }

  lemma FullSubset<R>(a: set<R>, b: set<R>)
    requires a <= b && |a| == |b|
    ensures a == b
  {
    assert b == a + (b - a);
  }

  lemma NothingLeft<R(!new)>(s: Pool<R>)
    requires Sound(s) && Ended(s)
    ensures AllDestroyed(s) <==> s.unused == []
    ensures s.count == |s.failed| + |s.unused| + |s.destroyed|
  {
    DistinctCount(s.destroyed);
    if s.unused == [] {
      FullSubset((set r | r in s.destroyed), s.issued);
    } else {
      assert s.unused[0] in s.unused;
    }
  }

  /**
   * Called in a calm state, with nobody asking again, `destroyAll` destroys every resource ever issued exactly once,
   * as soon as all are returned and it has run to its end.
   */
  lemma DestroyAllDestroysAll<R(!new)>(s: Pool<R>, ops: seq<Op<R>>)
    requires Sound(s) && Calm(s) && Feasible(DestroyAll(s), ops) && NoGets(ops)
    ensures var s' := Run(DestroyAll(s), ops);
            Ended(s') ==>
              && AllDestroyed(s') && Distinct(s'.destroyed)
              && s'.unused == [] && s'.count == |s'.failed| + |s'.destroyed|
  {
    ApplySound(s, OpDestroyAll);
    RunSound(DestroyAll(s), ops);
    DestroyAllDrains(s);
    RunDraining(DestroyAll(s), ops);
    if Ended(Run(DestroyAll(s), ops)) {
      NothingLeft(Run(DestroyAll(s), ops));
    }
  }

  // ---------- In any other state, some resource may escape

  /** A run without further requests that ends with a resource left over. */
  ghost predicate Escapes<R>(s: Pool<R>, ops: seq<Op<R>>) {
    Feasible(s, ops) && NoGets(ops) && Ended(Run(s, ops)) && !AllDestroyed(Run(s, ops))
  }

  lemma EscapeStep<R>(s: Pool<R>, op: Op<R>, rest: seq<Op<R>>)
    requires Enabled(s, op) && !op.OpGet? && Escapes(Apply(s, op), rest)
    ensures Escapes(s, [op] + rest)
  {
    assert ([op] + rest)[1..] == rest;
  }

  /** One resource is left, and no `destroyAll` call listens: it serves the waiters and ends up unused. */
  lemma {:induction false} LastEscapes<R(!new)>(s: Pool<R>, r: R) returns (ops: seq<Op<R>>)
    requires Sound(s) && s.inUse == {r} && s.inFlight == map[] && s.creating == {} && s.listening == 0 && s.ready == 0
    ensures Escapes(s, ops)
    decreases |s.waiting|
  {
    var s1 := Return(s, r);
    ReturnSound(s, r);
    if s.waiting == [] {
      NothingLeft(s1);
      ops := [];
    } else {
      var q := s.waiting[0];
      DeliverSound(s1, q);
      assert s1.inFlight - {q} == map[];
      var rest := LastEscapes(Deliver(s1, q), r);
      EscapeStep(s1, OpDeliver(q), rest);
      ops := [OpDeliver(q)] + rest;
    }
    EscapeStep(s, OpReturn(r), ops);
    ops := [OpReturn(r)] + ops;
  }

  /** Request `q` is kept back, and every `destroyAll` call that listens will hear that all others are done. */
  ghost predicate KeptBack<R>(s: Pool<R>, q: nat) {
    && (q in s.creating || q in s.inFlight)
    && (s.listening > 0 ==> s.inUse != {} || exists p | p in s.inFlight :: p != q)
  }

  ghost function Load<R>(s: Pool<R>): nat {
    4 * (|s.waiting| + |s.creating|) + 3 * |s.inFlight| + 2 * |s.inUse| + 2 * s.listening + s.ready
  }

  lemma FailKeepsBack<R(!new)>(s: Pool<R>, q: nat, p: nat)
    requires KeptBack(s, q) && p in s.creating && p != q
    ensures KeptBack(CreateFailed(s, p), q) && Load(CreateFailed(s, p)) < Load(s)
  {
  }

  lemma DeliverKeepsBack<R(!new)>(s: Pool<R>, q: nat, p: nat)
    requires KeptBack(s, q) && p in s.inFlight && p != q
    ensures KeptBack(Deliver(s, p), q) && Load(Deliver(s, p)) < Load(s)
  {
    assert (s.inFlight - {p}).Keys == s.inFlight.Keys - {p};
    assert |s.inUse + {s.inFlight[p]}| <= |s.inUse| + 1;
    assert s.inFlight[p] in Deliver(s, p).inUse;
  }

  lemma ReturnKeepsBack<R(!new)>(s: Pool<R>, q: nat, r: R)
    requires RequestsApart(s) && KeptBack(s, q) && r in s.inUse
    ensures KeptBack(Return(s, r), q) && Load(Return(s, r)) < Load(s)
  {
    assert |s.inUse - {r}| == |s.inUse| - 1;
    if s.waiting != [] {
      assert s.waiting[0] in s.waiting && s.waiting[0] in Return(s, r).inFlight;
    }
  }

  lemma ResumeKeepsBack<R(!new)>(s: Pool<R>, q: nat)
    requires KeptBack(s, q) && s.ready > 0
    ensures KeptBack(ResumeDestroy(s), q) && Load(ResumeDestroy(s)) < Load(s)
  {
  }

  /** Something other than `q` that can be brought to its end. */
  lemma NextOther<R(!new)>(s: Pool<R>, q: nat) returns (op: Op<R>)
    requires Sound(s) && KeptBack(s, q)
    requires !(s.creating <= {q} && s.inFlight.Keys <= {q} && s.inUse == {} && s.ready == 0)
    ensures Enabled(s, op) && !op.OpGet? && KeptBack(Apply(s, op), q) && Load(Apply(s, op)) < Load(s)
    ensures Apply(s, op).issued == s.issued
  {
    if p :| p in s.creating && p != q {
      op := OpCreateFailed(p);
      FailKeepsBack(s, q, p);
    } else if p :| p in s.inFlight && p != q {
      op := OpDeliver(p);
      DeliverKeepsBack(s, q, p);
    } else if r :| r in s.inUse {
      op := OpReturn(r);
      ReturnKeepsBack(s, q, r);
    } else {
      op := OpResumeDestroy;
      ResumeKeepsBack(s, q);
    }
  }

  /** When all others are done, the resource of `q` comes back, and nobody listens any more. */
  lemma {:induction false} KeptBackEscapes<R(!new)>(s: Pool<R>, q: nat, unissued: R) returns (ops: seq<Op<R>>)
    requires Sound(s) && KeptBack(s, q) && unissued !in s.issued
    ensures Escapes(s, ops)
    decreases Load(s)
  {
    if !(s.creating <= {q} && s.inFlight.Keys <= {q} && s.inUse == {} && s.ready == 0) {
      var op := NextOther(s, q);
      ApplySound(s, op);
      var rest := KeptBackEscapes(Apply(s, op), q, unissued);
      EscapeStep(s, op, rest);
      ops := [op] + rest;
    } else if q in s.inFlight {
      ops := DeliverEscapes(s, q);
    } else {
      CreatedSound(s, q, unissued);
      var rest := DeliverEscapes(Created(s, q, unissued), q);
      EscapeStep(s, OpCreated(q, unissued), rest);
      ops := [OpCreated(q, unissued)] + rest;
    }
  }

  lemma DeliverEscapes<R(!new)>(s: Pool<R>, q: nat) returns (ops: seq<Op<R>>)
    requires Sound(s) && s.inFlight.Keys == {q} && s.inUse == {} && s.creating <= {q}
    requires s.listening == 0 && s.ready == 0
    ensures Escapes(s, ops)
  {
    var r := s.inFlight[q];
    DeliverSound(s, q);
    assert s.inFlight - {q} == map[];
    assert s.creating == {};
    var rest := LastEscapes(Deliver(s, q), r);
    EscapeStep(s, OpDeliver(q), rest);
    ops := [OpDeliver(q)] + rest;
  }

  /**
   * In any other state there is a run after which a resource is left over: one that is created, or in flight, when
   * the others are done, or that is handed to a waiter while another one is returned last.
   */
  lemma DestroyAllMisses<R(!new)>(s: Pool<R>, unissued: R) returns (ops: seq<Op<R>>)
    requires Sound(s) && s.listening == 0 && s.ready == 0 && !Calm(s) && unissued !in s.issued
    ensures Escapes(DestroyAll(s), ops)
  {
    var s1 := DestroyAll(s);
    ApplySound(s, OpDestroyAll);
    if q :| q in s.creating || q in s.inFlight {
      ops := KeptBackEscapes(s1, q, unissued);
    } else {
      var r :| r in s.inUse;
      var q := s.waiting[0];
      ReturnSound(s1, r);
      assert |s.inUse - {r}| == |s.inUse| - 1;
      var rest := KeptBackEscapes(Return(s1, r), q, unissued);
      EscapeStep(s1, OpReturn(r), rest);
      ops := [OpReturn(r)] + rest;
    }
  }

  /** So `destroyAll` can be relied upon exactly when it is called in a calm state. */
  lemma DestroyAllIsCompleteIff<R(!new)>(s: Pool<R>, unissued: R)
    requires Sound(s) && s.listening == 0 && s.ready == 0 && unissued !in s.issued
    ensures Calm(s) <==> (forall ops :: !Escapes(DestroyAll(s), ops))
  {
    if Calm(s) {
      forall ops
        ensures !Escapes(DestroyAll(s), ops)
      {
        if Feasible(DestroyAll(s), ops) && NoGets(ops) {
          DestroyAllDestroysAll(s, ops);
        }
      }
    } else {
      var ops := DestroyAllMisses(s, unissued);
    }
  }
}
