/** What every run of a `ResourcePool` keeps. */
module ResourcePoolRuns {
  import opened Sequences
  import opened ResourcePoolSpec

  // ---------- Invariants

  /** A request is waiting, creating, failed, in flight or served, and only one of these. */
  ghost predicate RequestsApart<R>(s: Pool<R>) {
    && Distinct(s.waiting)
    && (forall q | q in s.waiting :: q < s.requests && q !in s.creating && q !in s.failed && q !in s.granted)
    && (forall q | q in s.creating :: q < s.requests && q !in s.failed && q !in s.granted)
    && (forall q | q in s.failed :: q < s.requests && q !in s.granted)
    && (forall q | q in s.granted :: q < s.requests)
    && (forall q | q in s.inFlight :: q in s.granted && s.granted[q] == s.inFlight[q])
  }

  /** A resource was issued once, and is in flight for one request, in use, unused or destroyed, only one of these. */
  ghost predicate ResourcesApart<R(!new)>(s: Pool<R>) {
    && Distinct(s.unused) && Distinct(s.destroyed)
    && (forall r | r in s.inUse :: r in s.issued)
    && (forall r | r in s.unused :: r in s.issued && r !in s.inUse)
    && (forall r | r in s.destroyed :: r in s.issued && r !in s.inUse && r !in s.unused)
    && (forall q | q in s.inFlight :: s.inFlight[q] in s.issued)
    && (forall q | q in s.inFlight ::
          s.inFlight[q] !in s.inUse && s.inFlight[q] !in s.unused && s.inFlight[q] !in s.destroyed)
    && (forall q, p | q in s.inFlight && p in s.inFlight && q != p :: s.inFlight[q] != s.inFlight[p])
  }

  /** `numOwned` counts the calls of `create`, and every one of them is accounted for. */
  ghost predicate Counted<R>(s: Pool<R>) {
    && s.count == |s.creating| + |s.failed| + |s.issued| <= s.max
    && |s.issued| == |s.inFlight| + |s.inUse| + |s.unused| + |s.destroyed|
  }

  /** Nobody waits while a resource is unused or could be created. */
  ghost predicate Saturated<R>(s: Pool<R>) {
    s.waiting != [] ==> s.unused == [] && s.count == s.max
  }

  ghost predicate Sound<R(!new)>(s: Pool<R>) {
    RequestsApart(s) && ResourcesApart(s) && Counted(s) && Saturated(s)
  }

  // ---------- Every operation keeps them

  lemma GetRequests<R>(s: Pool<R>)
    requires RequestsApart(s)
    ensures RequestsApart(Get(s))
  {
    assert s.requests !in s.waiting;
    DistinctAppend(s.waiting, s.requests);
  }

  lemma GetResources<R(!new)>(s: Pool<R>)
    requires ResourcesApart(s)
    ensures ResourcesApart(Get(s))
  {
    if s.unused != [] {
      DistinctTail(s.unused);
      assert s.unused[0] in s.unused && forall r | r in s.unused[1..] :: r in s.unused;
    }
  }

  lemma GetCounted<R(!new)>(s: Pool<R>)
    requires Counted(s) && Saturated(s) && RequestsApart(s)
    ensures Counted(Get(s)) && Saturated(Get(s))
  {
    assert s.requests !in s.inFlight && s.requests !in s.creating;
  }

  lemma GetSound<R(!new)>(s: Pool<R>)
    requires Sound(s)
    ensures Sound(Get(s))
  {
    GetRequests(s);
    GetResources(s);
    GetCounted(s);
  }

  lemma CreatedSound<R(!new)>(s: Pool<R>, q: nat, r: R)
    requires Sound(s) && q in s.creating && r !in s.issued
    ensures Sound(Created(s, q, r))
  {
    assert q !in s.inFlight;
  }

  lemma CreateFailedSound<R(!new)>(s: Pool<R>, q: nat)
    requires Sound(s) && q in s.creating
    ensures Sound(CreateFailed(s, q))
  {
  }

  lemma DeliverSound<R(!new)>(s: Pool<R>, q: nat)
    requires Sound(s) && q in s.inFlight
    ensures Sound(Deliver(s, q))
  {
  }

  lemma ReturnRequests<R>(s: Pool<R>, r: R)
    requires RequestsApart(s)
    ensures RequestsApart(Return(s, r))
  {
    if s.waiting != [] {
      DistinctTail(s.waiting);
      assert forall q | q in s.waiting[1..] :: q in s.waiting;
      assert s.waiting[0] in s.waiting;
    }
  }

  lemma ReturnResources<R(!new)>(s: Pool<R>, r: R)
    requires ResourcesApart(s)
    ensures ResourcesApart(Return(s, r))
  {
    if r in s.inUse && s.waiting == [] {
      DistinctAppend(s.unused, r);
    }
  }

  lemma ReturnCounted<R(!new)>(s: Pool<R>, r: R)
    requires Counted(s) && Saturated(s) && RequestsApart(s)
    ensures Counted(Return(s, r)) && Saturated(Return(s, r))
  {
    assert s.waiting != [] ==> s.waiting[0] in s.waiting && s.waiting[0] !in s.inFlight;
  }

  lemma ReturnSound<R(!new)>(s: Pool<R>, r: R)
    requires Sound(s)
    ensures Sound(Return(s, r))
  {
    ReturnRequests(s, r);
    ReturnResources(s, r);
    ReturnCounted(s, r);
  }

  lemma DestroyUnusedSound<R(!new)>(s: Pool<R>)
    requires Sound(s)
    ensures Sound(DestroyUnused(s))
  {
    DistinctConcat(s.destroyed, s.unused);
  }

  lemma ApplyRequests<R>(s: Pool<R>, op: Op<R>)
    requires RequestsApart(s) && Enabled(s, op)
    ensures RequestsApart(Apply(s, op))
  {
    match op
    case OpGet => GetRequests(s);
    case OpReturn(r) => ReturnRequests(s, r);
    case _ =>
  }

  lemma ApplySound<R(!new)>(s: Pool<R>, op: Op<R>)
    requires Sound(s) && Enabled(s, op)
    ensures Sound(Apply(s, op))
  {
    match op
    case OpGet => GetSound(s);
    case OpCreated(q, r) => CreatedSound(s, q, r);
    case OpCreateFailed(q) => CreateFailedSound(s, q);
    case OpDeliver(q) => DeliverSound(s, q);
    case OpReturn(r) => ReturnSound(s, r);
    case OpDestroyAll => DestroyUnusedSound(s);
    case OpResumeDestroy => DestroyUnusedSound(s.(ready := s.ready - 1));
  }

  lemma {:induction false} RunSound<R(!new)>(s: Pool<R>, ops: seq<Op<R>>)
    requires Sound(s) && Feasible(s, ops)
    ensures Sound(Run(s, ops))
    decreases |ops|
  {
    if ops == [] {
    } else {
      ApplySound(s, ops[0]);
      RunSound(Apply(s, ops[0]), ops[1..]);
    }
  }
}
