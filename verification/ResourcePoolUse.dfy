/**
 * Clients that go through `use`. Each call asks for a resource, runs its body with it, and returns it when the
 * body has settled. A client that keeps a resource from `get` is a call whose body does not settle.
 */
module ResourcePoolUse {
  import opened ResourcePoolSpec
  import opened ResourcePoolRuns

  datatype Outcome<+U> = Value(value: U) | Error(reason: string)

  const NOT_OWNED := "resource does not belong to this pool"

  /** The two halves of `returnAfter`, with what the promise between them and the one after them settle with. */
  function Then<R, U>(s: Pool<R>, settled: Outcome<U>, r: R): (Pool<R>, Outcome<U>) {
    if settled.Error? then (s, settled) else ReturnOr(s, settled, r)
  }

  function Catch<R, U>(s: Pool<R>, chained: Outcome<U>, r: R): (Pool<R>, Outcome<U>) {
    if chained.Value? then (s, chained) else ReturnOr(s, chained, r)
  }

  /** The outcome is forwarded unless `return` throws. */
  function ReturnOr<R, U>(s: Pool<R>, o: Outcome<U>, r: R): (Pool<R>, Outcome<U>) {
    (Return(s, r), if r in s.inUse then o else Error(NOT_OWNED))
  }

  datatype Call<+R, +U> =
    | Asking
    | Running(resource: R)
    | Ending(resource: R, outcome: Outcome<U>)
    | Done(outcome: Outcome<U>)
    | Refused

  /** The calls by their request, and how often each called `return` successfully. */
  datatype Clients<R(==), U> = Clients(pool: Pool<R>, calls: map<nat, Call<R, U>>, handedBack: multiset<nat>)

  function Idle<R, U>(max: nat): Clients<R, U> {
    Clients(Fresh(max), map[], multiset{})
  }

  datatype Step<R, U> =
    | Use
    | Create(request: nat, resource: R)
    | FailCreate(request: nat)
    | Begin(request: nat)
    | Settle(request: nat, outcome: Outcome<U>)
    | Finish(request: nat)
    | Destroy
    | Resume

  predicate Possible<R, U>(s: Clients<R, U>, step: Step<R, U>) {
    match step
    case Create(q, r) => Enabled(s.pool, OpCreated(q, r))
    case FailCreate(q) => Enabled(s.pool, OpCreateFailed(q))
    case Begin(q) => Enabled(s.pool, OpDeliver(q))
    case Settle(q, _) => q in s.calls && s.calls[q].Running?
    case Finish(q) => q in s.calls && s.calls[q].Ending?
    case Resume => Enabled(s.pool, OpResumeDestroy)
    case _ => true
  }

  /** `returnAfter` forwards the body's outcome, unless `return` throws. */
  function Next<R, U>(s: Clients<R, U>, step: Step<R, U>): Clients<R, U>
    requires Possible(s, step)
  {
    match step
    case Use => s.(pool := Get(s.pool), calls := s.calls[s.pool.requests := Asking])
    case Create(q, r) => s.(pool := Created(s.pool, q, r))
    case FailCreate(q) => s.(pool := CreateFailed(s.pool, q), calls := s.calls[q := Refused])
    case Begin(q) => s.(pool := Deliver(s.pool, q), calls := s.calls[q := Running(s.pool.inFlight[q])])
    case Settle(q, o) => s.(calls := s.calls[q := Ending(s.calls[q].resource, o)])
    case Finish(q) =>
      var r := s.calls[q].resource;
      var owned := r in s.pool.inUse;
      s.(pool := Return(s.pool, r),
         calls := s.calls[q := Done(if owned then s.calls[q].outcome else Error(NOT_OWNED))],
         handedBack := if owned then s.handedBack + multiset{q} else s.handedBack)
    case Destroy => s.(pool := DestroyAll(s.pool))
    case Resume => s.(pool := ResumeDestroy(s.pool))
  }

  predicate Feasible<R, U>(s: Clients<R, U>, steps: seq<Step<R, U>>)
    decreases |steps|
  {
    steps == [] || (Possible(s, steps[0]) && Feasible(Next(s, steps[0]), steps[1..]))
  }

  function Run<R, U>(s: Clients<R, U>, steps: seq<Step<R, U>>): Clients<R, U>
    requires Feasible(s, steps)
    decreases |steps|
  {
    if steps == [] then s else Run(Next(s, steps[0]), steps[1..])
  }

  // ---------- Invariants

  ghost function Runners<R, U>(calls: map<nat, Call<R, U>>): set<nat> {
    set q | q in calls && calls[q].Running?
  }

  ghost function Enders<R, U>(calls: map<nat, Call<R, U>>): set<nat> {
    set q | q in calls && calls[q].Ending?
  }

  ghost predicate Holds<R, U>(calls: map<nat, Call<R, U>>, q: nat) {
    q in calls && (calls[q].Running? || calls[q].Ending?)
  }

  /** A call asks as long as its request is unserved, and is refused when its `create` failed. */
  ghost predicate CallsMatch<R, U>(pool: Pool<R>, calls: map<nat, Call<R, U>>) {
    && (forall q | q in calls :: q < pool.requests)
    && (forall q: nat | q < pool.requests :: q in calls)
    && (forall q | q in calls ::
          calls[q].Asking? <==> q in pool.waiting || q in pool.creating || q in pool.inFlight)
    && (forall q | q in calls :: calls[q].Refused? <==> q in pool.failed)
  }

  /** What is held is in use, by one holder each. */
  ghost predicate Exclusive<R, U>(inUse: set<R>, calls: map<nat, Call<R, U>>) {
    && (forall q | Holds(calls, q) :: calls[q].resource in inUse)
    && (forall q, p | Holds(calls, q) && Holds(calls, p) && q != p :: calls[q].resource != calls[p].resource)
  }

  /** What is in use is held. */
  ghost predicate Tallied<R, U>(inUse: set<R>, calls: map<nat, Call<R, U>>) {
    |inUse| == |Runners(calls)| + |Enders(calls)|
  }

  /** A call is done when it has handed its resource back, once. */
  ghost predicate HandedBackOnce<R, U>(handedBack: multiset<nat>, calls: map<nat, Call<R, U>>) {
    forall q: nat :: handedBack[q] == if q in calls && calls[q].Done? then 1 else 0
  }

  ghost predicate Sound<R(!new), U>(s: Clients<R, U>) {
    && ResourcePoolRuns.Sound(s.pool) && CallsMatch(s.pool, s.calls) && Exclusive(s.pool.inUse, s.calls)
    && Tallied(s.pool.inUse, s.calls) && HandedBackOnce(s.handedBack, s.calls) && s.pool.count <= s.pool.requests
  }

  // ---------- Every step keeps them

  lemma NextPool<R(!new), U>(s: Clients<R, U>, step: Step<R, U>)
    requires ResourcePoolRuns.Sound(s.pool) && Possible(s, step)
    ensures ResourcePoolRuns.Sound(Next(s, step).pool)
  {
    match step
    case Use => GetSound(s.pool);
    case Create(q, r) => CreatedSound(s.pool, q, r);
    case FailCreate(q) => CreateFailedSound(s.pool, q);
    case Begin(q) => DeliverSound(s.pool, q);
    case Settle(q, o) =>
    case Finish(q) => ReturnSound(s.pool, s.calls[q].resource);
    case Destroy => ApplySound(s.pool, OpDestroyAll);
    case Resume => ApplySound(s.pool, OpResumeDestroy);
  }

  lemma ReturnCalls<R, U>(pool: Pool<R>, calls: map<nat, Call<R, U>>, r: R)
    requires RequestsApart(pool) && CallsMatch(pool, calls)
    ensures CallsMatch(Return(pool, r), calls)
  {
  }

  lemma NextCalls<R, U>(s: Clients<R, U>, step: Step<R, U>)
    requires RequestsApart(s.pool) && CallsMatch(s.pool, s.calls) && Possible(s, step)
    ensures CallsMatch(Next(s, step).pool, Next(s, step).calls)
  {
    match step
    case Finish(q) => ReturnCalls(s.pool, s.calls, s.calls[q].resource);
    case _ =>
  }

  lemma NextExclusive<R(!new), U>(s: Clients<R, U>, step: Step<R, U>)
    requires ResourcesApart(s.pool) && Exclusive(s.pool.inUse, s.calls)
    requires CallsMatch(s.pool, s.calls) && RequestsApart(s.pool) && Possible(s, step)
    ensures Exclusive(Next(s, step).pool.inUse, Next(s, step).calls)
  {
    var s' := Next(s, step);
    forall q | Holds(s'.calls, q)
      ensures s'.calls[q].resource in s'.pool.inUse
    {
      assert Holds(s.calls, q) || step == Begin(q);
    }
    forall q, p | Holds(s'.calls, q) && Holds(s'.calls, p) && q != p
      ensures s'.calls[q].resource != s'.calls[p].resource
    {
      assert Holds(s.calls, q) || step == Begin(q);
      assert Holds(s.calls, p) || step == Begin(p);
    }
  }

  function Bit(b: bool): int {
    if b then 1 else 0
  }

  lemma SplitOff<T>(a: set<T>, x: T)
    ensures |a| == |a - {x}| + Bit(x in a)
  {
  }

  lemma HoldersUpdate<R, U>(calls: map<nat, Call<R, U>>, q: nat, c: Call<R, U>)
    ensures |Runners(calls[q := c])| == |Runners(calls)| - Bit(q in calls && calls[q].Running?) + Bit(c.Running?)
    ensures |Enders(calls[q := c])| == |Enders(calls)| - Bit(q in calls && calls[q].Ending?) + Bit(c.Ending?)
  {
    assert Runners(calls[q := c]) - {q} == Runners(calls) - {q};
    assert Enders(calls[q := c]) - {q} == Enders(calls) - {q};
    SplitOff(Runners(calls), q);
    SplitOff(Runners(calls[q := c]), q);
    SplitOff(Enders(calls), q);
    SplitOff(Enders(calls[q := c]), q);
  }

  /** How the sizes that a step changes change. */
  lemma NextHolders<R, U>(s: Clients<R, U>, step: Step<R, U>)
    requires CallsMatch(s.pool, s.calls) && RequestsApart(s.pool) && Possible(s, step)
    ensures |Runners(Next(s, step).calls)| == |Runners(s.calls)| + Bit(step.Begin?) - Bit(step.Settle?)
    ensures |Enders(Next(s, step).calls)| == |Enders(s.calls)| + Bit(step.Settle?) - Bit(step.Finish?)
  {
    match step
    case Use => HoldersUpdate(s.calls, s.pool.requests, Asking);
    case FailCreate(q) => HoldersUpdate(s.calls, q, Refused);
    case Begin(q) => HoldersUpdate(s.calls, q, Running(s.pool.inFlight[q]));
    case Settle(q, o) => HoldersUpdate(s.calls, q, Ending(s.calls[q].resource, o));
    case Finish(q) => HoldersUpdate(s.calls, q, Next(s, step).calls[q]);
    case _ =>
  }

  lemma NextInUse<R(!new), U>(s: Clients<R, U>, step: Step<R, U>)
    requires Exclusive(s.pool.inUse, s.calls) && ResourcesApart(s.pool) && Possible(s, step)
    ensures |Next(s, step).pool.inUse| == |s.pool.inUse| + Bit(step.Begin?) - Bit(step.Finish?)
  {
  }

  lemma NextTallied<R(!new), U>(s: Clients<R, U>, step: Step<R, U>)
    requires Tallied(s.pool.inUse, s.calls) && CallsMatch(s.pool, s.calls) && Exclusive(s.pool.inUse, s.calls)
    requires ResourcesApart(s.pool) && RequestsApart(s.pool) && Possible(s, step)
    ensures Tallied(Next(s, step).pool.inUse, Next(s, step).calls)
  {
    NextInUse(s, step);
    NextHolders(s, step);
  }

  lemma NextHandedBack<R, U>(s: Clients<R, U>, step: Step<R, U>)
    requires HandedBackOnce(s.handedBack, s.calls) && CallsMatch(s.pool, s.calls) && RequestsApart(s.pool)
    requires Exclusive(s.pool.inUse, s.calls) && Possible(s, step)
    ensures HandedBackOnce(Next(s, step).handedBack, Next(s, step).calls)
  {
  }

  lemma NextCount<R, U>(s: Clients<R, U>, step: Step<R, U>)
    requires s.pool.count <= s.pool.requests && Possible(s, step)
    ensures Next(s, step).pool.count <= Next(s, step).pool.requests
  {
  }

  lemma NextSound<R(!new), U>(s: Clients<R, U>, step: Step<R, U>)
    requires Sound(s) && Possible(s, step)
    ensures Sound(Next(s, step))
  {
    NextPool(s, step);
    NextCalls(s, step);
    NextExclusive(s, step);
    NextTallied(s, step);
    NextHandedBack(s, step);
    NextCount(s, step);
  }

  lemma {:induction false} RunSound<R(!new), U>(s: Clients<R, U>, steps: seq<Step<R, U>>)
    requires Sound(s) && Feasible(s, steps)
    ensures Sound(Run(s, steps))
    decreases |steps|
  {
    if steps == [] {
    } else {
      NextSound(s, steps[0]);
      RunSound(Next(s, steps[0]), steps[1..]);
    }
  }
}
