/**
 * Why one connection and one line stand for the backend's pool: whatever a pool of two does whose first client never
 * returns its resource, its other clients have their turns one at a time and in order.
 */
module RedisBackendPool {
  import opened ResourcePoolSpec
  import ResourcePoolRuns
  import opened ResourcePoolUse
  import RedisBackendSpec

  /** How many jobs have asked, how many of them had their turn, and whether the last of these is at it. */
  datatype Line = Line(asked: nat, turn: nat, busy: bool)

  /** Nothing, or one more asks, or the next has its turn when nobody is at it, or whoever is at it is done. */
  predicate Moves(l: Line, l': Line) {
    || l' == l
    || l' == l.(asked := l.asked + 1)
    || (!l.busy && l.turn < l.asked && l' == l.(turn := l.turn + 1, busy := true))
    || (l.busy && l' == l.(busy := false))
  }

  // ---------- The protocol

  function LineOf(w: RedisBackendSpec.World): Line {
    Line(|w.jobs|, w.turn, w.busy)
  }

  /** The protocol's line moves like this, with every grant, and with every job that is done. */
  lemma ProtocolMoves(w: RedisBackendSpec.World, e: RedisBackendSpec.Event)
    requires RedisBackendSpec.Possible(w, e)
    ensures Moves(LineOf(w), LineOf(RedisBackendSpec.Next(w, e)))
    ensures e.Grant? <==> LineOf(RedisBackendSpec.Next(w, e)).turn == w.turn + 1
    ensures e.Transact? || e.Release? <==> w.busy && !RedisBackendSpec.Next(w, e).busy
  {
  }

  // ---------- The pool

  /** Request 0 is the subscriber's, whose body never settles; `create` works and nobody destroys the pool. */
  predicate Shared<R, U>(step: Step<R, U>) {
    !step.FailCreate? && !step.Destroy? && !step.Resume? && !(step.Settle? && step.request == 0)
  }

  function Moved<R, U>(l: Line, step: Step<R, U>): Line {
    match step
    case Use => l.(asked := l.asked + 1)
    case Begin(q) => if q == 0 then l else l.(turn := l.turn + 1, busy := true)
    case Finish(_) => l.(busy := false)
    case _ => l
  }

  /** The requests from `first` to `last`. */
  function Requests(first: nat, last: nat): seq<nat> {
    if first > last then [] else seq(last + 1 - first, i => first + i)
  }

  /** The next one whose turn it is, when nobody is at it. */
  ghost predicate IsNext(l: Line, q: nat) {
    !l.busy && l.turn < l.asked && q == l.turn + 1
  }

  ghost predicate Queued<R>(p: Pool<R>, l: Line) {
    && p.max == 2 && p.requests == l.asked + 1 && l.turn <= l.asked && (l.busy ==> l.turn > 0)
    && p.waiting == Requests(if l.busy then l.turn + 1 else l.turn + 2, l.asked)
    && (forall q | q in p.creating || q in p.inFlight :: q == 0 || IsNext(l, q))
    && (IsNext(l, l.turn + 1) ==> l.turn + 1 in p.creating || l.turn + 1 in p.inFlight)
    && p.count == 1 + |p.unused| + (if l.busy || l.turn < l.asked then 1 else 0) <= 2
  }

  /** Those who had their turn are done, except the one at it, and the subscriber is never done. */
  ghost predicate Served<R, U>(calls: map<nat, Call<R, U>>, l: Line) {
    && (forall q | q in calls && q > 0 && (calls[q].Running? || calls[q].Ending?) :: l.busy && q == l.turn)
    && (forall q: nat | 0 < q < l.turn || (q == l.turn && q > 0 && !l.busy) :: q in calls && calls[q].Done?)
    && (l.busy ==> Holds(calls, l.turn))
    && (0 in calls ==> calls[0].Asking? || calls[0].Running?)
  }

  ghost predicate Follows<R(!new), U>(s: Clients<R, U>, l: Line) {
    ResourcePoolUse.Sound(s) && Queued(s.pool, l) && Served(s.calls, l)
  }

  lemma UseQueued<R>(p: Pool<R>, l: Line)
    requires Queued(p, l)
    ensures Queued(Get(p), l.(asked := l.asked + 1))
  {
    var l' := l.(asked := l.asked + 1);
    var first := if l.busy then l.turn + 1 else l.turn + 2;
    if l.busy || l.turn < l.asked {
      assert p.unused == [] && p.count == 2;
      assert Requests(first, l.asked + 1) == Requests(first, l.asked) + [l.asked + 1];
    }
  }

  lemma CreatedQueued<R>(p: Pool<R>, l: Line, q: nat, r: R)
    requires Queued(p, l) && q in p.creating
    ensures Queued(Created(p, q, r), l)
  {
  }

  lemma DeliverQueued<R>(p: Pool<R>, l: Line, q: nat)
    requires Queued(p, l) && q in p.inFlight && ResourcePoolRuns.RequestsApart(p)
    ensures Queued(Deliver(p, q), if q == 0 then l else l.(turn := l.turn + 1, busy := true))
  {
  }

  lemma ReturnQueued<R>(p: Pool<R>, l: Line, r: R)
    requires Queued(p, l) && l.busy && r in p.inUse
    ensures Queued(Return(p, r), l.(busy := false))
  {
    if l.turn < l.asked {
      assert p.waiting[0] == l.turn + 1;
      assert p.waiting[1..] == Requests(l.turn + 2, l.asked);
    }
  }

  /** Only the one at it finishes. */
  lemma FinisherHasTurn<R(!new), U>(s: Clients<R, U>, l: Line, q: nat)
    requires Follows(s, l) && Possible(s, Step<R, U>.Finish(q))
    ensures l.busy && q == l.turn && s.calls[q].resource in s.pool.inUse
  {
    assert Holds(s.calls, q);
  }

  lemma PoolMoves<R(!new), U>(s: Clients<R, U>, l: Line, step: Step<R, U>)
    requires Follows(s, l) && Possible(s, step) && Shared(step)
    ensures Moves(l, Moved(l, step)) && Follows(Next(s, step), Moved(l, step))
  {
    NextSound(s, step);
    NextQueued(s, l, step);
    NextServed(s, l, step);
  }

  lemma NextQueued<R(!new), U>(s: Clients<R, U>, l: Line, step: Step<R, U>)
    requires Follows(s, l) && Possible(s, step) && Shared(step)
    ensures Moves(l, Moved(l, step)) && Queued(Next(s, step).pool, Moved(l, step))
  {
    match step
    case Use => UseQueued(s.pool, l);
    case Create(q, r) => CreatedQueued(s.pool, l, q, r);
    case Begin(q) => DeliverQueued(s.pool, l, q);
    case Finish(q) =>
      FinisherHasTurn(s, l, q);
      ReturnQueued(s.pool, l, s.calls[q].resource);
    case _ =>
  }

  lemma UseServed<R, U>(calls: map<nat, Call<R, U>>, l: Line, q: nat)
    requires Served(calls, l) && q == l.asked + 1 && l.turn <= l.asked
    ensures Served(calls[q := Asking], l.(asked := q))
  {
  }

  lemma BeginServed<R, U>(calls: map<nat, Call<R, U>>, l: Line, q: nat, r: R)
    requires Served(calls, l) && (q == 0 || IsNext(l, q))
    ensures Served(calls[q := Running(r)], if q == 0 then l else l.(turn := l.turn + 1, busy := true))
  {
  }

  lemma SettleServed<R, U>(calls: map<nat, Call<R, U>>, l: Line, q: nat, r: R, o: Outcome<U>)
    requires Served(calls, l) && q in calls && calls[q].Running? && q > 0
    ensures Served(calls[q := Ending(r, o)], l)
  {
  }

  lemma FinishServed<R, U>(calls: map<nat, Call<R, U>>, l: Line, q: nat, o: Outcome<U>)
    requires Served(calls, l) && l.busy && q == l.turn > 0
    ensures Served(calls[q := Done(o)], l.(busy := false))
  {
  }

  lemma NextServed<R(!new), U>(s: Clients<R, U>, l: Line, step: Step<R, U>)
    requires Follows(s, l) && Possible(s, step) && Shared(step)
    ensures Served(Next(s, step).calls, Moved(l, step))
  {
    match step
    case Use => UseServed(s.calls, l, s.pool.requests);
    case Begin(q) => BeginServed(s.calls, l, q, s.pool.inFlight[q]);
    case Settle(q, o) => SettleServed(s.calls, l, q, s.calls[q].resource, o);
    case Finish(q) =>
      FinisherHasTurn(s, l, q);
      FinishServed(s.calls, l, q, Next(s, step).calls[q].outcome);
    case _ =>
  }

  predicate AllShared<R, U>(steps: seq<Step<R, U>>) {
    steps != [] ==> Shared(steps[0]) && AllShared(steps[1..])
  }

  function LineAfter<R, U>(l: Line, steps: seq<Step<R, U>>): Line
    decreases |steps|
  {
    if steps == [] then l else LineAfter(Moved(l, steps[0]), steps[1..])
  }

  lemma {:induction false} RunFollows<R(!new), U>(s: Clients<R, U>, l: Line, steps: seq<Step<R, U>>)
    requires Follows(s, l) && ResourcePoolUse.Feasible(s, steps) && AllShared(steps)
    ensures Follows(ResourcePoolUse.Run(s, steps), LineAfter(l, steps))
    decreases |steps|
  {
    if steps == [] {
    } else {
      PoolMoves(s, l, steps[0]);
      RunFollows(Next(s, steps[0]), Moved(l, steps[0]), steps[1..]);
    }
  }

  /** The pool of the backend when the subscriber has asked for its connection. */
  function Opened<R, U>(): Clients<R, U> {
    Next(Idle<R, U>(2), Use)
  }

  /**
   * In every run of the backend's pool, the calls after the subscriber's hold a connection one at a time, in the order
   * in which they asked: exactly those up to the turn of the line had one, and at most the last of these still does.
   */
  lemma PoolIsALine<R(!new), U>(steps: seq<Step<R, U>>, q: nat)
    requires ResourcePoolUse.Feasible(Opened<R, U>(), steps) && AllShared(steps) && q > 0
    ensures var s := ResourcePoolUse.Run(Opened<R, U>(), steps);
            var l := LineAfter(Line(0, 0, false), steps);
            && s.pool.requests == l.asked + 1 && l.turn <= l.asked
            && (Holds(s.calls, q) <==> l.busy && q == l.turn)
            && (q in s.calls && s.calls[q].Done? <==> q < l.turn || (q == l.turn && !l.busy))
            && (q in s.calls && s.calls[q].Asking? <==> l.turn < q <= l.asked)
  {
    OpenedFollows<R, U>();
    RunFollows(Opened<R, U>(), Line(0, 0, false), steps);
    FollowsMeans(ResourcePoolUse.Run(Opened<R, U>(), steps), LineAfter(Line(0, 0, false), steps), q);
  }

  lemma OpenedFollows<R(!new), U>()
    ensures Follows(Opened<R, U>(), Line(0, 0, false))
  {
    NextSound(Idle<R, U>(2), Use);
  }

  lemma FollowsMeans<R(!new), U>(s: Clients<R, U>, l: Line, q: nat)
    requires Follows(s, l) && q > 0
    ensures Holds(s.calls, q) <==> l.busy && q == l.turn
    ensures q in s.calls && s.calls[q].Done? <==> q < l.turn || (q == l.turn && !l.busy)
    ensures q in s.calls && s.calls[q].Asking? <==> l.turn < q <= l.asked
  {
    if l.turn < q <= l.asked {
      if l.busy || q > l.turn + 1 {
        var first := if l.busy then l.turn + 1 else l.turn + 2;
        assert s.pool.waiting[q - first] == q;
      }
    }
  }

  /** And when nobody is at it, the pool brings the next one to its turn: its connection is made, or handed to it. */
  lemma NextHasTurn<R(!new), U>(s: Clients<R, U>, l: Line, unissued: R) returns (step: Step<R, U>)
    requires Queued(s.pool, l) && IsNext(l, l.turn + 1) && unissued !in s.pool.issued
    ensures Possible(s, step) && Shared(step)
    ensures step == Begin(l.turn + 1) || (step.Create? && Possible(Next(s, step), Begin(l.turn + 1)))
  {
    step := if l.turn + 1 in s.pool.inFlight then Begin(l.turn + 1) else Create(l.turn + 1, unissued);
  }
}
