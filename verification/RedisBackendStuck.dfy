/** When the connection is lost for good to whoever is in line, and that otherwise everybody can have a turn. */
module RedisBackendStuck {
  import opened Wrappers
  import opened PromiseMapSpec
  import opened PromiseMapRuns
  import opened PromiseMapValues
  import opened RedisBackendSpec
  import opened RedisBackendLaws
  import opened RedisBackendQueue

  // ---------- Tasks that nothing was ever delivered for

  ghost predicate Untouched(s: Results, id: string) {
    && (id in s.promises ==> s.promises[id] < |s.heap| && s.heap[s.promises[id]].state.Held?)
    && (forall t | t in s.tasks :: s.tasks[t].key != id)
    && (forall t | t in s.timers :: s.timers[t].key != id)
  }

  /** An operation that a backend does to its map, and not a delivery for the task. */
  predicate PassesBy(op: PromiseMapSpec.Op<string, Message>, id: string) {
    op.OpGet? || (op.OpResolve? && op.key != id) || op.OpDelete? || op.OpComplete? || op.OpFire? || op.OpTick?
  }

  lemma DeleteUntouched(s: Results, k: string, reason: Reason, id: string)
    requires Untouched(s, id) && (HeldFor(s, k).Some? ==> HoldsOwn(s.promises, s.heap, k, s.data.entries[k]))
    requires id in s.promises ==> s.heap[s.promises[id]].key == id
    ensures Untouched(DoDelete(s, k, reason), id)
    ensures k != id && id in s.promises ==>
              id in DoDelete(s, k, reason).promises && DoDelete(s, k, reason).promises[id] == s.promises[id]
  {
  }

  lemma ResolveUntouched(s: Results, k: string, source: Source<Message>, id: string)
    requires Untouched(s, id) && k != id
    requires HeldFor(s, k).Some? ==> HoldsOwn(s.promises, s.heap, k, s.data.entries[k])
    requires id in s.promises ==> s.heap[s.promises[id]].key == id
    ensures Untouched(Resolve(s, k, source), id)
    ensures id in s.promises ==>
              id in Resolve(s, k, source).promises && Resolve(s, k, source).promises[id] == s.promises[id]
  {
    RestartKeeps(Resolving(s, k, source), k);
  }

  lemma StaysUntouched(s: Results, op: PromiseMapSpec.Op<string, Message>, id: string)
    requires PromiseMapRuns.Sound(s) && Untouched(s, id) && Enabled(s, op) && PassesBy(op, id)
    ensures Untouched(Apply(s, op), id)
    ensures id in s.promises && op != OpDelete(id) ==>
              id in Apply(s, op).promises && Apply(s, op).promises[id] == s.promises[id]
  {
    match op
    case OpResolve(k, source) =>
      HeldIsOwn(s, k);
      ResolveUntouched(s, k, source, id);
    case OpDelete(k) =>
      HeldIsOwn(s, k);
      DeleteUntouched(s, k, Deleted, id);
    case OpFire(t) =>
      HeldIsOwn(s, s.timers[t].key);
      DeleteUntouched(s.(timers := s.timers - {t}), s.timers[t].key, TimedOut, id);
    case _ =>
  }

  lemma NextUntouched(w: World, e: Event, id: string)
    requires Faithful(w) && Untouched(w.results, id) && Possible(w, e)
    requires !IsUuid(id) || (e.Deliver? ==> MatchChannel(w.wire[0].0) != Some(id))
    ensures Untouched(Next(w, e).results, id)
    ensures id in w.results.promises && !(e.Grant? && w.jobs[w.turn] == ForDelete(id)) ==>
              id in Next(w, e).results.promises && Next(w, e).results.promises[id] == w.results.promises[id]
  {
    NextResults(w, e);
    if e.Deliver? && MatchChannel(w.wire[0].0).Some? {
      MatchInvertsChannel(w.wire[0].0, MatchChannel(w.wire[0].0).value);
    }
    if MapOp(w, e).Some? {
      StaysUntouched(w.results, MapOp(w, e).value, id);
    }
  }

  // ---------- What the holder of the connection listens to

  ghost predicate ListensToOwn(w: World, g: nat)
    requires g < |w.gets|
  {
    var id := w.gets[g].id;
    w.gets[g].response.Listening? ==>
      id in w.results.promises && w.results.promises[id] == w.gets[g].response.promise
  }

  /** For an identifier that is no UUID, the connection's holder listens to the promise that the map has. */
  ghost predicate Attentive(w: World) {
    && (forall id | !IsUuid(id) :: Untouched(w.results, id))
    && (forall g: nat | Holds(w, g) && !IsUuid(w.gets[g].id) :: ListensToOwn(w, g))
  }

  lemma NextListensToOwn(w: World, e: Event, g: nat)
    requires Faithful(w) && Possible(w, e) && Holds(w, g) && Holds(Next(w, e), g)
    requires Untouched(w.results, w.gets[g].id) && ListensToOwn(w, g)
    requires e.Deliver? ==> MatchChannel(w.wire[0].0) != Some(w.gets[g].id)
    ensures ListensToOwn(Next(w, e), g) && Next(w, e).gets[g].id == w.gets[g].id
  {
    NextUntouched(w, e, w.gets[g].id);
  }

  lemma NotDeliveredFor(w: World, e: Event, id: string)
    requires Possible(w, e) && !IsUuid(id)
    ensures e.Deliver? ==> MatchChannel(w.wire[0].0) != Some(id)
  {
    if e.Deliver? {
      MatchInvertsChannel(w.wire[0].0, id);
    }
  }

  /** Only a grant changes the holder, and the new one has yet to send GET. */
  lemma HolderChanges(w: World, e: Event, g: nat)
    requires Orderly(w) && Possible(w, e) && Holds(Next(w, e), g)
    ensures if e.Grant? then Next(w, e).gets[g].response.Sent? else Holds(w, g)
  {
    if e.Ask? || e.PutHere? || e.DeleteHere? {
      assert w.busy ==> Next(w, e).jobs[w.turn - 1] == w.jobs[w.turn - 1];
    }
  }

  lemma NextAttentive(w: World, e: Event)
    requires Faithful(w) && Orderly(w) && Attentive(w) && Possible(w, e)
    ensures Attentive(Next(w, e))
  {
    forall id | !IsUuid(id)
      ensures Untouched(Next(w, e).results, id)
    {
      NextUntouched(w, e, id);
    }
    forall g: nat | Holds(Next(w, e), g) && !IsUuid(Next(w, e).gets[g].id)
      ensures ListensToOwn(Next(w, e), g)
    {
      HolderChanges(w, e, g);
      if !e.Grant? {
        NextIds(w, e, g);
        NotDeliveredFor(w, e, w.gets[g].id);
        NextListensToOwn(w, e, g);
      }
    }
  }

  lemma NextIds(w: World, e: Event, g: nat)
    requires Possible(w, e) && g < |w.gets|
    ensures g < |Next(w, e).gets| && Next(w, e).gets[g].id == w.gets[g].id
    ensures Next(w, e).gets[g].limit == w.gets[g].limit
  {
  }

  // ---------- Stuck

  /**
   * A get without a timeout, for an identifier that is no UUID, that GET gave no success: no delivery will reach it,
   * and a delete would have to wait for its connection.
   */
  ghost predicate WaitsInVain(w: World, g: nat)
    requires g < |w.gets|
  {
    && w.gets[g].limit.None? && !w.gets[g].gaveUp && !IsUuid(w.gets[g].id)
    && match w.gets[g].response
       case Replied(reply) => reply.None? || !reply.value.success
       case Listening(_) => true
       case _ => false
  }

  ghost predicate Stuck(w: World) {
    exists g: nat :: Holds(w, g) && WaitsInVain(w, g)
  }

  /** As long as a get has not finished, it keeps the connection. */
  lemma HoldsStays(w: World, e: Event, g: nat)
    requires Possible(w, e) && Holds(w, g) && !Finished(w.gets[g])
    ensures Holds(Next(w, e), g) && Next(w, e).turn == w.turn && Next(w, e).puts >= w.puts
    ensures !e.Grant? && !e.Transact? && !e.Release?
  {
    if e.Ask? || e.PutHere? || e.DeleteHere? {
      assert Next(w, e).jobs[w.turn - 1] == w.jobs[w.turn - 1];
    }
  }

  lemma VainStays(w: World, e: Event, g: nat)
    requires Faithful(w) && Attentive(w) && Possible(w, e) && Holds(w, g) && WaitsInVain(w, g)
    ensures Holds(Next(w, e), g) && WaitsInVain(Next(w, e), g) && Next(w, e).turn == w.turn
  {
    HoldsStays(w, e, g);
    assert ListensToOwn(w, g) && Untouched(w.results, w.gets[g].id);
    if Acted(w, e) != Some(g) {
      OthersUntouched(w, e, g);
    }
  }

  /** A stuck backend stays stuck, whatever happens: its line does not move any more. */
  lemma {:induction false} StuckForGood(w: World, events: seq<Event>)
    requires Faithful(w) && Orderly(w) && Attentive(w) && Stuck(w) && Legal(w, events)
    ensures Stuck(After(w, events)) && After(w, events).turn == w.turn
    decreases |events|
  {
    if events == [] {
    } else {
      var g: nat :| Holds(w, g) && WaitsInVain(w, g);
      VainStays(w, events[0], g);
      NextFaithful(w, events[0]);
      NextOrderly(w, events[0]);
      NextAttentive(w, events[0]);
      StuckForGood(Next(w, events[0]), events[1..]);
    }
  }
}
