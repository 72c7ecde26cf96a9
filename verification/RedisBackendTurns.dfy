/** Unless the backend is stuck, there is a run in which everybody in line has a turn. */
module RedisBackendTurns {
  import opened Wrappers
  import opened PromiseMapSpec
  import opened PromiseMapRuns
  import opened PromiseMapValues
  import opened RedisBackendSpec
  import opened RedisBackendLaws
  import opened RedisBackendQueue
  import opened RedisBackendProgress
  import opened RedisBackendOutcomes
  import opened RedisBackendStuck

  // ---------- Runs made of pieces

  ghost predicate Well(w: World) {
    Faithful(w) && Orderly(w) && Attentive(w) && InTime(w)
  }

  lemma NextWell(w: World, e: Event)
    requires Well(w) && Possible(w, e)
    ensures Well(Next(w, e))
  {
    NextFaithful(w, e);
    NextOrderly(w, e);
    NextAttentive(w, e);
    NextInTime(w, e);
  }

  lemma {:induction false} AfterWell(w: World, events: seq<Event>)
    requires Well(w) && Legal(w, events)
    ensures Well(After(w, events))
    decreases |events|
  {
    if events == [] {
    } else {
      NextWell(w, events[0]);
      AfterWell(Next(w, events[0]), events[1..]);
    }
  }

  ghost predicate Leads(w: World, events: seq<Event>, w': World) {
    Legal(w, events) && After(w, events) == w'
  }

  lemma OneStep(w: World, e: Event)
    requires Possible(w, e)
    ensures Leads(w, [e], Next(w, e))
  {
    assert [e][1..] == [];
  }

  lemma StepThen(w: World, e: Event, rest: seq<Event>, w': World)
    requires Possible(w, e) && Leads(Next(w, e), rest, w')
    ensures Leads(w, [e] + rest, w')
  {
    assert ([e] + rest)[1..] == rest;
  }

  lemma {:induction false} RunThen(w: World, events: seq<Event>, w1: World, rest: seq<Event>, w': World)
    requires Leads(w, events, w1) && Leads(w1, rest, w')
    ensures Leads(w, events + rest, w')
    decreases |events|
  {
    if events == [] {
      assert events + rest == rest;
    } else {
      RunThen(Next(w, events[0]), events[1..], w1, rest, w');
      StepThen(w, events[0], events[1..] + rest, w');
      assert events == [events[0]] + events[1..];
      assert events + rest == [events[0]] + (events[1..] + rest);
    }
  }

  // ---------- A listener for a UUID can be answered

  /** The get has finished, and the line is as it was. */
  ghost predicate FinishedInPlace(w: World, w': World, g: nat) {
    g < |w'.gets| && Finished(w'.gets[g]) && w'.jobs == w.jobs && w'.turn == w.turn && w'.busy == w.busy
  }

  /** A message for the task is the last one on the wire. */
  ghost predicate OnItsWay(w: World, id: string) {
    w.wire != [] && w.wire[|w.wire| - 1].0 == Channel(id) && IsUuid(id)
  }

  /** The `doResolve` call that a promise waits for, if it does. */
  lemma TaskOf(s: Results, p: nat) returns (t: nat)
    requires PromiseMapRuns.Sound(s) && AllPlain(s.tasks) && p < |s.heap|
    requires OutcomeOf(s.heap, p).None? && !s.heap[p].state.Held?
    ensures t in s.tasks && s.tasks[t].source.Plain? && Enabled(s, OpComplete(t, Value(s.tasks[t].source.value)))
    ensures OutcomeOf(Complete(s, t, Value(s.tasks[t].source.value)).heap, p).Some?
  {
    assert CellOk(s.heap, s.tasks, p);
    t := if s.heap[p].state.Following? then s.heap[p].state.target else p;
    assert CellOk(s.heap, s.tasks, t);
  }

  /** Resolving a task takes hold of the promise that the map holds for it, and of no other. */
  lemma ResolveHeld(s: Results, k: string, v: Message, p: nat)
    requires p < |s.heap| && LinearAt(s.data.entries, s.heap[p], p) && s.heap[p].state.Held?
    ensures var heap := Resolve(s, k, Plain(v)).heap;
            p < |heap| && OutcomeOf(heap, p).None? && (heap[p].state.Held? ==> k != s.heap[p].key)
  {
    RestartKeeps(Resolving(s, k, Plain(v)), k);
  }

  lemma DeliverHeld(w: World, p: nat)
    requires w.wire != [] && p < |w.results.heap| && w.results.heap[p].state.Held?
    requires LinearAt(w.results.data.entries, w.results.heap[p], p)
    ensures var s := Next(w, Deliver).results;
            && p < |s.heap| && OutcomeOf(s.heap, p).None?
            && (s.heap[p].state.Held? ==> MatchChannel(w.wire[0].0) != Some(w.results.heap[p].key))
  {
    var id := MatchChannel(w.wire[0].0);
    if id.Some? {
      ResolveHeld(w.results, id.value, w.wire[0].1, p);
    }
  }

  lemma FinishUnheld(w: World, g: nat) returns (events: seq<Event>, w': World)
    requires Faithful(w) && g < |w.gets| && Hears(w, g)
    requires !w.results.heap[w.gets[g].response.promise].state.Held?
    ensures Leads(w, events, w') && FinishedInPlace(w, w', g)
  {
    var t := TaskOf(w.results, w.gets[g].response.promise);
    var e := Finish(t, Value(w.results.tasks[t].source.value));
    var w1 := Next(w, e);
    w' := Next(w1, Wake(g));
    OneStep(w1, Wake(g));
    StepThen(w, e, [Wake(g)], w');
    events := [e] + [Wake(g)];
  }

  /** Whatever is delivered first, the message for the task stays on the wire until the promise is taken hold of. */
  lemma DeliverKeepsListening(w: World, g: nat)
    requires Faithful(w) && g < |w.gets| && Hears(w, g) && OnItsWay(w, w.gets[g].id)
    requires w.results.heap[w.gets[g].response.promise].state.Held?
    ensures var w1 := Next(w, Deliver);
            && Hears(w1, g)
            && (w1.results.heap[w1.gets[g].response.promise].state.Held? ==> OnItsWay(w1, w1.gets[g].id))
  {
    var p := w.gets[g].response.promise;
    assert GetterOk(w.results.heap, w.puts, w.gets[g]);
    assert LinearAt(w.results.data.entries, w.results.heap[p], p);
    DeliverHeld(w, p);
    MatchInvertsChannel(Channel(w.gets[g].id), w.gets[g].id);
  }

  lemma {:induction false} FinishListening(w: World, g: nat) returns (events: seq<Event>, w': World)
    requires Faithful(w) && g < |w.gets| && Hears(w, g)
    requires w.results.heap[w.gets[g].response.promise].state.Held? ==> OnItsWay(w, w.gets[g].id)
    ensures Leads(w, events, w') && FinishedInPlace(w, w', g)
    decreases |w.wire|
  {
    if !w.results.heap[w.gets[g].response.promise].state.Held? {
      events, w' := FinishUnheld(w, g);
    } else {
      DeliverKeepsListening(w, g);
      NextFaithful(w, Deliver);
      var rest;
      rest, w' := FinishListening(Next(w, Deliver), g);
      StepThen(w, Deliver, rest, w');
      events := [Deliver] + rest;
    }
  }

  // ---------- Whoever has the connection can be done with it

  function Success(id: string): Message {
    Message(id, true, "")
  }

  lemma FinishLimited(w: World, g: nat) returns (events: seq<Event>, w': World)
    requires Orderly(w) && Holds(w, g) && !Finished(w.gets[g]) && w.gets[g].limit.Some?
    ensures Leads(w, events, w') && FinishedInPlace(w, w', g) && w'.gets[g].gaveUp
  {
    assert PlacedAt(w.gets[g], true);
    var wait := Tick(w.gets[g].granted.value + w.gets[g].limit.value);
    var w1 := Next(w, wait);
    w' := Next(w1, GiveUp(g));
    OneStep(w1, GiveUp(g));
    StepThen(w, wait, [GiveUp(g)], w');
    events := [wait] + [GiveUp(g)];
  }

  lemma FinishSent(w: World, g: nat) returns (events: seq<Event>, w': World)
    requires g < |w.gets| && w.gets[g].response.Sent?
    ensures Leads(w, events, w') && FinishedInPlace(w, w', g)
  {
    var put := Put(Success(w.gets[g].id));
    var w1 := Next(w, put);
    var w2 := Next(w1, Serve(g));
    w' := Next(w2, Receive(g));
    OneStep(w2, Receive(g));
    StepThen(w1, Serve(g), [Receive(g)], w');
    StepThen(w, put, [Serve(g)] + [Receive(g)], w');
    events := [put] + ([Serve(g)] + [Receive(g)]);
  }

  lemma FinishReturning(w: World, g: nat) returns (events: seq<Event>, w': World)
    requires g < |w.gets|
    requires Possible(w, Wake(g))
             || (w.gets[g].response.Replied? && Next(w, Receive(g)).gets[g].response.Returned?)
    ensures Leads(w, events, w') && FinishedInPlace(w, w', g)
  {
    var e := if w.gets[g].response.Replied? then Receive(g) else Wake(g);
    w' := Next(w, e);
    OneStep(w, e);
    events := [e];
  }

  lemma FinishListener(w: World, g: nat) returns (events: seq<Event>, w': World)
    requires Faithful(w) && g < |w.gets| && w.gets[g].response.Listening? && IsUuid(w.gets[g].id)
    ensures Leads(w, events, w') && FinishedInPlace(w, w', g)
  {
    if Possible(w, Wake(g)) {
      events, w' := FinishReturning(w, g);
    } else {
      assert GetterOk(w.results.heap, w.puts, w.gets[g]);
      var put := Put(Success(w.gets[g].id));
      NextFaithful(w, put);
      var rest;
      rest, w' := FinishListening(Next(w, put), g);
      StepThen(w, put, rest, w');
      events := [put] + rest;
    }
  }

  lemma FinishReplied(w: World, g: nat) returns (events: seq<Event>, w': World)
    requires Faithful(w) && g < |w.gets| && w.gets[g].response.Replied? && IsUuid(w.gets[g].id)
    ensures Leads(w, events, w') && FinishedInPlace(w, w', g)
  {
    NextFaithful(w, Receive(g));
    var w1 := Next(w, Receive(g));
    if w1.gets[g].response.Returned? {
      events, w' := FinishReturning(w, g);
    } else {
      var rest;
      rest, w' := FinishListener(w1, g);
      StepThen(w, Receive(g), rest, w');
      events := [Receive(g)] + rest;
    }
  }

  lemma HolderCanFinish(w: World, g: nat) returns (events: seq<Event>, w': World)
    requires Well(w) && Holds(w, g) && !WaitsInVain(w, g)
    ensures Leads(w, events, w') && FinishedInPlace(w, w', g)
  {
    assert PlacedAt(w.gets[g], true);
    if Finished(w.gets[g]) {
      events, w' := [], w;
    } else if w.gets[g].limit.Some? {
      events, w' := FinishLimited(w, g);
    } else if w.gets[g].response.Sent? {
      events, w' := FinishSent(w, g);
    } else if IsUuid(w.gets[g].id) {
      if w.gets[g].response.Replied? {
        events, w' := FinishReplied(w, g);
      } else {
        events, w' := FinishListener(w, g);
      }
    } else {
      events, w' := FinishReturning(w, g);
    }
  }

  // ---------- So the line can move

  lemma CanRelease(w: World) returns (events: seq<Event>, w': World)
    requires Well(w) && w.busy && !Stuck(w)
    ensures Leads(w, events, w') && w'.jobs == w.jobs && w'.turn == w.turn && !w'.busy
  {
    if Holder(w).value.ForGet? {
      var g := Holder(w).value.getter;
      assert Holds(w, g);
      var w1;
      events, w1 := HolderCanFinish(w, g);
      w' := Next(w1, Release);
      OneStep(w1, Release);
      RunThen(w, events, w1, [Release], w');
      events := events + [Release];
    } else {
      w' := Next(w, Transact);
      OneStep(w, Transact);
      events := [Transact];
    }
  }

  /** Unless the backend is stuck, some run brings a job in line to its turn. */
  lemma {:induction false} TurnCanCome(w: World, t: nat) returns (events: seq<Event>, w': World)
    requires Well(w) && !Stuck(w) && w.turn <= t < |w.jobs|
    ensures Leads(w, events, w') && w'.jobs == w.jobs && w'.turn == t + 1 && w'.busy
    ensures w.jobs[t].ForGet? ==>
              w.jobs[t].getter < |w'.gets| && w'.gets[w.jobs[t].getter].response.Sent?
    decreases t - w.turn, w.busy
  {
    var first, w1, rest;
    if w.busy {
      first, w1 := CanRelease(w);
    } else {
      first, w1 := [Grant], Next(w, Grant);
      OneStep(w, Grant);
    }
    AfterWell(w, first);
    if w1.turn == t + 1 {
      events, w' := first, w1;
    } else {
      GrantedIsNotStuck(w, w1);
      rest, w' := TurnCanCome(w1, t);
      RunThen(w, first, w1, rest, w');
      events := first + rest;
    }
  }

  lemma GrantedIsNotStuck(w: World, w1: World)
    requires !w1.busy || (!w.busy && Possible(w, Grant) && w1 == Next(w, Grant))
    ensures !Stuck(w1)
  {
  }

  lemma JoinedIsStuckIff(w: World, e: Event)
    requires Well(w) && Joins(w, e).Some?
    ensures Stuck(Next(w, e)) <==> Stuck(w)
    ensures Next(w, e).jobs == w.jobs + [Joins(w, e).value] && Next(w, e).turn == w.turn <= |w.jobs|
  {
    var w' := Next(w, e);
    assert w.busy ==> w'.jobs[w.turn - 1] == w.jobs[w.turn - 1];
    forall g: nat
      ensures Holds(w, g) && WaitsInVain(w, g) <==> Holds(w', g) && WaitsInVain(w', g)
    {
      assert Holds(w', g) ==> PlacedAt(w'.gets[g], true) by {
        NextOrderly(w, e);
      }
    }
  }

  lemma StartWell(timeout: nat, events: seq<Event>)
    requires Legal(Start(timeout), events)
    ensures Well(After(Start(timeout), events))
  {
    AfterWell(Start(timeout), events);
  }

  ghost predicate HasTurn(w: World, events: seq<Event>, t: nat) {
    Legal(w, events) && t < After(w, events).turn
  }

  /**
   * A put, a delete or a get of an unknown task can come to its turn in some continuation if and only if, at the
   * call, the connection was not held by a get that waits in vain.
   */
  lemma TurnCanComeIff(timeout: nat, earlier: seq<Event>, e: Event)
    requires Legal(Start(timeout), earlier) && Joins(After(Start(timeout), earlier), e).Some?
    ensures var w := After(Start(timeout), earlier);
            (exists events :: HasTurn(Next(w, e), events, |w.jobs|)) <==> !Stuck(w)
  {
    var w := After(Start(timeout), earlier);
    StartWell(timeout, earlier);
    JoinedIsStuckIff(w, e);
    NextWell(w, e);
    if Stuck(w) {
      forall events | Legal(Next(w, e), events)
        ensures !HasTurn(Next(w, e), events, |w.jobs|)
      {
        StuckForGood(Next(w, e), events);
      }
    } else {
      var events, w' := TurnCanCome(Next(w, e), |w.jobs|);
      assert HasTurn(Next(w, e), events, |w.jobs|);
    }
  }
}
