/** When a get over Redis returns a result that is not a success, although it waits for one. */
module RedisBackendFailures {
  import opened Wrappers
  import opened PromiseMapSpec
  import opened PromiseMapRuns
  import opened PromiseMapLaws
  import opened PromiseMapValues
  import opened RedisBackendSpec
  import opened RedisBackendLaws
  import opened RedisBackendQueue
  import opened RedisBackendProgress

  // ---------- Only through the map

  /** Some promise of the map for the task carries the message. */
  ghost predicate Carried(heap: seq<Cell<string, Message>>, id: string, m: Message) {
    exists p: nat :: p < |heap| && heap[p].key == id && OutcomeOf(heap, p) == Some(Value(m))
  }

  ghost predicate FailureCarried(heap: seq<Cell<string, Message>>, g: Getter) {
    g.response.Returned? && !g.response.message.success ==> Carried(heap, g.id, g.response.message)
  }

  lemma CarriedStays(heap: seq<Cell<string, Message>>, heap': seq<Cell<string, Message>>, id: string, m: Message)
    requires Carried(heap, id, m) && Grows(heap, heap')
    ensures Carried(heap', id, m)
  {
    var p: nat :| p < |heap| && heap[p].key == id && OutcomeOf(heap, p) == Some(Value(m));
    assert CellGrows(heap[p], heap'[p]);
    if heap[p].state.Following? {
      assert CellGrows(heap[heap[p].state.target], heap'[heap[p].state.target]);
    }
    assert OutcomeOf(heap', p) == Some(Value(m));
  }

  lemma NextFailureCarried(w: World, e: Event, g: nat)
    requires Faithful(w) && Possible(w, e) && g < |Next(w, e).gets|
    requires g < |w.gets| ==> FailureCarried(w.results.heap, w.gets[g])
    ensures FailureCarried(Next(w, e).results.heap, Next(w, e).gets[g])
  {
    NextResultsFaithful(w, e);
    var g' := Next(w, e).gets[g];
    if Acted(w, e) == Some(g) && e.Wake? {
      assert GetterOk(w.results.heap, w.puts, w.gets[g]);
    } else if g < |w.gets| && w.gets[g].response.Returned? && !w.gets[g].response.message.success {
      CarriedStays(w.results.heap, Next(w, e).results.heap, w.gets[g].id, w.gets[g].response.message);
    }
  }

  lemma {:induction false} AfterFailuresCarried(w: World, events: seq<Event>)
    requires Faithful(w) && Legal(w, events)
    requires forall g: nat | g < |w.gets| :: FailureCarried(w.results.heap, w.gets[g])
    ensures forall g: nat | g < |After(w, events).gets| ::
              FailureCarried(After(w, events).results.heap, After(w, events).gets[g])
    decreases |events|
  {
    if events == [] {
    } else {
      forall g: nat | g < |Next(w, events[0]).gets|
        ensures FailureCarried(Next(w, events[0]).results.heap, Next(w, events[0]).gets[g])
      {
        NextFailureCarried(w, events[0], g);
      }
      NextFaithful(w, events[0]);
      AfterFailuresCarried(Next(w, events[0]), events[1..]);
    }
  }

  /** In every run, what is returned and is no success was delivered to the map, and not found by GET. */
  lemma FailuresComeThroughTheMap(timeout: nat, events: seq<Event>, g: nat)
    requires Legal(Start(timeout), events)
    requires var w := After(Start(timeout), events);
             g < |w.gets| && w.gets[g].response.Returned? && !w.gets[g].response.message.success
    ensures var w := After(Start(timeout), events);
            Carried(w.results.heap, w.gets[g].id, w.gets[g].response.message)
  {
    AfterFailuresCarried(Start(timeout), events);
    var w := After(Start(timeout), events);
    assert FailureCarried(w.results.heap, w.gets[g]);
  }

  // ---------- The first that arrives decides

  /** The promise follows a `doResolve` call that ends with the message, whatever else happens. */
  ghost predicate BoundTo(s: Results, p: nat, m: Message) {
    && p < |s.heap| && s.heap[p].state.Following?
    && var t := s.heap[p].state.target;
    && t < |s.heap|
    && (s.heap[t].state == Settled(Value(m)) || (t in s.tasks && s.tasks[t].source == Plain(m)))
  }

  lemma BoundStays(s: Results, op: PromiseMapSpec.Op<string, Message>, p: nat, m: Message)
    requires PromiseMapRuns.Sound(s) && Enabled(s, op) && BoundTo(s, p, m)
    requires op.OpGet? || op.OpResolve? || op.OpDelete? || op.OpComplete? || op.OpFire? || op.OpTick?
    ensures BoundTo(Apply(s, op), p, m)
  {
    ApplyGrows(s, op);
    assert CellGrows(s.heap[p], Apply(s, op).heap[p]);
    var t := s.heap[p].state.target;
    assert CellGrows(s.heap[t], Apply(s, op).heap[t]);
    match op
    case OpResolve(k, source) => RestartKeeps(Resolving(s, k, source), k);
    case _ =>
  }

  lemma ResolveBinds(s: Results, k: string, m: Message, p: nat)
    requires p < |s.heap| && s.heap[p].key == k && s.heap[p].state.Held? && LinearAt(s.data.entries, s.heap[p], p)
    ensures BoundTo(Resolve(s, k, Plain(m)), p, m)
  {
    RestartKeeps(Resolving(s, k, Plain(m)), k);
  }

  /** The get listens to a promise that is bound to the message, or has returned it. */
  ghost predicate Decided(w: World, g: nat, m: Message) {
    && g < |w.gets|
    && match w.gets[g].response
       case Listening(p) => BoundTo(w.results, p, m)
       case Returned(got) => got == m
       case _ => false
  }

  lemma NextDecided(w: World, e: Event, g: nat, m: Message)
    requires Faithful(w) && Orderly(w) && Possible(w, e) && Decided(w, g, m)
    ensures Decided(Next(w, e), g, m)
  {
    NextResults(w, e);
    if w.gets[g].response.Listening? && MapOp(w, e).Some? {
      BoundStays(w.results, MapOp(w, e).value, w.gets[g].response.promise, m);
    }
    if Acted(w, e) != Some(g) {
      OthersUntouched(w, e, g);
    } else {
      OnlyWoken(w, e, g, m);
    }
  }

  lemma OnlyWoken(w: World, e: Event, g: nat, m: Message)
    requires Faithful(w) && Orderly(w) && Possible(w, e) && Decided(w, g, m) && Acted(w, e) == Some(g)
    ensures Next(w, e).gets[g].response == w.gets[g].response || Next(w, e).gets[g].response == Returned(m)
    ensures Next(w, e).gets[g].response == w.gets[g].response ==> Next(w, e).results == w.results
  {
    assert e.Grant? ==> PlacedAt(w.gets[g], false);
    if e.Wake? {
      assert OutcomeOf(w.results.heap, w.gets[g].response.promise) == Some(Value(m));
    }
  }

  lemma {:induction false} AfterDecided(w: World, events: seq<Event>, g: nat, m: Message)
    requires Faithful(w) && Orderly(w) && Legal(w, events) && Decided(w, g, m)
    ensures Faithful(After(w, events)) && Orderly(After(w, events)) && Decided(After(w, events), g, m)
    decreases |events|
  {
    if events == [] {
    } else {
      NextDecided(w, events[0], g, m);
      NextFaithful(w, events[0]);
      NextOrderly(w, events[0]);
      AfterDecided(Next(w, events[0]), events[1..], g, m);
    }
  }

  lemma DeliveryDecides(w: World, g: nat)
    requires Faithful(w) && g < |w.gets| && w.gets[g].response.Listening?
    requires w.results.heap[w.gets[g].response.promise].state.Held?
    requires w.wire != [] && MatchChannel(w.wire[0].0) == Some(w.gets[g].id)
    ensures Decided(Next(w, Deliver), g, w.wire[0].1)
  {
    var p := w.gets[g].response.promise;
    assert GetterOk(w.results.heap, w.puts, w.gets[g]);
    assert LinearAt(w.results.data.entries, w.results.heap[p], p);
    ResolveBinds(w.results, w.gets[g].id, w.wire[0].1, p);
  }

  lemma StillHasReturned(w: World, g: nat, m: Message)
    requires Faithful(w) && Orderly(w) && Still(w) && Decided(w, g, m)
    ensures w.gets[g].response == Returned(m)
  {
    StillIff(w);
  }

  /**
   * The first message that is delivered for a listening get is the one it returns, if it returns at all, whether or
   * not it is a success and whatever is put or deleted afterwards; and when nothing more can happen by itself, the
   * response has returned it. So a failure is returned exactly if it arrives first.
   */
  lemma FirstArrivalDecides(w: World, events: seq<Event>, g: nat)
    requires Faithful(w) && Orderly(w) && g < |w.gets| && w.gets[g].response.Listening?
    requires w.results.heap[w.gets[g].response.promise].state.Held?
    requires w.wire != [] && MatchChannel(w.wire[0].0) == Some(w.gets[g].id)
    requires Legal(Next(w, Deliver), events)
    ensures var w' := After(Next(w, Deliver), events);
            && g < |w'.gets| && !w'.gets[g].response.Failed?
            && (w'.gets[g].response.Returned? ==> w'.gets[g].response.message == w.wire[0].1)
            && (Still(w') ==> w'.gets[g].response.Returned?)
  {
    DeliveryDecides(w, g);
    NextFaithful(w, Deliver);
    NextOrderly(w, Deliver);
    AfterDecided(Next(w, Deliver), events, g, w.wire[0].1);
    if Still(After(Next(w, Deliver), events)) {
      StillHasReturned(After(Next(w, Deliver), events), g, w.wire[0].1);
    }
  }
}
