/** What a `get` over Redis returns. */
module RedisBackendLaws {
  import opened Wrappers
  import opened PromiseMapSpec
  import opened PromiseMapRuns
  import opened PromiseMapLaws
  import opened PromiseMapValues
  import opened RedisBackendSpec

  // ---------- Nothing but what was put for the task

  ghost predicate GetterOk(heap: seq<Cell<string, Message>>, puts: set<(string, Message)>, g: Getter) {
    match g.response
    case Replied(reply) => reply.Some? ==> (g.id, reply.value) in puts
    case Listening(p) => p < |heap| && heap[p].key == g.id
    case Returned(m) => (g.id, m) in puts
    case _ => true
  }

  ghost predicate OnWire(x: (string, Message), puts: set<(string, Message)>) {
    x.0 == Channel(x.1.taskId) && (x.1.taskId, x.1) in puts
  }

  ghost predicate Faithful(w: World) {
    && PromiseMapRuns.Sound(w.results)
    && Genuine(w.results.heap, w.results.tasks, w.puts) && AllPlain(w.results.tasks)
    && (forall pair | pair in w.puts :: pair.0 == pair.1.taskId)
    && (forall id | id in w.store :: (id, w.store[id]) in w.puts)
    && (forall i | 0 <= i < |w.wire| :: OnWire(w.wire[i], w.puts))
    && (forall g | 0 <= g < |w.gets| :: GetterOk(w.results.heap, w.puts, w.gets[g]))
  }

  /** What an event does to the map of results, if anything. */
  ghost function MapOp(w: World, e: Event): Option<PromiseMapSpec.Op<string, Message>>
    requires Possible(w, e)
  {
    match e
    case Ask(id, _) => if id in w.results.promises then Some(OpGet(id)) else None
    case Grant => if w.jobs[w.turn].ForDelete? then Some(OpDelete(w.jobs[w.turn].id)) else None
    case Receive(g) =>
      var reply := w.gets[g].response.reply;
      if reply.Some? && reply.value.success then None else Some(OpGet(w.gets[g].id))
    case Deliver =>
      var id := MatchChannel(w.wire[0].0);
      if id.Some? then Some(OpResolve(id.value, Plain(w.wire[0].1))) else None
    case Finish(t, o) => Some(OpComplete(t, o))
    case Evict(t) => Some(OpFire(t))
    case Tick(elapsed) => Some(OpTick(elapsed))
    case _ => None
  }

  lemma NextResults(w: World, e: Event)
    requires Possible(w, e)
    ensures MapOp(w, e).Some? ==> Enabled(w.results, MapOp(w, e).value)
    ensures Next(w, e).results == if MapOp(w, e).Some? then Apply(w.results, MapOp(w, e).value) else w.results
  {
  }

  lemma GenuineGrows<K(!new), V>(
      heap: seq<Cell<K, V>>, tasks: map<nat, Task<K, V>>, offered: set<(K, V)>, offered': set<(K, V)>)
    requires Genuine(heap, tasks, offered) && offered <= offered'
    ensures Genuine(heap, tasks, offered')
  {
  }

  /** What arrives on the wire for a key was put for it. */
  lemma DeliveredWasPut(w: World)
    requires Faithful(w) && w.wire != []
    ensures var id := MatchChannel(w.wire[0].0);
            id.Some? ==> id.value == w.wire[0].1.taskId && (id.value, w.wire[0].1) in w.puts
  {
  }

  lemma NextResultsFaithful(w: World, e: Event)
    requires Faithful(w) && Possible(w, e)
    ensures var w' := Next(w, e);
            && PromiseMapRuns.Sound(w'.results)
            && Genuine(w'.results.heap, w'.results.tasks, w'.puts) && AllPlain(w'.results.tasks)
            && Grows(w.results.heap, w'.results.heap)
  {
    var w' := Next(w, e);
    NextResults(w, e);
    GenuineGrows(w.results.heap, w.results.tasks, w.puts, w'.puts);
    if e.Deliver? {
      DeliveredWasPut(w);
    }
    if MapOp(w, e).Some? {
      ApplySound(w.results, MapOp(w, e).value);
      ApplyGenuine(w.results, MapOp(w, e).value, w'.puts);
      ApplyPlain(w.results, MapOp(w, e).value);
      ApplyGrows(w.results, MapOp(w, e).value);
    }
  }

  lemma GetterKept(heap: seq<Cell<string, Message>>, heap': seq<Cell<string, Message>>,
                   puts: set<(string, Message)>, puts': set<(string, Message)>, g: Getter)
    requires GetterOk(heap, puts, g) && Grows(heap, heap') && puts <= puts'
    ensures GetterOk(heap', puts', g)
  {
  }

  lemma ListenOk(results: Results, id: string)
    requires var r := Get(results, id); Tracked(r.promises, r.heap, r.tasks)
    ensures var (results', response) := Listen(results, id);
            response.promise < |results'.heap| && results'.heap[response.promise].key == id
  {
  }

  /** The getter an event acts on, if any. */
  ghost function Acted(w: World, e: Event): Option<nat>
    requires Possible(w, e)
  {
    match e
    case Ask(_, _) => Some(|w.gets|)
    case Grant => if w.jobs[w.turn].ForGet? then Some(w.jobs[w.turn].getter) else None
    case Serve(g) => Some(g)
    case Receive(g) => Some(g)
    case Wake(g) => Some(g)
    case GiveUp(g) => Some(g)
    case _ => None
  }

  lemma ActedOk(w: World, e: Event)
    requires Faithful(w) && Possible(w, e) && Acted(w, e).Some?
    requires var r := Next(w, e).results;
             Tracked(r.promises, r.heap, r.tasks) && Grows(w.results.heap, r.heap)
    ensures Acted(w, e).value < |Next(w, e).gets|
    ensures GetterOk(Next(w, e).results.heap, w.puts, Next(w, e).gets[Acted(w, e).value])
  {
    if Acted(w, e).value < |w.gets| {
      assert GetterOk(w.results.heap, w.puts, w.gets[Acted(w, e).value]);
    }
    match e
    case Ask(id, _) => if id in w.results.promises { ListenOk(w.results, id); }
    case Receive(g) =>
      if Next(w, e).gets[g].response.Listening? {
        ListenOk(w.results, w.gets[g].id);
      }
    case Wake(g) => OutcomeGenuine(w.results, w.gets[g].response.promise, w.puts);
    case _ =>
  }

  lemma OthersUntouched(w: World, e: Event, g: nat)
    requires Possible(w, e) && g < |Next(w, e).gets| && Acted(w, e) != Some(g)
    ensures g < |w.gets| && Next(w, e).gets[g] == w.gets[g] && w.puts <= Next(w, e).puts
  {
  }

  lemma NextGetter(w: World, e: Event, g: nat)
    requires Faithful(w) && Possible(w, e) && g < |Next(w, e).gets|
    requires PromiseMapRuns.Sound(Next(w, e).results) && Grows(w.results.heap, Next(w, e).results.heap)
    ensures GetterOk(Next(w, e).results.heap, Next(w, e).puts, Next(w, e).gets[g])
  {
    if Acted(w, e) == Some(g) {
      ActedOk(w, e);
    } else {
      OthersUntouched(w, e, g);
      GetterKept(w.results.heap, Next(w, e).results.heap, w.puts, Next(w, e).puts, w.gets[g]);
    }
  }

  lemma NextFaithful(w: World, e: Event)
    requires Faithful(w) && Possible(w, e)
    ensures Faithful(Next(w, e))
  {
    NextResultsFaithful(w, e);
    forall g: nat | g < |Next(w, e).gets|
      ensures GetterOk(Next(w, e).results.heap, Next(w, e).puts, Next(w, e).gets[g])
    {
      NextGetter(w, e, g);
    }
  }

  lemma {:induction false} AfterFaithful(w: World, events: seq<Event>)
    requires Faithful(w) && Legal(w, events)
    ensures Faithful(After(w, events))
    decreases |events|
  {
    if events == [] {
    } else {
      NextFaithful(w, events[0]);
      AfterFaithful(Next(w, events[0]), events[1..]);
    }
  }

  /** In every run, with any timeouts, deletions and evictions, a `get` returns only a message put for its task. */
  lemma OnlyWhatWasPut(timeout: nat, events: seq<Event>, g: nat)
    requires Legal(Start(timeout), events)
    requires var w := After(Start(timeout), events); g < |w.gets| && w.gets[g].response.Returned?
    ensures var w := After(Start(timeout), events);
            var m := w.gets[g].response.message;
            (w.gets[g].id, m) in w.puts && m.taskId == w.gets[g].id
  {
    AfterFaithful(Start(timeout), events);
    var w := After(Start(timeout), events);
    assert GetterOk(w.results.heap, w.puts, w.gets[g]);
  }
}
