/** A `get` racing a `put` for the same task, under every ordering of what the server and the network do. */
module RedisBackendRace {
  import opened Wrappers
  import opened PromiseMapSpec
  import opened PromiseMapRuns
  import opened PromiseMapValues
  import opened RedisBackendSpec
  import opened RedisBackendLaws

  /** The message that an event stores and publishes, if any. */
  ghost function Published(w: World, e: Event): Option<Message>
    requires Possible(w, e)
  {
    match e
    case Put(m) => Some(m)
    case Transact => if Holder(w).value.ForPut? then Some(Holder(w).value.message) else None
    case _ => None
  }

  /** The result of task `id` is only ever put as `m`, by whomever, and is neither deleted nor expired. */
  ghost predicate Fair(w: World, e: Event, id: string, m: Message)
    requires Possible(w, e)
  {
    match e
    case Grant => w.jobs[w.turn] != ForDelete(id)
    case Expire(i) => i != id
    case Evict(t) => w.results.timers[t].key != id
    case Transact => Holder(w).value != ForDelete(id) && PutsOnly(w, e, id, m)
    case _ => PutsOnly(w, e, id, m)
  }

  ghost predicate PutsOnly(w: World, e: Event, id: string, m: Message)
    requires Possible(w, e)
  {
    Published(w, e).Some? && Published(w, e).value.taskId == id ==> Published(w, e).value == m
  }

  ghost predicate FairRun(w: World, events: seq<Event>, id: string, m: Message)
    requires Legal(w, events)
    decreases |events|
  {
    events == [] || (Fair(w, events[0], id, m) && FairRun(Next(w, events[0]), events[1..], id, m))
  }

  // ---------- What the race keeps

  ghost predicate NoErrors(heap: seq<Cell<string, Message>>, id: string) {
    forall p: nat | p < |heap| :: heap[p].key == id ==> !HasError(heap[p])
  }

  ghost predicate HasError(c: Cell<string, Message>) {
    c.state.Settled? && c.state.outcome.Error?
  }

  /** The promise the map has for the task has left the state in which only `get` made it. */
  ghost predicate Answered(results: Results, id: string) {
    && id in results.promises && results.promises[id] < |results.heap|
    && !results.heap[results.promises[id]].state.Held?
  }

  ghost predicate Racing(w: World, id: string, m: Message) {
    && Faithful(w)
    && NoErrors(w.results.heap, id)
    && (forall pair | pair in w.puts :: pair.0 == id ==> pair.1 == m)
    && (forall g | 0 <= g < |w.gets| :: w.gets[g].id == id ==> !w.gets[g].response.Failed?)
    && ((id, m) in w.puts ==> id in w.store && ((Channel(id), m) in w.wire || Answered(w.results, id)))
  }

  /** An operation on the map that does not reject anything for `id`. */
  ghost predicate Spares(s: Results, op: PromiseMapSpec.Op<string, Message>, id: string)
    requires Enabled(s, op)
  {
    match op
    case OpGet(_) => true
    case OpResolve(_, _) => true
    case OpDelete(k) => k != id
    case OpComplete(_, o) => o.Value?
    case OpFire(t) => s.timers[t].key != id
    case OpTick(_) => true
    case _ => false
  }

  lemma DeleteSpares(s: Results, k: string, reason: Reason, id: string)
    requires PromiseMapRuns.Sound(s) && k != id && NoErrors(s.heap, id)
    ensures var s' := DoDelete(s, k, reason);
            NoErrors(s'.heap, id) && (Answered(s, id) ==> Answered(s', id))
  {
  }

  lemma ResolveSpares(s: Results, k: string, v: Message, id: string)
    requires PromiseMapRuns.Sound(s) && NoErrors(s.heap, id)
    ensures var s' := Resolve(s, k, Plain(v));
            && NoErrors(s'.heap, id)
            && (Answered(s, id) || k == id ==> Answered(s', id))
  {
    HeldIsOwn(s, k);
    RestartKeeps(Resolving(s, k, Plain(v)), k);
  }

  lemma SparedIsKept(s: Results, op: PromiseMapSpec.Op<string, Message>, id: string)
    requires PromiseMapRuns.Sound(s) && Enabled(s, op) && Spares(s, op, id) && NoErrors(s.heap, id)
    requires op.OpResolve? ==> op.source.Plain?
    ensures NoErrors(Apply(s, op).heap, id)
    ensures Answered(s, id) || (op.OpResolve? && op.key == id) ==> Answered(Apply(s, op), id)
  {
    match op
    case OpResolve(k, source) => ResolveSpares(s, k, source.value, id);
    case OpDelete(k) => DeleteSpares(s, k, Deleted, id);
    case OpFire(t) => DeleteSpares(s, s.timers[t].key, TimedOut, id);
    case _ =>
  }

  lemma FairOpsSpare(w: World, e: Event, id: string, m: Message)
    requires Racing(w, id, m) && Possible(w, e) && Fair(w, e, id, m) && MapOp(w, e).Some?
    ensures Enabled(w.results, MapOp(w, e).value) && Spares(w.results, MapOp(w, e).value, id)
  {
  }

  lemma NextAnswers(w: World, e: Event, id: string, m: Message)
    requires Racing(w, id, m) && Possible(w, e) && Fair(w, e, id, m)
    ensures NoErrors(Next(w, e).results.heap, id)
    ensures Answered(w.results, id) ==> Answered(Next(w, e).results, id)
  {
    NextResults(w, e);
    if MapOp(w, e).Some? {
      FairOpsSpare(w, e, id, m);
      SparedIsKept(w.results, MapOp(w, e).value, id);
    }
  }

  /** Once put, the message stays in the store, and on the wire until it answers. */
  lemma NextWire(w: World, e: Event, id: string, m: Message)
    requires Racing(w, id, m) && Possible(w, e) && Fair(w, e, id, m) && m.taskId == id && IsUuid(id)
    ensures var w' := Next(w, e);
            (id, m) in w'.puts ==> id in w'.store && ((Channel(id), m) in w'.wire || Answered(w'.results, id))
  {
    var w' := Next(w, e);
    NextAnswers(w, e, id, m);
    if e.Deliver? && w.wire[0] == (Channel(id), m) {
      MatchInvertsChannel(Channel(id), id);
      SparedIsKept(w.results, MapOp(w, e).value, id);
    } else if e.Deliver? {
      assert w.wire == [w.wire[0]] + w.wire[1..];
    } else if Published(w, e) == Some(m) {
      assert w'.wire[|w.wire|] == (Channel(id), m);
    }
  }

  lemma WokenWithValue(w: World, g: nat, id: string, m: Message)
    requires Racing(w, id, m) && Possible(w, Wake(g)) && w.gets[g].id == id
    ensures OutcomeOf(w.results.heap, w.gets[g].response.promise).value.Value?
  {
    var p := w.gets[g].response.promise;
    assert GetterOk(w.results.heap, w.puts, w.gets[g]);
    assert CellOk(w.results.heap, w.results.tasks, p) && !HasError(w.results.heap[p]);
    if w.results.heap[p].state.Following? {
      assert !HasError(w.results.heap[w.results.heap[p].state.target]);
    }
  }

  lemma NextUnfailed(w: World, e: Event, id: string, m: Message, g: nat)
    requires Racing(w, id, m) && Possible(w, e) && Fair(w, e, id, m)
    requires g < |Next(w, e).gets| && Next(w, e).gets[g].id == id
    ensures !Next(w, e).gets[g].response.Failed?
  {
    if Acted(w, e) != Some(g) {
      OthersUntouched(w, e, g);
    } else if e.Wake? {
      WokenWithValue(w, g, id, m);
    }
  }

  lemma NextPuts(w: World, e: Event)
    requires Possible(w, e)
    ensures forall pair | pair in Next(w, e).puts ::
              || pair in w.puts
              || (Published(w, e).Some? && pair == (Published(w, e).value.taskId, Published(w, e).value))
  {
  }

  lemma NextRacing(w: World, e: Event, id: string, m: Message)
    requires Racing(w, id, m) && Possible(w, e) && Fair(w, e, id, m) && m.taskId == id && IsUuid(id)
    ensures Racing(Next(w, e), id, m)
  {
    NextFaithful(w, e);
    NextAnswers(w, e, id, m);
    NextWire(w, e, id, m);
    forall g: nat | g < |Next(w, e).gets| && Next(w, e).gets[g].id == id
      ensures !Next(w, e).gets[g].response.Failed?
    {
      NextUnfailed(w, e, id, m, g);
    }
    NextPuts(w, e);
  }

  lemma {:induction false} AfterRacing(w: World, events: seq<Event>, id: string, m: Message)
    requires Racing(w, id, m) && m.taskId == id && IsUuid(id)
    requires Legal(w, events) && FairRun(w, events, id, m)
    ensures Racing(After(w, events), id, m)
    decreases |events|
  {
    if events == [] {
    } else {
      NextRacing(w, events[0], id, m);
      AfterRacing(Next(w, events[0]), events[1..], id, m);
    }
  }

  // ---------- How it ends

  /** With no unfinished `doResolve` call, every promise of an answered task has an outcome. */
  lemma AnsweredMeansOutcome(s: Results, id: string, p: nat)
    requires PromiseMapRuns.Sound(s) && s.tasks == map[] && Answered(s, id)
    requires p < |s.heap| && s.heap[p].key == id
    ensures OutcomeOf(s.heap, p).Some?
  {
    assert CellOk(s.heap, s.tasks, p) && LinearAt(s.data.entries, s.heap[p], p);
    HeldIsOwn(s, id);
    if s.heap[p].state.Following? {
      assert CellOk(s.heap, s.tasks, s.heap[p].state.target);
    }
  }

  /** Once its task was put, everything was delivered and completed, and nobody is to be woken, no get listens. */
  lemma NobodyListens(w: World, id: string, m: Message, g: nat)
    requires Racing(w, id, m) && (id, m) in w.puts && w.wire == [] && w.results.tasks == map[]
    requires g < |w.gets| && w.gets[g].id == id && !Possible(w, Wake(g))
    ensures !w.gets[g].response.Listening?
  {
    assert GetterOk(w.results.heap, w.puts, w.gets[g]);
    if w.gets[g].response.Listening? {
      AnsweredMeansOutcome(w.results, id, w.gets[g].response.promise);
    }
  }

  lemma StartRacing(timeout: nat, events: seq<Event>, id: string, m: Message)
    requires m.taskId == id && IsUuid(id)
    requires Legal(Start(timeout), events) && FairRun(Start(timeout), events, id, m)
    ensures Racing(After(Start(timeout), events), id, m)
  {
    AfterRacing(Start(timeout), events, id, m);
  }

  /**
   * Whatever the order of storing and publishing, of the server's reply, of delivery and of listening: no get for
   * the task fails, and one that returns returns the message that was put.
   */
  lemma EveryGetGetsThePut(timeout: nat, events: seq<Event>, id: string, m: Message, g: nat)
    requires m.taskId == id && IsUuid(id)
    requires Legal(Start(timeout), events) && FairRun(Start(timeout), events, id, m)
    requires var w := After(Start(timeout), events); g < |w.gets| && w.gets[g].id == id
    ensures var w := After(Start(timeout), events);
            var r := w.gets[g].response;
            !r.Failed? && (r.Returned? ==> r.message == m && (id, m) in w.puts)
  {
    StartRacing(timeout, events, id, m);
    var w := After(Start(timeout), events);
    assert GetterOk(w.results.heap, w.puts, w.gets[g]);
  }

  // ---------- Why the identifier must be a UUID

  /** Nothing was ever resolved for the task. */
  ghost predicate Mute(heap: seq<Cell<string, Message>>, id: string) {
    forall p: nat | p < |heap| :: heap[p].key == id ==> heap[p].state.Held? || HasError(heap[p])
  }

  lemma MuteStays(s: Results, op: PromiseMapSpec.Op<string, Message>, id: string)
    requires Tracked(s.promises, s.heap, s.tasks) && Mute(s.heap, id) && Enabled(s, op)
    requires op.OpResolve? ==> op.key != id
    requires op.OpGet? || op.OpResolve? || op.OpDelete? || op.OpComplete? || op.OpFire? || op.OpTick?
    requires op.OpResolve? && HeldFor(s, op.key).Some? ==> HoldsOwn(s.promises, s.heap, op.key, s.data.entries[op.key])
    ensures Mute(Apply(s, op).heap, id)
  {
  }

  lemma {:induction false} AfterMute(w: World, events: seq<Event>, id: string)
    requires Faithful(w) && Mute(w.results.heap, id) && Legal(w, events) && !IsUuid(id)
    ensures Mute(After(w, events).results.heap, id)
    decreases |events|
  {
    if events == [] {
    } else {
      NextMute(w, events[0], id);
      NextFaithful(w, events[0]);
      AfterMute(Next(w, events[0]), events[1..], id);
    }
  }

  lemma NextMute(w: World, e: Event, id: string)
    requires Faithful(w) && Mute(w.results.heap, id) && Possible(w, e) && !IsUuid(id)
    ensures Mute(Next(w, e).results.heap, id)
  {
    NextResults(w, e);
    if e.Deliver? && MatchChannel(w.wire[0].0).Some? {
      MatchInvertsChannel(w.wire[0].0, MatchChannel(w.wire[0].0).value);
      HeldIsOwn(w.results, MatchChannel(w.wire[0].0).value);
    }
    if MapOp(w, e).Some? {
      MuteStays(w.results, MapOp(w, e).value, id);
    }
  }

  /** For any other identifier, what is published never reaches a get that listens: in no run does it get a value. */
  lemma OtherIdentifiersAreNeverAnswered(timeout: nat, events: seq<Event>, id: string, g: nat)
    requires !IsUuid(id) && Legal(Start(timeout), events)
    requires var w := After(Start(timeout), events); g < |w.gets| && w.gets[g].response.Listening? && w.gets[g].id == id
    ensures var w := After(Start(timeout), events);
            var o := OutcomeOf(w.results.heap, w.gets[g].response.promise);
            o.None? || o.value.Error?
  {
    AfterMute(Start(timeout), events, id);
    AfterFaithful(Start(timeout), events);
    var w := After(Start(timeout), events);
    assert GetterOk(w.results.heap, w.puts, w.gets[g]);
  }

  /**
   * And that happens: the result of a get for such an identifier is put and delivered while the get listens, and
   * the get is left with nothing to wake it.
   */
  lemma OtherIdentifiersAreLost(timeout: nat, id: string, m: Message)
    requires m.taskId == id && !IsUuid(id)
    ensures var w := Listener(timeout, id, None);
            && Possible(Next(w, Put(m)), Deliver)
            && var w' := Next(Next(w, Put(m)), Deliver);
            && (id, m) in w'.puts && w'.wire == [] && w'.results.tasks == map[]
            && w'.gets == w.gets && OutcomeOf(w'.results.heap, 0).None?
  {
    assert Channel(id)[|PREFIX|..] == id;
  }

  /** A get has asked, was granted the connection, was told that there is no result yet, and listens. */
  ghost function Listener(timeout: nat, id: string, limit: Option<nat>): (w: World)
    ensures w.gets == [Getter(id, limit, Some(0), Listening(0), false)] && w.puts == {}
    ensures w.wire == [] && w.store == map[] && w.jobs == [ForGet(0)] && w.turn == 1 && w.busy
    ensures w.results == Get(Init(Some(timeout)), id)
  {
    var w1 := Next(Start(timeout), Ask(id, limit));
    var w2 := Next(w1, Grant);
    var w3 := Next(w2, Serve(0));
    Next(w3, Receive(0))
  }
}
