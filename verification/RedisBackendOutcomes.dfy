/** What has become of gets and puts when nothing more can happen by itself, told from what was known at the call. */
module RedisBackendOutcomes {
  import opened Wrappers
  import opened RedisBackendSpec
  import opened RedisBackendLaws
  import opened RedisBackendRace
  import opened RedisBackendQueue
  import opened RedisBackendProgress

  // ---------- Whose turn has come

  /** Every get among the first `t` jobs has finished. */
  ghost predicate FinishedBefore(w: World, t: nat) {
    forall i: nat | i < t && i < |w.jobs| && w.jobs[i].ForGet? ::
      w.jobs[i].getter < |w.gets| && Finished(w.gets[w.jobs[i].getter])
  }

  /** A job has had its turn exactly if every get before it has finished; then, unless it is a get, it is done. */
  lemma TurnComesIff(w: World, t: nat)
    requires Faithful(w) && Orderly(w) && Still(w) && t < |w.jobs|
    ensures t < w.turn <==> FinishedBefore(w, t)
    ensures t < w.turn && !w.jobs[t].ForGet? ==> IsDone(w.gets, w.puts, w.jobs[t])
  {
    StillIff(w);
    if t < w.turn {
      forall i: nat | i < t && w.jobs[i].ForGet?
        ensures w.jobs[i].getter < |w.gets| && Finished(w.gets[w.jobs[i].getter])
      {
        assert IsDone(w.gets, w.puts, w.jobs[i]);
      }
    }
  }

  /** The response to a get whose task is only put as `m` has ended exactly if it got its turn and `m` was put. */
  lemma EndsIff(w: World, id: string, m: Message, g: nat)
    requires Racing(w, id, m) && Orderly(w) && Still(w) && g < |w.gets| && w.gets[g].id == id
    ensures !w.gets[g].response.Failed?
    ensures w.gets[g].response.Returned? <==> (id, m) in w.puts && !w.gets[g].response.Queued?
  {
    StillIff(w);
    assert GetterOk(w.results.heap, w.puts, w.gets[g]);
    if (id, m) in w.puts {
      NobodyListens(w, id, m, g);
    }
  }

  // ---------- Runs

  /** The job that an event puts into line, if any. */
  ghost function Joins(w: World, e: Event): Option<Job> {
    match e
    case PutHere(m) => Some(ForPut(m))
    case DeleteHere(id) => Some(ForDelete(id))
    case Ask(id, _) => if id in w.results.promises then None else Some(ForGet(|w.gets|))
    case _ => None
  }

  /** The get has the connection or is in line for it. */
  ghost predicate Ahead(w: World, g: nat) {
    exists i: nat :: Released(w) <= i < |w.jobs| && w.jobs[i] == ForGet(g)
  }

  /** Jobs and gets keep their places and identifiers, and the line only moves on. */
  ghost predicate Continues(w: World, w': World) {
    && w.jobs <= w'.jobs && Released(w) <= Released(w')
    && |w.gets| <= |w'.gets|
    && (forall g | 0 <= g < |w.gets| :: w'.gets[g].id == w.gets[g].id && w'.gets[g].limit == w.gets[g].limit)
    && (forall g | 0 <= g < |w.gets| && !w.gets[g].response.Queued? :: !w'.gets[g].response.Queued?)
  }

  lemma NextContinues(w: World, e: Event)
    requires Possible(w, e) && Orderly(w)
    ensures Continues(w, Next(w, e))
  {
    NextOrderly(w, e);
    JobsStay(w, e);
  }

  lemma {:induction false} AfterContinues(w: World, events: seq<Event>)
    requires Orderly(w) && Legal(w, events)
    ensures Continues(w, After(w, events))
    decreases |events|
  {
    if events == [] {
    } else {
      NextContinues(w, events[0]);
      NextOrderly(w, events[0]);
      AfterContinues(Next(w, events[0]), events[1..]);
    }
  }

  /** After `earlier`, the first of `events` is a call; then the run goes on until nothing more can happen by itself. */
  ghost predicate CallIn(timeout: nat, earlier: seq<Event>, events: seq<Event>) {
    && Legal(Start(timeout), earlier) && Legal(After(Start(timeout), earlier), events)
    && events != [] && Still(After(After(Start(timeout), earlier), events))
  }

  /** Throughout, the result of the task is only put as `m`, and neither deleted, expired nor evicted. */
  ghost predicate FairCall(timeout: nat, earlier: seq<Event>, events: seq<Event>, id: string, m: Message)
    requires CallIn(timeout, earlier, events)
  {
    && IsUuid(id) && m.taskId == id
    && FairRun(Start(timeout), earlier, id, m) && FairRun(After(Start(timeout), earlier), events, id, m)
  }

  ghost predicate FairAhead(timeout: nat, earlier: seq<Event>, events: seq<Event>, of: string -> Message)
    requires CallIn(timeout, earlier, events)
  {
    var w := After(Start(timeout), earlier);
    forall g: nat | Ahead(w, g) && g < |w.gets| :: FairCall(timeout, earlier, events, w.gets[g].id, of(w.gets[g].id))
  }

  /** Every get that was ahead at the call gave up, or its task was put. */
  ghost predicate Cleared(w0: World, w: World, of: string -> Message) {
    forall g: nat | Ahead(w0, g) && g < |w.gets| :: w.gets[g].gaveUp || (w.gets[g].id, of(w.gets[g].id)) in w.puts
  }

  lemma CallRaces(timeout: nat, earlier: seq<Event>, events: seq<Event>, id: string, m: Message)
    requires CallIn(timeout, earlier, events) && FairCall(timeout, earlier, events, id, m)
    ensures Racing(After(After(Start(timeout), earlier), events), id, m)
  {
    AfterRacing(Start(timeout), earlier, id, m);
    AfterRacing(After(Start(timeout), earlier), events, id, m);
  }

  lemma CallKeeps(timeout: nat, earlier: seq<Event>, events: seq<Event>)
    requires CallIn(timeout, earlier, events)
    ensures var w0 := After(Start(timeout), earlier);
            var w := After(w0, events);
            Faithful(w) && Orderly(w0) && Orderly(w) && Continues(w0, w) && Continues(Next(w0, events[0]), w)
  {
    var w0 := After(Start(timeout), earlier);
    AfterFaithful(Start(timeout), earlier);
    AfterFaithful(w0, events);
    AfterOrderly(Start(timeout), earlier);
    AfterOrderly(w0, events);
    AfterContinues(w0, events);
    NextOrderly(w0, events[0]);
    AfterContinues(Next(w0, events[0]), events[1..]);
  }

  lemma ClearedIfFinished(w0: World, w: World, t: nat, g: nat, m: Message)
    requires Continues(w0, w) && Orderly(w) && Still(w) && t == |w0.jobs| <= |w.jobs| && FinishedBefore(w, t)
    requires Ahead(w0, g) && g < |w.gets| && Racing(w, w.gets[g].id, m)
    ensures w.gets[g].gaveUp || (w.gets[g].id, m) in w.puts
  {
    var i: nat :| Released(w0) <= i < |w0.jobs| && w0.jobs[i] == ForGet(g);
    assert w.jobs[i] == ForGet(g);
    EndsIff(w, w.gets[g].id, m, g);
  }

  /** If the connection is occupied in the end, the task that its holder listens for was not put. */
  lemma BlockerWasNotPut(w: World, m: Message)
    requires Orderly(w) && Still(w) && Occupied(w)
    requires Racing(w, w.gets[Holder(w).value.getter].id, m)
    ensures (w.gets[Holder(w).value.getter].id, m) !in w.puts
  {
    EndsIff(w, w.gets[Holder(w).value.getter].id, m, Holder(w).value.getter);
  }

  lemma OccupiedIsNotCleared(w0: World, w: World, of: string -> Message)
    requires Continues(w0, w) && Orderly(w) && Still(w) && Occupied(w) && w.turn <= |w0.jobs|
    requires forall g: nat | Ahead(w0, g) && g < |w.gets| :: Racing(w, w.gets[g].id, of(w.gets[g].id))
    ensures !Cleared(w0, w, of)
  {
    var g := Holder(w).value.getter;
    assert w0.jobs[w.turn - 1] == ForGet(g) && Released(w0) <= w.turn - 1;
    BlockerWasNotPut(w, of(w.gets[g].id));
  }

  /** The gets that were ahead decide about the turn of a job that joins the line. */
  lemma AheadDecide(w0: World, w: World, t: nat, of: string -> Message)
    requires Continues(w0, w) && Orderly(w0) && Orderly(w) && Still(w) && Faithful(w)
    requires t == |w0.jobs| < |w.jobs|
    requires forall g: nat | Ahead(w0, g) && g < |w.gets| :: Racing(w, w.gets[g].id, of(w.gets[g].id))
    ensures t < w.turn <==> Cleared(w0, w, of)
  {
    TurnComesIff(w, t);
    if t < w.turn {
      forall g: nat | Ahead(w0, g) && g < |w.gets|
        ensures w.gets[g].gaveUp || (w.gets[g].id, of(w.gets[g].id)) in w.puts
      {
        ClearedIfFinished(w0, w, t, g, of(w.gets[g].id));
      }
    } else {
      StillIff(w);
      OccupiedIsNotCleared(w0, w, of);
    }
  }

  /**
   * A put, a delete or a get of an unknown task has its turn if and only if every get that had the connection or was
   * in line for it at the call gave up or had its task put. Otherwise it is still in line.
   */
  lemma TurnCameIff(timeout: nat, earlier: seq<Event>, events: seq<Event>, of: string -> Message)
    requires CallIn(timeout, earlier, events) && FairAhead(timeout, earlier, events, of)
    requires Joins(After(Start(timeout), earlier), events[0]).Some?
    ensures var w0 := After(Start(timeout), earlier);
            var w := After(w0, events);
            && |w0.jobs| < |w.jobs| && Some(w.jobs[|w0.jobs|]) == Joins(w0, events[0])
            && (|w0.jobs| < w.turn <==> Cleared(w0, w, of))
  {
    var w0 := After(Start(timeout), earlier);
    var w := After(w0, events);
    CallKeeps(timeout, earlier, events);
    var w1 := Next(w0, events[0]);
    assert w1.jobs == w0.jobs + [Joins(w0, events[0]).value];
    assert w.jobs[|w0.jobs|] == w1.jobs[|w0.jobs|];
    forall g: nat | Ahead(w0, g) && g < |w.gets|
      ensures Racing(w, w.gets[g].id, of(w.gets[g].id))
    {
      assert g < |w0.gets|;
      CallRaces(timeout, earlier, events, w0.gets[g].id, of(w0.gets[g].id));
    }
    AheadDecide(w0, w, |w0.jobs|, of);
  }

  /** So a put through the backend goes out exactly then. */
  lemma PutGoesOutIff(timeout: nat, earlier: seq<Event>, events: seq<Event>, of: string -> Message, m: Message)
    requires CallIn(timeout, earlier, events) && FairAhead(timeout, earlier, events, of)
    requires events[0] == PutHere(m)
    ensures var w0 := After(Start(timeout), earlier);
            var w := After(w0, events);
            var t := |w0.jobs|;
            if Cleared(w0, w, of) then t < Released(w) && (m.taskId, m) in w.puts
            else w.turn <= t < |w.jobs| && w.jobs[t] == ForPut(m)
  {
    TurnCameIff(timeout, earlier, events, of);
    CallKeeps(timeout, earlier, events);
    var w := After(After(Start(timeout), earlier), events);
    TurnComesIff(w, |After(Start(timeout), earlier).jobs|);
    StillIff(w);
  }

  /**
   * And a get has returned if and only if its task was put, it did not give up, and the map knew its task when it was
   * asked or the gets ahead of it gave up or had theirs put.
   */
  lemma GetReturnsIff(timeout: nat, earlier: seq<Event>, events: seq<Event>, of: string -> Message, m: Message)
    requires CallIn(timeout, earlier, events) && events[0].Ask?
    requires FairCall(timeout, earlier, events, events[0].id, m)
    requires events[0].id !in After(Start(timeout), earlier).results.promises ==>
               FairAhead(timeout, earlier, events, of)
    ensures var w0 := After(Start(timeout), earlier);
            var w := After(w0, events);
            var id, g := events[0].id, |w0.gets|;
            && g < |w.gets| && w.gets[g].id == id
            && (HasReturned(w.gets[g]) <==>
                  (id, m) in w.puts && !w.gets[g].gaveUp && (id in w0.results.promises || Cleared(w0, w, of)))
  {
    var w0 := After(Start(timeout), earlier);
    var w := After(w0, events);
    var g := |w0.gets|;
    CallKeeps(timeout, earlier, events);
    CallRaces(timeout, earlier, events, events[0].id, m);
    EndsIff(w, events[0].id, m, g);
    if events[0].id !in w0.results.promises {
      TurnCameIff(timeout, earlier, events, of);
      assert w.jobs[|w0.jobs|] == ForGet(g) && PlacedAt(w.gets[g], |w0.jobs| < w.turn);
    }
  }

  // ---------- All gets

  /** For every get, its task is only ever put as `of` says, and is not deleted, expired or evicted. */
  ghost predicate AllFair(timeout: nat, events: seq<Event>, of: string -> Message)
    requires Legal(Start(timeout), events)
  {
    var w := After(Start(timeout), events);
    forall g: nat | g < |w.gets| ::
      var id := w.gets[g].id;
      IsUuid(id) && of(id).taskId == id && FairRun(Start(timeout), events, id, of(id))
  }

  /**
   * When nothing more can happen by itself, all gets that did not give up have returned if and only if the tasks of
   * all of them were put: gets may hold each other up, but only for want of a result.
   */
  lemma AllGetsReturnIff(timeout: nat, events: seq<Event>, of: string -> Message)
    requires Legal(Start(timeout), events) && Still(After(Start(timeout), events)) && AllFair(timeout, events, of)
    ensures var w := After(Start(timeout), events);
            (forall g: nat | g < |w.gets| :: HasReturned(w.gets[g]) || w.gets[g].gaveUp)
            <==> (forall g: nat | g < |w.gets| :: w.gets[g].gaveUp || (w.gets[g].id, of(w.gets[g].id)) in w.puts)
  {
    var w := After(Start(timeout), events);
    AfterFaithful(Start(timeout), events);
    AfterOrderly(Start(timeout), events);
    StillIff(w);
    forall g: nat | g < |w.gets|
      ensures Racing(w, w.gets[g].id, of(w.gets[g].id))
    {
      StartRacing(timeout, events, w.gets[g].id, of(w.gets[g].id));
    }
    AllReturnIff(w, of);
  }

  lemma AllReturnIff(w: World, of: string -> Message)
    requires Faithful(w) && Orderly(w) && Still(w)
    requires forall g: nat | g < |w.gets| :: Racing(w, w.gets[g].id, of(w.gets[g].id))
    ensures (forall g: nat | g < |w.gets| :: HasReturned(w.gets[g]) || w.gets[g].gaveUp)
            <==> (forall g: nat | g < |w.gets| :: w.gets[g].gaveUp || (w.gets[g].id, of(w.gets[g].id)) in w.puts)
  {
    StillIff(w);
    forall g: nat | g < |w.gets|
      ensures w.gets[g].response.Returned?
              <==> (w.gets[g].id, of(w.gets[g].id)) in w.puts && !w.gets[g].response.Queued?
      ensures w.gets[g].response.Queued? ==> Occupied(w)
    {
      EndsIff(w, w.gets[g].id, of(w.gets[g].id), g);
      if w.gets[g].response.Queued? {
        assert ForGet(g) in w.jobs;
      }
    }
    if Occupied(w) {
      BlockerWasNotPut(w, of(w.gets[Holder(w).value.getter].id));
    }
  }
}
