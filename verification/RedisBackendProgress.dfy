/**
 * Whether gets and puts over Redis come to an end. The backend's one connection is kept by a get while it listens, so
 * a get whose result is never put holds up whatever is in line behind it.
 */
module RedisBackendProgress {
  import opened Wrappers
  import opened PromiseMapSpec
  import opened PromiseMapValues
  import opened RedisBackendSpec
  import opened RedisBackendLaws
  import opened RedisBackendQueue

  // ---------- Where it stops

  /** The steps that are taken on behalf of gets, puts and messages, not by new callers, timers or the clock. */
  predicate Internal(e: Event) {
    e.Grant? || e.Transact? || e.Release? || e.Serve? || e.Receive? || e.Deliver? || e.Finish? || e.Wake?
  }

  ghost predicate Still(w: World) {
    forall e | Internal(e) :: !Possible(w, e)
  }

  /** The response listens for what is not there. */
  ghost predicate Hears(w: World, g: nat)
    requires g < |w.gets|
  {
    w.gets[g].response.Listening? && OutcomeOf(w.results.heap, w.gets[g].response.promise).None?
  }

  /** The connection's holder listens for what is not there, and has not given up. */
  ghost predicate Occupied(w: World) {
    && Holder(w).Some? && Holder(w).value.ForGet? && Holder(w).value.getter < |w.gets|
    && !w.gets[Holder(w).value.getter].gaveUp && Hears(w, Holder(w).value.getter)
  }

  /** All is delivered, and every response has ended, listens for what is not there, or is queued. */
  ghost predicate Delivered(w: World) {
    && w.wire == [] && w.results.tasks == map[]
    && (forall g: nat | g < |w.gets| :: Ended(w.gets[g].response) || Hears(w, g) || w.gets[g].response.Queued?)
  }

  /** Unless all is delivered and the line is empty or its head is occupied, some step can be taken. */
  lemma UnlessSettledOrBlocked(w: World) returns (e: Event)
    requires Faithful(w) && Orderly(w)
    requires !Delivered(w) || !(Occupied(w) || (!w.busy && w.turn == |w.jobs|))
    ensures Internal(e) && Possible(w, e)
  {
    if w.wire != [] {
      e := Deliver;
    } else if t :| t in w.results.tasks {
      e := Finish(t, Value(w.results.tasks[t].source.value));
    } else if g: nat :| g < |w.gets| && !Ended(w.gets[g].response) && !Hears(w, g) && !w.gets[g].response.Queued? {
      var r := w.gets[g].response;
      e := if r.Sent? then Serve(g) else if r.Replied? then Receive(g) else Wake(g);
    } else if !w.busy {
      e := Grant;
    } else if !Holder(w).value.ForGet? {
      e := Transact;
    } else {
      e := Release;
    }
  }

  /** And when that is so, none can. */
  lemma StillIff(w: World)
    requires Faithful(w) && Orderly(w)
    ensures Still(w) <==> Delivered(w) && (Occupied(w) || (!w.busy && w.turn == |w.jobs|))
  {
    if !Delivered(w) || !(Occupied(w) || (!w.busy && w.turn == |w.jobs|)) {
      var e := UnlessSettledOrBlocked(w);
    }
  }

  // ---------- It does stop

  /** How many steps of its own a get has ahead of it, the grant and the release of the connection among them. */
  function Stages(r: Response): nat {
    match r
    case Queued => 5
    case Sent => 3
    case Replied(_) => 2
    case Listening(_) => 1
    case _ => 0
  }

  function AllStages(gets: seq<Getter>): nat {
    if gets == [] then 0 else AllStages(gets[..|gets| - 1]) + Stages(gets[|gets| - 1].response)
  }

  function JobWork(jobs: seq<Job>): nat {
    if jobs == [] then 0 else (if jobs[0].ForGet? then 0 else 5) + JobWork(jobs[1..])
  }

  function HolderWork(holder: Option<Job>): nat {
    if holder.None? then 0 else if holder.value.ForGet? then 1 else 4
  }

  /** A published message is still to be delivered, and a delivered one to be completed. */
  ghost function Work(w: World): nat
    requires w.turn <= |w.jobs|
  {
    AllStages(w.gets) + JobWork(w.jobs[w.turn..]) + HolderWork(Holder(w)) + 2 * |w.wire| + |w.results.tasks.Keys|
  }

  /** What an event adds to the work. */
  function Brings(e: Event): nat {
    match e
    case Ask(_, _) => 5
    case PutHere(_) => 5
    case DeleteHere(_) => 5
    case Put(_) => 2
    case _ => 0
  }

  lemma {:induction false} StagesUpdate(gets: seq<Getter>, g: nat, to: Getter)
    requires g < |gets|
    ensures AllStages(gets[g := to]) == AllStages(gets) - Stages(gets[g].response) + Stages(to.response)
  {
    var n := |gets| - 1;
    if g == n {
      assert gets[g := to][..n] == gets[..n];
    } else {
      assert gets[g := to][..n] == gets[..n][g := to];
      StagesUpdate(gets[..n], g, to);
    }
  }

  lemma StagesAdd(gets: seq<Getter>, g: Getter)
    ensures AllStages(gets + [g]) == AllStages(gets) + Stages(g.response)
  {
    assert (gets + [g])[..|gets|] == gets;
  }

  lemma {:induction false} JobsAdd(jobs: seq<Job>, job: Job)
    ensures JobWork(jobs + [job]) == JobWork(jobs) + if job.ForGet? then 0 else 5
  {
    if jobs == [] {
      assert [job][1..] == [];
    } else {
      assert (jobs + [job])[1..] == jobs[1..] + [job];
      JobsAdd(jobs[1..], job);
    }
  }

  lemma ResolveTasks(results: Results, id: string, m: Message)
    ensures |Resolve(results, id, Plain(m)).tasks.Keys| <= |results.tasks.Keys| + 1
  {
    RestartKeeps(Resolving(results, id, Plain(m)), id);
    assert Resolving(results, id, Plain(m)).tasks.Keys == results.tasks.Keys + {|results.heap|};
  }

  lemma CompleteTasks(results: Results, t: nat, o: Outcome<Message>)
    requires t in results.tasks && t < |results.heap|
    ensures |Complete(results, t, o).tasks.Keys| == |results.tasks.Keys| - 1
  {
    assert (results.tasks - {t}).Keys == results.tasks.Keys - {t};
  }

  lemma NextTasks(w: World, e: Event)
    requires Possible(w, e)
    ensures |Next(w, e).results.tasks.Keys|
            <= |w.results.tasks.Keys| + if e.Deliver? then 1 else if e.Finish? then -1 else 0
  {
    NextResults(w, e);
    match e
    case Deliver =>
      var id := MatchChannel(w.wire[0].0);
      if id.Some? {
        ResolveTasks(w.results, id.value, w.wire[0].1);
      }
    case Finish(t, o) => CompleteTasks(w.results, t, o);
    case _ =>
  }

  /** How many stages an event leaves behind, or adds. */
  ghost function Passes(w: World, e: Event): int
    requires Possible(w, e)
  {
    match e
    case Ask(_, _) => -5
    case Grant => if w.jobs[w.turn].ForGet? then 2 else 0
    case Serve(_) => 1
    case Receive(_) => 1
    case Wake(_) => 1
    case _ => 0
  }

  lemma ActedStages(w: World, e: Event, g: nat)
    requires Orderly(w) && Possible(w, e) && !e.Ask? && Acted(w, e) == Some(g)
    ensures g < |w.gets| && g < |Next(w, e).gets|
    ensures Stages(Next(w, e).gets[g].response) <= Stages(w.gets[g].response) - Passes(w, e)
    ensures Next(w, e).gets == w.gets[g := Next(w, e).gets[g]]
  {
  }

  lemma NextStages(w: World, e: Event)
    requires Orderly(w) && Possible(w, e)
    ensures AllStages(Next(w, e).gets) <= AllStages(w.gets) - Passes(w, e)
  {
    if e.Ask? {
      StagesAdd(w.gets, Next(w, e).gets[|w.gets|]);
    } else if Acted(w, e).Some? {
      var g := Acted(w, e).value;
      ActedStages(w, e, g);
      StagesUpdate(w.gets, g, Next(w, e).gets[g]);
    }
  }

  lemma NextLineWork(w: World, e: Event)
    requires Orderly(w) && Possible(w, e)
    ensures var w' := Next(w, e);
            && w'.turn <= |w'.jobs|
            && JobWork(w'.jobs[w'.turn..]) + HolderWork(Holder(w'))
               <= JobWork(w.jobs[w.turn..]) + HolderWork(Holder(w))
                  + match e
                    case PutHere(_) => 5
                    case DeleteHere(_) => 5
                    case Grant => if w.jobs[w.turn].ForGet? then 1 else -1
                    case Transact => -4
                    case Release => -1
                    case _ => 0
  {
    var w' := Next(w, e);
    if |w'.jobs| > |w.jobs| {
      assert w'.jobs[w.turn..] == w.jobs[w.turn..] + [w'.jobs[|w.jobs|]];
      JobsAdd(w.jobs[w.turn..], w'.jobs[|w.jobs|]);
    } else if e.Grant? {
      assert w.jobs[w.turn..][1..] == w.jobs[w.turn + 1..];
    }
  }

  /** A new get, put or delete brings work; every step taken on their behalf does some. */
  lemma NextWork(w: World, e: Event)
    requires Orderly(w) && Possible(w, e)
    ensures Next(w, e).turn <= |Next(w, e).jobs|
    ensures Work(Next(w, e)) + (if Internal(e) then 1 else 0) <= Work(w) + Brings(e)
  {
    NextTasks(w, e);
    NextStages(w, e);
    NextLineWork(w, e);
  }

  function Internals(events: seq<Event>): nat {
    if events == [] then 0 else (if Internal(events[0]) then 1 else 0) + Internals(events[1..])
  }

  function Brought(events: seq<Event>): nat {
    if events == [] then 0 else Brings(events[0]) + Brought(events[1..])
  }

  lemma {:induction false} WorkIsBounded(w: World, events: seq<Event>)
    requires Orderly(w) && Legal(w, events)
    ensures Orderly(After(w, events))
    ensures Internals(events) + Work(After(w, events)) <= Work(w) + Brought(events)
    decreases |events|
  {
    if events == [] {
    } else {
      NextOrderly(w, events[0]);
      NextWork(w, events[0]);
      WorkIsBounded(Next(w, events[0]), events[1..]);
    }
  }

  /**
   * In any order, at most five steps are taken for each get, put and delete of the backend, and two for the put of
   * another client; so a run in which nobody calls any more becomes still.
   */
  lemma DeliveryEnds(timeout: nat, events: seq<Event>)
    requires Legal(Start(timeout), events)
    ensures Internals(events) <= Brought(events)
  {
    WorkIsBounded(Start(timeout), events);
  }
}
