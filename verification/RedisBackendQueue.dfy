/** The line for the backend's connection: who waits in it, who has it, and what was done in turn. */
module RedisBackendQueue {
  import opened Wrappers
  import opened RedisBackendSpec

  // ---------- Invariants

  /** The gets in line are numbered in the order in which they came. */
  ghost predicate Numbered(jobs: seq<Job>, n: nat) {
    && (forall i | 0 <= i < |jobs| && jobs[i].ForGet? :: jobs[i].getter < n)
    && (forall i, j | 0 <= i < j < |jobs| && jobs[i].ForGet? && jobs[j].ForGet? :: jobs[i].getter < jobs[j].getter)
  }

  /** A get is queued until its turn, and is granted the connection then. */
  ghost predicate PlacedAt(g: Getter, hadTurn: bool) {
    (g.response.Queued? <==> !hadTurn) && (g.granted.Some? <==> hadTurn)
  }

  ghost predicate Placed(gets: seq<Getter>, jobs: seq<Job>, turn: nat) {
    && turn <= |jobs|
    && (forall i | 0 <= i < |jobs| && jobs[i].ForGet? ::
          jobs[i].getter < |gets| && PlacedAt(gets[jobs[i].getter], i < turn))
    && (forall g: nat | g < |gets| && (gets[g].response.Queued? || gets[g].granted.Some?) :: ForGet(g) in jobs)
  }

  /** How many jobs have given the connection back. */
  function Released(w: World): nat {
    if w.busy && w.turn > 0 then w.turn - 1 else w.turn
  }

  ghost predicate IsDone(gets: seq<Getter>, puts: set<(string, Message)>, job: Job) {
    match job
    case ForGet(g) => g < |gets| && Finished(gets[g])
    case ForPut(m) => (m.taskId, m) in puts
    case ForDelete(_) => true
  }

  ghost predicate Through(w: World) {
    && (w.busy ==> w.turn > 0) && w.turn <= |w.jobs|
    && (forall i: nat | i < Released(w) :: IsDone(w.gets, w.puts, w.jobs[i]))
  }

  ghost predicate Orderly(w: World) {
    Numbered(w.jobs, |w.gets|) && Placed(w.gets, w.jobs, w.turn) && Through(w)
  }

  // ---------- Every event keeps them

  /** Getters that stay where they are in line, and new ones that are not in line. */
  ghost predicate SamePlaces(gets: seq<Getter>, gets': seq<Getter>) {
    && |gets| <= |gets'|
    && (forall g | 0 <= g < |gets| ::
          gets'[g].response.Queued? == gets[g].response.Queued? && gets'[g].granted == gets[g].granted)
    && (forall g | |gets| <= g < |gets'| :: !gets'[g].response.Queued? && gets'[g].granted.None?)
  }

  lemma SamePlacesPlaced(gets: seq<Getter>, gets': seq<Getter>, jobs: seq<Job>, turn: nat)
    requires Placed(gets, jobs, turn) && SamePlaces(gets, gets')
    ensures Placed(gets', jobs, turn)
  {
  }

  lemma JoinPlaced(gets: seq<Getter>, jobs: seq<Job>, turn: nat, id: string, limit: Option<nat>)
    requires Placed(gets, jobs, turn)
    ensures Placed(gets + [Getter(id, limit, None, Queued, false)], jobs + [ForGet(|gets|)], turn)
  {
    var gets', jobs' := gets + [Getter(id, limit, None, Queued, false)], jobs + [ForGet(|gets|)];
    forall g: nat | g < |gets'| && (gets'[g].response.Queued? || gets'[g].granted.Some?)
      ensures ForGet(g) in jobs'
    {
      assert jobs'[|jobs|] == ForGet(|gets|);
      assert g < |gets| ==> ForGet(g) in jobs;
    }
  }

  lemma OtherJobPlaced(gets: seq<Getter>, jobs: seq<Job>, turn: nat, job: Job)
    requires Placed(gets, jobs, turn) && !job.ForGet?
    ensures Placed(gets, jobs + [job], turn)
  {
    assert forall g: nat | g < |gets| && ForGet(g) in jobs :: ForGet(g) in jobs + [job];
  }

  lemma TurnPlaced(gets: seq<Getter>, jobs: seq<Job>, turn: nat, clock: nat)
    requires Placed(gets, jobs, turn) && Numbered(jobs, |gets|) && turn < |jobs|
    ensures jobs[turn].ForGet? ==>
              var g := jobs[turn].getter;
              Placed(gets[g := gets[g].(response := Sent, granted := Some(clock))], jobs, turn + 1)
    ensures !jobs[turn].ForGet? ==> Placed(gets, jobs, turn + 1)
  {
    if jobs[turn].ForGet? {
      var g := jobs[turn].getter;
      var gets' := gets[g := gets[g].(response := Sent, granted := Some(clock))];
      forall i | 0 <= i < |jobs| && jobs[i].ForGet?
        ensures PlacedAt(gets'[jobs[i].getter], i < turn + 1)
      {
        assert i < turn ==> jobs[i].getter < g;
        assert turn < i ==> g < jobs[i].getter;
      }
    }
  }

  /** Only a new job, or a turn, changes a place in line. */
  lemma NextSamePlaces(w: World, e: Event)
    requires Possible(w, e) && !e.PutHere? && !e.DeleteHere? && !e.Grant?
    requires e.Ask? ==> e.id in w.results.promises
    ensures SamePlaces(w.gets, Next(w, e).gets) && Next(w, e).jobs == w.jobs && Next(w, e).turn == w.turn
  {
  }

  lemma NextPlaced(w: World, e: Event)
    requires Orderly(w) && Possible(w, e)
    ensures Placed(Next(w, e).gets, Next(w, e).jobs, Next(w, e).turn)
  {
    if e.PutHere? {
      OtherJobPlaced(w.gets, w.jobs, w.turn, ForPut(e.message));
    } else if e.DeleteHere? {
      OtherJobPlaced(w.gets, w.jobs, w.turn, ForDelete(e.id));
    } else if e.Grant? {
      TurnPlaced(w.gets, w.jobs, w.turn, w.results.clock);
    } else if e.Ask? && e.id !in w.results.promises {
      JoinPlaced(w.gets, w.jobs, w.turn, e.id, e.limit);
    } else {
      NextSamePlaces(w, e);
      SamePlacesPlaced(w.gets, Next(w, e).gets, w.jobs, w.turn);
    }
  }

  lemma NextNumbered(w: World, e: Event)
    requires Numbered(w.jobs, |w.gets|) && Possible(w, e)
    ensures Numbered(Next(w, e).jobs, |Next(w, e).gets|)
  {
  }

  /** What has finished stays finished, and what was put stays put. */
  lemma FinishedStays(w: World, e: Event, job: Job)
    requires Possible(w, e) && IsDone(w.gets, w.puts, job)
    requires e.Grant? && w.jobs[w.turn].ForGet? ==> w.jobs[w.turn] != job
    ensures IsDone(Next(w, e).gets, Next(w, e).puts, job)
  {
  }

  lemma JobsStay(w: World, e: Event)
    requires Possible(w, e)
    ensures w.jobs <= Next(w, e).jobs
  {
  }

  lemma NextThrough(w: World, e: Event)
    requires Orderly(w) && Possible(w, e)
    ensures Through(Next(w, e))
  {
    var w' := Next(w, e);
    JobsStay(w, e);
    forall i: nat | i < Released(w')
      ensures IsDone(w'.gets, w'.puts, w'.jobs[i])
    {
      if i < Released(w) {
        assert IsDone(w.gets, w.puts, w.jobs[i]);
        FinishedStays(w, e, w.jobs[i]);
      } else {
        assert i == w.turn - 1 && (e.Transact? || e.Release?);
      }
    }
  }

  lemma NextOrderly(w: World, e: Event)
    requires Orderly(w) && Possible(w, e)
    ensures Orderly(Next(w, e))
  {
    NextNumbered(w, e);
    NextPlaced(w, e);
    NextThrough(w, e);
  }

  lemma {:induction false} AfterOrderly(w: World, events: seq<Event>)
    requires Orderly(w) && Legal(w, events)
    ensures Orderly(After(w, events))
    decreases |events|
  {
    if events == [] {
    } else {
      NextOrderly(w, events[0]);
      AfterOrderly(Next(w, events[0]), events[1..]);
    }
  }

  // ---------- Timeouts

  ghost predicate InTime(w: World) {
    forall g | 0 <= g < |w.gets| && w.gets[g].gaveUp :: TimeIsUp(w.gets[g], w.results.clock)
  }

  lemma {:induction false} AfterInTime(w: World, events: seq<Event>)
    requires InTime(w) && Orderly(w) && Legal(w, events)
    ensures InTime(After(w, events))
    decreases |events|
  {
    if events == [] {
    } else {
      NextInTime(w, events[0]);
      NextOrderly(w, events[0]);
      AfterInTime(Next(w, events[0]), events[1..]);
    }
  }

  lemma NextInTime(w: World, e: Event)
    requires InTime(w) && Orderly(w) && Possible(w, e)
    ensures InTime(Next(w, e))
  {
  }

  /** In every run, a get gives up only if it has a timeout and was granted the connection at least that long ago. */
  lemma TimeoutsAreNeverEarly(timeout: nat, events: seq<Event>, g: nat)
    requires Legal(Start(timeout), events)
    requires var w := After(Start(timeout), events); g < |w.gets| && w.gets[g].gaveUp
    ensures var w := After(Start(timeout), events);
            && w.gets[g].limit.Some? && w.gets[g].granted.Some?
            && w.gets[g].granted.value + w.gets[g].limit.value <= w.results.clock
  {
    AfterInTime(Start(timeout), events);
  }
}
