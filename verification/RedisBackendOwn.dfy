/** What a backend can and cannot do for its own gets, which share the connection with its puts. */
module RedisBackendOwn {
  import opened Wrappers
  import opened PromiseMapSpec
  import opened PromiseMapRuns
  import opened RedisBackendSpec
  import opened RedisBackendLaws
  import opened RedisBackendRace
  import opened RedisBackendQueue
  import opened RedisBackendOutcomes
  import opened RedisBackendStuck

  // ---------- A listener holds up its own backend

  /** Whatever this backend's callers and the runtime do; no other client puts or deletes, and nothing expires. */
  predicate Own(e: Event) {
    !e.Put? && !e.Expire?
  }

  ghost predicate AllOwn(events: seq<Event>) {
    events != [] ==> Own(events[0]) && AllOwn(events[1..])
  }

  /** A get listens with the connection, for a task that nothing was delivered for, and nothing is on its way. */
  ghost predicate HeldUp(w: World, g: nat) {
    && Holds(w, g) && !w.gets[g].gaveUp && w.gets[g].response.Listening?
    && ListensToOwn(w, g) && Untouched(w.results, w.gets[g].id) && w.wire == []
  }

  lemma NextHeldUp(w: World, e: Event, g: nat)
    requires Faithful(w) && HeldUp(w, g) && Possible(w, e) && Own(e)
    ensures e == GiveUp(g) || (HeldUp(Next(w, e), g) && Next(w, e).turn == w.turn && Next(w, e).puts == w.puts)
  {
    HoldsStays(w, e, g);
    if e != GiveUp(g) {
      NextUntouched(w, e, w.gets[g].id);
      NextListensToOwn(w, e, g);
      if Acted(w, e) != Some(g) {
        OthersUntouched(w, e, g);
      }
    }
  }

  lemma {:induction false} GaveUpStays(w: World, events: seq<Event>, g: nat)
    requires Legal(w, events) && g < |w.gets| && w.gets[g].gaveUp
    ensures g < |After(w, events).gets| && After(w, events).gets[g].gaveUp
    decreases |events|
  {
    if events == [] {
    } else {
      NextGaveUp(w, events[0], g);
      GaveUpStays(Next(w, events[0]), events[1..], g);
    }
  }

  lemma NextGaveUp(w: World, e: Event, g: nat)
    requires Possible(w, e) && g < |w.gets| && w.gets[g].gaveUp
    ensures g < |Next(w, e).gets| && Next(w, e).gets[g].gaveUp
  {
  }

  /**
   * Whatever the backend itself goes on to do, the get never returns: it gives up, or it still listens, nothing more
   * was put, and nothing behind it had its turn.
   */
  lemma {:induction false} ListenerHoldsUpItsBackend(w: World, events: seq<Event>, g: nat)
    requires Faithful(w) && HeldUp(w, g) && Legal(w, events) && AllOwn(events)
    ensures var w' := After(w, events);
            && g < |w'.gets| && !HasReturned(w'.gets[g])
            && (w'.gets[g].gaveUp || (HeldUp(w', g) && w'.turn == w.turn && w'.puts == w.puts))
    decreases |events|
  {
    if events == [] {
    } else {
      NextHeldUp(w, events[0], g);
      if events[0] == GiveUp(g) {
        GaveUpStays(Next(w, events[0]), events[1..], g);
      } else {
        NextFaithful(w, events[0]);
        ListenerHoldsUpItsBackend(Next(w, events[0]), events[1..], g);
      }
    }
  }

  /** That is where a get gets when no result is there yet; without a UUID and a timeout, it is stuck there for good. */
  lemma ListenersGetHeldUp(timeout: nat, id: string, limit: Option<nat>)
    ensures var w := Listener(timeout, id, limit);
            Faithful(w) && HeldUp(w, 0) && (Stuck(w) <==> !IsUuid(id) && limit.None?)
  {
    var w := Listener(timeout, id, limit);
    ApplySound(Init<string, Message>(Some(timeout)), OpGet(id));
    assert !IsUuid(id) && limit.None? ==> Holds(w, 0) && WaitsInVain(w, 0);
  }

  // ---------- A put from behind never arrives

  ghost predicate NotPut(w: World, id: string) {
    forall pair | pair in w.puts :: pair.0 != id
  }

  ghost predicate NoPutIn(jobs: seq<Job>, id: string) {
    forall i | 0 <= i < |jobs| && jobs[i].ForPut? :: jobs[i].message.taskId != id
  }

  /** No other client puts the task. */
  ghost predicate NotPutByOthers(events: seq<Event>, id: string) {
    events != [] ==> !(events[0].Put? && events[0].message.taskId == id) && NotPutByOthers(events[1..], id)
  }

  /** The get came to the line before any put of its task, and has not returned. */
  ghost predicate InFront(w: World, g: nat, t: nat, id: string) {
    && g < |w.gets| && w.gets[g].id == id && !HasReturned(w.gets[g])
    && t < |w.jobs| && w.jobs[t] == ForGet(g) && NoPutIn(w.jobs[..t], id)
    && (Finished(w.gets[g]) || NotPut(w, id))
  }

  lemma NextInFront(w: World, e: Event, g: nat, t: nat, id: string)
    requires Faithful(w) && Orderly(w) && Possible(w, e) && InFront(w, g, t, id)
    requires !(e.Put? && e.message.taskId == id)
    ensures InFront(Next(w, e), g, t, id)
  {
    var w' := Next(w, e);
    NextContinues(w, e);
    assert w'.jobs[..t] == w.jobs[..t] && w'.jobs[t] == w.jobs[t];
    if Finished(w.gets[g]) {
      FinishedKeeps(w, e, g);
    } else {
      NextNotPut(w, e, g, t, id);
      NextFaithful(w, e);
      assert GetterOk(w'.results.heap, w'.puts, w'.gets[g]);
    }
  }

  lemma FinishedKeeps(w: World, e: Event, g: nat)
    requires Possible(w, e) && g < |w.gets| && Finished(w.gets[g]) && !HasReturned(w.gets[g])
    requires e.Grant? && w.jobs[w.turn] == ForGet(g) ==> w.gets[g].response.Queued?
    ensures var g' := Next(w, e).gets; g < |g'| && Finished(g'[g]) && !HasReturned(g'[g])
  {
  }

  lemma NextNotPut(w: World, e: Event, g: nat, t: nat, id: string)
    requires Orderly(w) && Possible(w, e) && InFront(w, g, t, id) && !Finished(w.gets[g])
    requires !(e.Put? && e.message.taskId == id)
    ensures NotPut(Next(w, e), id)
  {
    UnfinishedIsNotReleased(w, g, t);
    if e.Transact? {
      assert w.jobs[..t][w.turn - 1] == w.jobs[w.turn - 1];
    }
  }

  lemma UnfinishedIsNotReleased(w: World, g: nat, t: nat)
    requires Orderly(w) && t < |w.jobs| && w.jobs[t] == ForGet(g) && g < |w.gets| && !Finished(w.gets[g])
    ensures Released(w) <= t
  {
    assert t < Released(w) ==> IsDone(w.gets, w.puts, w.jobs[t]);
  }

  lemma {:induction false} AfterInFront(w: World, events: seq<Event>, g: nat, t: nat, id: string)
    requires Faithful(w) && Orderly(w) && Legal(w, events) && InFront(w, g, t, id) && NotPutByOthers(events, id)
    ensures InFront(After(w, events), g, t, id)
    decreases |events|
  {
    if events == [] {
    } else {
      NextInFront(w, events[0], g, t, id);
      NextFaithful(w, events[0]);
      NextOrderly(w, events[0]);
      AfterInFront(Next(w, events[0]), events[1..], g, t, id);
    }
  }

  lemma AskedInFront(w: World, id: string, limit: Option<nat>)
    requires id !in w.results.promises && NotPut(w, id) && NoPutIn(w.jobs, id)
    ensures InFront(Next(w, Ask(id, limit)), |w.gets|, |w.jobs|, id)
  {
    assert Next(w, Ask(id, limit)).jobs[..|w.jobs|] == w.jobs;
  }

  /**
   * A get never returns what is put only through its own backend, and after it was asked, unless the map already knew
   * the task: in no run, with or without timeouts, deletions and other clients.
   */
  lemma OwnPutNeverArrives(timeout: nat, earlier: seq<Event>, id: string, limit: Option<nat>, events: seq<Event>)
    requires Legal(Start(timeout), earlier)
    requires var w := After(Start(timeout), earlier);
             && id !in w.results.promises && NotPut(w, id) && NoPutIn(w.jobs, id)
             && Legal(Next(w, Ask(id, limit)), events) && NotPutByOthers(events, id)
    ensures var w := After(Start(timeout), earlier);
            var w' := After(Next(w, Ask(id, limit)), events);
            |w.gets| < |w'.gets| && !HasReturned(w'.gets[|w.gets|])
  {
    var w := After(Start(timeout), earlier);
    AfterFaithful(Start(timeout), earlier);
    AfterOrderly(Start(timeout), earlier);
    NextFaithful(w, Ask(id, limit));
    NextOrderly(w, Ask(id, limit));
    AskedInFront(w, id, limit);
    AfterInFront(Next(w, Ask(id, limit)), events, |w.gets|, |w.jobs|, id);
  }
}
