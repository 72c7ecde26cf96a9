/** Which gets over Redis can time out, among any number of gets, puts and deletes that share the connection. */
module RedisBackendTimeouts {
  import opened Wrappers
  import opened RedisBackendSpec
  import opened RedisBackendQueue
  import opened RedisBackendOutcomes
  import opened RedisBackendStuck
  import opened RedisBackendTurns

  /** The get was started without the connection. */
  ghost predicate Unpooled(w: World, g: nat) {
    g < |w.gets| && w.gets[g].granted.None? && ForGet(g) !in w.jobs
  }

  lemma {:induction false} StaysUnpooled(w: World, events: seq<Event>, g: nat)
    requires Unpooled(w, g) && Legal(w, events)
    ensures Unpooled(After(w, events), g)
    decreases |events|
  {
    if events == [] {
    } else {
      NextUnpooled(w, events[0], g);
      StaysUnpooled(Next(w, events[0]), events[1..], g);
    }
  }

  lemma NextUnpooled(w: World, e: Event, g: nat)
    requires Unpooled(w, g) && Possible(w, e)
    ensures Unpooled(Next(w, e), g)
  {
  }

  ghost predicate TimesOut(w: World, events: seq<Event>, g: nat) {
    Legal(w, events) && g < |After(w, events).gets| && After(w, events).gets[g].gaveUp
  }

  lemma KnownNeverTimesOut(w: World, id: string, limit: Option<nat>, events: seq<Event>)
    requires Well(w) && id in w.results.promises && Legal(Next(w, Ask(id, limit)), events)
    ensures !TimesOut(Next(w, Ask(id, limit)), events, |w.gets|)
  {
    NextWell(w, Ask(id, limit));
    AfterWell(Next(w, Ask(id, limit)), events);
    StaysUnpooled(Next(w, Ask(id, limit)), events, |w.gets|);
  }

  lemma UnlimitedNeverTimesOut(w: World, id: string, events: seq<Event>)
    requires Well(w) && Legal(Next(w, Ask(id, None)), events)
    ensures !TimesOut(Next(w, Ask(id, None)), events, |w.gets|)
  {
    NextWell(w, Ask(id, None));
    AfterWell(Next(w, Ask(id, None)), events);
    AfterContinues(Next(w, Ask(id, None)), events);
  }

  lemma StuckNeverTimesOut(w: World, id: string, limit: Option<nat>, events: seq<Event>)
    requires Well(w) && Stuck(w) && id !in w.results.promises && Legal(Next(w, Ask(id, limit)), events)
    ensures !TimesOut(Next(w, Ask(id, limit)), events, |w.gets|)
  {
    var w1 := Next(w, Ask(id, limit));
    var w' := After(w1, events);
    JoinedIsStuckIff(w, Ask(id, limit));
    NextWell(w, Ask(id, limit));
    AfterWell(w1, events);
    AfterContinues(w1, events);
    StuckForGood(w1, events);
    assert w'.jobs[|w.jobs|] == w1.jobs[|w.jobs|] == ForGet(|w.gets|);
    assert PlacedAt(w'.gets[|w.gets|], false);
  }

  lemma CanTimeOut(w: World, id: string, limit: nat) returns (events: seq<Event>)
    requires Well(w) && !Stuck(w) && id !in w.results.promises
    ensures TimesOut(Next(w, Ask(id, Some(limit))), events, |w.gets|)
  {
    var w1, g := Next(w, Ask(id, Some(limit))), |w.gets|;
    JoinedIsStuckIff(w, Ask(id, Some(limit)));
    NextWell(w, Ask(id, Some(limit)));
    var before, w2 := TurnCanCome(w1, |w.jobs|);
    AfterWell(w1, before);
    AfterContinues(w1, before);
    if w2.gets[g].gaveUp {
      events := before;
    } else {
      var after, w3 := FinishLimited(w2, g);
      RunThen(w1, before, w2, after, w3);
      events := before + after;
    }
  }

  /**
   * Asked for after any run, a get times out in some continuation if and only if it has a timeout, the map did not
   * have its task, and the connection was not held by a get that waits in vain.
   */
  lemma TimesOutIff(timeout: nat, earlier: seq<Event>, id: string, limit: Option<nat>)
    requires Legal(Start(timeout), earlier)
    ensures var w := After(Start(timeout), earlier);
            (exists events :: TimesOut(Next(w, Ask(id, limit)), events, |w.gets|))
            <==> limit.Some? && id !in w.results.promises && !Stuck(w)
  {
    var w := After(Start(timeout), earlier);
    StartWell(timeout, earlier);
    if limit.Some? && id !in w.results.promises && !Stuck(w) {
      var events := CanTimeOut(w, id, limit.value);
    } else {
      forall events | Legal(Next(w, Ask(id, limit)), events)
        ensures !TimesOut(Next(w, Ask(id, limit)), events, |w.gets|)
      {
        if id in w.results.promises {
          KnownNeverTimesOut(w, id, limit, events);
        } else if limit.None? {
          UnlimitedNeverTimesOut(w, id, events);
        } else {
          StuckNeverTimesOut(w, id, limit, events);
        }
      }
    }
  }
}
