/** What the backend's channels are, and what each step of a `get`, `put` or `delete` does, as a caller can see it. */
module RedisBackendSteps {
  import opened Wrappers
  import opened PromiseMapSpec
  import opened PromiseMapRuns
  import opened PromiseMapSteps
  import opened RedisBackendSpec
  import opened RedisBackendLaws

  // ---------- Channels

  predicate Hexadecimal(s: string, n: nat) {
    |s| == n && forall c | c in s :: c in "0123456789abcdefABCDEF"
  }

  /** The five groups of a UUID. */
  predicate HasGroups(id: string, a: string, b: string, c: string, d: string, e: string) {
    && id == a + "-" + b + "-" + c + "-" + d + "-" + e
    && Hexadecimal(a, 8) && Hexadecimal(b, 4) && Hexadecimal(c, 4) && Hexadecimal(d, 4) && Hexadecimal(e, 12)
  }

  ghost predicate IsTask(id: string) {
    exists a, b, c, d, e :: HasGroups(id, a, b, c, d, e)
  }

  lemma GroupsAreUuid(id: string, a: string, b: string, c: string, d: string, e: string)
    requires HasGroups(id, a, b, c, d, e)
    ensures IsUuid(id)
  {
    forall i | 0 <= i < 36
      ensures if i in {8, 13, 18, 23} then id[i] == '-' else IsHex(id[i])
    {
      if i < 8 {
        assert id[i] == a[i] && a[i] in a;
      } else if 8 < i < 13 {
        assert id[i] == b[i - 9] && b[i - 9] in b;
      } else if 13 < i < 18 {
        assert id[i] == c[i - 14] && c[i - 14] in c;
      } else if 18 < i < 23 {
        assert id[i] == d[i - 19] && d[i - 19] in d;
      } else if 23 < i {
        assert id[i] == e[i - 24] && e[i - 24] in e;
      }
    }
  }

  lemma SliceIsHexadecimal(s: string, from: nat, to: nat)
    requires from <= to <= |s| && forall i | from <= i < to :: IsHex(s[i])
    ensures Hexadecimal(s[from..to], to - from)
  {
    forall c | c in s[from..to]
      ensures c in "0123456789abcdefABCDEF"
    {
      var i :| 0 <= i < to - from && s[from..to][i] == c;
      assert s[from + i] == c;
      HexIsListed(c);
    }
  }

  lemma HexIsListed(c: char)
    ensures IsHex(c) <==> c in "0123456789abcdefABCDEF"
  {
    var hex := "0123456789abcdefABCDEF";
    if '0' <= c <= '9' {
      assert hex[c as int - '0' as int] == c;
    } else if 'a' <= c <= 'f' {
      assert hex[c as int - 'a' as int + 10] == c;
    } else if 'A' <= c <= 'F' {
      assert hex[c as int - 'A' as int + 16] == c;
    }
  }

  lemma UuidHasGroups(id: string)
    requires IsUuid(id)
    ensures HasGroups(id, id[..8], id[9..13], id[14..18], id[19..23], id[24..])
  {
    SliceIsHexadecimal(id, 0, 8);
    SliceIsHexadecimal(id, 9, 13);
    SliceIsHexadecimal(id, 14, 18);
    SliceIsHexadecimal(id, 19, 23);
    SliceIsHexadecimal(id, 24, 36);
    assert id[0..8] == id[..8] && id[24..36] == id[24..];
  }

  /**
   * A channel is recognized as that of a task exactly if it is the prefix and the task's identifier, and this is five
   * groups of 8, 4, 4, 4 and 12 hexadecimal digits of either case, with dashes between them.
   */
  lemma ChannelIsRecognizedIff(channel: string, id: string)
    ensures MatchChannel(channel) == Some(id)
            <==> channel == "celery-task-meta-" + id && IsTask(id)
    ensures Channel(id) == "celery-task-meta-" + id
  {
    MatchInvertsChannel(channel, id);
    if IsUuid(id) {
      UuidHasGroups(id);
    }
    if a, b, c, d, e :| HasGroups(id, a, b, c, d, e) {
      GroupsAreUuid(id, a, b, c, d, e);
    }
  }

  // ---------- put

  /** A put stores its message, sends it to its channel after all that was sent before, and changes no other result. */
  ghost predicate HasPut(w: World, w': World, m: Message) {
    && m.taskId in w'.store && w'.store[m.taskId] == m
    && w'.store.Keys == w.store.Keys + {m.taskId}
    && (forall id | id in w.store && id != m.taskId :: w'.store[id] == w.store[id])
    && w'.wire == w.wire + [("celery-task-meta-" + m.taskId, m)]
    && w'.results == w.results && w'.gets == w.gets && w'.jobs == w.jobs && w'.turn == w.turn
  }

  lemma PutLaw(w: World, m: Message)
    ensures HasPut(w, Next(w, Put(m)), m) && Next(w, Put(m)).busy == w.busy
    ensures Possible(w, Transact) && Holder(w) == Some(ForPut(m)) ==>
              HasPut(w, Next(w, Transact), m) && !Next(w, Transact).busy
  {
  }

  /** Whoever has its turn is the next in line, and nobody else has the connection. */
  lemma GrantLaw(w: World)
    requires Possible(w, Grant)
    ensures !w.busy && Holder(Next(w, Grant)) == Some(w.jobs[w.turn]) && Next(w, Grant).jobs == w.jobs
    ensures !w.jobs[w.turn].ForDelete? ==> Next(w, Grant).results == w.results
    ensures w.jobs[w.turn].ForGet? ==>
              var g := w.jobs[w.turn].getter;
              && Next(w, Grant).gets[g].response == Sent && Next(w, Grant).gets[g].granted == Some(w.results.clock)
              && forall h | 0 <= h < |w.gets| && h != g :: Next(w, Grant).gets[h] == w.gets[h]
  {
  }

  // ---------- delete

  /**
   * When a delete of the backend has its turn, the map forgets the task, and whoever waits for it is told so; when it
   * is done, the server has forgotten it too, and nothing else.
   */
  lemma DeleteHereLaw(w: World, id: string)
    requires Faithful(w) && Possible(w, Grant) && w.jobs[w.turn] == ForDelete(id)
    ensures var w1 := Next(w, Grant);
            && Removed(w.results, w1.results, id, Deleted) && w1.store == w.store
            && w1.gets == w.gets && w1.wire == w.wire && w1.jobs == w.jobs
            && Possible(w1, Transact)
            && var w2 := Next(w1, Transact);
            && w2.store == w.store - {id} && w2.results == w1.results && w2.puts == w.puts
            && w2.gets == w.gets && w2.wire == w.wire && !w2.busy && w2.jobs == w.jobs
  {
    DeleteLaw(w.results, id);
  }

  // ---------- get

  /** A get of a known task waits for the promise that the map has; any other goes to the end of the line. */
  lemma AskLaw(w: World, id: string, limit: Option<nat>)
    requires PromiseMapRuns.Sound(w.results)
    ensures var w' := Next(w, Ask(id, limit));
            && w'.results == w.results && w'.store == w.store && w'.wire == w.wire
            && |w'.gets| == |w.gets| + 1 && w'.gets[..|w.gets|] == w.gets
            && var g := w'.gets[|w.gets|];
            && g.id == id && g.limit == limit && g.granted.None? && !g.gaveUp
            && if id in w.results.promises
               then g.response == Listening(w.results.promises[id]) && w'.jobs == w.jobs
               else g.response == Queued && w'.jobs == w.jobs + [ForGet(|w.gets|)]
  {
  }

  /** The server replies with what it has stored. */
  lemma ServeLaw(w: World, g: nat)
    requires Possible(w, Serve(g))
    ensures var w', id := Next(w, Serve(g)), w.gets[g].id;
            && w'.gets[g].response.Replied? && w'.gets[g].id == id
            && (w'.gets[g].response.reply.Some? <==> id in w.store)
            && (id in w.store ==> w'.gets[g].response.reply.value == w.store[id])
            && w' == w.(gets := w'.gets)
  {
  }

  /** A success is returned, and the map stays as it was; for anything else the get waits for the map's promise. */
  lemma ReceiveLaw(w: World, g: nat)
    requires PromiseMapRuns.Sound(w.results) && Possible(w, Receive(g))
    ensures var w', id, reply := Next(w, Receive(g)), w.gets[g].id, w.gets[g].response.reply;
            if reply.Some? && reply.value.success
            then w'.gets[g].response == Returned(reply.value) && w'.results == w.results
            else
              && w'.results == Apply(w.results, OpGet(id))
              && id in w'.results.promises && w'.gets[g].response == Listening(w'.results.promises[id])
  {
    GetLaw(w.results, w.gets[g].id);
  }

  /** A message on the channel of a UUID resolves that task in the map, and any other changes nothing. */
  lemma DeliverLaw(w: World, id: string)
    requires Possible(w, Deliver)
    ensures var (channel, m), w' := w.wire[0], Next(w, Deliver);
            && w'.wire == w.wire[1..] && w'.gets == w.gets && w'.store == w.store
            && (channel == "celery-task-meta-" + id && IsTask(id) ==>
                  w'.results == Apply(w.results, OpResolve(id, Plain(m))))
            && (w'.results != w.results ==>
                  exists x :: channel == "celery-task-meta-" + x && IsTask(x))
  {
    ChannelIsRecognizedIff(w.wire[0].0, id);
    var x := MatchChannel(w.wire[0].0);
    if x.Some? {
      ChannelIsRecognizedIff(w.wire[0].0, x.value);
    }
  }

  /** A get that listens gives its caller what became of the promise it listens to, value or error. */
  lemma WakeLaw(w: World, g: nat)
    requires Possible(w, Wake(g))
    ensures var o := OutcomeOf(w.results.heap, w.gets[g].response.promise).value;
            var w' := Next(w, Wake(g));
            && w'.gets[g].response == (match o case Value(m) => Returned(m) case Error(reason) => Failed(reason))
            && w' == w.(gets := w'.gets)
  {
  }
}
