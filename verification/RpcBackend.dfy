/** The RPC result backend: replies find their getters by correlation identifier. */
module RpcBackends {
  import opened Wrappers
  import opened PromiseMapSpec
  import opened PromiseMapRuns
  import opened PromiseMapRejectAll
  import opened PromiseMapSteps
  import opened PromiseMapValues
  import opened PromiseMaps

  datatype Message = Message(correlationId: string, content: string)

  const CANCELLED := Given("RabbitMQ cancelled consumer")
  const DISCONNECTING := Given("disconnecting")

  class RpcBackend {
    const promises: PromiseMap<string, Message>

    /** One day, in milliseconds. */
    static const DEFAULT_TIMEOUT: nat := 86400000

    constructor ()
      ensures promises.Valid() && fresh(promises) && promises.View() == Init(Some(24 * 60 * 60 * 1000))
    {
      promises := new PromiseMap(Some(DEFAULT_TIMEOUT));
    }

    /** The promise of the raw message that `get` waits for. */
    method Get(taskId: string) returns (raw: nat)
      requires promises.Valid()
      modifies promises
      ensures promises.Valid() && promises.View() == Apply(old(promises.View()), OpGet(taskId))
      ensures taskId in promises.View().promises && raw == promises.View().promises[taskId]
    {
      raw := promises.Get(taskId);
    }

    method Delete(taskId: string) returns (reply: string)
      requires promises.Valid()
      modifies promises
      ensures promises.Valid() && promises.View() == Apply(old(promises.View()), OpDelete(taskId))
      ensures taskId !in promises.View().promises && taskId !in promises.View().data.entries
      ensures reply == if taskId in old(promises.View()).promises then "deleted" else "no result found"
    {
      var deleted := promises.Delete(taskId);
      reply := if deleted then "deleted" else "no result found";
    }

    /** Without a message, the server has cancelled the consumer. */
    method OnMessage(maybeMessage: Option<Message>)
      requires promises.Valid()
      modifies promises
      ensures promises.Valid()
      ensures promises.View() == Apply(old(promises.View()), Received(maybeMessage))
    {
      if maybeMessage.None? {
        var n := promises.RejectAll(CANCELLED);
        return;
      }
      var message := maybeMessage.value;
      var isNew := promises.Resolve(message.correlationId, Plain(message));
    }

    /** The part of `end` that answers the getters. */
    method End() returns (numRejected: nat)
      requires promises.Valid()
      modifies promises
      ensures promises.Valid() && promises.View() == Apply(old(promises.View()), Disconnected())
      ensures numRejected == |RejectableKeys(old(promises.View()))|
    {
      numRejected := promises.RejectAll(DISCONNECTING);
    }
  }

  ghost function Received(maybeMessage: Option<Message>): Op<string, Message> {
    match maybeMessage
    case None => OpRejectAll(CANCELLED)
    case Some(m) => OpResolve(m.correlationId, Plain(m))
  }

  ghost function Disconnected(): Op<string, Message> {
    OpRejectAll(DISCONNECTING)
  }

  // ---------- Runs of the backend

  /** What the backend's methods, and the runtime, do to its map. */
  ghost predicate BackendOp(op: Op<string, Message>) {
    match op
    case OpResolve(k, source) => source.Plain? && op == Received(Some(source.value))
    case OpRejectAll(reason) => reason == CANCELLED || reason == DISCONNECTING
    case OpReject(_, _) => false
    case OpClear => false
    case _ => true
  }

  ghost predicate BackendRun(ops: seq<Op<string, Message>>) {
    ops != [] ==> BackendOp(ops[0]) && BackendRun(ops[1..])
  }

  lemma {:induction false} ArrivedIsCorrelated(
      s: State<string, Message>, ops: seq<Op<string, Message>>, id: string, m: Message)
    requires Feasible(s, ops) && BackendRun(ops) && AllPlain(s.tasks) && (id, m) in Offered(s, ops)
    ensures m.correlationId == id && OpResolve(id, Plain(m)) in ops
    decreases |ops|
  {
    if (id, m) in OfferedBy(s, ops[0]) {
      assert ops[0] == OpResolve(id, Plain(m));
    } else {
      ApplyPlain(s, ops[0]);
      ArrivedIsCorrelated(Apply(s, ops[0]), ops[1..], id, m);
    }
  }

  /** In every run, whoever asked for a task gets, if anything, a message that arrived with that very correlation. */
  lemma RepliesAreCorrelated(timeout: nat, ops: seq<Op<string, Message>>, p: nat)
    requires Feasible(Init(Some(timeout)), ops) && BackendRun(ops)
    requires var s := Run(Init<string, Message>(Some(timeout)), ops);
             p < |s.heap| && OutcomeOf(s.heap, p).Some? && OutcomeOf(s.heap, p).value.Value?
    ensures var s := Run(Init<string, Message>(Some(timeout)), ops);
            var m := OutcomeOf(s.heap, p).value.value;
            m.correlationId == s.heap[p].key && OpResolve(s.heap[p].key, Plain(m)) in ops
  {
    var s0: State<string, Message> := Init(Some(timeout));
    var s := Run(s0, ops);
    ValuesWereOffered(Some(timeout), ops, p);
    ArrivedIsCorrelated(s0, ops, s.heap[p].key, OutcomeOf(s.heap, p).value.value);
  }

  /**
   * A message reaches whoever waits for its correlation: once its resolution has ended, the promise that getters of
   * the task were given, or are given from now on, carries the message, whatever else has happened in between.
   */
  lemma ReplyReachesItsGetters(
      s: State<string, Message>, m: Message, ops: seq<Op<string, Message>>, p: nat)
    requires PromiseMapRuns.Sound(s) && Feasible(Apply(s, Received(Some(m))), ops)
    requires Enabled(Run(Apply(s, Received(Some(m))), ops), OpComplete(|s.heap|, Value(m)))
    ensures var s1 := Apply(s, Received(Some(m)));
            var s2 := Apply(Run(s1, ops), OpComplete(|s.heap|, Value(m)));
            var id := m.correlationId;
            && id in s1.promises && OutcomeOf(s2.heap, s1.promises[id]) == Some(Value(m))
            && (p < |s.heap| && s.heap[p].state.Held? && s.heap[p].key == id ==> p == s1.promises[id])
  {
    ResolutionArrives(s, m.correlationId, Plain(m), ops, Value(m));
    ResolveLaw(s, m.correlationId, Plain(m));
    if p < |s.heap| {
      assert LinearAt(s.data.entries, s.heap[p], p);
      WaitingIsHeld(s, s.heap[p].key);
    }
  }

  /** The promise is answered: with the reason if it was not before, else as it was. */
  ghost predicate AnsweredBy(s: State<string, Message>, s': State<string, Message>, p: nat, text: string) {
    && p < |s.heap| && p < |s'.heap|
    && if s.heap[p].state.Held? then s'.heap[p].state == Settled(Error(Given(text))) else s'.heap[p] == s.heap[p]
  }

  lemma RejectAllAnswers(timeout: nat, ops: seq<Op<string, Message>>, text: string, p: nat)
    requires Feasible(Init(Some(timeout)), ops) && KeepingRun(Init(Some(timeout)), ops)
    requires p < |Run(Init<string, Message>(Some(timeout)), ops).heap|
    ensures var s := Run(Init<string, Message>(Some(timeout)), ops);
            var s' := RejectAll(s, Given(text));
            AllAnswered(s') && AnsweredBy(s, s', p, text)
  {
    var s0: State<string, Message> := Init(Some(timeout));
    var s, reason := Run(s0, ops), Given(text);
    RunAnswerable(s0, ops);
    PendingAreAnswered(s, reason);
    RejectAllPointwise(s, reason);
    assert CellOk(s.heap, s.tasks, p) && LinearAt(s.data.entries, s.heap[p], p);
    if s.heap[p].state.Held? {
      assert RejectedAt(s, RejectAll(s, reason), s.heap[p].key, reason);
    } else if HeldFor(s, s.heap[p].key).Some? {
      HeldIsOwn(s, s.heap[p].key);
    }
  }

  /**
   * When the consumer is cancelled, which is when no message is received, in a run that removed no key with an
   * outstanding resolution: no getter is left waiting, and exactly the getters that were unanswered are rejected.
   */
  lemma CancellationAnswersEveryGetter(timeout: nat, ops: seq<Op<string, Message>>, p: nat)
    requires Feasible(Init(Some(timeout)), ops) && KeepingRun(Init(Some(timeout)), ops)
    requires p < |Run(Init<string, Message>(Some(timeout)), ops).heap|
    ensures var s := Run(Init<string, Message>(Some(timeout)), ops);
            var s' := Apply(s, Received(None));
            AllAnswered(s') && AnsweredBy(s, s', p, "RabbitMQ cancelled consumer")
  {
    RejectAllAnswers(timeout, ops, "RabbitMQ cancelled consumer", p);
  }

  /** And the same when the backend ends, with another reason. */
  lemma EndAnswersEveryGetter(timeout: nat, ops: seq<Op<string, Message>>, p: nat)
    requires Feasible(Init(Some(timeout)), ops) && KeepingRun(Init(Some(timeout)), ops)
    requires p < |Run(Init<string, Message>(Some(timeout)), ops).heap|
    ensures var s := Run(Init<string, Message>(Some(timeout)), ops);
            var s' := Apply(s, Disconnected());
            AllAnswered(s') && AnsweredBy(s, s', p, "disconnecting")
  {
    RejectAllAnswers(timeout, ops, "disconnecting", p);
  }
}
