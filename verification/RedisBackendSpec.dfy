/**
 * The result protocol over Redis: `put` stores and publishes a result in one transaction, `get` asks the server
 * and, without a success, waits for what the pattern subscription delivers. A `get` keeps the backend's connection
 * while it waits.
 */
module RedisBackendSpec {
  import opened Wrappers
  import opened PromiseMapSpec

  const PREFIX := "celery-task-meta-"

  /** A result message; only success is told apart from the other statuses. */
  datatype Message = Message(taskId: string, success: bool, payload: string)

  type Results = State<string, Message>

  // ---------- Channels

  predicate IsHex(c: char) {
    '0' <= c <= '9' || 'a' <= c <= 'f' || 'A' <= c <= 'F'
  }

  /** Hexadecimal digits in groups of 8, 4, 4, 4 and 12, with dashes between. */
  predicate IsUuid(s: string) {
    |s| == 36 && forall i | 0 <= i < 36 :: if i in {8, 13, 18, 23} then s[i] == '-' else IsHex(s[i])
  }

  /** The channel that a result for `taskId` is published to. */
  function Channel(taskId: string): string {
    PREFIX + taskId
  }

  function MatchChannel(channel: string): Option<string> {
    if |channel| >= |PREFIX| && channel[..|PREFIX|] == PREFIX && IsUuid(channel[|PREFIX|..])
    then Some(channel[|PREFIX|..])
    else None
  }

  /** The subscription recognizes exactly the channels of tasks whose identifier is a UUID, and recovers it. */
  lemma MatchInvertsChannel(channel: string, id: string)
    ensures MatchChannel(channel) == Some(id) <==> channel == Channel(id) && IsUuid(id)
  {
  }

  // ---------- One get

  /**
   * How far the response to a get has come. Queued: waits for a connection. Sent: GET was sent. Replied: the server
   * has replied. Listening: waits for the map's promise.
   */
  datatype Response =
    | Queued
    | Sent
    | Replied(reply: Option<Message>)
    | Listening(promise: nat)
    | Returned(message: Message)
    | Failed(reason: Reason)

  /**
   * A get with its timeout, if it has one, the time at which it was granted the connection, and its response. When
   * its timeout has won the race, it gave up; the response goes on with nobody to hear it.
   */
  datatype Getter =
    Getter(id: string, limit: Option<nat>, granted: Option<nat>, response: Response, gaveUp: bool)

  predicate Ended(r: Response) {
    r.Returned? || r.Failed?
  }

  predicate Finished(g: Getter) {
    g.gaveUp || Ended(g.response)
  }

  /** The caller of the get has its result. */
  predicate HasReturned(g: Getter) {
    !g.gaveUp && g.response.Returned?
  }

  function Listen(results: Results, id: string): (Results, Response) {
    var results := Get(results, id);
    (results, Listening(if id in results.promises then results.promises[id] else 0))
  }

  /** A task that the map knows is waited for without a connection, and without a timeout. */
  function StartGet(results: Results, id: string): (Results, Response) {
    if id in results.promises then Listen(results, id) else (results, Queued)
  }

  /** Only a success that GET finds is returned; for anything else the result is waited for. */
  function OnReply(results: Results, id: string, reply: Option<Message>): (Results, Response) {
    if reply.Some? && reply.value.success then (results, Returned(reply.value)) else Listen(results, id)
  }

  /** A message on a channel that is not a task's throws. */
  function OnMessage(results: Results, channel: string, m: Message): Results {
    match MatchChannel(channel)
    case Some(id) => Resolve(results, id, Plain(m))
    case None => results
  }

  // ---------- Server, network, the backend's connection and any number of gets

  /** What is done with the connection: a get keeps it until it has finished. */
  datatype Job = ForGet(getter: nat) | ForPut(message: Message) | ForDelete(id: string)

  /**
   * The pool has two connections, and the subscriber keeps one for good. The other is held for one job at a time, in
   * the order in which they came: the first `turn` of them had their turn, and if it is busy, the last of these holds
   * it.
   */
  datatype World = World(
    store: map<string, Message>,
    wire: seq<(string, Message)>,
    results: Results,
    gets: seq<Getter>,
    jobs: seq<Job>,
    turn: nat,
    busy: bool,
    puts: set<(string, Message)>)

  function Start(timeout: nat): World {
    World(map[], [], Init(Some(timeout)), [], [], 0, false, {})
  }

  function Holder(w: World): Option<Job> {
    if w.busy && 0 < w.turn <= |w.jobs| then Some(w.jobs[w.turn - 1]) else None
  }

  predicate Holds(w: World, g: nat) {
    Holder(w) == Some(ForGet(g)) && g < |w.gets|
  }

  /** Put is another client's, PutHere and DeleteHere the backend's own; Expire is by time or by another client. */
  datatype Event =
    | Put(message: Message)
    | PutHere(message: Message)
    | DeleteHere(id: string)
    | Ask(id: string, limit: Option<nat>)
    | Grant
    | Transact
    | Release
    | Serve(getter: nat)
    | Receive(getter: nat)
    | Deliver
    | Wake(getter: nat)
    | GiveUp(getter: nat)
    | Expire(id: string)
    | Finish(task: nat, outcome: Outcome<Message>)
    | Evict(timer: nat)
    | Tick(elapsed: nat)

  /** A timeout runs from the moment the connection is granted, and may fire at any time after it is due. */
  predicate TimeIsUp(g: Getter, clock: nat) {
    g.limit.Some? && g.granted.Some? && g.granted.value + g.limit.value <= clock
  }

  ghost predicate Possible(w: World, e: Event) {
    match e
    case Grant => !w.busy && w.turn < |w.jobs| && (w.jobs[w.turn].ForGet? ==> w.jobs[w.turn].getter < |w.gets|)
    case Transact => Holder(w).Some? && !Holder(w).value.ForGet?
    case Release =>
      Holder(w).Some? && Holder(w).value.ForGet?
      && Holder(w).value.getter < |w.gets| && Finished(w.gets[Holder(w).value.getter])
    case Serve(g) => g < |w.gets| && w.gets[g].response.Sent?
    case Receive(g) => g < |w.gets| && w.gets[g].response.Replied?
    case Deliver => w.wire != []
    case Wake(g) =>
      g < |w.gets| && w.gets[g].response.Listening? && OutcomeOf(w.results.heap, w.gets[g].response.promise).Some?
    case GiveUp(g) => g < |w.gets| && !Finished(w.gets[g]) && TimeIsUp(w.gets[g], w.results.clock)
    case Finish(t, o) => Enabled(w.results, OpComplete(t, o))
    case Evict(t) => Enabled(w.results, OpFire(t))
    case _ => true
  }

  function Woken(o: Outcome<Message>): Response {
    match o
    case Value(m) => Returned(m)
    case Error(reason) => Failed(reason)
  }

  /** SETEX and PUBLISH in one transaction. */
  function Publish(w: World, m: Message): World {
    w.(store := w.store[m.taskId := m], wire := w.wire + [(Channel(m.taskId), m)], puts := w.puts + {(m.taskId, m)})
  }

  function Respond(gets: seq<Getter>, g: nat, r: Response): seq<Getter>
    requires g < |gets|
  {
    gets[g := gets[g].(response := r)]
  }

  /** A get sends GET at once; a delete takes the task out of the map at once, and then sends DEL. */
  function TakeTurn(w: World, job: Job): World
    requires job.ForGet? ==> job.getter < |w.gets|
  {
    var w := w.(turn := w.turn + 1, busy := true);
    match job
    case ForGet(g) => w.(gets := w.gets[g := w.gets[g].(response := Sent, granted := Some(w.results.clock))])
    case ForPut(_) => w
    case ForDelete(id) => w.(results := DoDelete(w.results, id, Deleted))
  }

  /** What the server does for a put or a delete. */
  function CarryOut(w: World, job: Job): World {
    match job
    case ForPut(m) => Publish(w, m)
    case ForDelete(id) => w.(store := w.store - {id})
    case ForGet(_) => w
  }

  ghost function Next(w: World, e: Event): World
    requires Possible(w, e)
  {
    match e
    case Put(m) => Publish(w, m)
    case PutHere(m) => w.(jobs := w.jobs + [ForPut(m)])
    case DeleteHere(id) => w.(jobs := w.jobs + [ForDelete(id)])
    case Ask(id, limit) =>
      var (results, response) := StartGet(w.results, id);
      w.(results := results, gets := w.gets + [Getter(id, limit, None, response, false)],
         jobs := if response.Queued? then w.jobs + [ForGet(|w.gets|)] else w.jobs)
    case Grant => TakeTurn(w, w.jobs[w.turn])
    case Transact => CarryOut(w, Holder(w).value).(busy := false)
    case Release => w.(busy := false)
    case Serve(g) =>
      var id := w.gets[g].id;
      w.(gets := Respond(w.gets, g, Replied(if id in w.store then Some(w.store[id]) else None)))
    case Receive(g) =>
      var (results, response) := OnReply(w.results, w.gets[g].id, w.gets[g].response.reply);
      w.(results := results, gets := Respond(w.gets, g, response))
    case Deliver => w.(results := OnMessage(w.results, w.wire[0].0, w.wire[0].1), wire := w.wire[1..])
    case Wake(g) =>
      w.(gets := Respond(w.gets, g, Woken(OutcomeOf(w.results.heap, w.gets[g].response.promise).value)))
    case GiveUp(g) => w.(gets := w.gets[g := w.gets[g].(gaveUp := true)])
    case Expire(id) => w.(store := w.store - {id})
    case Finish(t, o) => w.(results := Complete(w.results, t, o))
    case Evict(t) => w.(results := Fire(w.results, t))
    case Tick(elapsed) => w.(results := w.results.(clock := w.results.clock + elapsed))
  }

  ghost predicate Legal(w: World, events: seq<Event>)
    decreases |events|
  {
    events == [] || (Possible(w, events[0]) && Legal(Next(w, events[0]), events[1..]))
  }

  ghost function After(w: World, events: seq<Event>): World
    requires Legal(w, events)
    decreases |events|
  {
    if events == [] then w else After(Next(w, events[0]), events[1..])
  }
}
