/**
 * What a `ResourcePool` and its unfinished calls do, one step at a time.
 *
 * Every call of `get` is a request. Its resource is created for it, taken from
 * the unused ones or handed over by `return`; from then on it is in flight,
 * until the continuation of `get` runs and puts it in use.
 */
module ResourcePoolSpec {

  datatype Pool<R(==)> = Pool(
    max: nat,
    count: nat,
    inUse: set<R>,
    unused: seq<R>,
    waiting: seq<nat>,
    requests: nat,
    creating: set<nat>,
    failed: set<nat>,
    inFlight: map<nat, R>,
    granted: map<nat, R>,
    issued: set<R>,
    destroyed: seq<R>,
    listening: nat,
    ready: nat)

  function Fresh<R>(max: nat): Pool<R> {
    Pool(max, 0, {}, [], [], 0, {}, {}, map[], map[], {}, [], 0, 0)
  }

  function Grant<R>(s: Pool<R>, q: nat, r: R): Pool<R> {
    s.(inFlight := s.inFlight[q := r], granted := s.granted[q := r])
  }

  /** `get` up to its `await`: an unused resource if there is one, else a new one, else a place in the queue. */
  function Get<R>(s: Pool<R>): Pool<R> {
    var q := s.requests;
    var s := s.(requests := q + 1);
    if s.unused != [] then Grant(s, q, s.unused[0]).(unused := s.unused[1..])
    else if s.count < s.max then s.(count := s.count + 1, creating := s.creating + {q})
    else s.(waiting := s.waiting + [q])
  }

  /** The `create` call made for request `q` gives a resource. */
  function Created<R>(s: Pool<R>, q: nat, r: R): Pool<R> {
    Grant(s, q, r).(creating := s.creating - {q}, issued := s.issued + {r})
  }

  function CreateFailed<R>(s: Pool<R>, q: nat): Pool<R> {
    s.(creating := s.creating - {q}, failed := s.failed + {q})
  }

  /** The rest of `get`. */
  function Deliver<R>(s: Pool<R>, q: nat): Pool<R>
    requires q in s.inFlight
  {
    s.(inUse := s.inUse + {s.inFlight[q]}, inFlight := s.inFlight - {q})
  }

  /** Returning what is not in use throws and changes nothing; the request that waited longest is served first. */
  function Return<R>(s: Pool<R>, r: R): Pool<R> {
    if r !in s.inUse then s
    else
      var s := s.(inUse := s.inUse - {r});
      if s.waiting != [] then Grant(s, s.waiting[0], r).(waiting := s.waiting[1..])
      else (if s.inUse == {} then s.(ready := s.ready + s.listening, listening := 0) else s).(unused := s.unused + [r])
  }

  function DestroyUnused<R>(s: Pool<R>): Pool<R> {
    s.(destroyed := s.destroyed + s.unused, unused := [])
  }

  /** Destroys what is unused at once, or listens for the last resource in use to be returned. */
  function DestroyAll<R>(s: Pool<R>): Pool<R> {
    if s.inUse != {} then s.(listening := s.listening + 1) else DestroyUnused(s)
  }

  /** The rest of a `destroyAll` call that heard "empty". */
  function ResumeDestroy<R>(s: Pool<R>): Pool<R>
    requires s.ready > 0
  {
    DestroyUnused(s.(ready := s.ready - 1))
  }

  // ---------- Runs

  datatype Op<R> =
    | OpGet
    | OpCreated(request: nat, resource: R)
    | OpCreateFailed(request: nat)
    | OpDeliver(request: nat)
    | OpReturn(resource: R)
    | OpDestroyAll
    | OpResumeDestroy

  /** `create` never gives the same resource twice; clients may call anything at any time. */
  predicate Enabled<R>(s: Pool<R>, op: Op<R>) {
    match op
    case OpCreated(q, r) => q in s.creating && r !in s.issued
    case OpCreateFailed(q) => q in s.creating
    case OpDeliver(q) => q in s.inFlight
    case OpResumeDestroy => s.ready > 0
    case _ => true
  }

  function Apply<R>(s: Pool<R>, op: Op<R>): Pool<R>
    requires Enabled(s, op)
  {
    match op
    case OpGet => Get(s)
    case OpCreated(q, r) => Created(s, q, r)
    case OpCreateFailed(q) => CreateFailed(s, q)
    case OpDeliver(q) => Deliver(s, q)
    case OpReturn(r) => Return(s, r)
    case OpDestroyAll => DestroyAll(s)
    case OpResumeDestroy => ResumeDestroy(s)
  }

  predicate Feasible<R>(s: Pool<R>, ops: seq<Op<R>>)
    decreases |ops|
  {
    ops == [] || (Enabled(s, ops[0]) && Feasible(Apply(s, ops[0]), ops[1..]))
  }

  function Run<R>(s: Pool<R>, ops: seq<Op<R>>): Pool<R>
    requires Feasible(s, ops)
    decreases |ops|
  {
    if ops == [] then s else Run(Apply(s, ops[0]), ops[1..])
  }
}
