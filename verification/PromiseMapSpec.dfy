/**
 * What a `PromiseMap` and the event loop around it do, one step at a time.
 *
 * A state holds the two maps of the container, and the part of the runtime it
 * depends on: every promise ever made for a key, the `doResolve` calls that
 * still await their value, and the timers that have not fired.
 */
module PromiseMapSpec {
  import opened Wrappers
  import opened JsMap

  datatype Reason = Deleted | Cleared | TimedOut | Given(text: string)

  datatype Outcome<+V> = Value(value: V) | Error(reason: Reason)

  /** The status an entry records. */
  datatype Status = Pending | Fulfilled | Rejected

  /** The argument of `resolve`: a value, or a promise-like whose outcome the environment decides. */
  datatype Source<+V> = Plain(value: V) | Thenable

  /**
   * Held: made by `get`, neither settle function called.
   * Following: resolved with the promise of a `doResolve` call.
   * Awaiting: the promise of a `doResolve` call that has not finished.
   */
  datatype PromiseState<+V> = Held | Following(target: nat) | Awaiting | Settled(outcome: Outcome<V>)

  /** A promise, the key it was made for, and how often one of its settle functions was called. */
  datatype Cell<+K, +V> = Cell(key: K, byGet: bool, calls: nat, state: PromiseState<V>)

  /** `functions` names the promise whose settle functions the entry holds. */
  datatype MapData = MapData(functions: Option<nat>, status: Status, timer: Option<nat>)

  datatype Task<+K, +V> = Task(key: K, source: Source<V>)

  datatype Timer<+K> = Timer(key: K, due: nat)

  datatype State<K(==,!new), V> = State(
    timeout: Option<nat>,
    promises: map<K, nat>,
    data: OrderedMap<K, MapData>,
    heap: seq<Cell<K, V>>,
    tasks: map<nat, Task<K, V>>,
    timers: map<nat, Timer<K>>,
    nextTimer: nat,
    clock: nat,
    settledAt: map<K, nat>)

  function Init<K(!new), V>(timeout: Option<nat>): State<K, V> {
    State(timeout, map[], Empty(), [], map[], map[], 0, 0, map[])
  }

  // ---------- Reading a state

  function HeldFor<K(!new), V>(s: State<K, V>, k: K): Option<nat> {
    if k in s.data.entries then s.data.entries[k].functions else None
  }

  function TimerOf<K(!new), V>(s: State<K, V>, k: K): Option<nat> {
    if k in s.data.entries then s.data.entries[k].timer else None
  }

  predicate HasStatus<K(!new), V>(s: State<K, V>, k: K, status: Status) {
    k in s.data.entries && s.data.entries[k].status == status
  }

  /** The outcome a promise carries, if it has one yet. */
  function OutcomeOf<K, V>(heap: seq<Cell<K, V>>, p: nat): Option<Outcome<V>> {
    if p >= |heap| then None
    else match heap[p].state
      case Settled(o) => Some(o)
      case Following(t) => if t < |heap| && heap[t].state.Settled? then Some(heap[t].state.outcome) else None
      case _ => None
  }

  function StatusOf<V>(o: Option<Outcome<V>>): Status {
    match o
    case None => Pending
    case Some(Value(_)) => Fulfilled
    case Some(Error(_)) => Rejected
  }

  /** Some `doResolve` call for `k` has not finished. */
  predicate Busy<K(!new), V>(s: State<K, V>, k: K) {
    exists t | t in s.tasks :: s.tasks[t].key == k
  }

  // ---------- Operations

  /** Calls a settle function of promise `p`: only the first call has an effect on the promise. */
  function Call<K, V>(heap: seq<Cell<K, V>>, p: nat, to: PromiseState<V>): (r: seq<Cell<K, V>>) {
    if p >= |heap| then heap
    else
      var c := heap[p];
      heap[p := c.(calls := c.calls + 1, state := if c.state.Held? then to else c.state)]
  }

  function CallHeld<K, V>(heap: seq<Cell<K, V>>, held: Option<nat>, to: PromiseState<V>): seq<Cell<K, V>> {
    if held.Some? then Call(heap, held.value, to) else heap
  }

  function Get<K(!new), V>(s: State<K, V>, k: K): State<K, V> {
    if k in s.promises then s
    else
      var p := |s.heap|;
      s.(heap := s.heap + [Cell(k, true, 0, Held)],
         promises := s.promises[k := p],
         data := s.data.Set(k, MapData(Some(p), Pending, None)))
  }

  /** What every settling operation ends with: the expiry of `k` is put off. */
  function Restart<K(!new), V>(s: State<K, V>, k: K): State<K, V> {
    var s := s.(settledAt := s.settledAt[k := s.clock]);
    if s.timeout.None? || k !in s.data.entries then s
    else
      var d := s.data.entries[k];
      s.(timers := Cancel(s.timers, d.timer)[s.nextTimer := Timer(k, s.clock + s.timeout.value)],
         nextTimer := s.nextTimer + 1,
         data := s.data.Set(k, d.(timer := Some(s.nextTimer))))
  }

  function Cancel<K>(timers: map<nat, Timer<K>>, timer: Option<nat>): map<nat, Timer<K>> {
    if timer.Some? then timers - {timer.value} else timers
  }

  /** `k` follows a new `doResolve` promise: through its held promise if it has one, else in its place. */
  function Resolving<K(!new), V>(s: State<K, V>, k: K, source: Source<V>): State<K, V> {
    var t := |s.heap|;
    var held := HeldFor(s, k);
    s.(heap := CallHeld(s.heap + [Cell(k, false, 0, Awaiting)], held, Following(t)),
       tasks := s.tasks[t := Task(k, source)],
       promises := if held.Some? then s.promises else s.promises[k := t],
       data := s.data.Set(k, MapData(None, Pending, TimerOf(s, k))))
  }

  function Resolve<K(!new), V>(s: State<K, V>, k: K, source: Source<V>): State<K, V> {
    Restart(Resolving(s, k, source), k)
  }

  /** The held promise of `k` is rejected; without one, a rejected promise takes the place of any other. */
  function Rejecting<K(!new), V>(s: State<K, V>, k: K, reason: Reason): State<K, V> {
    var held := HeldFor(s, k);
    var rejected := Settled(Error(reason));
    s.(heap := if held.Some? then Call(s.heap, held.value, rejected) else s.heap + [Cell(k, false, 0, rejected)],
       promises := if held.Some? then s.promises else s.promises[k := |s.heap|],
       data := s.data.Set(k, MapData(None, Rejected, TimerOf(s, k))))
  }

  function Reject<K(!new), V>(s: State<K, V>, k: K, reason: Reason): State<K, V> {
    Restart(Rejecting(s, k, reason), k)
  }

  predicate Rejectable<K(!new), V>(s: State<K, V>, k: K) {
    HeldFor(s, k).Some? && s.data.entries[k].status.Pending?
  }

  function RejectEach<K(!new), V>(s: State<K, V>, keys: seq<K>, reason: Reason): State<K, V> {
    if keys == [] then s
    else
      var k := keys[|keys| - 1];
      var s := RejectEach(s, keys[..|keys| - 1], reason);
      if Rejectable(s, k) then Reject(s, k, reason) else s
  }

  /** One visit of every key, in insertion order. */
  function RejectAll<K(!new), V>(s: State<K, V>, reason: Reason): State<K, V> {
    RejectEach(s, s.data.keys, reason)
  }

  function DoDelete<K(!new), V>(s: State<K, V>, k: K, reason: Reason): State<K, V> {
    s.(heap := CallHeld(s.heap, HeldFor(s, k), Settled(Error(reason))),
       timers := Cancel(s.timers, TimerOf(s, k)),
       promises := s.promises - {k},
       data := s.data.Delete(k))
  }

  predicate Owed<K(!new), V>(s: State<K, V>, p: nat) {
    p < |s.heap| && HeldFor(s, s.heap[p].key) == Some(p)
  }

  /** Every promise whose settle functions an entry holds is rejected; the timers keep running. */
  function Clear<K(!new), V>(s: State<K, V>): State<K, V> {
    s.(heap := seq(|s.heap|, p requires 0 <= p < |s.heap| =>
                     if Owed(s, p) then Call(s.heap, p, Settled(Error(Cleared)))[p] else s.heap[p]),
       promises := map[],
       data := Empty())
  }

  /** A `doResolve` call finishes: it records the status for its key, whatever the key holds by now. */
  function Complete<K(!new), V>(s: State<K, V>, t: nat, o: Outcome<V>): State<K, V>
    requires t in s.tasks && t < |s.heap|
  {
    var k := s.tasks[t].key;
    var d := if k in s.data.entries then s.data.entries[k] else MapData(None, Pending, None);
    s.(heap := s.heap[t := s.heap[t].(state := Settled(o))],
       tasks := s.tasks - {t},
       data := s.data.Set(k, d.(status := StatusOf(Some(o)))))
  }

  function Fire<K(!new), V>(s: State<K, V>, timer: nat): State<K, V>
    requires timer in s.timers
  {
    DoDelete(s.(timers := s.timers - {timer}), s.timers[timer].key, TimedOut)
  }

  // ---------- Runs

  datatype Op<K, V> =
    | OpGet(key: K)
    | OpResolve(key: K, source: Source<V>)
    | OpReject(key: K, reason: Reason)
    | OpRejectAll(reason: Reason)
    | OpDelete(key: K)
    | OpClear
    | OpComplete(task: nat, outcome: Outcome<V>)
    | OpFire(timer: nat)
    | OpTick(elapsed: nat)

  /** Callers may do anything at any time; a task finishes as its source does, a timer fires when due. */
  ghost predicate Enabled<K(!new), V>(s: State<K, V>, op: Op<K, V>) {
    match op
    case OpComplete(t, o) =>
      t in s.tasks && t < |s.heap| && (s.tasks[t].source.Plain? ==> o == Value(s.tasks[t].source.value))
    case OpFire(t) => t in s.timers && s.timers[t].due <= s.clock
    case _ => true
  }

  ghost function Apply<K(!new), V>(s: State<K, V>, op: Op<K, V>): State<K, V>
    requires Enabled(s, op)
  {
    match op
    case OpGet(k) => Get(s, k)
    case OpResolve(k, source) => Resolve(s, k, source)
    case OpReject(k, reason) => Reject(s, k, reason)
    case OpRejectAll(reason) => RejectAll(s, reason)
    case OpDelete(k) => DoDelete(s, k, Deleted)
    case OpClear => Clear(s)
    case OpComplete(t, o) => Complete(s, t, o)
    case OpFire(t) => Fire(s, t)
    case OpTick(elapsed) => s.(clock := s.clock + elapsed)
  }

  ghost predicate Feasible<K(!new), V>(s: State<K, V>, ops: seq<Op<K, V>>)
    decreases |ops|
  {
    ops == [] || (Enabled(s, ops[0]) && Feasible(Apply(s, ops[0]), ops[1..]))
  }

  ghost function Run<K(!new), V>(s: State<K, V>, ops: seq<Op<K, V>>): State<K, V>
    requires Feasible(s, ops)
    decreases |ops|
  {
    if ops == [] then s else Run(Apply(s, ops[0]), ops[1..])
  }
}
