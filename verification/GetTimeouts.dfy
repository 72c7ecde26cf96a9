/**
 * The timeouts of `get`, on a time line: when each promise settles is given, and the question is how `get` settles,
 * and when. A promise that is settled when a timer fires wins the race against it.
 */
module GetTimeouts {
  import opened Wrappers

  datatype Ending<+T> = Value(value: T) | Error(text: string)

  /** What becomes of a promise. */
  datatype Fate<+T> = Never | Settles(at: nat, ending: Ending<T>)

  const TIMED_OUT := "timed out"

  /** The promise, as seen by one who awaits it from `now` on. */
  function From<T>(now: nat, p: Fate<T>): Fate<T> {
    if p.Settles? && p.at < now then Settles(now, p.ending) else p
  }

  predicate By<T>(p: Fate<T>, time: nat) {
    p.Settles? && p.at <= time
  }

  /** `Promise.race` of two. */
  function Race<T>(p: Fate<T>, q: Fate<T>): Fate<T> {
    if q.Never? || (p.Settles? && p.at <= q.at) then p else q
  }

  function CreateTimerPromise<T>(now: nat, timeout: nat): Fate<T> {
    Settles(now + timeout, Error(TIMED_OUT))
  }

  function CreateTimeoutPromise<T>(now: nat, p: Fate<T>, timeout: Option<nat>): Fate<T> {
    if timeout.None? then From(now, p) else Race(From(now, p), CreateTimerPromise(now, timeout.value))
  }

  /** The promise settles as the other does, and when it does, but not before `now`. */
  ghost predicate FollowsFrom<T>(r: Fate<T>, now: nat, p: Fate<T>) {
    && (r.Settles? <==> p.Settles?)
    && (p.Settles? ==> r.ending == p.ending && r.at >= p.at && r.at >= now && (r.at == p.at || r.at == now))
  }

  /** With a timeout, the promise is followed if it settles in time; otherwise there is an error when time is up. */
  lemma FollowsOrTimesOut<T>(now: nat, p: Fate<T>, timeout: nat)
    ensures var r := CreateTimeoutPromise(now, p, Some(timeout));
            if p.Settles? && p.at <= now + timeout then FollowsFrom(r, now, p)
            else r == Settles(now + timeout, Error("timed out"))
    ensures FollowsFrom(CreateTimeoutPromise(now, p, None), now, p)
  {
  }

  // ---------- Over RPC

  /** The raw message is awaited first; only then is the race set up, with the message as its first entrant. */
  function RpcGet<M, T>(asked: nat, raw: Fate<M>, parse: M -> Ending<T>, timeout: Option<nat>): Fate<T> {
    match From(asked, raw)
    case Never => Never
    case Settles(at, Error(text)) => Settles(at, Error(text))
    case Settles(at, Value(m)) => CreateTimeoutPromise(at, Settles(at, parse(m)), timeout)
  }

  /** So the timeout has no effect: the get settles when the message arrives and not before, and never times out. */
  lemma RpcTimeoutHasNoEffect<M, T>(asked: nat, raw: Fate<M>, parse: M -> Ending<T>, timeout: Option<nat>)
    ensures var r := RpcGet(asked, raw, parse, timeout);
            && (r.Settles? <==> raw.Settles?)
            && (r.Settles? ==> r.at >= raw.at && r.at >= asked && (r.at == raw.at || r.at == asked))
            && (r.Settles? ==> r.ending == match raw.ending
                                          case Value(m) => parse(m)
                                          case Error(text) => Error(text))
  {
  }

  /** Its bound is kept if and only if the message arrived in time by itself. */
  lemma RpcKeepsItsBoundIff<M, T>(asked: nat, raw: Fate<M>, parse: M -> Ending<T>, timeout: nat)
    ensures var r := RpcGet(asked, raw, parse, Some(timeout));
            r.Settles? && r.at <= asked + timeout <==> raw.Settles? && raw.at <= asked + timeout
  {
  }

  // ---------- Over Redis

  /** `wait` is how long GET takes; anything but a success of GET is followed by waiting for the map's promise. */
  datatype Reply<+T> = Reply(wait: nat, found: Option<T>)

  function Response<T>(granted: nat, reply: Reply<T>, result: Fate<T>): Fate<T> {
    var replied := granted + reply.wait;
    if reply.found.Some? then Settles(replied, Value(reply.found.value)) else From(replied, result)
  }

  /** A task that the map knows is waited for; for any other, the race is set up when the pool grants a connection. */
  function RedisGet<T>(
      asked: nat, known: bool, result: Fate<T>, granted: Fate<Reply<T>>, timeout: Option<nat>): Fate<T>
  {
    if known then From(asked, result)
    else
      match From(asked, granted)
      case Never => Never
      case Settles(at, Error(text)) => Settles(at, Error(text))
      case Settles(at, Value(reply)) => CreateTimeoutPromise(at, Response(at, reply, result), timeout)
  }

  /**
   * A known task's result is followed, whatever the timeout, and so is a connection that is refused or never granted.
   * After a grant, the get returns the success that GET found, or follows the map's promise, unless one timeout after
   * the grant it has not ended: then it times out.
   */
  lemma RedisGetMeans<T>(
      asked: nat, known: bool, result: Fate<T>, granted: Fate<Reply<T>>, timeout: Option<nat>, at: nat)
    requires granted.Settles? ==> at >= asked && at >= granted.at && (at == asked || at == granted.at)
    ensures var r := RedisGet(asked, known, result, granted, timeout);
            && (known ==> FollowsFrom(r, asked, result))
            && (!known && granted.Never? ==> r.Never?)
            && (!known && granted.Settles? ==>
                  match granted.ending
                  case Error(text) => r == Settles(at, Error(text))
                  case Value(reply) =>
                    var replied := at + reply.wait;
                    var inTime := if reply.found.Some? then timeout.None? || replied <= at + timeout.value
                                  else timeout.None? || (result.Settles? && result.at <= at + timeout.value
                                                         && replied <= at + timeout.value);
                    if !inTime then r == Settles(at + timeout.value, Error("timed out"))
                    else if reply.found.Some? then r == Settles(replied, Value(reply.found.value))
                    else FollowsFrom(r, replied, result))
  {
  }

  /** The timeout changes what happens if and only if the task was unknown and the response came too late. */
  lemma RedisTimeoutHasEffectIff<T>(asked: nat, known: bool, result: Fate<T>, granted: Fate<Reply<T>>, timeout: nat)
    ensures var r := RedisGet(asked, known, result, granted, Some(timeout));
            var at := From(asked, granted);
            r != RedisGet(asked, known, result, granted, None)
            <==> && !known && at.Settles? && at.ending.Value?
                 && !By(Response(at.at, at.ending.value, result), at.at + timeout)
  {
  }

  /**
   * The bound is kept if and only if a known task's result comes in time; or, for any other task, the connection is
   * granted at once, or is refused in time, or the response comes in time.
   */
  lemma RedisKeepsItsBoundIff<T>(asked: nat, known: bool, result: Fate<T>, granted: Fate<Reply<T>>, timeout: nat)
    ensures By(RedisGet(asked, known, result, granted, Some(timeout)), asked + timeout)
            <==> if known then By(result, asked + timeout)
                 else
                   match From(asked, granted)
                   case Never => false
                   case Settles(at, Error(_)) => at <= asked + timeout
                   case Settles(at, Value(reply)) => at == asked || By(Response(at, reply, result), asked + timeout)
  {
  }
}
