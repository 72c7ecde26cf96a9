/** The client side of the Redis result protocol: what `RedisBackend` does to its map of results and to its pool. */
module RedisBackends {
  import opened Wrappers
  import opened PromiseMapSpec
  import opened PromiseMaps
  import opened RedisBackendSpec
  import opened RedisBackendSteps
  import ResourcePoolSpec
  import opened ResourcePools

  class RedisBackend {
    const results: PromiseMap<string, Message>

    /** The connections, by number. */
    const pool: ResourcePool<nat>

    ghost predicate Valid()
      reads this, results, pool, pool.Repr
    {
      results.Valid() && pool.Valid() && results !in pool.Repr
    }

    /** The request of the subscriber is the first, and it never returns its connection before `end`. */
    constructor (destroy: nat -> string)
      ensures Valid() && fresh(results) && fresh(pool.Repr)
      ensures results.View() == Init(Some(24 * 60 * 60 * 1000))
      ensures pool.View() == ResourcePoolSpec.Get(ResourcePoolSpec.Fresh(2))
    {
      results := new PromiseMap(Some(TIMEOUT));
      pool := new ResourcePool(destroy, CONNECTIONS);
      new;
      var subscriber, connection, mustCreate := pool.Get();
    }

    /** One day, in milliseconds. */
    static const TIMEOUT: nat := 86400000

    static const CONNECTIONS: nat := 2

    /** `get` up to the point where it waits for the map or for a connection. */
    method StartGet(taskId: string) returns (response: Response)
      requires Valid()
      modifies results, pool.Repr
      ensures Valid() && fresh(pool.Repr - old(pool.Repr))
      ensures (results.View(), response) == RedisBackendSpec.StartGet(old(results.View()), taskId)
      ensures pool.View() == if response.Queued? then ResourcePoolSpec.Get(old(pool.View())) else old(pool.View())
    {
      var known := results.Has(taskId);
      if known {
        response := Listen(taskId);
      } else {
        var request, connection, mustCreate := pool.Get();
        response := Queued;
      }
    }

    method Listen(taskId: string) returns (response: Response)
      requires Valid()
      modifies results
      ensures Valid() && (results.View(), response) == RedisBackendSpec.Listen(old(results.View()), taskId)
    {
      var p := results.Get(taskId);
      response := Listening(p);
    }

    /** The rest of `get` when the server has replied to GET. */
    method OnReply(taskId: string, raw: Option<Message>) returns (response: Response)
      requires Valid()
      modifies results
      ensures Valid() && (results.View(), response) == RedisBackendSpec.OnReply(old(results.View()), taskId, raw)
    {
      if raw.None? {
        response := Listen(taskId);
      } else if !raw.value.success {
        response := Listen(taskId);
      } else {
        response := Returned(raw.value);
      }
    }

    /** `ok` is false when the channel is not a task's and the handler throws. */
    method OnMessage(channel: string, message: Message) returns (ok: bool)
      requires Valid()
      modifies results
      ensures Valid() && results.View() == RedisBackendSpec.OnMessage(old(results.View()), channel, message)
      ensures ok == exists id :: channel == "celery-task-meta-" + id && IsTask(id)
    {
      var maybeId := MatchChannel(channel);
      forall id
        ensures maybeId == Some(id) <==> channel == "celery-task-meta-" + id && IsTask(id)
      {
        ChannelIsRecognizedIff(channel, id);
      }
      if maybeId.None? {
        return false;
      }
      assert maybeId == Some(maybeId.value);
      var isNew := results.Resolve(maybeId.value, Plain(message));
      return true;
    }

    /** The local half of `delete`; the server's DEL is a step of its own. */
    method Delete(taskId: string)
      requires Valid()
      modifies results
      ensures Valid() && results.View() == Apply(old(results.View()), OpDelete(taskId))
    {
      var deleted := results.Delete(taskId);
    }
  }
}
