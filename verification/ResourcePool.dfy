/** The pool itself, over a list of unused resources and a queue of waiters. */
module ResourcePools {
  import opened Wrappers
  import opened Lists
  import opened PromiseQueues
  import opened ResourcePoolSpec
  import opened ResourcePoolRuns
  import opened ResourcePoolUse

  class ResourcePool<R(==,!new)> {
    const maxResources: nat
    const destroy: R -> string
    var inUse: set<R>
    var unused: List<R>
    var resourceCount: nat
    const waiting: PromiseQueue<R>

    /** The promises of the calls of `get` are numbered. */
    var requests: nat

    // The unfinished calls around the pool, and what became of the finished ones
    ghost var creating: set<nat>
    ghost var failed: set<nat>
    ghost var inFlight: map<nat, R>
    ghost var granted: map<nat, R>
    ghost var issued: set<R>
    ghost var destroyed: seq<R>
    ghost var listening: nat
    ghost var ready: nat

    ghost var Repr: set<object>

    ghost function View(): Pool<R>
      reads this, unused, waiting, waiting.queue
    {
      Pool(maxResources, resourceCount, inUse, unused.Contents, waiting.Waiting(),
           requests, creating, failed, inFlight, granted, issued, destroyed, listening, ready)
    }

    ghost predicate Apart()
      reads this, Repr
    {
      && this in Repr && unused in Repr && waiting in Repr
      && unused.Repr <= Repr && waiting.Repr <= Repr
      && this !in unused.Repr && this !in waiting.Repr && unused.Repr !! waiting.Repr
      && unused.Valid() && waiting.Valid()
    }

    ghost predicate Valid()
      reads this, Repr
      ensures Valid() ==> this in Repr
    {
      && Apart()
      && (forall q | q in waiting.Waiting() :: q < requests)
      // a waiter's promise was resolved with what the request was granted
      && (forall q | q in waiting.settled ::
            q < requests && q in granted && waiting.settled[q] == ResolvedWith(granted[q]))
    }

    constructor (destroy: R -> string, maxResources: nat)
      ensures Valid() && fresh(Repr) && View() == Fresh(maxResources) && this.destroy == destroy
    {
      this.destroy, this.maxResources := destroy, maxResources;
      inUse, resourceCount := {}, 0;
      unused := new List();
      waiting := new PromiseQueue();
      requests, creating, failed, inFlight, granted := 0, {}, {}, map[], map[];
      issued, destroyed, listening, ready := {}, [], 0, 0;
      new;
      Repr := {this} + unused.Repr + waiting.Repr;
    }

    method NumOwned() returns (n: nat)
      requires Valid() && ResourcePoolRuns.Sound(View())
      ensures n == |creating| + |failed| + |issued| <= maxResources
    {
      n := resourceCount;
    }

    /** Resources that are still being created count as in use. */
    method NumInUse() returns (n: nat)
      requires Valid() && ResourcePoolRuns.Sound(View())
      ensures n == |creating| + |failed| + |inFlight| + |inUse| + |destroyed|
    {
      var length := unused.Length();
      n := resourceCount - length;
    }

    method NumUnused() returns (n: nat)
      requires Valid()
      ensures n == |View().unused|
    {
      n := unused.Length();
    }

    method ShiftUnused() returns (first: Option<R>)
      requires Valid()
      modifies unused.Repr
      ensures Valid() && first == if old(View()).unused != [] then Some(old(View()).unused[0]) else None
      ensures View() == if first.Some? then old(View()).(unused := old(View()).unused[1..]) else old(View())
    {
      ghost var was := unused.Contents;
      first := unused.Shift();
      assert first.Some? ==> unused.Contents == was[1..];
    }

    /** `getResource`: the request is `q`; its resource is known at once only if one was unused. */
    method Get() returns (q: nat, resource: Option<R>, mustCreate: bool)
      requires Valid()
      modifies Repr
      ensures Valid() && fresh(Repr - old(Repr))
      ensures View() == ResourcePoolSpec.Get(old(View())) && q == old(View()).requests
      ensures resource == if old(View()).unused != [] then Some(old(View()).unused[0]) else None
      ensures mustCreate == (old(View()).unused == [] && old(View()).count < maxResources)
    {
      q := requests;
      var maybeUnused := ShiftUnused();
      if maybeUnused.Some? {
        requests, inFlight, granted := q + 1, inFlight[q := maybeUnused.value], granted[q := maybeUnused.value];
        return q, maybeUnused, false;
      } else if resourceCount < maxResources {
        StartCreate(q);
        return q, None, true;
      }
      Enqueue(q);
      return q, None, false;
    }

    /** The promise of `create` for request `q` is fulfilled. */
    ghost method OnCreated(q: nat, r: R)
      requires Valid() && q in creating && q !in granted && r !in issued
      modifies this`creating, this`issued, this`inFlight, this`granted
      ensures Valid() && View() == Created(old(View()), q, r)
    {
      creating, issued := creating - {q}, issued + {r};
      GrantNew(q, r);
    }

    ghost method GrantNew(q: nat, r: R)
      requires Valid() && q !in granted
      modifies this`inFlight, this`granted
      ensures Valid() && View() == Grant(old(View()), q, r)
    {
      inFlight, granted := inFlight[q := r], granted[q := r];
    }

    ghost method OnCreateFailed(q: nat)
      requires Valid() && q in creating
      modifies this`creating, this`failed
      ensures Valid() && View() == CreateFailed(old(View()), q)
    {
      creating, failed := creating - {q}, failed + {q};
    }

    /** The continuation of `get`, when the promise of request `q` has given it its resource. */
    method OnResource(ghost q: nat, resource: R)
      requires Valid() && q in inFlight && inFlight[q] == resource
      modifies this`inUse, this`inFlight
      ensures Valid() && View() == Deliver(old(View()), q)
    {
      inUse := inUse + {resource};
      inFlight := inFlight - {q};
    }

    /** `ok` is false when `return` throws. */
    method Return(resource: R) returns (ok: bool)
      requires Valid()
      modifies Repr
      ensures Valid() && fresh(Repr - old(Repr))
      ensures View() == ResourcePoolSpec.Return(old(View()), resource) && ok == (resource in old(View()).inUse)
    {
      if resource !in inUse {
        return false;
      }
      inUse := inUse - {resource};
      var any := HandOver(resource);
      if !any {
        if |inUse| == 0 {
          EmitEmpty();
        }
        PutBack(resource);
      }
      return true;
    }

    /** The request that waited longest, if any, gets the resource. */
    method HandOver(resource: R) returns (any: bool)
      requires Valid()
      modifies waiting.Repr, this`inFlight, this`granted
      ensures Valid() && any == (old(View()).waiting != [])
      ensures View() == if any
                        then Grant(old(View()), old(View()).waiting[0], resource).(waiting := old(View()).waiting[1..])
                        else old(View())
    {
      ghost var was := waiting.Waiting();
      any := waiting.ResolveOne(resource);
      if any {
        assert was[0] in was && forall q | q in was[1..] :: q in was;
        inFlight, granted := inFlight[was[0] := resource], granted[was[0] := resource];
      }
    }

    /** Every `destroyAll` call that listens hears it once. */
    ghost method EmitEmpty()
      requires Valid()
      modifies this`ready, this`listening
      ensures Valid() && View() == old(View()).(ready := old(ready) + old(listening), listening := 0)
    {
      ready, listening := ready + listening, 0;
    }

    method PutBack(resource: R)
      requires Valid()
      modifies unused.Repr, this`Repr
      ensures Valid() && fresh(Repr - old(Repr))
      ensures View() == old(View()).(unused := old(View()).unused + [resource])
    {
      var n := unused.Push([resource]);
      Repr := Repr + unused.Repr;
    }

    method StartCreate(q: nat)
      requires Valid() && q == requests
      modifies this`resourceCount, this`requests, this`creating
      ensures Valid()
      ensures View() ==
              old(View()).(requests := q + 1, count := old(resourceCount) + 1, creating := old(creating) + {q})
    {
      resourceCount := resourceCount + 1;
      requests, creating := q + 1, creating + {q};
    }

    method Enqueue(q: nat)
      requires Valid() && q == requests
      modifies waiting.Repr, this`Repr, this`requests
      ensures Valid() && fresh(Repr - old(Repr))
      ensures View() == old(View()).(requests := q + 1, waiting := old(View()).waiting + [q])
    {
      waiting.Push(q);
      requests := q + 1;
      Repr := Repr + waiting.Repr;
    }

    /** What `destroy` replies for each of the resources, in order. */
    function Replies(resources: seq<R>): (replies: seq<string>)
      ensures |replies| == |resources| && forall i | 0 <= i < |resources| :: replies[i] == destroy(resources[i])
    {
      seq(|resources|, i requires 0 <= i < |resources| => destroy(resources[i]))
    }

    /** No replies yet if the call listens; otherwise the unused resources are destroyed at once. */
    method DestroyAll() returns (replies: Option<seq<string>>)
      requires Valid()
      modifies Repr
      ensures Valid() && fresh(Repr - old(Repr))
      ensures View() == ResourcePoolSpec.DestroyAll(old(View()))
      ensures replies == if old(View()).inUse != {} then None else Some(Replies(old(View()).unused))
    {
      if |inUse| != 0 {
        listening := listening + 1;
        return None;
      }
      var all := DestroyConnections();
      return Some(all);
    }

    /** The rest of a `destroyAll` call, after it heard "empty". */
    method OnEmpty() returns (replies: seq<string>)
      requires Valid() && ready > 0
      modifies Repr
      ensures Valid() && fresh(Repr - old(Repr))
      ensures View() == ResumeDestroy(old(View())) && replies == Replies(old(View()).unused)
    {
      ready := ready - 1;
      replies := DestroyConnections();
    }

    method DestroyConnections() returns (replies: seq<string>)
      requires Valid()
      modifies this`unused, this`destroyed, this`Repr
      ensures Valid() && fresh(Repr - old(Repr))
      ensures View() == DestroyUnused(old(View())) && replies == Replies(old(View()).unused)
    {
      var connections := unused.Iterate();
      unused := new List();
      Repr := Repr + unused.Repr;
      replies := DestroyEach(connections);
    }

    method DestroyEach(resources: seq<R>) returns (replies: seq<string>)
      requires Valid()
      modifies this`destroyed
      ensures Valid() && View() == old(View()).(destroyed := old(destroyed) + resources)
      ensures replies == Replies(resources)
    {
      replies := [];
      for i := 0 to |resources|
        invariant Valid() && View() == old(View()).(destroyed := old(destroyed) + resources[..i])
        invariant replies == Replies(resources[..i])
      {
        var reply := Destroy(resources[i]);
        replies := replies + [reply];
        assert resources[..i + 1] == resources[..i] + [resources[i]];
      }
      assert resources[..|resources|] == resources;
    }

    /** Calls `destroy`, which does not throw. */
    method Destroy(resource: R) returns (reply: string)
      requires Valid()
      modifies this`destroyed
      ensures Valid() && View() == old(View()).(destroyed := old(destroyed) + [resource]) && reply == destroy(resource)
    {
      destroyed := destroyed + [resource];
      reply := destroy(resource);
    }

    /** The `then` of `returnAfter`, when the promise of the body has settled: a value returns the resource. */
    method Then<U>(settled: Outcome<U>, resource: R) returns (chained: Outcome<U>)
      requires Valid()
      modifies Repr
      ensures Valid() && fresh(Repr - old(Repr))
      ensures (View(), chained) == ResourcePoolUse.Then(old(View()), settled, resource)
    {
      if settled.Error? {
        return settled;
      }
      var ok := Return(resource);
      chained := if ok then settled else Error(NOT_OWNED);
    }

    /** Its `catch`, when `then` is through: an error returns the resource, even if `return` threw it. */
    method Catch<U>(chained: Outcome<U>, resource: R) returns (result: Outcome<U>)
      requires Valid()
      modifies Repr
      ensures Valid() && fresh(Repr - old(Repr))
      ensures (View(), result) == ResourcePoolUse.Catch(old(View()), chained, resource)
    {
      if chained.Value? {
        return chained;
      }
      var ok := Return(resource);
      result := if ok then chained else Error(NOT_OWNED);
    }
  }
}
