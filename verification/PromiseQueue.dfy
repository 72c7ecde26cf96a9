/** A queue of promises that are settled in the order they were pushed. */
module PromiseQueues {
  import opened Sequences
  import opened Lists

  datatype Settlement<+T> = ResolvedWith(value: T) | RejectedWith(reason: string)

  /** What is known of the promises when each of `waiters` is settled the same way. */
  function SettleEach<T>(
      settled: map<nat, Settlement<T>>, waiters: seq<nat>, s: Settlement<T>): map<nat, Settlement<T>>
  {
    if waiters == [] then settled
    else SettleEach(settled, waiters[..|waiters| - 1], s)[waiters[|waiters| - 1] := s]
  }

  lemma SettleEachNext<T>(settled: map<nat, Settlement<T>>, waiters: seq<nat>, k: nat, s: Settlement<T>)
    requires k < |waiters|
    ensures SettleEach(settled, waiters[..k + 1], s) == SettleEach(settled, waiters[..k], s)[waiters[k] := s]
  {
    assert waiters[..k + 1][..k] == waiters[..k];
  }

  /** Settling a queue at once: every waiter gets the settlement, every other promise keeps what it had. */
  lemma {:induction false} SettleEachPointwise<T>(
      settled: map<nat, Settlement<T>>, waiters: seq<nat>, s: Settlement<T>, p: nat)
    ensures var m := SettleEach(settled, waiters, s);
            if p in waiters then p in m && m[p] == s
            else (p in m <==> p in settled) && (p in m ==> m[p] == settled[p])
  {
    if waiters == [] {
    } else {
      SettleEachPointwise(settled, waiters[..|waiters| - 1], s, p);
      assert waiters == waiters[..|waiters| - 1] + [waiters[|waiters| - 1]];
    }
  }

  class PromiseQueue<T> {
    /** The settle functions in the queue, each standing for its promise. */
    const queue: List<nat>

    /** The promises whose settle functions have been called. */
    var settled: map<nat, Settlement<T>>

    ghost var Repr: set<object>

    ghost predicate Valid()
      reads this, Repr
      ensures Valid() ==> this in Repr
    {
      && this in Repr && queue in Repr && queue.Repr <= Repr && this !in queue.Repr
      && queue.Valid()
      && Distinct(queue.Contents)
      && (forall p | p in queue.Contents :: p !in settled)
    }

    /** The promises that have not been settled, longest waiting first. */
    ghost function Waiting(): seq<nat>
      reads this, queue
    {
      queue.Contents
    }

    constructor ()
      ensures Valid() && fresh(Repr) && Waiting() == [] && settled == map[]
    {
      queue := new List();
      settled := map[];
      new;
      Repr := {this} + queue.Repr;
    }

    /** `p` is the promise that `new Promise` makes. */
    method Push(p: nat)
      requires Valid() && p !in settled && p !in Waiting()
      modifies Repr
      ensures Valid() && fresh(Repr - old(Repr))
      ensures Waiting() == old(Waiting()) + [p] && settled == old(settled)
    {
      var n := queue.Push([p]);
      Repr := Repr + queue.Repr;
    }

    /** Only the promise that waited longest is settled, and only once. */
    method SettleOne(s: Settlement<T>) returns (any: bool)
      requires Valid()
      modifies Repr
      ensures Valid() && Repr == old(Repr)
      ensures any == (old(Waiting()) != [])
      ensures if any then Waiting() == old(Waiting())[1..] && settled == old(settled)[old(Waiting())[0] := s]
              else Waiting() == [] && settled == old(settled)
    {
      ghost var was := queue.Contents;
      var maybeHead := queue.Shift();
      if maybeHead.None? {
        return false;
      }
      DistinctTail(was);
      assert queue.Contents == was[1..];
      settled := settled[maybeHead.value := s];
      return true;
    }

    method ResolveOne(value: T) returns (any: bool)
      requires Valid()
      modifies Repr
      ensures Valid() && Repr == old(Repr)
      ensures any == (old(Waiting()) != [])
      ensures if any
              then && Waiting() == old(Waiting())[1..]
                   && settled == old(settled)[old(Waiting())[0] := ResolvedWith(value)]
              else Waiting() == [] && settled == old(settled)
    {
      any := SettleOne(ResolvedWith(value));
    }

    method RejectOne(reason: string) returns (any: bool)
      requires Valid()
      modifies Repr
      ensures Valid() && Repr == old(Repr)
      ensures any == (old(Waiting()) != [])
      ensures if any
              then && Waiting() == old(Waiting())[1..]
                   && settled == old(settled)[old(Waiting())[0] := RejectedWith(reason)]
              else Waiting() == [] && settled == old(settled)
    {
      any := SettleOne(RejectedWith(reason));
    }

    /** Settles until nothing was left to settle, and counts. */
    method SettleWhile(s: Settlement<T>) returns (numTrue: nat)
      requires Valid()
      modifies Repr
      ensures Valid() && Repr == old(Repr)
      ensures Waiting() == [] && numTrue == |old(Waiting())|
      ensures settled == SettleEach(old(settled), old(Waiting()), s)
    {
      ghost var was, k := Waiting(), 0;
      numTrue := 0;
      var any := SettleOne(s);
      if any {
        SettleEachNext(old(settled), was, 0, s);
        k := 1;
      }
      assert was[..0] == [];
      while any
        invariant Valid() && Repr == old(Repr)
        invariant k == numTrue + (if any then 1 else 0) <= |was|
        invariant Waiting() == was[k..] && settled == SettleEach(old(settled), was[..k], s)
        invariant !any ==> Waiting() == []
        decreases |was| - numTrue, any
      {
        numTrue := numTrue + 1;
        any := SettleOne(s);
        if any {
          SettleEachNext(old(settled), was, k, s);
          k := k + 1;
        }
      }
      assert was[..k] == was;
    }

    method ResolveAll(value: T) returns (n: nat)
      requires Valid()
      modifies Repr
      ensures Valid() && Repr == old(Repr)
      ensures Waiting() == [] && n == |old(Waiting())|
      ensures settled == SettleEach(old(settled), old(Waiting()), ResolvedWith(value))
    {
      n := SettleWhile(ResolvedWith(value));
    }

    method RejectAll(reason: string) returns (n: nat)
      requires Valid()
      modifies Repr
      ensures Valid() && Repr == old(Repr)
      ensures Waiting() == [] && n == |old(Waiting())|
      ensures settled == SettleEach(old(settled), old(Waiting()), RejectedWith(reason))
    {
      n := SettleWhile(RejectedWith(reason));
    }
  }
}
