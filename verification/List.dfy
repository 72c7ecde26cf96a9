/** A doubly linked list on the heap, and the sequence it stands for. */
module Lists {
  import opened Wrappers

  class Node<T> {
    var element: T
    var next: Node?<T>
    var previous: Node?<T>

    constructor (element: T, next: Node?<T>, previous: Node?<T>)
      ensures this.element == element && this.next == next && this.previous == previous
    {
      this.element, this.next, this.previous := element, next, previous;
    }
  }

  lemma Prepend<T>(s: seq<T>, i: nat, rest: seq<T>)
    requires i < |s|
    ensures [s[i]] + (s[i + 1..] + rest) == s[i..] + rest
  {
  }

  class List<T> {
    var head: Node?<T>
    var tail: Node?<T>
    var size: nat

    ghost var nodes: seq<Node<T>>
    ghost var Contents: seq<T>
    ghost var Repr: set<object>

    /** The nodes from head to tail are the ghost nodes, linked both ways. */
    ghost predicate Valid()
      reads this, Repr
      ensures Valid() ==> this in Repr
    {
      && this in Repr
      && (forall i | 0 <= i < |nodes| :: nodes[i] in Repr)
      && size == |nodes| == |Contents|
      && (forall i, j | 0 <= i < j < |nodes| :: nodes[i] != nodes[j])
      && head == (if nodes == [] then null else nodes[0])
      && tail == (if nodes == [] then null else nodes[|nodes| - 1])
      && (forall i {:trigger nodes[i].element} | 0 <= i < |nodes| :: nodes[i].element == Contents[i])
      && (forall i {:trigger nodes[i].next} | 0 <= i < |nodes| ::
            nodes[i].next == if i + 1 < |nodes| then nodes[i + 1] else null)
      && (forall i {:trigger nodes[i].previous} | 0 <= i < |nodes| ::
            nodes[i].previous == if i > 0 then nodes[i - 1] else null)
    }

    constructor ()
      ensures Valid() && fresh(Repr) && Contents == []
    {
      head, tail, size := null, null, 0;
      nodes, Contents := [], [];
      Repr := {this};
    }

    method Length() returns (n: nat)
      requires Valid()
      ensures n == |Contents|
    {
      n := size;
    }

    static method From(init: seq<T>) returns (list: List<T>)
      ensures list.Valid() && fresh(list.Repr) && list.Contents == init
    {
      list := new List();
      for i := 0 to |init|
        invariant list.Valid() && fresh(list.Repr) && list.Contents == init[..i]
      {
        var n := list.PushOne(init[i]);
      }
    }

    method Push(elements: seq<T>) returns (n: nat)
      requires Valid()
      modifies Repr
      ensures Valid() && fresh(Repr - old(Repr))
      ensures Contents == old(Contents) + elements && n == |Contents|
    {
      for i := 0 to |elements|
        invariant Valid() && fresh(Repr - old(Repr))
        invariant Contents == old(Contents) + elements[..i]
      {
        var m := PushOne(elements[i]);
      }
      n := size;
    }

    method Pop() returns (popped: Option<T>)
      requires Valid()
      modifies Repr
      ensures Valid() && Repr == old(Repr)
      ensures if old(Contents) == [] then popped == None && Contents == []
              else popped.Some? && old(Contents) == Contents + [popped.value]
    {
      if tail == null {
        return None;
      }
      size := size - 1;
      popped := Some(tail.element);
      tail := tail.previous;
      if tail != null {
        tail.next := null;
      } else {
        head := null;
      }
      nodes, Contents := nodes[..size], Contents[..size];
    }

    method Shift() returns (shifted: Option<T>)
      requires Valid()
      modifies Repr
      ensures Valid() && Repr == old(Repr)
      ensures if old(Contents) == [] then shifted == None && Contents == []
              else shifted.Some? && old(Contents) == [shifted.value] + Contents
    {
      if head == null {
        return None;
      }
      size := size - 1;
      shifted := Some(head.element);
      head := head.next;
      if head != null {
        head.previous := null;
      } else {
        tail := null;
      }
      nodes, Contents := nodes[1..], Contents[1..];
    }

    method Unshift(elements: seq<T>) returns (n: nat)
      requires Valid()
      modifies Repr
      ensures Valid() && fresh(Repr - old(Repr))
      ensures Contents == elements + old(Contents) && n == |Contents|
    {
      ghost var was := Contents;
      for i := |elements| downto 0
        invariant Valid() && fresh(Repr - old(Repr))
        invariant Contents == elements[i..] + was
      {
        Prepend(elements, i, was);
        var m := UnshiftOne(elements[i]);
      }
      n := size;
    }

    /** Everything the iterator yields, in order. */
    method Iterate() returns (yielded: seq<T>)
      requires Valid()
      ensures yielded == Contents
    {
      yielded := [];
      var current := head;
      while current != null
        invariant |yielded| <= |nodes| && yielded == Contents[..|yielded|]
        invariant current == if |yielded| < |nodes| then nodes[|yielded|] else null
        decreases |nodes| - |yielded|
      {
        var toYield := current.element;
        current := current.next;
        yielded := yielded + [toYield];
      }
    }

    method PushOne(element: T) returns (n: nat)
      requires Valid()
      modifies Repr
      ensures Valid() && fresh(Repr - old(Repr))
      ensures Contents == old(Contents) + [element] && n == |Contents|
    {
      size := size + 1;
      var toPush := new Node(element, null, tail);
      if tail == null {
        head, tail := toPush, toPush;
      } else {
        tail.next := toPush;
        tail := toPush;
      }
      nodes, Contents := nodes + [toPush], Contents + [element];
      Repr := Repr + {toPush};
      n := size;
    }

    method UnshiftOne(element: T) returns (n: nat)
      requires Valid()
      modifies Repr
      ensures Valid() && fresh(Repr - old(Repr))
      ensures Contents == [element] + old(Contents) && n == |Contents|
    {
      size := size + 1;
      var toUnshift := new Node(element, head, null);
      if head == null {
        head, tail := toUnshift, toUnshift;
      } else {
        head.previous := toUnshift;
        head := toUnshift;
      }
      nodes, Contents := [toUnshift] + nodes, [element] + Contents;
      Repr := Repr + {toUnshift};
      n := size;
    }
  }

  // ---------- Whole histories of one list

  datatype Op<T> = OpPush(elements: seq<T>) | OpPop | OpShift | OpUnshift(elements: seq<T>)

  /** The elements after some operations, and what the removals among them gave, in order. */
  datatype Trace<T> = Trace(elements: seq<T>, removed: seq<Option<T>>)

  function Step<T>(t: Trace<T>, op: Op<T>): Trace<T> {
    var s := t.elements;
    match op
    case OpPush(elements) => Trace(s + elements, t.removed)
    case OpUnshift(elements) => Trace(elements + s, t.removed)
    case OpPop =>
      if s == [] then Trace(s, t.removed + [None]) else Trace(s[..|s| - 1], t.removed + [Some(s[|s| - 1])])
    case OpShift =>
      if s == [] then Trace(s, t.removed + [None]) else Trace(s[1..], t.removed + [Some(s[0])])
  }

  function Steps<T>(ops: seq<Op<T>>): Trace<T> {
    if ops == [] then Trace([], []) else Step(Steps(ops[..|ops| - 1]), ops[|ops| - 1])
  }

  /** Whatever is done to a list, it contains and gives back what the sequence does. */
  method Replay<T>(ops: seq<Op<T>>) returns (yielded: seq<T>, removed: seq<Option<T>>)
    ensures Trace(yielded, removed) == Steps(ops)
  {
    var list := new List<T>();
    removed := [];
    for i := 0 to |ops|
      invariant list.Valid() && fresh(list.Repr)
      invariant Trace(list.Contents, removed) == Steps(ops[..i])
    {
      assert ops[..i + 1][..i] == ops[..i];
      ghost var was := list.Contents;
      match ops[i] {
        case OpPush(elements) => var n := list.Push(elements);
        case OpUnshift(elements) => var n := list.Unshift(elements);
        case OpPop =>
          var popped := list.Pop();
          assert was != [] ==> was[..|was| - 1] == list.Contents;
          removed := removed + [popped];
        case OpShift =>
          var shifted := list.Shift();
          assert was != [] ==> was[1..] == list.Contents;
          removed := removed + [shifted];
      }
    }
    assert ops[..|ops|] == ops;
    yielded := list.Iterate();
  }

  function Pushed<T>(ops: seq<Op<T>>): seq<T> {
    if ops == [] then []
    else Pushed(ops[..|ops| - 1]) + (if ops[|ops| - 1].OpPush? then ops[|ops| - 1].elements else [])
  }

  function Present<T>(removed: seq<Option<T>>): seq<T> {
    if removed == [] then []
    else Present(removed[..|removed| - 1])
         + (if removed[|removed| - 1].Some? then [removed[|removed| - 1].value] else [])
  }

  lemma FifoStep<T>(t: Trace<T>, op: Op<T>)
    requires op.OpPush? || op.OpShift?
    ensures var t', all := Step(t, op), Present(t.removed) + t.elements;
            Present(t'.removed) + t'.elements == if op.OpPush? then all + op.elements else all
  {
  }

  /** A list that is only pushed to and shifted from is a queue: first in, first out, nothing lost. */
  lemma {:induction false} PushAndShiftIsFifo<T>(ops: seq<Op<T>>)
    requires forall i | 0 <= i < |ops| :: ops[i].OpPush? || ops[i].OpShift?
    ensures Present(Steps(ops).removed) + Steps(ops).elements == Pushed(ops)
  {
    if ops == [] {
    } else {
      PushAndShiftIsFifo(ops[..|ops| - 1]);
      FifoStep(Steps(ops[..|ops| - 1]), ops[|ops| - 1]);
    }
  }
}
