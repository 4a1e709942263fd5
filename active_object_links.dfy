/**
 * The task queue of src/active_object.cpp at the level of its links: a head
 * pointer and one `nextTask` link per task, where a task with no entry has a
 * null link. ActiveObjects models the same queue as the sequence the links
 * spell; this module keeps the links themselves, to show what `cancel()`
 * leaves behind in them.
 */
module ActiveObjectLinks {
  import opened Basics
  import opened ActiveObjects

  /** A task's `nextTask` link; a task the map does not mention has a null link. */
  function LinkIn(next: map<TaskId, Option<TaskId>>, t: TaskId): Option<TaskId> {
    if t in next then next[t] else None
  }

  /**
   * The links spell `order`: the head is its first task, each task links to
   * the one after it and the last one's link is null.
   */
  predicate Chain(head: Option<TaskId>, next: map<TaskId, Option<TaskId>>, order: seq<TaskId>) {
    (order == [] <==> head.None?) &&
    (order != [] ==> head == Some(order[0]) && LinkIn(next, order[|order| - 1]) == None) &&
    forall i :: 0 <= i < |order| - 1 ==> LinkIn(next, order[i]) == Some(order[i + 1])
  }

  /** The tasks met following the links from `head`, at most `fuel` of them. */
  function Traverse(head: Option<TaskId>, next: map<TaskId, Option<TaskId>>, fuel: nat): (r: seq<TaskId>)
    ensures |r| <= fuel
    ensures head.Some? && 0 < fuel ==> r != [] && r[0] == head.value
    decreases fuel
  {
    if fuel == 0 || head.None? then []
    else [head.value] + Traverse(LinkIn(next, head.value), next, fuel - 1)
  }

  /** Links that spell a queue lead, from the head, through exactly that queue and stop. */
  lemma {:induction false} ChainTraverses(head: Option<TaskId>, next: map<TaskId, Option<TaskId>>, order: seq<TaskId>, extra: nat)
    requires Chain(head, next, order)
    ensures Traverse(head, next, |order| + extra) == order
    decreases |order|
  {
    if order != [] {
      var rest := LinkIn(next, order[0]);
      assert Chain(rest, next, order[1..]) by {
        if |order| > 1 {
          assert rest == Some(order[1]);
        }
      }
      ChainTraverses(rest, next, order[1..], extra);
    }
  }

  /** In links that spell a queue only the last task's link is null. */
  lemma NullLinkIsLast(head: Option<TaskId>, next: map<TaskId, Option<TaskId>>, order: seq<TaskId>, i: nat)
    requires Chain(head, next, order) && i < |order|
    ensures LinkIn(next, order[i]) == None <==> i == |order| - 1
  {
    if i < |order| - 1 {
      assert LinkIn(next, order[i]) == Some(order[i + 1]);
    }
  }

  class LinkedQueue {
    var head: Option<TaskId>
    var next: map<TaskId, Option<TaskId>>
    /** The queue the links spell, head first. */
    ghost var order: seq<TaskId>

    function Link(t: TaskId): Option<TaskId>
      reads this
    {
      LinkIn(next, t)
    }

    ghost predicate Valid()
      reads this
    {
      Chain(head, next, order) && Distinct(order)
    }

    constructor ()
      ensures Valid() && head == None && next == map[] && order == []
    {
      head := None;
      next := map[];
      order := [];
    }

    /** tail(): follows the links from the head to the task whose link is null. */
    method Tail() returns (t: Option<TaskId>)
      requires Valid()
      ensures order == [] ==> t == None
      ensures order != [] ==> t == Some(order[|order| - 1])
    {
      if head.None? {
        return None;
      }
      var c := head.value;
      ghost var i := 0;
      while Link(c).Some?
        invariant 0 <= i < |order| && c == order[i]
        decreases |order| - i
      {
        c := Link(c).value;
        i := i + 1;
      }
      NullLinkIsLast(head, next, order, i);
      t := Some(c);
    }

    /**
     * push(task) as written: `*end() = &task`, the head pointer when the
     * queue is empty or the tail's link otherwise. The task's own link is
     * left as it is, so the queue is what it should be only when that link
     * is null.
     */
    method Push(t: TaskId)
      requires Valid()
      modifies this
      ensures old(head).None? ==> head == Some(t) && next == old(next)
      ensures old(head).Some? ==> head == old(head) && next == old(next)[old(order)[|old(order)| - 1] := Some(t)]
      ensures order == old(order) + [t]
      ensures old(Link(t)).None? && t !in old(order) ==> Valid()
    {
      var last := Tail();
      if last.None? {
        head := Some(t);
      } else {
        next := next[last.value := Some(t)];
      }
      order := order + [t];
    }

    /** pop(): the head moves to the head's link, which is left in place. */
    method Pop()
      requires Valid()
      modifies this
      ensures Valid() && next == old(next) && order == Popped(old(order))
    {
      if head.Some? {
        if |order| > 1 {
          assert Link(order[0]) == Some(order[1]);
        }
        head := Link(head.value);
        order := order[1..];
      }
    }

    /**
     * cancel() as written: pops until no tail is left. The queue is empty,
     * but every link is as it was, so each cancelled task but the last
     * still points at the one after it.
     */
    method CancelAsWritten()
      requires Valid()
      modifies this
      ensures Valid() && head == None && order == [] && next == old(next)
    {
      var last := Tail();
      while last.Some?
        invariant Valid() && next == old(next)
        invariant last.None? <==> order == []
        decreases |order|
      {
        Pop();
        last := Tail();
      }
    }

    /**
     * cancel() with each popped task's link cleared, as service() clears the
     * link of a task it takes out of the queue: the queue is empty and every
     * cancelled task's link is null; other tasks' links are untouched.
     */
    method Cancel()
      requires Valid()
      modifies this
      ensures Valid() && head == None && order == []
      ensures forall t :: Link(t) == (if t in old(order) then None else old(Link(t)))
    {
      ghost var k := 0;
      var last := Tail();
      while last.Some?
        invariant Valid() && k <= |old(order)| && order == old(order)[k..]
        invariant last.None? <==> order == []
        invariant forall t :: Link(t) == (if t in old(order)[..k] then None else old(Link(t)))
        decreases |order|
      {
        var h := head.value;
        Pop();
        next := next[h := None];
        assert old(order)[..k + 1] == old(order)[..k] + [h];
        k := k + 1;
        last := Tail();
      }
      assert old(order)[..k] == old(order);
    }
  }

  /**
   * Push a and b, cancel, push a again: following the links from the head
   * now meets b after a, a task that was cancelled and never pushed again.
   */
  method StaleLinkAfterCancel(a: TaskId, b: TaskId) returns (queued: seq<TaskId>)
    requires a != b
    ensures queued == [a, b]
  {
    var q := new LinkedQueue();
    q.Push(a);
    q.Push(b);
    q.CancelAsWritten();
    q.Push(a);
    assert q.next == map[a := Some(b)];
    queued := Traverse(q.head, q.next, 3);
    assert Traverse(Some(b), q.next, 2) == [b];
  }

  /** The same sequence with the links cleared on cancel: only a is queued. */
  method RequeueAfterCancel(a: TaskId, b: TaskId) returns (queued: seq<TaskId>)
    requires a != b
    ensures queued == [a]
  {
    var q := new LinkedQueue();
    q.Push(a);
    q.Push(b);
    q.Cancel();
    q.Push(a);
    ChainTraverses(q.head, q.next, q.order, 2);
    queued := Traverse(q.head, q.next, 3);
  }
}
