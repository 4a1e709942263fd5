/**
 * The cooperative scheduler of src/active_object.cpp.
 *
 * An ActiveObject owns a FIFO queue of tasks (the intrusive singly linked
 * list of `Task::nextTask` links, here the sequence of task identities from
 * the head to the tail) and advances exactly one step of the head task per
 * tick, turning the outcome of that step into queue changes and hook calls.
 * Tasks themselves are outside the scheduler: the outcome their `task()`
 * returns is an input of `Tick`, and every hook the scheduler calls
 * (`task()`, `enqueued()`, `done()`, `error()`, the object's own `done(task)`,
 * `error(task)` and `idle()`) is recorded, in order, in a ghost trace.
 */
module ActiveObjects {
  import opened Basics

  /** A task is identified by the object that implements it; the scheduler never allocates one. */
  type TaskId = nat

  /** The outcome of one `task()` step (TaskEval). */
  datatype TaskEval =
    | Idle
    | Busy
    | Done(next: Option<TaskId>)
    | Error(next: Option<TaskId>)
    | Yield(next: Option<TaskId>)
    | Pass(replacement: TaskId)

  /** One call the scheduler makes into a task or into its own overridable hooks. */
  datatype Hook =
    | Evaluated(task: TaskId)    // task.task()
    | Enqueued(task: TaskId)     // task.enqueued()
    | TaskDone(task: TaskId)     // task.done()
    | ObjectDone(task: TaskId)   // ActiveObject::done(task)
    | TaskError(task: TaskId)    // task.error()
    | ObjectError(task: TaskId)  // ActiveObject::error(task)
    | IdleHook                   // ActiveObject::idle()

  /** The link slot `end()` designates: the head pointer of an empty queue, or the tail's `nextTask`. */
  datatype Slot = HeadSlot | NextOf(task: TaskId)

  function Chained(next: Option<TaskId>): seq<TaskId> {
    if next.Some? then [next.value] else []
  }

  /** The queue after `pop()`: the head is dropped; an empty queue stays empty. */
  function Popped(q: seq<TaskId>): seq<TaskId> {
    if q == [] then [] else q[1..]
  }

  /** No task is linked twice: an intrusive list that held one task twice would be a cycle. */
  predicate Distinct(q: seq<TaskId>) {
    forall i, j :: 0 <= i < j < |q| ==> q[i] != q[j]
  }

  /** The queue after `service(active)` has dispatched on the outcome `e` of `active.task()`. */
  function ServiceQueue(q: seq<TaskId>, active: TaskId, e: TaskEval): seq<TaskId> {
    match e
    case Yield(n) => Popped(q) + Chained(n) + [active]
    case Done(n) => Popped(q) + Chained(n)
    case Error(n) => Popped(q) + Chained(n)
    case _ => q
  }

  function EnqueuedHooks(n: Option<TaskId>): seq<Hook> {
    if n.Some? then [Enqueued(n.value)] else []
  }

  /** The hooks `service(active)` calls, in order, when `active.task()` returns `e`. */
  function ServiceHooks(active: TaskId, e: TaskEval): seq<Hook> {
    [Evaluated(active)] +
    match e
    case Yield(_) => [IdleHook]
    case Done(n) => [TaskDone(active), ObjectDone(active)] + EnqueuedHooks(n)
    case Error(n) => [TaskError(active), ObjectError(active)] + EnqueuedHooks(n)
    case _ => []
  }

  /**
   * What `service(active)` needs so that its relinking keeps the list a list:
   * `active` is the head (or the queue is empty and `active` is the idle task),
   * and a chained follow-up is not already linked behind the head.
   */
  predicate CanService(q: seq<TaskId>, active: TaskId, e: TaskEval) {
    (q != [] ==> active == q[0]) &&
    match e
    case Yield(n) => active !in Popped(q) && (n.Some? ==> n.value != active && n.value !in Popped(q))
    case Done(n) => n.Some? ==> n.value !in Popped(q)
    case Error(n) => n.Some? ==> n.value !in Popped(q)
    case _ => true
  }

  /** The queue after `tick()`: the head is serviced, or the idle task when the queue is empty. */
  function TickQueue(q: seq<TaskId>, idleTask: Option<TaskId>, e: TaskEval): seq<TaskId> {
    if q != [] then ServiceQueue(q, q[0], e)
    else if idleTask.Some? then ServiceQueue([], idleTask.value, e)
    else []
  }

  /** The hooks `tick()` calls; `idle()` follows every tick that found the queue empty. */
  function TickHooks(q: seq<TaskId>, idleTask: Option<TaskId>, e: TaskEval): seq<Hook> {
    if q != [] then ServiceHooks(q[0], e)
    else if idleTask.Some? then ServiceHooks(idleTask.value, e) + [IdleHook]
    else [IdleHook]
  }

  predicate CanTick(q: seq<TaskId>, idleTask: Option<TaskId>, e: TaskEval) {
    if q != [] then CanService(q, q[0], e)
    else idleTask.Some? ==> CanService([], idleTask.value, e)
  }

  /** The tasks whose `task()` a hook trace evaluates, in order. */
  function Evaluations(h: seq<Hook>): seq<TaskId> {
    if h == [] then []
    else (if h[0].Evaluated? then [h[0].task] else []) + Evaluations(h[1..])
  }

  /** The tasks whose `done()` or `error()` a hook trace calls, in order. */
  function Completions(h: seq<Hook>): seq<TaskId> {
    if h == [] then []
    else (if h[0].TaskDone? || h[0].TaskError? then [h[0].task] else []) + Completions(h[1..])
  }

  /** Ticks of an object without idle task, one outcome per tick: the final queue and all hooks. */
  function Run(q: seq<TaskId>, outcomes: seq<TaskEval>): (seq<TaskId>, seq<Hook>)
    decreases |outcomes|
  {
    if outcomes == [] then (q, [])
    else
      var rest := Run(TickQueue(q, None, outcomes[0]), outcomes[1..]);
      (rest.0, TickHooks(q, None, outcomes[0]) + rest.1)
  }

  class ActiveObject {
    /** The queued tasks, head first. */
    var tasks: seq<TaskId>
    /** The task run in lieu of scheduling while the queue is empty. */
    const idleTask: Option<TaskId>
    /** Every hook called so far, in order. */
    ghost var trace: seq<Hook>

    ghost predicate Valid()
      reads this
    {
      Distinct(tasks)
    }

    constructor (idleTask: Option<TaskId>)
      ensures Valid() && tasks == [] && trace == [] && this.idleTask == idleTask
    {
      this.idleTask := idleTask;
      tasks := [];
      trace := [];
    }

    /** isIdle(): no task is queued. */
    predicate IsIdle(): (r: bool)
      reads this
      ensures r <==> forall t :: t !in tasks
    {
      assert tasks != [] ==> tasks[0] in tasks;
      tasks == []
    }

    /** tail(): walks the links from the head to the task whose link is null. */
    method Tail() returns (t: Option<TaskId>)
      ensures tasks == [] ==> t == None
      ensures tasks != [] ==> t == Some(tasks[|tasks| - 1])
    {
      if tasks == [] {
        return None;
      }
      var i := 0;
      while i + 1 < |tasks|
        invariant 0 <= i < |tasks|
        decreases |tasks| - i
      {
        i := i + 1;
      }
      t := Some(tasks[i]);
    }

    /** end(): the slot a new task is linked into, the head pointer or the tail's link. */
    method End() returns (slot: Slot)
      ensures tasks == [] <==> slot == HeadSlot
      ensures tasks != [] ==> slot == NextOf(tasks[|tasks| - 1])
    {
      var last := Tail();
      if last.None? {
        slot := HeadSlot;
      } else {
        slot := NextOf(last.value);
      }
    }

    /** `*slot = &task`, for the slot `end()` returned. */
    method Link(slot: Slot, t: TaskId)
      requires tasks == [] <==> slot == HeadSlot
      requires tasks != [] ==> slot == NextOf(tasks[|tasks| - 1])
      modifies this
      ensures tasks == old(tasks) + [t] && trace == old(trace)
    {
      match slot {
        case HeadSlot => tasks := [t];
        case NextOf(_) => tasks := tasks + [t];
      }
    }

    /** push(task): links the task after the current tail, then calls its `enqueued()` once. */
    method Push(t: TaskId)
      requires Valid() && t !in tasks
      modifies this
      ensures Valid()
      ensures tasks == old(tasks) + [t]
      ensures trace == old(trace) + [Enqueued(t)]
    {
      var slot := End();
      Link(slot, t);
      trace := trace + [Enqueued(t)];
    }

    /** pop(): unlinks exactly the head; does nothing to an empty queue. */
    method Pop()
      requires Valid()
      modifies this
      ensures Valid()
      ensures tasks == Popped(old(tasks)) && trace == old(trace)
    {
      if tasks != [] {
        tasks := tasks[1..];
      }
    }

    /** service(active): dispatches on the outcome `e` of `active.task()`. */
    method Service(active: TaskId, e: TaskEval)
      requires Valid() && CanService(tasks, active, e)
      modifies this
      ensures Valid()
      ensures tasks == ServiceQueue(old(tasks), active, e)
      ensures trace == old(trace) + ServiceHooks(active, e)
    {
      ServiceKeepsDistinct(tasks, active, e);
      ghost var q, h := tasks, trace + [Evaluated(active)];
      trace := trace + [Evaluated(active)];
      match e {
        case Yield(n) =>
          Pop();
          trace := trace + [IdleHook];
          if n.Some? {
            var slot := End();
            Link(slot, n.value);
          }
          assert tasks == Popped(q) + Chained(n);
          var slot := End();
          Link(slot, active);
        case Done(n) =>
          Pop();
          trace := trace + [TaskDone(active), ObjectDone(active)];
          if n.Some? {
            Push(n.value);
          }
          assert tasks == Popped(q) + Chained(n) && trace == h + [TaskDone(active), ObjectDone(active)] + EnqueuedHooks(n);
        case Error(n) =>
          Pop();
          trace := trace + [TaskError(active), ObjectError(active)];
          if n.Some? {
            Push(n.value);
          }
          assert tasks == Popped(q) + Chained(n) && trace == h + [TaskError(active), ObjectError(active)] + EnqueuedHooks(n);
        case Idle =>
        case Busy =>
        case Pass(_) =>
      }
    }

    /** tick(): services the head, or the idle task (then idle()) when the queue is empty. */
    method Tick(e: TaskEval)
      requires Valid() && CanTick(tasks, idleTask, e)
      modifies this
      ensures Valid()
      ensures tasks == TickQueue(old(tasks), idleTask, e)
      ensures trace == old(trace) + TickHooks(old(tasks), idleTask, e)
    {
      if !IsIdle() {
        Service(tasks[0], e);
      } else if idleTask.Some? {
        Service(idleTask.value, e);
        trace := trace + [IdleHook];
      } else {
        trace := trace + [IdleHook];
      }
    }

    /** task(): one tick, then done exactly when the queue has drained. */
    method Step(e: TaskEval) returns (r: TaskEval)
      requires Valid() && CanTick(tasks, idleTask, e)
      modifies this
      ensures Valid()
      ensures tasks == TickQueue(old(tasks), idleTask, e)
      ensures trace == old(trace) + TickHooks(old(tasks), idleTask, e)
      ensures r == (if tasks == [] then Done(None) else Idle)
    {
      Tick(e);
      if IsIdle() {
        r := Done(None);
      } else {
        r := Idle;
      }
    }

    /** cancel(): pops until no tail is left; no done/error hook is called. */
    method Cancel()
      requires Valid()
      modifies this
      ensures Valid()
      ensures tasks == [] && trace == old(trace)
    {
      var last := Tail();
      while last.Some?
        invariant Valid() && trace == old(trace)
        invariant last.None? <==> tasks == []
        decreases |tasks|
      {
        Pop();
        last := Tail();
      }
    }
  }

  // ---------------------------------------------------------------------
  // Properties of the dispatch rule

  lemma {:induction false} EvaluationsConcat(a: seq<Hook>, b: seq<Hook>)
    ensures Evaluations(a + b) == Evaluations(a) + Evaluations(b)
    decreases |a|
  {
    if a == [] {
      assert a + b == b;
    } else {
      var first: seq<TaskId> := if a[0].Evaluated? then [a[0].task] else [];
      assert (a + b)[0] == a[0] && (a + b)[1..] == a[1..] + b;
      assert Evaluations(a + b) == first + Evaluations(a[1..] + b);
      assert Evaluations(a) == first + Evaluations(a[1..]);
      EvaluationsConcat(a[1..], b);
    }
  }

  lemma {:induction false} CompletionsConcat(a: seq<Hook>, b: seq<Hook>)
    ensures Completions(a + b) == Completions(a) + Completions(b)
    decreases |a|
  {
    if a == [] {
      assert a + b == b;
    } else {
      var first: seq<TaskId> := if a[0].TaskDone? || a[0].TaskError? then [a[0].task] else [];
      assert (a + b)[0] == a[0] && (a + b)[1..] == a[1..] + b;
      assert Completions(a + b) == first + Completions(a[1..] + b);
      assert Completions(a) == first + Completions(a[1..]);
      CompletionsConcat(a[1..], b);
    }
  }

  /** A tick on a non-empty queue evaluates the head and nothing else, exactly once. */
  lemma TickEvaluatesOnlyHead(q: seq<TaskId>, idleTask: Option<TaskId>, e: TaskEval)
    requires q != []
    ensures Evaluations(TickHooks(q, idleTask, e)) == [q[0]]
  {
    var h := ServiceHooks(q[0], e);
    var tailHooks := h[1..];
    assert h == [Evaluated(q[0])] + tailHooks;
    EvaluationsConcat([Evaluated(q[0])], tailHooks);
    assert forall k :: 0 <= k < |tailHooks| ==> !tailHooks[k].Evaluated?;
    NoEvaluations(tailHooks);
  }

  lemma {:induction false} NoEvaluations(h: seq<Hook>)
    requires forall k :: 0 <= k < |h| ==> !h[k].Evaluated?
    ensures Evaluations(h) == []
    decreases |h|
  {
    if h != [] {
      NoEvaluations(h[1..]);
    }
  }

  /**
   * `done()`/`error()` of a task is called by a tick only for the head, only
   * when its `task()` returned Done or Error, and then exactly once.
   */
  lemma TickCompletesHeadOnlyOnDoneOrError(q: seq<TaskId>, idleTask: Option<TaskId>, e: TaskEval)
    requires q != []
    ensures Completions(TickHooks(q, idleTask, e)) == (if e.Done? || e.Error? then [q[0]] else [])
  {
    var a := q[0];
    var h := ServiceHooks(a, e);
    match e {
      case Done(n) =>
        assert h == [Evaluated(a), TaskDone(a)] + ([ObjectDone(a)] + EnqueuedHooks(n));
        CompletionsConcat([Evaluated(a), TaskDone(a)], [ObjectDone(a)] + EnqueuedHooks(n));
        CompletionsConcat([ObjectDone(a)], EnqueuedHooks(n));
        assert Completions([Evaluated(a), TaskDone(a)]) == [a];
      case Error(n) =>
        assert h == [Evaluated(a), TaskError(a)] + ([ObjectError(a)] + EnqueuedHooks(n));
        CompletionsConcat([Evaluated(a), TaskError(a)], [ObjectError(a)] + EnqueuedHooks(n));
        CompletionsConcat([ObjectError(a)], EnqueuedHooks(n));
        assert Completions([Evaluated(a), TaskError(a)]) == [a];
      case Yield(n) =>
        assert Completions([IdleHook]) == [];
        CompletionsConcat([Evaluated(a)], [IdleHook]);
      case Idle =>
      case Busy =>
      case Pass(_) =>
    }
  }

  /** Relinking by `service` keeps every task linked at most once. */
  lemma ServiceKeepsDistinct(q: seq<TaskId>, active: TaskId, e: TaskEval)
    requires Distinct(q) && CanService(q, active, e)
    ensures Distinct(ServiceQueue(q, active, e))
  {
    var p := Popped(q);
    assert Distinct(p);
    match e {
      case Yield(n) =>
        var r := p + Chained(n) + [active];
        forall i, j | 0 <= i < j < |r| ensures r[i] != r[j] {
          if j == |r| - 1 {
            assert r[i] in p + Chained(n);
          } else if n.Some? && j == |p| {
            assert r[i] in p;
          }
        }
      case Done(n) =>
        var r := p + Chained(n);
        forall i, j | 0 <= i < j < |r| ensures r[i] != r[j] {
          if n.Some? && j == |p| {
            assert r[i] in p;
          }
        }
      case Error(n) =>
        var r := p + Chained(n);
        forall i, j | 0 <= i < j < |r| ensures r[i] != r[j] {
          if n.Some? && j == |p| {
            assert r[i] in p;
          }
        }
      case Idle =>
      case Busy =>
      case Pass(_) =>
    }
  }

  /**
   * FIFO dispatch: when every step returns Done without a follow-up, the
   * tasks are evaluated exactly in the order they were pushed, each once,
   * and the queue drains.
   */
  lemma {:induction false} DoneRunDispatchesInPushOrder(q: seq<TaskId>, outcomes: seq<TaskEval>)
    requires |outcomes| == |q|
    requires forall k :: 0 <= k < |outcomes| ==> outcomes[k] == Done(None)
    ensures Run(q, outcomes).0 == []
    ensures Evaluations(Run(q, outcomes).1) == q
    decreases |q|
  {
    if q != [] {
      var rest := Run(q[1..], outcomes[1..]);
      assert TickQueue(q, None, outcomes[0]) == q[1..];
      DoneRunDispatchesInPushOrder(q[1..], outcomes[1..]);
      TickEvaluatesOnlyHead(q, None, outcomes[0]);
      EvaluationsConcat(TickHooks(q, None, outcomes[0]), rest.1);
      assert [q[0]] + q[1..] == q;
    }
  }

  /**
   * Cooperative round robin: k successive Yields (k no more than the queue
   * length) evaluate the first k tasks in order and move each of them behind
   * every task that was queued when it yielded.
   */
  lemma {:induction false} YieldRunRotates(q: seq<TaskId>, outcomes: seq<TaskEval>)
    requires |outcomes| <= |q|
    requires forall k :: 0 <= k < |outcomes| ==> outcomes[k] == Yield(None)
    ensures Run(q, outcomes).0 == q[|outcomes|..] + q[..|outcomes|]
    ensures Evaluations(Run(q, outcomes).1) == q[..|outcomes|]
    decreases |outcomes|
  {
    if outcomes != [] {
      var k := |outcomes|;
      var q1 := q[1..] + [q[0]];
      assert TickQueue(q, None, outcomes[0]) == q1;
      var rest := Run(q1, outcomes[1..]);
      assert Run(q, outcomes) == (rest.0, TickHooks(q, None, outcomes[0]) + rest.1);
      YieldRunRotates(q1, outcomes[1..]);
      assert rest.0 == q1[k - 1..] + q1[..k - 1];
      assert Evaluations(rest.1) == q1[..k - 1];
      TickEvaluatesOnlyHead(q, None, outcomes[0]);
      EvaluationsConcat(TickHooks(q, None, outcomes[0]), rest.1);
      RotateStep(q, k);
    }
  }

  lemma RotateStep(q: seq<TaskId>, k: nat)
    requires 0 < k <= |q|
    ensures (q[1..] + [q[0]])[k - 1..] + (q[1..] + [q[0]])[..k - 1] == q[k..] + q[..k]
    ensures [q[0]] + (q[1..] + [q[0]])[..k - 1] == q[..k]
  {
    var q1 := q[1..] + [q[0]];
    assert q1[k - 1..] == q[k..] + [q[0]];
    assert q1[..k - 1] == q[1..k];
    assert q[..k] == [q[0]] + q[1..k];
  }
}
