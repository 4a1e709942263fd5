/**
 * The ActiveObject-based tasks of src/core.cpp: the earlier generation of
 * GatherReadings, which runs its begin, delay and status tasks on its own
 * queue and follows up from its `done(task)` hook, and SendTransmission /
 * SendStatus, which prepare a transmission and queue it. The begin and
 * status task objects are not part of this model: what they kept from their
 * replies is passed to `done` as a QueryReport, as in GatherReadingsCore.
 */
module CoreTasks {
  import opened Basics
  import opened Messages
  import opened ActiveObjects
  import opened ModuleComms
  import opened GatherReadingsCore

  /** The beginTakeReading, delay and queryReadingStatus task objects. */
  const BeginTakeReadingTask: TaskId := 20
  const DelayTask: TaskId := 21
  const QueryReadingStatusTask: TaskId := 22

  /** The LED and state calls of this generation. */
  datatype CoreEvent =
    | BeginReadingLed                               // leds->beginReading()
    | MergeStatus(address: uint8, reply: ReplyMessage)  // state->merge(8, queryReadingStatus.replyMessage())
    | DoneReadingLed                                // leds->doneReading()

  /** The tasks done(task) pushes, in push order, after `task` is done with `report`. */
  function Pushed(task: TaskId, report: QueryReport): seq<TaskId> {
    if task == BeginTakeReadingTask then [DelayTask, QueryReadingStatusTask]
    else if task == QueryReadingStatusTask then
      match report.state
      case ReadingBusy => [DelayTask, QueryReadingStatusTask]
      case ReadingDone => [QueryReadingStatusTask]
      case _ => []
    else []
  }

  /**
   * The polling rule of this generation: the status task is pushed after
   * every begin and status task except a final one, always behind a delay
   * unless a reading was merged; the delay task itself pushes nothing.
   */
  lemma PushedRule(task: TaskId, report: QueryReport)
    ensures Pushed(task, report) != [] ==> Pushed(task, report)[|Pushed(task, report)| - 1] == QueryReadingStatusTask
    ensures DelayTask in Pushed(task, report) <==>
      task == BeginTakeReadingTask || (task == QueryReadingStatusTask && report.state == ReadingBusy)
    ensures Pushed(task, report) == [] <==>
      task != BeginTakeReadingTask && (task != QueryReadingStatusTask || report.state in {ReadingBegin, ReadingOver})
    ensures Pushed(DelayTask, report) == []
  {
  }

  /**
   * The two generations part on a status of "begin": the handler-based task
   * polls again after the backoff, this one ends the readings.
   */
  lemma GenerationsDifferOnBegin(backoff: uint32, reply: Option<ReplyMessage>)
    ensures FollowUpFor(Finished(Some(QueryReadingStatus), reply), QueryReport(backoff, ReadingBegin)).PollAfter?
    ensures Pushed(QueryReadingStatusTask, QueryReport(backoff, ReadingBegin)) == []
  {
  }

  class GatherReadingsTasks {
    /** The object's own task queue. */
    const queue: ActiveObject
    /** delay.adjust(ms): the duration of the delay task. */
    var delayMs: uint32
    var events: seq<CoreEvent>

    ghost predicate Valid()
      reads this, queue
    {
      queue.Valid()
    }

    constructor ()
      ensures Valid() && fresh(queue)
      ensures queue.tasks == [] && queue.idleTask == None && events == [] && delayMs == 0
    {
      queue := new ActiveObject(None);
      delayMs := 0;
      events := [];
    }

    /** enqueued(): with any module attached, lights the reading LED and pushes the begin task. */
    method Enqueued(numberOfModules: nat)
      requires Valid() && BeginTakeReadingTask !in queue.tasks
      modifies this, queue
      ensures Valid() && delayMs == old(delayMs)
      ensures numberOfModules == 0 ==> queue.tasks == old(queue.tasks) && events == old(events)
      ensures numberOfModules > 0 ==>
        queue.tasks == old(queue.tasks) + [BeginTakeReadingTask] &&
        queue.trace == old(queue.trace) + [Hook.Enqueued(BeginTakeReadingTask)] &&
        events == old(events) + [BeginReadingLed]
    {
      if numberOfModules == 0 {
        return;
      }
      events := events + [BeginReadingLed];
      queue.Push(BeginTakeReadingTask);
    }

    /**
     * done(task): after the begin task, and after a busy status, sets the
     * delay to the backoff (300 ms without one) and pushes the delay and
     * then the status task; after a done status merges the reply and pushes
     * the status task again; after any other status clears the reading LED.
     * `statusReply` is the status task's reply message.
     */
    method Done(task: TaskId, report: QueryReport, statusReply: ReplyMessage)
      requires Valid()
      requires forall t :: t in Pushed(task, report) ==> t !in queue.tasks
      modifies this, queue
      ensures Valid()
      ensures queue.tasks == old(queue.tasks) + Pushed(task, report)
      ensures DelayTask in Pushed(task, report) ==> delayMs == PollDelay(report.backoff)
      ensures DelayTask !in Pushed(task, report) ==> delayMs == old(delayMs)
      ensures task == QueryReadingStatusTask && report.state == ReadingDone ==>
        events == old(events) + [MergeStatus(8, statusReply)]
      ensures task == QueryReadingStatusTask && report.state in {ReadingBegin, ReadingOver} ==>
        events == old(events) + [DoneReadingLed]
      ensures task != QueryReadingStatusTask || report.state == ReadingBusy ==> events == old(events)
    {
      if task == BeginTakeReadingTask {
        delayMs := PollDelay(report.backoff);
        queue.Push(DelayTask);
        queue.Push(QueryReadingStatusTask);
      } else if task == QueryReadingStatusTask {
        if report.state == ReadingBusy {
          delayMs := PollDelay(report.backoff);
          queue.Push(DelayTask);
          queue.Push(QueryReadingStatusTask);
        } else if report.state == ReadingDone {
          events := events + [MergeStatus(8, statusReply)];
          queue.Push(QueryReadingStatusTask);
        } else {
          events := events + [DoneReadingLed];
        }
      }
    }
  }

  /**
   * One tick that finishes the head task, followed by the object's
   * `done(task)` hook, as service() calls it.
   */
  method Complete(g: GatherReadingsTasks, report: QueryReport, statusReply: ReplyMessage) returns (finished: TaskId)
    requires g.Valid() && |g.queue.tasks| == 1 && g.queue.idleTask == None
    modifies g, g.queue
    ensures g.Valid() && finished == old(g.queue.tasks[0])
    ensures g.queue.tasks == Pushed(finished, report)
    ensures finished == QueryReadingStatusTask && report.state == ReadingDone ==>
      g.events == old(g.events) + [MergeStatus(8, statusReply)]
    ensures finished == QueryReadingStatusTask && report.state in {ReadingBegin, ReadingOver} ==>
      g.events == old(g.events) + [DoneReadingLed]
    ensures finished != QueryReadingStatusTask || report.state == ReadingBusy ==> g.events == old(g.events)
  {
    finished := g.queue.tasks[0];
    g.queue.Tick(Done(None));
    g.Done(finished, report, statusReply);
  }

  /**
   * One reading cycle of this generation: the begin task, the 300 ms delay,
   * a status that finds a reading (merged, and polled again without delay),
   * and a final status, after which the queue is empty and the reading LED
   * is cleared. The tasks run in exactly this order.
   */
  method ReadingCycle(statusReply: ReplyMessage) returns (order: seq<TaskId>, events: seq<CoreEvent>, left: seq<TaskId>)
    ensures order == [BeginTakeReadingTask, DelayTask, QueryReadingStatusTask, QueryReadingStatusTask]
    ensures events == [BeginReadingLed, MergeStatus(8, statusReply), DoneReadingLed]
    ensures left == []
  {
    var g := new GatherReadingsTasks();
    g.Enqueued(1);
    var t := Complete(g, QueryReport(0, ReadingBegin), statusReply);
    order := [t];
    // the delay task is the head, the status task behind it
    assert g.queue.tasks == [DelayTask, QueryReadingStatusTask];
    order := order + [g.queue.tasks[0]];
    g.queue.Tick(Done(None));
    g.Done(DelayTask, QueryReport(0, ReadingBegin), statusReply);
    t := Complete(g, QueryReport(0, ReadingDone), statusReply);
    order := order + [t];
    t := Complete(g, QueryReport(0, ReadingOver), statusReply);
    order := order + [t];
    events := g.events;
    left := g.queue.tasks;
  }

  /** One `method->prepare(*builder)` call, for the transmission task it names. */
  datatype Prepared = Prepared(transmission: TaskId)

  /**
   * SendTransmission and SendStatus, whose enqueued() and done(task) are the
   * same: prepare the transmission task, then queue it.
   */
  class TransmissionSender {
    const queue: ActiveObject
    /** The transmission task this object sends. */
    const transmission: TaskId
    var prepared: seq<Prepared>

    ghost predicate Valid()
      reads this, queue
    {
      queue.Valid()
    }

    constructor (transmission: TaskId)
      ensures Valid() && fresh(queue) && this.transmission == transmission
      ensures queue.tasks == [] && queue.idleTask == None && prepared == []
    {
      this.transmission := transmission;
      queue := new ActiveObject(None);
      prepared := [];
    }

    /** enqueued(): prepares the transmission and pushes it, once. */
    method Enqueued()
      requires Valid() && transmission !in queue.tasks
      modifies this, queue
      ensures Valid()
      ensures prepared == old(prepared) + [Prepared(transmission)]
      ensures queue.tasks == old(queue.tasks) + [transmission]
      ensures queue.trace == old(queue.trace) + [Hook.Enqueued(transmission)]
    {
      prepared := prepared + [Prepared(transmission)];
      queue.Push(transmission);
    }
  }

  /** A sender queues its transmission once per enqueue, after preparing it once. */
  method SendOnce(transmission: TaskId) returns (prepared: seq<Prepared>, queued: seq<TaskId>)
    ensures prepared == [Prepared(transmission)] && queued == [transmission]
  {
    var s := new TransmissionSender(transmission);
    s.Enqueued();
    prepared := s.prepared;
    queued := s.queue.tasks;
  }
}
