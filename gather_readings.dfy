/**
 * GatherReadings of src/core/gather_readings.cpp: the task that asks the
 * sensor module at address 8 to take a reading and then polls its status
 * through the protocol handler until the readings are over. The two query
 * objects, beginTakeReading and queryReadingStatus, are not part of this
 * model: they stand here as two query ids, and what their `reply()` hooks
 * kept (the backoff and the reading state) is passed in as a QueryReport.
 */
module GatherReadingsCore {
  import opened Basics
  import opened Messages
  import opened ActiveObjects
  import opened TwoWire
  import opened ModuleComms

  /** The beginTakeReading and queryReadingStatus query objects. */
  const BeginTakeReading: QueryId := 10
  const QueryReadingStatus: QueryId := 11

  /** The sensor module's bus address. */
  const SensorModuleAddress: uint8 := 8

  /** The status poll interval without a backoff from the module. */
  const DefaultPollDelay: uint32 := 300

  /** What the status query reports: isBegin(), isBusy(), isDone(), or none of them. */
  datatype ReadingState = ReadingBegin | ReadingBusy | ReadingDone | ReadingOver

  /** What the finished query object kept from its reply: getBackoff() and the reading state. */
  datatype QueryReport = QueryReport(backoff: uint32, state: ReadingState)

  /** The state and LED calls the task makes. */
  datatype ReadingEvent =
    | TakingReadings                                   // state->takingReadings()
    | ReadingsBegin                                    // leds->notifyReadingsBegin()
    | MergeReading(address: uint8, reply: Option<ReplyMessage>)  // state->merge(8, *finished.reply)
    | ReadingsDone                                     // leds->notifyReadingsDone()

  /**
   * The shared two-wire bus as the peripherals hand it out: held by one
   * task at a time. The peripherals class is not part of this model; this is
   * the behaviour the task relies on.
   */
  class BusLease {
    var owner: Option<nat>

    constructor ()
      ensures owner == None
    {
      owner := None;
    }

    method TryAcquire(who: nat) returns (ok: bool)
      modifies this
      ensures ok <==> old(owner).None?
      ensures owner == if ok then Some(who) else old(owner)
    {
      ok := owner.None?;
      if ok {
        owner := Some(who);
      }
    }

    predicate IsOwner(who: nat)
      reads this
    {
      owner == Some(who)
    }

    method Release(who: nat)
      requires IsOwner(who)
      modifies this
      ensures owner == None
    {
      owner := None;
    }
  }

  /** A poll delay: the module's backoff when it gave one, else 300 ms; never 0. */
  function PollDelay(backoff: uint32): (d: uint32)
    ensures d > 0
    ensures backoff > 0 ==> d == backoff
    ensures backoff == 0 ==> d == DefaultPollDelay
  {
    if backoff > 0 then backoff else DefaultPollDelay
  }

  /** What done(finished) does next: push the status query after a delay, end the task, or nothing. */
  datatype FollowUp = PollAfter(delay: uint32) | EndReadings | NoFollowUp

  /** The rule of done(finished), as a function of the finished query and its report. */
  function FollowUpFor(f: Finished, report: QueryReport): FollowUp {
    if f.Is(BeginTakeReading) then PollAfter(PollDelay(report.backoff))
    else if f.Is(QueryReadingStatus) then
      match report.state
      case ReadingBegin => PollAfter(PollDelay(report.backoff))
      case ReadingBusy => PollAfter(PollDelay(report.backoff))
      case ReadingDone => PollAfter(0)
      case ReadingOver => EndReadings
    else NoFollowUp
  }

  /** error(finished): a failed begin or status query fails the task. */
  function ErrorOutcome(f: Finished): TaskEval {
    if f.Is(BeginTakeReading) then Error(None)
    else if f.Is(QueryReadingStatus) then Error(None)
    else Idle
  }

  /**
   * The polling rule: after the begin query the status is always polled,
   * with the module's backoff; the status is polled at once exactly after a
   * merged reading, after a delay while the module is still starting or
   * busy, and the readings end exactly when it reports none of those.
   */
  lemma FollowUpRule(f: Finished, report: QueryReport)
    ensures f.Is(BeginTakeReading) ==> FollowUpFor(f, report).PollAfter? && FollowUpFor(f, report).delay > 0
    ensures FollowUpFor(f, report) == PollAfter(0) <==> f.Is(QueryReadingStatus) && report.state == ReadingDone
    ensures FollowUpFor(f, report) == EndReadings <==> f.Is(QueryReadingStatus) && report.state == ReadingOver
    ensures FollowUpFor(f, report) == NoFollowUp <==> !f.Is(BeginTakeReading) && !f.Is(QueryReadingStatus)
    ensures FollowUpFor(f, report).PollAfter? && FollowUpFor(f, report).delay > 0 && report.backoff > 0 ==>
      FollowUpFor(f, report).delay == report.backoff
  {
    if f.Is(BeginTakeReading) {
      assert FollowUpFor(f, report) == PollAfter(PollDelay(report.backoff));
    } else if f.Is(QueryReadingStatus) {
      match report.state
      case ReadingBegin =>
      case ReadingBusy =>
      case ReadingDone =>
      case ReadingOver =>
    }
  }

  /** The error rule: any Finished naming one of the two queries fails the task, and no other does. */
  lemma ErrorOutcomeRule(f: Finished)
    ensures ErrorOutcome(f) == Error(None) <==> f.Is(BeginTakeReading) || f.Is(QueryReadingStatus)
    ensures ErrorOutcome(f) != Error(None) ==> ErrorOutcome(f) == Idle
  {
  }

  class GatherReadings {
    /** How many readings the module is asked for. */
    const remaining: uint32
    /** This task, as the owner of the bus lease. */
    const id: nat
    const protocol: ModuleProtocolHandler
    const lease: BusLease
    /** beginTakeReading.remaining(...): the count the begin query will carry. */
    var beginRemaining: uint32
    var startedAt: uint32
    var retries: nat
    var events: seq<ReadingEvent>

    /** The handler can run, and the only queries it ever holds are the two of this task. */
    ghost predicate Valid()
      reads this, protocol, protocol.communications
    {
      protocol.Valid() &&
      (protocol.pending.query.Some? ==> protocol.pending.address > 0) &&
      protocol.pending.query in {None, Some(BeginTakeReading), Some(QueryReadingStatus)} &&
      protocol.active.query in {None, Some(BeginTakeReading), Some(QueryReadingStatus)}
    }

    constructor (remaining: uint32, id: nat, protocol: ModuleProtocolHandler, lease: BusLease)
      ensures this.remaining == remaining && this.id == id
      ensures this.protocol == protocol && this.lease == lease
      ensures startedAt == 0 && retries == 0 && events == [] && beginRemaining == 0
    {
      this.remaining := remaining;
      this.id := id;
      this.protocol := protocol;
      this.lease := lease;
      beginRemaining := 0;
      startedAt := 0;
      retries := 0;
      events := [];
    }

    /**
     * enqueued(): with the bus acquired and a sensor module attached, starts
     * the readings and pushes the begin query to address 8; otherwise pushes
     * nothing (and keeps the bus if it did acquire it).
     */
    method Enqueued(now: uint32, sensorModules: nat)
      requires Valid()
      modifies this, lease, protocol
      ensures Valid()
      ensures lease.owner == if old(lease.owner).None? then Some(id) else old(lease.owner)
      ensures old(lease.owner).None? && sensorModules > 0 ==>
        protocol.pending == Queued(SensorModuleAddress, Some(BeginTakeReading), 0) &&
        protocol.active == EmptyQueued &&
        events == old(events) + [TakingReadings, ReadingsBegin] &&
        beginRemaining == remaining && startedAt == 0
      ensures !(old(lease.owner).None? && sensorModules > 0) ==>
        protocol.pending == old(protocol.pending) && protocol.active == old(protocol.active) &&
        events == old(events) && beginRemaining == old(beginRemaining) && startedAt == old(startedAt)
      ensures retries == old(retries) && protocol.replies == old(protocol.replies)
    {
      var acquired := lease.TryAcquire(id);
      if !acquired {
        return;
      }
      if sensorModules == 0 {
        return;
      }
      beginRemaining := remaining;
      events := events + [TakingReadings, ReadingsBegin];
      protocol.Push(SensorModuleAddress, BeginTakeReading, 0, now);
      startedAt := 0;
    }

    /**
     * task(): done once the handler is idle; otherwise records the start time
     * on the first busy tick, lets the handler run, and turns a concluded
     * query into the follow-up of done(finished) or error(finished).
     * `expectedReplies` is the concluded query's reply count and `report`
     * what its reply hook kept; `f` is what the handler concluded.
     */
    method Task(now: uint32, expectedReplies: nat, report: QueryReport) returns (e: TaskEval, f: Finished)
      requires Valid()
      modifies this, protocol, protocol.communications
      ensures Valid()
      ensures !old(protocol.IsBusy()) ==>
        e == Done(None) && f == Finished(None, None) &&
        startedAt == old(startedAt) && events == old(events) && retries == old(retries) &&
        protocol.pending == old(protocol.pending) && protocol.active == old(protocol.active)
      ensures old(protocol.IsBusy()) ==>
        startedAt == (if old(startedAt) == 0 then now else old(startedAt))
      ensures f.Truthy() ==> f.query.value in {BeginTakeReading, QueryReadingStatus}
      // what the handler did on a busy tick
      ensures old(protocol.IsBusy()) ==>
        var submits := Submits(old(protocol.communications.Busy()), old(protocol.pending), now);
        var act := if submits then old(protocol.pending) else old(protocol.active);
        f == Conclusion(act, old(protocol.communications.hasReply), old(protocol.communications.reply), protocol.communications.Busy()) &&
        protocol.communications.hasReply == (old(protocol.communications.hasReply) && f.reply.None?) &&
        (submits ==>
          protocol.communications.address == old(protocol.pending.address) &&
          protocol.communications.pending == old(protocol.pending.query) && protocol.communications.hasQuery) &&
        (!submits ==>
          protocol.communications.address == old(protocol.communications.address) &&
          protocol.communications.pending == old(protocol.communications.pending) &&
          protocol.communications.hasQuery == old(protocol.communications.hasQuery)) &&
        protocol.active == (if f.Truthy() then EmptyQueued else act) &&
        (!f.Truthy() || f.IsError(expectedReplies) || !FollowUpFor(f, report).PollAfter? ==>
          protocol.pending == (if submits then EmptyQueued else old(protocol.pending)))
      ensures !old(protocol.IsBusy()) ==>
        protocol.communications.address == old(protocol.communications.address) &&
        protocol.communications.pending == old(protocol.communications.pending) &&
        protocol.communications.hasQuery == old(protocol.communications.hasQuery) &&
        protocol.communications.hasReply == old(protocol.communications.hasReply)
      ensures protocol.communications.started == old(protocol.communications.started)
      ensures protocol.communications.reply == old(protocol.communications.reply)
      ensures old(protocol.IsBusy()) && !f.Truthy() ==> e == Idle && events == old(events) && retries == old(retries)
      ensures f.Truthy() && f.IsError(expectedReplies) ==>
        e == Error(None) && events == old(events) && retries == old(retries)
      ensures f.Truthy() && !f.IsError(expectedReplies) ==>
        match FollowUpFor(f, report)
        case PollAfter(d) =>
          e == Idle && retries == 0 && protocol.active == EmptyQueued &&
          protocol.pending == Queued(SensorModuleAddress, Some(QueryReadingStatus), NotBefore(now, d)) &&
          events == old(events) + (if d == 0 then [MergeReading(SensorModuleAddress, f.reply)] else [])
        case EndReadings => e == Done(None) && events == old(events) && retries == old(retries)
        case NoFollowUp => e == Idle && events == old(events) && retries == 0
    {
      f := Finished(None, None);
      if !protocol.IsBusy() {
        return Done(None), f;
      }
      if startedAt == 0 {
        startedAt := now;
      }
      f := protocol.Handle(now);
      if f.Truthy() {
        if f.IsError(expectedReplies) {
          e := ErrorOutcome(f);
          return;
        }
        e := DoneFinished(f, report, now);
        return;
      }
      e := Idle;
    }

    /** done(finished): pushes the next status query, or ends the readings. */
    method DoneFinished(f: Finished, report: QueryReport, now: uint32) returns (e: TaskEval)
      requires Valid()
      modifies this, protocol
      ensures Valid()
      ensures startedAt == old(startedAt)
      ensures match FollowUpFor(f, report)
        case PollAfter(d) =>
          e == Idle && retries == 0 && protocol.active == EmptyQueued &&
          protocol.pending == Queued(SensorModuleAddress, Some(QueryReadingStatus), NotBefore(now, d)) &&
          events == old(events) + (if d == 0 then [MergeReading(SensorModuleAddress, f.reply)] else [])
        case EndReadings =>
          e == Done(None) && events == old(events) && retries == old(retries) &&
          protocol.pending == old(protocol.pending) && protocol.active == old(protocol.active)
        case NoFollowUp =>
          e == Idle && events == old(events) && retries == 0 &&
          protocol.pending == old(protocol.pending) && protocol.active == old(protocol.active)
    {
      if f.Is(BeginTakeReading) {
        var delay := PollDelay(report.backoff);
        protocol.Push(SensorModuleAddress, QueryReadingStatus, delay, now);
      } else if f.Is(QueryReadingStatus) {
        if report.state == ReadingBegin || report.state == ReadingBusy {
          var delay := PollDelay(report.backoff);
          protocol.Push(SensorModuleAddress, QueryReadingStatus, delay, now);
        } else if report.state == ReadingDone {
          events := events + [MergeReading(SensorModuleAddress, f.reply)];
          protocol.Push(SensorModuleAddress, QueryReadingStatus, 0, now);
        } else {
          return Done(None);
        }
      }
      retries := 0;
      e := Idle;
    }

    /** done() and error(): give the bus back if this task holds it, and say the readings are over. */
    method Finish()
      modifies this, lease
      ensures lease.owner == if old(lease.IsOwner(id)) then None else old(lease.owner)
      ensures events == old(events) + [ReadingsDone]
      ensures startedAt == old(startedAt) && retries == old(retries)
    {
      if lease.IsOwner(id) {
        lease.Release(id);
      }
      events := events + [ReadingsDone];
    }
  }

  /** Between exchanges: the transport is idle, holds no reply, and the handler has no active query. */
  ghost predicate Quiet(g: GatherReadings)
    reads g, g.protocol, g.protocol.communications
  {
    g.Valid() &&
    g.protocol.communications.address == 0 && !g.protocol.communications.hasQuery &&
    !g.protocol.communications.hasReply && g.protocol.active == EmptyQueued
  }

  /**
   * One query round of a reading cycle: at `at` the pending query is
   * submitted, the transport exchanges it with the module, which answers
   * `reply`, and on the next tick the task concludes it and follows up.
   */
  method QueryRound(g: GatherReadings, at: uint32, reply: ReplyMessage, report: QueryReport)
    returns (e: TaskEval, f: Finished)
    requires Quiet(g) && reply.replyType != RetryReply
    requires g.protocol.pending.query.Some? && g.protocol.pending.address == SensorModuleAddress
    requires g.protocol.pending.delay < at && at < Uint32Modulus - 1
    modifies g, g.protocol, g.protocol.communications, g.protocol.communications.twoWireTask
    ensures Quiet(g) && g.lease.owner == old(g.lease.owner)
    ensures f == Finished(old(g.protocol.pending.query), Some(reply))
    ensures g.protocol.communications.started ==
      old(g.protocol.communications.started) + [Transaction(SensorModuleAddress, old(g.protocol.pending.query).value, true)]
    ensures match FollowUpFor(f, report)
      case PollAfter(d) =>
        e == Idle && g.protocol.pending == Queued(SensorModuleAddress, Some(QueryReadingStatus), NotBefore(at + 1, d)) &&
        g.events == old(g.events) + (if d == 0 then [MergeReading(SensorModuleAddress, Some(reply))] else [])
      case EndReadings => e == Done(None) && g.protocol.pending == EmptyQueued && g.events == old(g.events)
      case NoFollowUp => false
  {
    var comms := g.protocol.communications;
    e, f := g.Task(at, 1, report);
    var c := comms.Task(Completed(1, Some(reply)));
    e, f := g.Task(at + 1, 1, report);
  }

  /**
   * One reading cycle with a module that answers every query: the begin
   * query goes out; its reply asks for a 500 ms backoff, so the status query
   * is held back until then; a status of "done" is merged and polled again
   * at once; a status of none of begin/busy/done ends the task, after which
   * the bus is free again. Each query goes out exactly once, at address 8.
   */
  method ReadingCycle(beginReply: ReplyMessage, statusReply: ReplyMessage)
    returns (early: bool, outcome: TaskEval, events: seq<ReadingEvent>, log: seq<Transaction>, busFree: bool)
    requires beginReply.replyType != RetryReply && statusReply.replyType != RetryReply
    ensures !early && outcome == Done(None) && busFree
    ensures events == [TakingReadings, ReadingsBegin, MergeReading(8, Some(statusReply)), ReadingsDone]
    ensures log == [Transaction(8, BeginTakeReading, true), Transaction(8, QueryReadingStatus, true),
                    Transaction(8, QueryReadingStatus, true)]
  {
    var g;
    g, early := BeginCycle(beginReply);
    // then it finds a reading, which is merged and polled again at once
    var e, f := QueryRound(g, 504, statusReply, QueryReport(0, ReadingDone));
    // and then reports that the readings are over
    outcome, f := QueryRound(g, 506, statusReply, QueryReport(0, ReadingOver));
    g.Finish();
    events := g.events;
    log := g.protocol.communications.started;
    busFree := g.lease.owner.None?;
  }

  /** The first half of ReadingCycle: up to the status query held back by the backoff. */
  method BeginCycle(beginReply: ReplyMessage) returns (g: GatherReadings, early: bool)
    requires beginReply.replyType != RetryReply
    ensures fresh(g) && fresh(g.protocol) && fresh(g.protocol.communications)
    ensures fresh(g.protocol.communications.twoWireTask) && fresh(g.lease)
    ensures Quiet(g) && g.lease.IsOwner(g.id) && !early
    ensures g.protocol.pending == Queued(SensorModuleAddress, Some(QueryReadingStatus), NotBefore(3, 500))
    ensures g.events == [TakingReadings, ReadingsBegin]
    ensures g.protocol.communications.started == [Transaction(8, BeginTakeReading, true)]
  {
    var tw := new StreamTwoWireTask(0, true, 3000);
    var comms := new ModuleCommunications(tw);
    var handler := new ModuleProtocolHandler(comms);
    var lease := new BusLease();
    g := new GatherReadings(1, 1, handler, lease);
    g.Enqueued(1, 1);
    // the begin query is answered, and its reply asks for a backoff of 500 ms
    var e, f := QueryRound(g, 2, beginReply, QueryReport(500, ReadingBusy));
    // the status query is held back until then
    e, f := g.Task(400, 1, QueryReport(500, ReadingBusy));
    early := comms.hasQuery || comms.Busy();
  }
}
