/**
 * The transport, the protocol handler and the two-wire task composed over an
 * abstract bus with one module on it. The module's answer to each
 * transaction is given (bytes on the bus and what they decode to); a module
 * that has nothing to say yet answers RETRY, as src/module.cpp does when its
 * outgoing buffer is empty. The task queue is not modelled: every two-wire
 * task the transport hands over is run here, `enqueued()` first.
 */
module EndToEnd {
  import opened Basics
  import opened Messages
  import opened ActiveObjects
  import opened TwoWire
  import opened ModuleComms

  /** TwoWireMaximumReplyWait (src/tuning.h), used as MaximumTwoWireReply. */
  const TwoWireMaximumReplyWait: uint32 := 3000

  /** Bytes the outgoing stream yields for an encoded query. */
  const QueryBytes: nat := 4

  /** What the module on the bus sends back for one transaction. */
  datatype ModuleAnswer = ModuleAnswer(bytes: nat, decoded: Option<ReplyMessage>)

  const RetryMessage := ReplyMessage(RetryReply, CapabilitiesReply(0, 0, 0, [], []))
  const RetryAnswer := ModuleAnswer(2, Some(RetryMessage))

  /** The receive-only transactions of `n` retries of `query` at `address`. */
  function Relistens(address: uint8, query: QueryId, n: nat): seq<Transaction> {
    if n == 0 then [] else Relistens(address, query, n - 1) + [Transaction(address, query, false)]
  }

  /**
   * Runs the rebuilt two-wire task through one exchange with the module,
   * starting at `now`: the send (if the task has a query to send) and one
   * receive 200 ms later. `answer` None is an address nobody acknowledges.
   */
  method Exchange(tw: StreamTwoWireTask, now: uint32, answer: Option<ModuleAnswer>) returns (c: TwoWireCompletion)
    requires 200 <= tw.maximumReply && now + 200 + tw.maximumReply < Uint32Modulus
    requires answer.Some? ==> answer.value.bytes > 0
    modifies tw
    ensures tw.address == old(tw.address) && tw.hasOutgoing == old(tw.hasOutgoing)
    ensures answer.Some? ==> c == Completed(answer.value.bytes, answer.value.decoded)
    ensures answer.None? ==> c == Completed(0, None)
  {
    tw.Enqueued(now);
    var e: TaskEval;
    if tw.hasOutgoing {
      e := tw.Task(now, BusIo(QueryBytes, answer.Some?, 0, 0));
      if answer.None? {
        // the address is not acknowledged: the send fails
        assert e == Error(None);
        return Completed(tw.bytesReceived, None);
      }
      assert e == Idle && tw.checkAt == now + CheckAfterSend;
    }
    if answer.None? {
      e := tw.Task(now + CheckReceiveOnly, BusIo(0, false, 0, 0));
      assert e == Error(None);
      return Completed(tw.bytesReceived, None);
    }
    var n := answer.value.bytes;
    e := tw.Task(now + CheckReceiveOnly, BusIo(0, false, n, n));
    assert e == Done(None);
    c := Completed(tw.bytesReceived, answer.value.decoded);
  }

  /**
   * Retry transparency: a module that answers RETRY `retries` times before
   * its reply is seen by the handler's caller as if it had answered at once.
   * The transport sends the query once and then only listens again, always
   * at the same address.
   */
  method RetryIsTransparent(q: QueryId, retries: nat, answer: ReplyMessage) returns (f: Finished, log: seq<Transaction>)
    requires answer.replyType != RetryReply
    requires retries < 1000000
    ensures f == Finished(Some(q), Some(answer))
    ensures log == [Transaction(8, q, true)] + Relistens(8, q, retries)
  {
    var handler := StartQuery(q);
    var comms := handler.communications;
    var tw := comms.twoWireTask;
    var now: uint32 := 1;
    var i := 0;
    while i < retries
      invariant 0 <= i <= retries && now == 1 + 300 * i
      invariant AwaitingRetry(handler, q) && tw.hasOutgoing == (i == 0)
      invariant comms.started == [Transaction(8, q, true)] + Relistens(8, q, i)
    {
      RetryRound(handler, q, now);
      now := now + 300;
      i := i + 1;
    }
    f := FinalRound(handler, q, now, answer);
    log := comms.started;
  }

  /** A query pushed at time 0 and submitted at time 1: its transaction has started and sends the query. */
  method StartQuery(q: QueryId) returns (handler: ModuleProtocolHandler)
    ensures fresh(handler) && fresh(handler.communications) && fresh(handler.communications.twoWireTask)
    ensures AwaitingRetry(handler, q) && handler.communications.twoWireTask.hasOutgoing
    ensures handler.communications.started == [Transaction(8, q, true)]
  {
    var tw := new StreamTwoWireTask(0, true, TwoWireMaximumReplyWait);
    var comms := new ModuleCommunications(tw);
    handler := new ModuleProtocolHandler(comms);
    handler.Push(8, q, 0, 0);
    var f := handler.Handle(1);
    var e := comms.Task(InProgress);
  }

  /** The module's real answer: the handler concludes the query with it. */
  method FinalRound(handler: ModuleProtocolHandler, q: QueryId, now: uint32, answer: ReplyMessage) returns (f: Finished)
    requires AwaitingRetry(handler, q) && now < 300000001 && answer.replyType != RetryReply
    modifies handler, handler.communications, handler.communications.twoWireTask
    ensures f == Finished(Some(q), Some(answer))
    ensures handler.communications.started == old(handler.communications.started)
  {
    var comms := handler.communications;
    var c := Exchange(comms.twoWireTask, now, Some(ModuleAnswer(1, Some(answer))));
    var e := comms.Task(c);
    f := handler.Handle(now + 250);
  }

  /** Between two RETRY answers: the transport holds the query for address 8 in flight and will listen again. */
  ghost predicate AwaitingRetry(handler: ModuleProtocolHandler, q: QueryId)
    reads handler, handler.communications, handler.communications.twoWireTask
  {
    var comms := handler.communications;
    var tw := comms.twoWireTask;
    handler.Valid() &&
    comms.address == 8 && !comms.hasQuery && !comms.hasReply && comms.pending == Some(q) &&
    handler.active == Queued(8, Some(q), 0) && handler.pending == EmptyQueued &&
    tw.address == 8 && tw.maximumReply == TwoWireMaximumReplyWait
  }

  /** One RETRY answer: the handler sees nothing, and the transport rebuilds a receive-only transaction. */
  method RetryRound(handler: ModuleProtocolHandler, q: QueryId, now: uint32)
    requires AwaitingRetry(handler, q) && now < 300000001
    modifies handler, handler.communications, handler.communications.twoWireTask
    ensures AwaitingRetry(handler, q) && !handler.communications.twoWireTask.hasOutgoing
    ensures handler.communications.started == old(handler.communications.started) + [Transaction(8, q, false)]
  {
    var comms := handler.communications;
    var c := Exchange(comms.twoWireTask, now, Some(RetryAnswer));
    var e := comms.Task(c);
    var f := handler.Handle(now + 250);
    assert f == Finished(None, None);
  }

  /**
   * A query to an address nobody acknowledges concludes without a reply,
   * and that is an error exactly when the query expects replies.
   */
  method NoModuleAnswers(q: QueryId, expectedReplies: nat) returns (f: Finished)
    ensures f == Finished(Some(q), None)
    ensures f.IsError(expectedReplies) <==> expectedReplies > 0
  {
    var tw := new StreamTwoWireTask(0, true, TwoWireMaximumReplyWait);
    var comms := new ModuleCommunications(tw);
    var handler := new ModuleProtocolHandler(comms);
    handler.Push(9, q, 0, 0);
    f := handler.Handle(1);
    var e := comms.Task(InProgress);
    var c := Exchange(tw, 1, None);
    e := comms.Task(c);
    f := handler.Handle(2);
  }

  /**
   * A delayed query is held back until its not-before time has passed, and
   * taken as soon as it has; nothing is submitted before.
   */
  method DelayedQueryWaits(q: QueryId, delay: uint32, now: uint32) returns (early: Finished, submittedEarly: bool, submittedLate: bool)
    requires 0 < delay && now + delay + 1 < Uint32Modulus
    ensures early == Finished(None, None) && !submittedEarly
    ensures submittedLate
  {
    var tw := new StreamTwoWireTask(0, true, TwoWireMaximumReplyWait);
    var comms := new ModuleCommunications(tw);
    var handler := new ModuleProtocolHandler(comms);
    handler.Push(8, q, delay, now);
    early := handler.Handle(now + delay);
    submittedEarly := comms.hasQuery;
    var late := handler.Handle(now + delay + 1);
    submittedLate := comms.hasQuery && comms.address == 8;
  }

  /**
   * `push()` forgets the active query without cancelling its transaction:
   * when a caller pushes the next query before the previous one's reply was
   * collected, the handler submits the new query and hands it the old reply.
   */
  method AbandonedReplyGoesToNextQuery(a: QueryId, b: QueryId, answer: ReplyMessage) returns (f: Finished)
    requires answer.replyType != RetryReply
    ensures f == Finished(Some(b), Some(answer))
  {
    var tw := new StreamTwoWireTask(0, true, TwoWireMaximumReplyWait);
    var comms := new ModuleCommunications(tw);
    var handler := new ModuleProtocolHandler(comms);
    handler.Push(8, a, 0, 0);
    var first := handler.Handle(1);
    var e := comms.Task(InProgress);
    var c := Exchange(tw, 1, Some(ModuleAnswer(1, Some(answer))));
    e := comms.Task(c);
    handler.Push(8, b, 0, 300);
    f := handler.Handle(301);
  }
}
