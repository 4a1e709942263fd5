/**
 * One bus transaction of src/two_wire_task.cpp (StreamTwoWireTask): a send
 * phase that writes one buffer read from the outgoing byte source, then a
 * receive phase that moves one buffer from the bus into the incoming sink,
 * both under millisecond deadlines. The clock value and the answers of the
 * byte source, the bus and the sink are inputs of each step.
 */
module TwoWire {
  import opened Basics
  import opened ActiveObjects

  /** Re-check delay after a successful send. */
  const CheckAfterSend: uint32 := 100
  /** First check delay of a receive-only transaction. */
  const CheckReceiveOnly: uint32 := 200

  /** What the collaborators answer during one step; each is only consulted where the code calls it. */
  datatype BusIo = BusIo(
    outgoingRead: int,   // outgoing->read(buffer, sizeof(buffer)): negative at end of stream, 0 when nothing is ready
    sendAccepted: bool,  // bus->send(address, buffer, bytes)
    received: nat,       // bus->receive(address, buffer, sizeof(buffer))
    sinkWrote: int)      // incoming->write(buffer, bytesReceived)

  /** The outcome of send(): end of stream finishes, nothing ready waits, a refused send fails. */
  function SendOutcome(io: BusIo): TaskEval {
    if io.outgoingRead < 0 then Done(None)
    else if io.outgoingRead == 0 then Idle
    else if !io.sendAccepted then Error(None)
    else Idle
  }

  /** send() put a buffer on the bus. */
  predicate Sent(io: BusIo) {
    io.outgoingRead > 0 && io.sendAccepted
  }

  /** The outcome of receive(): an empty reply or a short write into the sink fails. */
  function ReceiveOutcome(io: BusIo): TaskEval {
    if io.received == 0 then Error(None)
    else if io.sinkWrote != io.received then Error(None)
    else Done(None)
  }

  class StreamTwoWireTask {
    var address: uint8
    /** The task was built with an outgoing byte source (otherwise it is receive-only). */
    var hasOutgoing: bool
    /** MaximumTwoWireReply: how long a reply may take, in milliseconds. */
    const maximumReply: uint32
    var dieAt: uint32
    var checkAt: uint32
    var bytesReceived: nat
    var doneAt: uint32
    /** Buffers put on the bus since the last `enqueued()`. */
    ghost var sends: nat

    constructor (address: uint8, hasOutgoing: bool, maximumReply: uint32)
      ensures this.address == address && this.hasOutgoing == hasOutgoing
      ensures this.maximumReply == maximumReply
      ensures dieAt == 0 && checkAt == 0 && bytesReceived == 0 && doneAt == 0 && sends == 0
    {
      this.address := address;
      this.hasOutgoing := hasOutgoing;
      this.maximumReply := maximumReply;
      dieAt, checkAt, bytesReceived, doneAt := 0, 0, 0, 0;
      sends := 0;
    }

    /** `twoWireTask = TwoWireTask{ ... }`: the same task object, rebuilt for a new transaction. */
    method Configure(address: uint8, hasOutgoing: bool)
      modifies this
      ensures this.address == address && this.hasOutgoing == hasOutgoing
      ensures dieAt == 0 && checkAt == 0 && bytesReceived == 0 && doneAt == 0 && sends == 0
    {
      this.address := address;
      this.hasOutgoing := hasOutgoing;
      dieAt, checkAt, bytesReceived, doneAt := 0, 0, 0, 0;
      sends := 0;
    }

    /** While this holds the task is still in its send phase. */
    predicate SendPhase()
      reads this
    {
      hasOutgoing && dieAt == 0
    }

    /** At most one buffer is sent per admission, and once it is the send phase is over. */
    ghost predicate SentOnce()
      reads this
    {
      sends <= 1 && (sends == 1 ==> hasOutgoing && dieAt != 0)
    }

    /** enqueued(): clears the deadlines; a receive-only task first looks 200 ms later. */
    method Enqueued(now: uint32)
      modifies this
      ensures address == old(address) && hasOutgoing == old(hasOutgoing)
      ensures dieAt == 0 && bytesReceived == 0 && doneAt == 0 && sends == 0
      ensures checkAt == (if hasOutgoing then 0 else Add32(now, CheckReceiveOnly))
      ensures SentOnce()
    {
      dieAt := 0;
      checkAt := 0;
      bytesReceived := 0;
      doneAt := 0;
      sends := 0;
      if !hasOutgoing {
        checkAt := Add32(now, CheckReceiveOnly);
      }
    }

    /** task(): one step of the transaction at time `now`. */
    method Task(now: uint32, io: BusIo) returns (e: TaskEval)
      modifies this
      ensures address == old(address) && hasOutgoing == old(hasOutgoing)
      // before the check time nothing happens
      ensures old(checkAt) > 0 && now < old(checkAt) ==>
        e == Idle && dieAt == old(dieAt) && checkAt == old(checkAt) &&
        bytesReceived == old(bytesReceived) && sends == old(sends)
      // the send phase: at most one send, which opens the receive phase
      ensures !(old(checkAt) > 0 && now < old(checkAt)) && hasOutgoing && old(dieAt) == 0 ==>
        e == SendOutcome(io) && bytesReceived == old(bytesReceived) &&
        (Sent(io) ==> dieAt == Add32(now, maximumReply) && checkAt == Add32(now, CheckAfterSend) && sends == old(sends) + 1) &&
        (!Sent(io) ==> dieAt == 0 && checkAt == old(checkAt) && sends == old(sends))
      // the receive phase after a send: time out once the deadline has passed
      ensures !(old(checkAt) > 0 && now < old(checkAt)) && hasOutgoing && old(dieAt) != 0 ==>
        e == (if now > old(dieAt) then Error(None) else ReceiveOutcome(io)) &&
        dieAt == old(dieAt) && checkAt == old(checkAt) && sends == old(sends) &&
        bytesReceived == (if now > old(dieAt) then old(bytesReceived) else io.received)
      // receive-only: the deadline is pushed out on every step before it is checked
      ensures !(old(checkAt) > 0 && now < old(checkAt)) && !hasOutgoing ==>
        dieAt == Add32(now, maximumReply) && checkAt == old(checkAt) && sends == old(sends) &&
        e == (if now > dieAt then Error(None) else ReceiveOutcome(io)) &&
        bytesReceived == (if now > dieAt then old(bytesReceived) else io.received)
      // ... so, unless the clock wraps, a receive-only step never times out
      ensures !(old(checkAt) > 0 && now < old(checkAt)) && !hasOutgoing && now + maximumReply < Uint32Modulus ==>
        e == ReceiveOutcome(io)
      // a sent task never sends again, provided its reply deadline did not wrap to 0
      ensures old(SentOnce()) && (old(dieAt) != 0 || Add32(now, maximumReply) != 0) ==> SentOnce()
    {
      if checkAt > 0 && now < checkAt {
        return Idle;
      }

      if hasOutgoing {
        if dieAt == 0 {
          e := Send(now, io);
          return;
        }
      } else {
        dieAt := Add32(now, maximumReply);
      }

      if now > dieAt {
        // no reply in time
        return Error(None);
      }

      e := Receive(io);
    }

    /** send(): reads one buffer from the outgoing source and puts it on the bus. */
    method Send(now: uint32, io: BusIo) returns (e: TaskEval)
      modifies this
      ensures e == SendOutcome(io)
      ensures address == old(address) && hasOutgoing == old(hasOutgoing) && bytesReceived == old(bytesReceived)
      ensures Sent(io) ==> dieAt == Add32(now, maximumReply) && checkAt == Add32(now, CheckAfterSend) && sends == old(sends) + 1
      ensures !Sent(io) ==> dieAt == old(dieAt) && checkAt == old(checkAt) && sends == old(sends)
    {
      var bytes := io.outgoingRead;
      if bytes < 0 {
        return Done(None);
      }
      if bytes == 0 {
        return Idle;
      }
      if !io.sendAccepted {
        // unable to send
        return Error(None);
      }
      sends := sends + 1;
      dieAt := Add32(now, maximumReply);
      // the reply will not be ready yet: check back soon
      checkAt := Add32(now, CheckAfterSend);
      e := Idle;
    }

    /** receive(): moves one buffer from the bus into the incoming sink. */
    method Receive(io: BusIo) returns (e: TaskEval)
      modifies this
      ensures e == ReceiveOutcome(io) && bytesReceived == io.received
      ensures address == old(address) && hasOutgoing == old(hasOutgoing)
      ensures dieAt == old(dieAt) && checkAt == old(checkAt) && sends == old(sends)
    {
      bytesReceived := io.received;
      if bytesReceived == 0 {
        // empty reply
        return Error(None);
      }
      if io.sinkWrote != bytesReceived {
        // out of buffer space
        return Error(None);
      }
      e := Done(None);
    }
  }

  /**
   * A receive-only transaction admitted at 0 ms with MaximumTwoWireReply =
   * 3000 ms: it waits out its first 200 ms, and the first poll after that
   * which finds no bytes fails at once (at 2999 ms, well before 3000 ms).
   */
  method ReceiveOnlyWithoutReply() returns (at199: TaskEval, at2999: TaskEval, at3001: TaskEval)
    ensures at199 == Idle
    ensures at2999 == Error(None)
    ensures at3001 == Error(None)
  {
    var t := new StreamTwoWireTask(8, false, 3000);
    t.Enqueued(0);
    var silent := BusIo(0, false, 0, 0);
    at199 := t.Task(199, silent);
    at2999 := t.Task(2999, silent);
    at3001 := t.Task(3001, silent);
  }

  /**
   * A transaction with a query to send: sent at 0 ms, polled back 100 ms
   * later, and a reply that only comes after the 3000 ms deadline is a
   * timeout, while one at the deadline completes.
   */
  method SendThenReply(replyAt: uint32, replyBytes: nat) returns (afterSend: TaskEval, atReply: TaskEval)
    requires 100 <= replyAt && replyBytes > 0
    ensures afterSend == Idle
    ensures replyAt > 3000 ==> atReply == Error(None)
    ensures replyAt <= 3000 ==> atReply == Done(None)
  {
    var t := new StreamTwoWireTask(8, true, 3000);
    t.Enqueued(0);
    afterSend := t.Task(0, BusIo(12, true, 0, 0));
    atReply := t.Task(replyAt, BusIo(12, true, replyBytes, replyBytes));
  }

  /**
   * A send 3000 ms before the clock wraps sets the reply deadline to exactly
   * 0, which the next step reads as "not sent yet": 100 ms later the task
   * reads and sends a second buffer.
   */
  method SendAgainAfterDeadlineWraps() returns (deadline: uint32, check: uint32, again: TaskEval, newDeadline: uint32, ghost sends: nat)
    ensures deadline == 0 && check == 4294964396
    ensures again == Idle && newDeadline == 100
    ensures sends == 2
  {
    var t := new StreamTwoWireTask(8, true, 3000);
    t.Enqueued(0);
    var first := t.Task(4294964296, BusIo(12, true, 0, 0));
    deadline, check := t.dieAt, t.checkAt;
    again := t.Task(4294964396, BusIo(12, true, 0, 0));
    newDeadline := t.dieAt;
    sends := t.sends;
  }
}
