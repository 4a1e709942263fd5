/**
 * The module transport and its protocol handler (src/module_comms.cpp,
 * src/core/module_comms.h).
 *
 * ModuleCommunications holds at most one outstanding query; while its
 * destination address is non-zero it is busy. Each transaction runs on its
 * single StreamTwoWireTask, which the transport rebuilds and hands to the
 * task queue (`queue->prepend`); the model records every such hand-over in
 * `started`. Whether that task has completed, how many bytes it received and
 * what they decode to are inputs of a transport tick.
 *
 * ModuleProtocolHandler keeps a `pending` query (with a not-before time) and
 * the `active` one, submits the pending query once the transport is free and
 * reports each active query's conclusion as a Finished pair.
 */
module ModuleComms {
  import opened Basics
  import opened Messages
  import opened ActiveObjects
  import opened TwoWire

  /** A ModuleQuery, identified by the object that implements it. */
  type QueryId = nat

  // ---------------------------------------------------------------------
  // src/core/module_comms.h: value types

  /** TwoWireStatistics: counters kept per transaction outcome. */
  datatype TwoWireStatistics = TwoWireStatistics(
    expected: uint32, missed: uint32, malformed: uint32, reply: uint32,
    busy: uint32, retry: uint32, timeouts: uint32)

  /**
   * any_responses() as written: `(reply + retry + busy + malformed) > 0`,
   * a sum computed in uint32_t.
   */
  function AnyResponsesAsWritten(s: TwoWireStatistics): (r: bool)
    ensures r <==> Add32(Add32(Add32(s.reply, s.retry), s.busy), s.malformed) != 0
  {
    Add32(Add32(Add32(s.reply, s.retry), s.busy), s.malformed) > 0
  }

  /** any_responses() as intended: some module answered, in whatever way. */
  function AnyResponses(s: TwoWireStatistics): (r: bool)
    ensures r <==> s.reply + s.retry + s.busy + s.malformed > 0
  {
    s.reply > 0 || s.retry > 0 || s.busy > 0 || s.malformed > 0
  }

  /** The wrapping sum decides as intended as long as it does not wrap; the other counters never matter. */
  lemma AnyResponsesAgreeWithoutWrap(s: TwoWireStatistics, expected: uint32, missed: uint32, timeouts: uint32)
    requires s.reply + s.retry + s.busy + s.malformed < Uint32Modulus
    ensures AnyResponsesAsWritten(s) == AnyResponses(s)
    ensures AnyResponses(s) == AnyResponses(s.(expected := expected, missed := missed, timeouts := timeouts))
  {
  }

  /** ... but 2^32 - 1 replies and one retry add up to 0, and the responses go unnoticed. */
  lemma AnyResponsesWrapsToNone()
    ensures var s := TwoWireStatistics(0, 0, 0, 0xFFFF_FFFF, 0, 1, 0);
      !AnyResponsesAsWritten(s) && AnyResponses(s)
  {
  }

  /** ModuleProtocolHandler::Queued: a query for an address, not to be sent before `delay`. */
  datatype Queued = Queued(address: uint8, query: Option<QueryId>, delay: uint32) {
    /** operator bool: looks at the address only, not at the query. */
    predicate Truthy() {
      address > 0
    }
  }

  const EmptyQueued := Queued(0, None, 0)

  /** ModuleProtocolHandler::Finished: the query that concluded (if any) and its reply (if any). */
  datatype Finished = Finished(query: Option<QueryId>, reply: Option<ReplyMessage>) {
    /** operator bool. */
    predicate Truthy() {
      query.Some?
    }

    /** error(): no reply although the query's reply configuration expects one; dereferences the query. */
    predicate IsError(expectedReplies: nat)
      requires query.Some?
    {
      reply.None? && expectedReplies > 0
    }

    /** is(other): identity of the query objects. */
    predicate Is(other: QueryId) {
      query == Some(other)
    }
  }

  /** A Finished names at most one query, is truthy exactly when it names one, and a reply only marks success. */
  lemma FinishedPredicates(f: Finished, a: QueryId, b: QueryId, expectedReplies: nat)
    ensures f.Is(a) && f.Is(b) ==> a == b
    ensures f.Truthy() ==> f.Is(f.query.value)
    ensures !f.Truthy() ==> !f.Is(a)
    ensures f.Truthy() && f.reply.Some? ==> !f.IsError(expectedReplies)
    ensures f.Truthy() && expectedReplies == 0 ==> !f.IsError(expectedReplies)
  {
  }

  // ---------------------------------------------------------------------
  // src/module_comms.cpp: the transport

  /** One hand-over of the two-wire task to the queue: a query transaction, or a receive-only retry. */
  datatype Transaction = Transaction(address: uint8, query: QueryId, sendsQuery: bool)

  /** What the transport learns about its two-wire task on a tick. */
  datatype TwoWireCompletion =
    | InProgress
    | Completed(received: nat, decoded: Option<ReplyMessage>)

  /** The task completed with bytes that decode to a RETRY reply. */
  predicate IsRetry(c: TwoWireCompletion) {
    c.Completed? && c.received > 0 && c.decoded.Some? && c.decoded.value.replyType == RetryReply
  }

  /** The task completed with bytes that decode to a reply other than RETRY. */
  predicate DeliversReply(c: TwoWireCompletion) {
    c.Completed? && c.received > 0 && c.decoded.Some? && c.decoded.value.replyType != RetryReply
  }

  /** The transactions one transport tick starts at `address` for `query`. */
  function TickTransactions(address: uint8, query: QueryId, hadQuery: bool, c: TwoWireCompletion): seq<Transaction> {
    (if hadQuery then [Transaction(address, query, true)] else []) +
    (if IsRetry(c) then [Transaction(address, query, false)] else [])
  }

  class ModuleCommunications {
    var address: uint8
    var pending: Option<QueryId>
    var hasQuery: bool
    var hasReply: bool
    var reply: ReplyMessage
    /** Every two-wire task handed to the queue, in order. */
    var started: seq<Transaction>
    const twoWireTask: StreamTwoWireTask

    /** A query is known whenever one is queued or in flight, and no reply is visible while one is in flight. */
    ghost predicate Valid()
      reads this
    {
      ((hasQuery || address > 0) ==> pending.Some?) &&
      (address > 0 && !hasQuery ==> !hasReply)
    }

    /** A queued query will be started: the transport can take the next one once it is not busy. */
    ghost predicate Ready()
      reads this
    {
      hasQuery ==> address > 0
    }

    constructor (twoWireTask: StreamTwoWireTask)
      ensures Valid() && Ready()
      ensures address == 0 && pending == None && !hasQuery && !hasReply && started == []
      ensures this.twoWireTask == twoWireTask
    {
      address := 0;
      pending := None;
      hasQuery := false;
      hasReply := false;
      reply := DefaultReply;
      started := [];
      this.twoWireTask := twoWireTask;
    }

    /** busy(): a module address is set, so the held query has its transaction under way. */
    predicate Busy(): (r: bool)
      reads this
      ensures r <==> address != 0
      ensures Valid() && r ==> pending.Some?
    {
      address > 0
    }

    /** available(): a reply is waiting to be dequeued; while busy, only the held query's. */
    predicate Available(): (r: bool)
      reads this
      ensures r <==> hasReply
      ensures Valid() && r && address != 0 ==> hasQuery
    {
      hasReply
    }

    /** enqueue(destination, mq): records the query; it is started on the next tick. */
    method Enqueue(destination: uint8, mq: QueryId)
      requires Valid() && !hasQuery
      modifies this
      ensures Valid()
      ensures address == destination && pending == Some(mq) && hasQuery
      ensures hasReply == old(hasReply) && reply == old(reply) && started == old(started)
    {
      address := destination;
      pending := Some(mq);
      hasQuery := true;
    }

    /** dequeue(): hands out the reply once. */
    method Dequeue() returns (r: ReplyMessage)
      requires Valid() && hasReply
      modifies this
      ensures Valid() && !Available()
      ensures r == old(reply)
      ensures address == old(address) && pending == old(pending) && hasQuery == old(hasQuery)
      ensures reply == old(reply) && started == old(started)
    {
      hasReply := false;
      r := reply;
    }

    /** task(): starts a queued transaction, then concludes or retries a completed one. */
    method Task(c: TwoWireCompletion) returns (e: TaskEval)
      requires Valid()
      modifies this, twoWireTask
      ensures Valid() && e == Idle
      ensures pending == old(pending)
      ensures old(address) == 0 ==>
        address == 0 && hasQuery == old(hasQuery) && hasReply == old(hasReply) &&
        reply == old(reply) && started == old(started)
      ensures old(address) > 0 ==>
        !hasQuery &&
        started == old(started) + TickTransactions(old(address), old(pending).value, old(hasQuery), c) &&
        address == (if c.InProgress? || IsRetry(c) then old(address) else 0) &&
        hasReply == DeliversReply(c) &&
        reply == (if c.Completed? && c.received > 0 && c.decoded.Some? then c.decoded.value else old(reply))
      // the task object is rebuilt for each transaction it is handed over for
      ensures old(address) > 0 && (old(hasQuery) || IsRetry(c)) ==>
        twoWireTask.address == old(address) && twoWireTask.hasOutgoing == !IsRetry(c)
      ensures !(old(address) > 0 && (old(hasQuery) || IsRetry(c))) ==>
        twoWireTask.address == old(twoWireTask.address) && twoWireTask.hasOutgoing == old(twoWireTask.hasOutgoing)
    {
      if address > 0 {
        if hasQuery {
          // the query is encoded into the outgoing stream and sent by a fresh two-wire task
          twoWireTask.Configure(address, true);
          started := started + [Transaction(address, pending.value, true)];
          hasQuery := false;
          hasReply := false;
        }

        if c.Completed? {
          if c.received > 0 {
            if c.decoded.Some? {
              reply := c.decoded.value;
              if reply.replyType == RetryReply {
                // the module is not ready: listen again, same address, nothing to send
                twoWireTask.Configure(address, false);
                started := started + [Transaction(address, pending.value, false)];
                return Idle;
              } else {
                hasReply := true;
              }
            }
          }
          address := 0;
        }
      }
      e := Idle;
    }
  }

  // ---------------------------------------------------------------------
  // src/module_comms.cpp: the protocol handler

  /** handle() submits the pending query: the transport is free and the not-before time has passed. */
  predicate Submits(transportBusy: bool, pending: Queued, now: uint32) {
    !transportBusy && pending.query.Some? && now > pending.delay
  }

  /** The not-before time push() gives a query delayed by `delay` ms at time `now`. */
  function NotBefore(now: uint32, delay: uint32): uint32 {
    if delay > 0 then Add32(now, delay) else 0
  }

  /**
   * What handle() concludes for the active slot `act`: its query with the
   * reply when one is available, its query without a reply once the
   * transport is no longer busy, and nothing while the transaction runs.
   */
  function Conclusion(act: Queued, hasReply: bool, reply: ReplyMessage, transportBusy: bool): Finished {
    if act.query.Some? && hasReply then Finished(act.query, Some(reply))
    else if act.query.Some? && !transportBusy then Finished(act.query, None)
    else Finished(None, None)
  }

  class ModuleProtocolHandler {
    var active: Queued
    var pending: Queued
    const communications: ModuleCommunications
    /** Every `reply()` hook called on a query, with the reply it was given. */
    ghost var replies: seq<(QueryId, ReplyMessage)>

    ghost predicate Valid()
      reads this, communications
    {
      communications.Valid() && communications.Ready()
    }

    constructor (communications: ModuleCommunications)
      ensures this.communications == communications
      ensures active == EmptyQueued && pending == EmptyQueued && replies == []
    {
      this.communications := communications;
      active := EmptyQueued;
      pending := EmptyQueued;
      replies := [];
    }

    /** push(address, query, delay): forgets the active query and makes this one pending. */
    method Push(address: uint8, query: QueryId, delay: uint32, now: uint32)
      modifies this
      ensures active == EmptyQueued
      ensures pending == Queued(address, Some(query), NotBefore(now, delay))
      ensures replies == old(replies)
    {
      active := EmptyQueued;
      pending := Queued(address, Some(query), NotBefore(now, delay));
    }

    /** isBusy(): by the slots' addresses. */
    predicate IsBusy(): (r: bool)
      reads this
      ensures r <==> active.address != 0 || pending.address != 0
    {
      active.Truthy() || pending.Truthy()
    }

    /** handle(): submits the pending query when it may go, then concludes the active one if it can. */
    method Handle(now: uint32) returns (f: Finished)
      requires Valid()
      modifies this, communications
      ensures communications.Valid()
      ensures !Submits(old(communications.Busy()), old(pending), now) || old(pending.address) > 0 ==> Valid()
      // submission
      ensures Submits(old(communications.Busy()), old(pending), now) ==>
        pending == EmptyQueued && communications.address == old(pending.address) &&
        communications.pending == old(pending.query) && communications.hasQuery
      ensures !Submits(old(communications.Busy()), old(pending), now) ==>
        pending == old(pending) && communications.address == old(communications.address) &&
        communications.pending == old(communications.pending) && communications.hasQuery == old(communications.hasQuery)
      ensures communications.started == old(communications.started) && communications.reply == old(communications.reply)
      // conclusion of the active query (the one just submitted, if any)
      ensures var act := if Submits(old(communications.Busy()), old(pending), now) then old(pending) else old(active);
        f == Conclusion(act, old(communications.hasReply), old(communications.reply), communications.Busy()) &&
        active == (if f.Truthy() then EmptyQueued else act) &&
        communications.hasReply == (old(communications.hasReply) && f.reply.None?) &&
        replies == old(replies) + (if f.reply.Some? then [(act.query.value, old(communications.reply))] else [])
    {
      if !communications.Busy() {
        if pending.query.Some? {
          if now > pending.delay {
            communications.Enqueue(pending.address, pending.query.value);
            active := pending;
            pending := EmptyQueued;
          }
        }
      }

      if active.query.Some? {
        if communications.Available() {
          var finished := active.query.value;
          var r := communications.Dequeue();
          replies := replies + [(finished, r)];
          active := EmptyQueued;
          return Finished(Some(finished), Some(r));
        }
        if !communications.Busy() {
          var finished := active.query;
          active := EmptyQueued;
          return Finished(finished, None);
        }
      }

      f := Finished(None, None);
    }
  }
}
