/** The Python consumer: one poll in one transaction. */
module PythonConsumers {
  import opened Options
  import opened Engine
  import opened Protocol
  import opened Decisions
  import opened Transactions
  import opened Connections

  class Consumer {
    var handlers: set<string>
    var hasDefault: bool
    const unknownHandlerPolicy: Policy
    const maxMessages: int
    const me: nat

    constructor (unknownHandlerPolicy: Policy, maxMessages: int, me: nat)
      ensures handlers == {} && !hasDefault
    {
      handlers, hasDefault := {}, false;
      this.unknownHandlerPolicy, this.maxMessages, this.me := unknownHandlerPolicy, maxMessages, me;
    }

    /** Registers a handler; the type "*" is the default handler. */
    method On(eventType: string)
      modifies this
      ensures if eventType == "*" then hasDefault && handlers == old(handlers)
              else handlers == old(handlers) + {eventType} && hasDefault == old(hasDefault)
    {
      if eventType == "*" {
        hasDefault := true;
      } else {
        handlers := handlers + {eventType};
      }
    }

    function AsConfig(): Config
      reads `handlers, `hasDefault
    {
      Config(handlers, hasDefault, unknownHandlerPolicy, maxMessages)
    }

    /** The body of the message loop. */
    method HandleMessage(conn: Connection, batchId: nat, msg: Msg, i: nat, nackFailed: bool, e: Circumstances,
                         ghost lost: set<nat>) returns (failed: bool, escaped: bool, ghost more: set<nat>)
      requires conn.tx.staged.Valid() && (nackFailed <==> lost != {}) && i !in lost
      modifies conn`tx, conn`ops
      ensures Progress(conn.tx, more, escaped) ==
        TurnAt(AsConfig(), batchId, msg, i, Progress(old(conn.tx), lost, false), e)
      ensures failed <==> more != {}
      ensures conn.ops == old(conn.ops) + Decide(AsConfig(), msg, i, e.outcome(i), i !in more)
    {
      var ok := true;
      escaped := false;
      if msg.kind !in handlers && !hasDefault {
        if unknownHandlerPolicy != AckUnknown {
          ok := conn.Nack(batchId, msg, e.nack(i), i);
        }
      } else {
        conn.Run(i);
        if e.outcome(i).Raises? {
          ok := conn.Nack(batchId, msg, e.nack(i), i);
        }
        escaped := e.outcome(i).Escapes?;
      }
      failed := nackFailed || !ok;
      more := if ok then lost else lost + {i};
      assert conn.ops == old(conn.ops) + Decide(AsConfig(), msg, i, e.outcome(i), i !in more);
    }

    /** One turn of the message loop. */
    method Next(conn: Connection, msgs: seq<Msg>, i: nat, nackFailed: bool, e: Circumstances,
                ghost t: Tx, ghost lost: set<nat>, ghost before: seq<Op>)
        returns (failed: bool, escaped: bool, ghost more: set<nat>)
      requires t.staged.Valid() && i < |msgs| && (nackFailed <==> lost != {}) && before <= conn.ops
      requires Reached(AsConfig(), msgs, t, e, i, Progress(conn.tx, lost, false), conn.ops[|before|..])
      modifies conn`tx, conn`ops
      ensures before <= conn.ops && (failed <==> more != {})
      ensures Reached(AsConfig(), msgs, t, e, i + 1, Progress(conn.tx, more, escaped), conn.ops[|before|..])
    {
      ghost var p, ops := Progress(conn.tx, lost, false), conn.ops;
      ReachedFresh(AsConfig(), msgs, t, e, i, p, ops[|before|..]);
      failed, escaped, more := HandleMessage(conn, msgs[0].batch, msgs[i], i, nackFailed, e, lost);
      ReachedNext(AsConfig(), msgs, t, e, i, p, ops[|before|..], Progress(conn.tx, more, escaped));
      OpsSince(before, ops, Decide(AsConfig(), msgs[i], i, e.outcome(i), i !in more));
    }

    /** The message loop. */
    method DispatchBatch(conn: Connection, msgs: seq<Msg>, e: Circumstances)
        returns (nackFailed: bool, escaped: bool, ghost lost: set<nat>)
      requires conn.tx.staged.Valid()
      modifies conn`tx, conn`ops
      ensures Dispatched(AsConfig(), msgs, old(conn.tx), e) == Progress(conn.tx, lost, escaped)
      ensures conn.ops == old(conn.ops) + Plan(AsConfig(), msgs, e.outcome, lost)
      ensures nackFailed <==> lost != {}
      ensures AckDue(AsConfig(), msgs, e.outcome, lost) <==> !nackFailed && !escaped
    {
      ghost var t, before := conn.tx, conn.ops;
      nackFailed, escaped, lost := false, false, {};
      var i := 0;
      while i < |msgs| && !escaped
        invariant before <= conn.ops && (nackFailed <==> lost != {})
        invariant Reached(AsConfig(), msgs, t, e, i, Progress(conn.tx, lost, escaped), conn.ops[|before|..])
      {
        nackFailed, escaped, lost := Next(conn, msgs, i, nackFailed, e, t, lost, before);
        i := i + 1;
      }
      ReachedEnd(AsConfig(), msgs, t, e, i, Progress(conn.tx, lost, escaped), conn.ops[|before|..]);
    }

    /** After the message loop: no ack after a failed nack, else the ack; then the block is left. */
    method FinishBlock(conn: Connection, batchId: nat, nackFailed: bool, escaped: bool, e: Circumstances,
                       ghost lost: set<nat>) returns (end: Ending)
      requires conn.Valid() && conn.committed.nextBatch <= conn.tx.staged.nextBatch
      requires (nackFailed <==> lost != {}) && (conn.tx.aborted ==> nackFailed || escaped)
      modifies conn`tx, conn`committed, conn`ops
      ensures conn.Valid()
      ensures (conn.committed, end) ==
        PollEnd(old(conn.committed), Progress(old(conn.tx), lost, escaped), batchId, e)
      ensures conn.ops == old(conn.ops) + if nackFailed || escaped then [] else [TryAck(e.ack.Runs?)]
    {
      if escaped {
        conn.Rollback();
        return RaisedEscape;
      }
      if nackFailed {
        var ok := conn.Commit(e.commit);
        return if ok then Idle else Raised;
      }
      var n := conn.Ack(batchId, e.ack);
      if n.None? {
        conn.Rollback();
        return Raised;
      }
      var ok := conn.Commit(e.commit);
      return if ok then Processed else Raised;
    }

    /** The part of the block that has messages. */
    method ProcessBatch(conn: Connection, msgs: seq<Msg>, e: Circumstances) returns (end: Ending)
      requires conn.Valid() && !conn.tx.aborted && msgs != []
      requires conn.committed.nextBatch <= conn.tx.staged.nextBatch
      modifies conn
      ensures conn.Valid() && conn.ops == old(conn.ops) + BatchPlan(AsConfig(), old(conn.tx).staged, msgs, e)
      ensures (conn.committed, end) ==
        PollBatch(AsConfig(), old(conn.committed), old(conn.tx).staged, msgs[0].batch, msgs, e)
    {
      EscapeMeaning(AsConfig(), msgs, conn.tx, e);
      AbortIsRemembered(AsConfig(), msgs, conn.tx, e);
      var nackFailed, escaped, lost := DispatchBatch(conn, msgs, e);
      end := FinishBlock(conn, msgs[0].batch, nackFailed, escaped, e, lost);
    }

    /** The block after its receive. */
    method LeaveBlock(conn: Connection, reply: Received, e: Circumstances) returns (end: Ending)
      requires conn.Valid() && conn.committed.nextBatch <= conn.tx.staged.nextBatch
      requires conn.tx.aborted <==> !reply.Got?
      modifies conn
      ensures conn.Valid() && conn.ops == old(conn.ops) + RestPlan(AsConfig(), old(conn.tx), reply, e)
      ensures (conn.committed, end) == PollRest(AsConfig(), old(conn.committed), old(conn.tx), reply, e)
    {
      match reply
      case Failed =>
        conn.Rollback();
        return Raised;
      case TooBig =>
        conn.Rollback();
        return RaisedOverflow;
      case Got(msgs) =>
        if msgs == [] {
          var ok := conn.Commit(e.commit);
          return if ok then Idle else Raised;
        }
        end := ProcessBatch(conn, msgs, e);
    }

    /** The transaction: what its receive gave, and the rest. */
    method Transact(conn: Connection, e: Circumstances) returns (end: Ending, ghost t: Tx, ghost reply: Received)
      requires conn.Valid() && conn.ops == []
      modifies conn
      ensures conn.Valid() && t.staged.Valid()
      ensures Opens(old(conn.committed), me, maxMessages, e.victim, e.receive, t, reply)
      ensures (conn.committed, end) == PollRest(AsConfig(), old(conn.committed), t, reply, e)
      ensures conn.ops == [Deliver(reply)] + RestPlan(AsConfig(), t, reply, e)
    {
      conn.Begin();
      var got := conn.Receive(me, maxMessages, e.victim, e.receive);
      t, reply := conn.tx, got;
      assert conn.ops == [Deliver(reply)];
      end := LeaveBlock(conn, got, e);
    }

    /** One poll: the whole transaction, and all its effects on the outside. */
    method PollOnce(conn: Connection, e: Circumstances) returns (end: Ending)
      requires conn.Valid() && conn.ops == []
      modifies conn
      ensures conn.Valid() && (conn.committed, end) == Poll(AsConfig(), old(conn.committed), me, e)
      ensures conn.ops == PollPlan(AsConfig(), old(conn.committed), me, e)
      ensures !e.receive.Runs? || maxMessages < 1 ==> end == Raised && conn.committed == old(conn.committed)
      ensures end == RaisedOverflow <==>
        e.receive.Runs? && ExceedsCeiling(old(conn.committed), me, maxMessages, e.victim)
    {
      ghost var t, reply;
      end, t, reply := Transact(conn, e);
      OpenedPoll(AsConfig(), old(conn.committed), me, e, t, reply);
      OverflowEndsThePoll(AsConfig(), old(conn.committed), me, e);
      if !e.receive.Runs? || maxMessages < 1 {
        FailedReceiveEndsThePoll(AsConfig(), old(conn.committed), me, e);
      }
    }
  }
}
