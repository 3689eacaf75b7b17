/** The TypeScript consumer loop, checked call by call against the protocol. */
module TypeScriptConsumers {
  import opened Options
  import Engine
  import opened Protocol
  import opened Decisions
  import opened Runs
  import opened Backends
  import opened Transactions
  import opened Simulation
  import opened Backlog
  import opened UndisturbedPasses

  /** A handler promise resolves (true) or rejects (false). */
  function Settled(resolves: bool): Outcome {
    if resolves then Returns else Raises
  }

  function Awaited(resolves: nat -> bool): nat -> Outcome {
    (i: nat) => Settled(resolves(i))
  }

  function AllAwaited(resolves: nat -> nat -> bool): nat -> nat -> Outcome {
    (pass: nat) => Awaited(resolves(pass))
  }

  lemma AwaitedContained(resolves: nat -> bool)
    ensures Contained(Awaited(resolves))
    ensures forall i: nat :: Awaited(resolves)(i) == Settled(resolves(i))
  {
    forall i: nat ensures Awaited(resolves)(i) == Settled(resolves(i)) != Escapes {
    }
  }

  lemma AwaitedAt(c: Config, msgs: seq<Msg>, resolves: nat -> bool, i: nat)
    ensures Awaited(resolves)(i) == Settled(resolves(i)) && !Escaped(c, msgs, Awaited(resolves))
  {
    AwaitedContained(resolves);
  }

  /** What is done for a message: its handler is called, and it is nacked when that rejected; or, without a
      handler, it is nacked exactly under the nack policy. */
  lemma RejectionsAreNacked(c: Config, m: Msg, i: nat, resolves: bool, ok: bool)
    ensures c.Knows(m.kind) ==>
      Decide(c, m, i, Settled(resolves), ok) == [Op.CallHandler(i)] + if resolves then [] else [TryNack(i, ok)]
    ensures !c.Knows(m.kind) ==>
      Decide(c, m, i, Settled(resolves), ok) == if c.policy == NackUnknown then [TryNack(i, ok)] else []
  {
  }

  class Consumer {
    var handlers: set<string>
    const unknownHandlerPolicy: Policy
    const maxMessages: int

    constructor (unknownHandlerPolicy: Policy, maxMessages: int)
      ensures handlers == {} && this.unknownHandlerPolicy == unknownHandlerPolicy && this.maxMessages == maxMessages
    {
      handlers, this.unknownHandlerPolicy, this.maxMessages := {}, unknownHandlerPolicy, maxMessages;
    }

    method Handle(eventType: string)
      modifies this
      ensures handlers == old(handlers) + {eventType}
    {
      handlers := handlers + {eventType};
    }

    function AsConfig(): Config
      reads `handlers
    {
      Config(handlers, false, unknownHandlerPolicy, maxMessages)
    }

    /** The body of the message loop; `ok` is false exactly when a nack was tried and failed. */
    method HandleMessage(b: Backend, ghost r: nat, msgs: seq<Msg>, i: nat, anyNackFailed: bool, resolves: bool)
        returns (failed: bool, ghost ok: bool)
      requires b.Valid() && b.Phase(Dispatching(r, i, anyNackFailed)) && b.InRound(r, msgs) && i < |msgs|
      requires b.c(b.me) == AsConfig()
      modifies b`w, b`trace, b`tick, b`clock, b`ops
      ensures b.Valid() && b.Phase(Dispatching(r, i + 1, failed)) && b.InRound(r, msgs)
      ensures failed == (anyNackFailed || !ok) && (ok || NeedsNack(AsConfig(), msgs[i], Settled(resolves)))
      ensures b.ops == old(b.ops) + Decide(AsConfig(), msgs[i], i, Settled(resolves), ok)
      ensures b.tick >= old(b.tick) && b.clock >= old(b.clock)
      ensures old(b.Undisturbed()) ==>
        b.Undisturbed() && b.trace == old(b.trace) + Mimic(AsConfig(), b.me, msgs[i], Settled(resolves), Runs)
    {
      var msg := msgs[i];
      var nacked := true;
      if msg.kind !in handlers {
        b.NoHandler(r, msgs, i, anyNackFailed);
        if unknownHandlerPolicy != AckUnknown {
          nacked := b.Nack(r, msgs, i, anyNackFailed, msg.batch, msg);
        }
      } else {
        b.CallHandler(r, msgs, i, anyNackFailed, Settled(resolves));
        if !resolves {
          nacked := b.Nack(r, msgs, i, anyNackFailed, msg.batch, msg);
        }
      }
      failed, ok := anyNackFailed || !nacked, nacked;
    }

    /** One turn of the message loop. */
    method Next(b: Backend, ghost r: nat, msgs: seq<Msg>, i: nat, anyNackFailed: bool, resolves: nat -> bool,
                ghost lost: set<nat>, ghost before: seq<Op>, ghost e: Circumstances,
                ghost t0: seq<Action>, ghost calm: bool)
        returns (failed: bool, ghost more: set<nat>)
      requires b.Valid() && b.Phase(Dispatching(r, i, anyNackFailed)) && b.InRound(r, msgs) && i < |msgs|
      requires b.c(b.me) == AsConfig() && (anyNackFailed <==> lost != {}) && before <= b.ops
      requires Walked(AsConfig(), msgs, Awaited(resolves), i, lost, b.ops[|before|..])
      requires e == CalmOf(e.victim, Awaited(resolves))
      requires calm ==> b.Undisturbed() && b.trace == t0 + MimicAll(AsConfig(), b.me, msgs[..i], e)
      modifies b`w, b`trace, b`tick, b`clock, b`ops
      ensures b.Valid() && b.Phase(Dispatching(r, i + 1, failed)) && b.InRound(r, msgs)
      ensures (failed <==> more != {}) && before <= b.ops
      ensures Walked(AsConfig(), msgs, Awaited(resolves), i + 1, more, b.ops[|before|..])
      ensures b.tick >= old(b.tick) && b.clock >= old(b.clock)
      ensures calm ==> b.Undisturbed() && b.trace == t0 + MimicAll(AsConfig(), b.me, msgs[..i + 1], e)
    {
      AwaitedAt(AsConfig(), msgs[..i], resolves, i);
      ghost var ops := b.ops;
      MimicNext(AsConfig(), b.me, msgs, i, e);
      ghost var ok;
      failed, ok := HandleMessage(b, r, msgs, i, anyNackFailed, resolves(i));
      more := if ok then lost else lost + {i};
      WalkedNext(AsConfig(), msgs, Awaited(resolves), i, lost, ops[|before|..], ok);
      OpsSince(before, ops, Decide(AsConfig(), msgs[i], i, Settled(resolves(i)), ok));
    }

    /** One pass over a batch. */
    method DispatchBatch(b: Backend, ghost r: nat, msgs: seq<Msg>, resolves: nat -> bool, ghost e: Circumstances)
        returns (batchId: Option<nat>, anyNackFailed: bool, ghost lost: set<nat>)
      requires b.Valid() && b.Phase(Dispatching(r, 0, false)) && b.InRound(r, msgs) && b.c(b.me) == AsConfig()
      requires msgs != [] && OneToken(msgs) && e == CalmOf(e.victim, Awaited(resolves))
      modifies b`w, b`trace, b`tick, b`clock, b`ops
      ensures b.Valid() && b.Phase(Dispatching(r, |msgs|, anyNackFailed)) && b.InRound(r, msgs)
      ensures batchId == Some(msgs[0].batch)
      ensures b.ops == old(b.ops) + Plan(AsConfig(), msgs, Awaited(resolves), lost)
      ensures AckDue(AsConfig(), msgs, Awaited(resolves), lost) <==> !anyNackFailed
      ensures b.tick >= old(b.tick) && b.clock >= old(b.clock)
      ensures old(b.Undisturbed()) ==>
        b.Undisturbed() && b.trace == old(b.trace) + MimicAll(AsConfig(), b.me, msgs, e)
    {
      batchId, anyNackFailed, lost := None, false, {};
      ghost var ops, trace := b.ops, b.trace;
      for i := 0 to |msgs|
        invariant b.Valid() && b.Phase(Dispatching(r, i, anyNackFailed)) && b.InRound(r, msgs)
        invariant (i > 0 ==> batchId == Some(msgs[i - 1].batch)) && (anyNackFailed <==> lost != {}) && ops <= b.ops
        invariant Walked(AsConfig(), msgs, Awaited(resolves), i, lost, b.ops[|ops|..])
        invariant b.tick >= old(b.tick) && b.clock >= old(b.clock)
        invariant old(b.Undisturbed()) ==>
          b.Undisturbed() && b.trace == trace + MimicAll(AsConfig(), b.me, msgs[..i], e)
      {
        batchId := Some(msgs[i].batch);
        anyNackFailed, lost := Next(b, r, msgs, i, anyNackFailed, resolves, lost, ops, e, trace, old(b.Undisturbed()));
      }
      assert msgs[..|msgs|] == msgs;
      AwaitedContained(resolves);
      WalkedEnd(AsConfig(), msgs, Awaited(resolves), |msgs|, lost, b.ops[|ops|..]);
    }

    /** The end of a round: the ack, and a wait when the batch stays unfinished. */
    method FinishRound(b: Backend, ghost r: nat, ghost msgs: seq<Msg>, batchId: nat, anyNackFailed: bool)
        returns (ghost acked: bool)
      requires b.Valid() && b.InRound(r, msgs) && b.Phase(Dispatching(r, |msgs|, anyNackFailed))
      requires msgs != [] && batchId == msgs[0].batch && b.receipts != []
      modifies b`w, b`trace, b`tick, b`clock, b`ackReplies, b`ops
      ensures b.Valid() && b.Phase(Ready) && b.tick >= old(b.tick) && (b.Rested() || b.Cancelled())
      ensures b.ops == old(b.ops) +
        (if anyNackFailed then [] else [TryAck(acked)]) + (if !anyNackFailed && acked then [] else [Pause])
      ensures old(b.Undisturbed()) && !anyNackFailed ==>
        b.Undisturbed() && acked && b.trace == old(b.trace) + [Action.Ack(b.me, Fine)]
    {
      acked := false;
      if anyNackFailed {
        b.GiveUp(r, msgs);
        b.Wait();
      } else {
        var n := b.Ack(r, msgs, batchId);
        acked := n.Some?;
        if n.None? {
          b.Wait();
        }
      }
    }

    /** One pass of the poll loop, with everything it does. Left undisturbed it has the effect of a
        poll in which nothing fails, and does not wait exactly when that poll finishes a batch. */
    method Pass(b: Backend, resolves: nat -> bool) returns (overflow: bool, ghost p: Decisions.Pass)
      requires b.Valid() && b.Phase(Ready) && b.c(b.me) == AsConfig() && b.Rested()
      modifies b
      ensures b.Valid() && b.tick > old(b.tick) && b.Phase(if overflow then Overflowed else Ready)
      ensures overflow || b.Rested() || b.Cancelled()
      ensures (overflow <==> p.reply.TooBig?) && Fits(AsConfig(), p.reply) && p.answers.outcome == Awaited(resolves)
      ensures b.ops == old(b.ops) + PassPlan(AsConfig(), p.reply, p.answers)
      ensures old(b.Undisturbed()) && !overflow ==>
        b.Undisturbed() && LikePoll(AsConfig(), old(b.w).q, b.me, CalmOf(b.env(old(b.tick)).victim, Awaited(resolves)),
                                    b.w.q, Goes(AsConfig(), p.reply, p.answers))
      ensures old(b.Undisturbed()) ==>
        RepliesWith(old(b.w).q, b.me, maxMessages, b.env(old(b.tick)).victim, p.reply)
    {
      ghost var e := CalmOf(b.env(b.tick).victim, Awaited(resolves));
      var reply, r := b.Receive();
      overflow := reply.TooBig?;
      if overflow {
        p := Decisions.Pass(reply, Answers(Awaited(resolves), {}, false));
      } else if reply.Failed? || reply.msgs == [] {
        p := Rest(b, reply, resolves, e, old(b.trace), old(b.w), old(b.ops), old(b.Undisturbed()));
      } else {
        p := Round(b, r, reply, resolves, e, old(b.trace), old(b.w), old(b.ops), old(b.Undisturbed()));
      }
    }

    /** The rest of a pass that received nothing. */
    method Rest(b: Backend, reply: Received, ghost resolves: nat -> bool, ghost e: Circumstances,
                ghost t0: seq<Action>, ghost w0: World, ghost ops0: seq<Op>, ghost calm: bool)
        returns (ghost p: Decisions.Pass)
      requires b.Valid() && b.Phase(Waiting) && (reply.Failed? || reply == Got([])) && b.receipts != []
      requires b.c(b.me) == AsConfig() && e == CalmOf(e.victim, Awaited(resolves))
      requires Ran(b.c, b.coop, b.maxRetries, t0, w0) && w0.At(b.me) == Ready
      requires b.ops == ops0 + [Deliver(reply)]
      requires calm ==>
        && b.Undisturbed() && b.trace == t0 + [Action.Receive(b.me, e.victim, Fine)]
        && RepliesWith(w0.q, b.me, maxMessages, e.victim, reply)
      modifies b`w, b`trace, b`tick, b`clock, b`ops
      ensures b.Valid() && b.Phase(Ready) && b.tick >= old(b.tick) && (b.Rested() || b.Cancelled())
      ensures p.reply == reply && p.answers.outcome == Awaited(resolves)
      ensures b.ops == ops0 + PassPlan(AsConfig(), reply, p.answers) && !Goes(AsConfig(), reply, p.answers)
      ensures calm ==> b.Undisturbed() && LikePoll(AsConfig(), w0.q, b.me, e, b.w.q, false)
    {
      b.Wait();
      p := Decisions.Pass(reply, Answers(Awaited(resolves), {}, false));
      if calm {
        WaitingPass(b.c, b.coop, b.maxRetries, t0, w0, b.trace, b.w, b.me, e.victim, reply, e.outcome);
      }
    }

    /** The rest of a pass that received a batch. */
    method Round(b: Backend, ghost r: nat, reply: Received, resolves: nat -> bool, ghost e: Circumstances,
                 ghost t0: seq<Action>, ghost w0: World, ghost ops0: seq<Op>, ghost calm: bool)
        returns (ghost p: Decisions.Pass)
      requires b.Valid() && b.c(b.me) == AsConfig() && reply.Got? && reply.msgs != [] && b.receipts != []
      requires b.Phase(Dispatching(r, 0, false)) && b.InRound(r, reply.msgs) && OneToken(reply.msgs)
      requires e == CalmOf(e.victim, Awaited(resolves)) && Ran(b.c, b.coop, b.maxRetries, t0, w0)
      requires w0.At(b.me) == Ready
      requires b.ops == ops0 + [Deliver(reply)]
      requires calm ==>
        && b.Undisturbed() && b.trace == t0 + [Action.Receive(b.me, e.victim, Fine)]
        && RepliesWith(w0.q, b.me, maxMessages, e.victim, reply)
      modifies b`w, b`trace, b`tick, b`clock, b`ackReplies, b`ops
      ensures b.Valid() && b.Phase(Ready) && b.tick >= old(b.tick) && (b.Rested() || b.Cancelled())
      ensures p.reply == reply && p.answers.outcome == Awaited(resolves)
      ensures b.ops == ops0 + PassPlan(AsConfig(), reply, p.answers)
      ensures calm ==>
        b.Undisturbed() && LikePoll(AsConfig(), w0.q, b.me, e, b.w.q, Goes(AsConfig(), reply, p.answers))
    {
      AwaitedContained(resolves);
      var batchId, anyNackFailed, lost := DispatchBatch(b, r, reply.msgs, resolves, e);
      ghost var t1, w1 := b.trace, b.w;
      if calm {
        NoNackFails(b.c, b.coop, b.maxRetries, t0, w0, t1, w1, b.me, e.victim, reply.msgs, e.outcome, r, anyNackFailed);
      }
      ghost var acked := false;
      if batchId.Some? {
        acked := FinishRound(b, r, reply.msgs, batchId.value, anyNackFailed);
      }
      p := Decisions.Pass(reply, Answers(Awaited(resolves), lost, acked));
      PassPlanIs(AsConfig(), reply, p.answers, anyNackFailed, ops0);
      if calm {
        FinishingPass(b.c, b.coop, b.maxRetries, t0, w0, b.trace, b.w, b.me, e.victim, reply.msgs, e.outcome);
      }
    }

    /** The poll loop. It does what the plan of its passes says and nothing else; it ends in Overflowed
        exactly when a receive overflowed, and otherwise when cancelled, so not before it made as many
        operations as the cancellation took. Left undisturbed and alone in its group, its passes go
        through the backlog one window each. */
    method Start(b: Backend, resolves: nat -> nat -> bool) returns (overflow: bool, ghost log: seq<Decisions.Pass>)
      requires b.Valid() && b.Phase(Ready) && b.c(b.me) == AsConfig() && b.Rested() && b.ops == []
      modifies b
      ensures b.Valid() && b.Phase(if overflow then Overflowed else Stopped) && (!overflow ==> b.cancelAt <= |b.ops|)
      ensures Logged(AsConfig(), log, b.ops, AllAwaited(resolves), overflow)
      ensures old(b.Undisturbed()) && Admits(AsConfig(), old(b.w).q, b.me) ==>
        !overflow && GoesThrough(Left(old(b.w).q, b.me), GoesOf(AsConfig(), log))
    {
      ghost var calm := b.Undisturbed() && Admits(AsConfig(), b.w.q, b.me);
      ghost var left := if calm then Left(b.w.q, b.me) else [];
      DrainingIs(AsConfig(), left, b.me, b.w.q, []);
      overflow, log := Loop(b, resolves, left, calm);
    }

    method Loop(b: Backend, resolves: nat -> nat -> bool, ghost left: seq<seq<Engine.Event>>, ghost calm: bool)
        returns (overflow: bool, ghost log: seq<Decisions.Pass>)
      requires b.Valid() && b.Phase(Ready) && b.c(b.me) == AsConfig() && b.Rested() && b.ops == []
      requires calm ==> b.Undisturbed() && Draining(AsConfig(), left, b.me, b.w.q, [])
      modifies b
      ensures b.Valid() && b.Phase(if overflow then Overflowed else Stopped) && (!overflow ==> b.cancelAt <= |b.ops|)
      ensures Logged(AsConfig(), log, b.ops, AllAwaited(resolves), overflow)
      ensures calm ==> !overflow && GoesThrough(left, GoesOf(AsConfig(), log))
    {
      log := [];
      var iteration := 0;
      while !b.Cancelled()
        invariant iteration == |log| && Logged(AsConfig(), log, b.ops, AllAwaited(resolves), false)
        invariant b.Valid() && b.Phase(Ready) && b.c(b.me) == AsConfig() && (b.Rested() || b.Cancelled())
        invariant calm ==> b.Undisturbed() && Draining(AsConfig(), left, b.me, b.w.q, log)
        decreases b.cancelAt - b.tick
      {
        ghost var p;
        overflow, p := Iterate(b, resolves, iteration, left, log, calm);
        log, iteration := log + [p], iteration + 1;
        if overflow {
          return;
        }
      }
      DrainingIs(AsConfig(), left, b.me, b.w.q, log);
      b.Stop();
      overflow := false;
    }

    /** One iteration of the loop, with what it means for the run so far. */
    method Iterate(b: Backend, resolves: nat -> nat -> bool, iteration: nat, ghost left: seq<seq<Engine.Event>>,
                   ghost log: seq<Decisions.Pass>, ghost calm: bool) returns (overflow: bool, ghost p: Decisions.Pass)
      requires b.Valid() && b.Phase(Ready) && b.c(b.me) == AsConfig() && b.Rested()
      requires iteration == |log| && Logged(AsConfig(), log, b.ops, AllAwaited(resolves), false)
      requires calm ==> b.Undisturbed() && Draining(AsConfig(), left, b.me, b.w.q, log)
      modifies b
      ensures b.Valid() && b.tick > old(b.tick) && b.Phase(if overflow then Overflowed else Ready)
      ensures overflow || b.Rested() || b.Cancelled()
      ensures Logged(AsConfig(), log + [p], b.ops, AllAwaited(resolves), overflow)
      ensures calm ==> !overflow && b.Undisturbed() && Draining(AsConfig(), left, b.me, b.w.q, log + [p])
    {
      overflow, p := Pass(b, resolves(iteration));
      LoggedNext(AsConfig(), log, old(b.ops), AllAwaited(resolves), p);
      if calm {
        AwaitedContained(resolves(iteration));
        PassGoesOn(AsConfig(), left, b.me, old(b.w).q, log, b.env(old(b.tick)).victim, p, b.w.q);
      }
    }
  }
}
