/** The Go consumer loop, checked call by call against the protocol. */
module GoConsumers {
  import opened Options
  import Engine
  import opened Protocol
  import opened Decisions
  import opened Runs
  import opened Backends
  import opened Transactions
  import opened Simulation
  import opened Backlog
  import opened UndisturbedPasses

  datatype HandlerResult = Nil | Error | Panic

  /** A panic is recovered into an error. */
  function DispatchWithRecover(h: HandlerResult): Outcome {
    if h.Nil? then Returns else Raises
  }

  function Recovered(results: nat -> HandlerResult): nat -> Outcome {
    (i: nat) => DispatchWithRecover(results(i))
  }

  function AllRecovered(results: nat -> nat -> HandlerResult): nat -> nat -> Outcome {
    (pass: nat) => Recovered(results(pass))
  }

  lemma RecoversAll(results: nat -> HandlerResult)
    ensures Contained(Recovered(results))
    ensures forall i: nat :: Recovered(results)(i) == DispatchWithRecover(results(i))
  {
    forall i: nat ensures Recovered(results)(i) == DispatchWithRecover(results(i)) != Escapes {
    }
  }

  /** What is done for a message: its handler is called, and it is nacked when that returned an error or
      panicked; or, without a handler, it is nacked exactly under the nack policy. */
  lemma FailuresAreNacked(c: Config, m: Msg, i: nat, h: HandlerResult, ok: bool)
    ensures c.Knows(m.kind) ==>
      Decide(c, m, i, DispatchWithRecover(h), ok) ==
        [Op.CallHandler(i)] + if h == Error || h == Panic then [TryNack(i, ok)] else []
    ensures !c.Knows(m.kind) ==>
      Decide(c, m, i, DispatchWithRecover(h), ok) == if c.policy == NackUnknown then [TryNack(i, ok)] else []
  {
  }

  class Consumer {
    var handlers: set<string>
    const policy: Policy
    const ceiling: int

    constructor (policy: Policy, ceiling: int)
      ensures handlers == {} && this.policy == policy && this.ceiling == ceiling
    {
      handlers, this.policy, this.ceiling := {}, policy, ceiling;
    }

    method Handle(eventType: string)
      modifies this
      ensures handlers == old(handlers) + {eventType}
    {
      handlers := handlers + {eventType};
    }

    function AsConfig(): Config
      reads `handlers
    {
      Config(handlers, false, policy, ceiling)
    }

    /** The loop body for message i; `ok` is false exactly when a nack was tried and failed. */
    method HandleMessage(b: Backend, ghost r: nat, msgs: seq<Msg>, i: nat, nackFailed: bool, result: HandlerResult)
        returns (failed: bool, ghost ok: bool)
      requires b.Valid() && b.Phase(Dispatching(r, i, nackFailed)) && b.InRound(r, msgs) && i < |msgs|
      requires b.c(b.me) == AsConfig()
      modifies b`w, b`trace, b`tick, b`clock, b`ops
      ensures b.Valid() && b.Phase(Dispatching(r, i + 1, failed)) && b.InRound(r, msgs)
      ensures failed == (nackFailed || !ok) && (ok || NeedsNack(AsConfig(), msgs[i], DispatchWithRecover(result)))
      ensures b.ops == old(b.ops) + Decide(AsConfig(), msgs[i], i, DispatchWithRecover(result), ok)
      ensures b.tick >= old(b.tick) && b.clock >= old(b.clock)
      ensures old(b.Undisturbed()) ==>
        b.Undisturbed() && b.trace == old(b.trace) + Mimic(AsConfig(), b.me, msgs[i], DispatchWithRecover(result), Runs)
    {
      var msg := msgs[i];
      failed, ok := nackFailed, true;
      if msg.kind !in handlers {
        b.NoHandler(r, msgs, i, nackFailed);
        if policy == AckUnknown {
          return;
        }
        var nacked := b.Nack(r, msgs, i, nackFailed, msg.batch, msg);
        if !nacked {
          failed, ok := true, false;
        }
        return;
      }
      b.CallHandler(r, msgs, i, nackFailed, DispatchWithRecover(result));
      if DispatchWithRecover(result).Raises? {
        var nacked := b.Nack(r, msgs, i, nackFailed, msg.batch, msg);
        if !nacked {
          failed, ok := true, false;
        }
      }
    }

    /** One turn of the message loop. */
    method Next(b: Backend, ghost r: nat, msgs: seq<Msg>, i: nat, nackFailed: bool, results: nat -> HandlerResult,
                ghost lost: set<nat>, ghost before: seq<Op>, ghost e: Circumstances,
                ghost t0: seq<Action>, ghost calm: bool)
        returns (failed: bool, ghost more: set<nat>)
      requires b.Valid() && b.Phase(Dispatching(r, i, nackFailed)) && b.InRound(r, msgs) && i < |msgs|
      requires b.c(b.me) == AsConfig() && (nackFailed <==> lost != {}) && before <= b.ops
      requires Walked(AsConfig(), msgs, Recovered(results), i, lost, b.ops[|before|..])
      requires e == CalmOf(e.victim, Recovered(results))
      requires calm ==> b.Undisturbed() && b.trace == t0 + MimicAll(AsConfig(), b.me, msgs[..i], e)
      modifies b`w, b`trace, b`tick, b`clock, b`ops
      ensures b.Valid() && b.Phase(Dispatching(r, i + 1, failed)) && b.InRound(r, msgs)
      ensures (failed <==> more != {}) && before <= b.ops
      ensures Walked(AsConfig(), msgs, Recovered(results), i + 1, more, b.ops[|before|..])
      ensures b.tick >= old(b.tick) && b.clock >= old(b.clock)
      ensures calm ==> b.Undisturbed() && b.trace == t0 + MimicAll(AsConfig(), b.me, msgs[..i + 1], e)
    {
      RecoversAll(results);
      ghost var ops := b.ops;
      MimicNext(AsConfig(), b.me, msgs, i, e);
      ghost var ok;
      failed, ok := HandleMessage(b, r, msgs, i, nackFailed, results(i));
      more := if ok then lost else lost + {i};
      WalkedNext(AsConfig(), msgs, Recovered(results), i, lost, ops[|before|..], ok);
      OpsSince(before, ops, Decide(AsConfig(), msgs[i], i, DispatchWithRecover(results(i)), ok));
    }

    /** One pass over a batch. */
    method DispatchBatch(b: Backend, ghost r: nat, msgs: seq<Msg>, results: nat -> HandlerResult,
                         ghost e: Circumstances)
        returns (batchID: nat, nackFailed: bool, ghost lost: set<nat>)
      requires b.Valid() && b.Phase(Dispatching(r, 0, false)) && b.InRound(r, msgs) && b.c(b.me) == AsConfig()
      requires msgs != [] && OneToken(msgs) && e == CalmOf(e.victim, Recovered(results))
      modifies b`w, b`trace, b`tick, b`clock, b`ops
      ensures b.Valid() && b.Phase(Dispatching(r, |msgs|, nackFailed)) && b.InRound(r, msgs)
      ensures batchID == msgs[0].batch
      ensures b.ops == old(b.ops) + Plan(AsConfig(), msgs, Recovered(results), lost)
      ensures AckDue(AsConfig(), msgs, Recovered(results), lost) <==> !nackFailed
      ensures b.tick >= old(b.tick) && b.clock >= old(b.clock)
      ensures old(b.Undisturbed()) ==>
        b.Undisturbed() && b.trace == old(b.trace) + MimicAll(AsConfig(), b.me, msgs, e)
    {
      batchID, nackFailed, lost := 0, false, {};
      ghost var ops, trace := b.ops, b.trace;
      for i := 0 to |msgs|
        invariant b.Valid() && b.Phase(Dispatching(r, i, nackFailed)) && b.InRound(r, msgs)
        invariant (i > 0 ==> batchID == msgs[i - 1].batch) && (nackFailed <==> lost != {}) && ops <= b.ops
        invariant Walked(AsConfig(), msgs, Recovered(results), i, lost, b.ops[|ops|..])
        invariant b.tick >= old(b.tick) && b.clock >= old(b.clock)
        invariant old(b.Undisturbed()) ==>
          b.Undisturbed() && b.trace == trace + MimicAll(AsConfig(), b.me, msgs[..i], e)
      {
        batchID := msgs[i].batch;
        nackFailed, lost := Next(b, r, msgs, i, nackFailed, results, lost, ops, e, trace, old(b.Undisturbed()));
      }
      assert msgs[..|msgs|] == msgs;
      RecoversAll(results);
      WalkedEnd(AsConfig(), msgs, Recovered(results), |msgs|, lost, b.ops[|ops|..]);
    }

    /** The end of a round: the ack, and a wait when the batch stays unfinished. */
    method FinishRound(b: Backend, ghost r: nat, ghost msgs: seq<Msg>, batchID: nat, nackFailed: bool)
        returns (ghost acked: bool)
      requires b.Valid() && b.InRound(r, msgs) && b.Phase(Dispatching(r, |msgs|, nackFailed))
      requires msgs != [] && batchID == msgs[0].batch && b.receipts != []
      modifies b`w, b`trace, b`tick, b`clock, b`ackReplies, b`ops
      ensures b.Valid() && b.Phase(Ready) && b.tick >= old(b.tick) && (b.Rested() || b.Cancelled())
      ensures b.ops == old(b.ops) +
        (if nackFailed then [] else [TryAck(acked)]) + (if !nackFailed && acked then [] else [Pause])
      ensures old(b.Undisturbed()) && !nackFailed ==>
        b.Undisturbed() && acked && b.trace == old(b.trace) + [Action.Ack(b.me, Fine)]
    {
      if nackFailed {
        acked := false;
        b.GiveUp(r, msgs);
        b.Wait();
        return;
      }
      var n := b.Ack(r, msgs, batchID);
      acked := n.Some?;
      if n.None? {
        b.Wait();
      }
    }

    /** One pass of the poll loop, with everything it does. Left undisturbed it has the effect of a
        poll in which nothing fails, and does not wait exactly when that poll finishes a batch. */
    method Pass(b: Backend, results: nat -> HandlerResult) returns (overflow: bool, ghost p: Decisions.Pass)
      requires b.Valid() && b.Phase(Ready) && b.c(b.me) == AsConfig() && b.Rested()
      modifies b
      ensures b.Valid() && b.tick > old(b.tick) && b.Phase(if overflow then Overflowed else Ready)
      ensures overflow || b.Rested() || b.Cancelled()
      ensures (overflow <==> p.reply.TooBig?) && Fits(AsConfig(), p.reply) && p.answers.outcome == Recovered(results)
      ensures b.ops == old(b.ops) + PassPlan(AsConfig(), p.reply, p.answers)
      ensures old(b.Undisturbed()) && !overflow ==>
        b.Undisturbed() && LikePoll(AsConfig(), old(b.w).q, b.me, CalmOf(b.env(old(b.tick)).victim, Recovered(results)),
                                    b.w.q, Goes(AsConfig(), p.reply, p.answers))
      ensures old(b.Undisturbed()) ==>
        RepliesWith(old(b.w).q, b.me, ceiling, b.env(old(b.tick)).victim, p.reply)
    {
      ghost var e := CalmOf(b.env(b.tick).victim, Recovered(results));
      var reply, r := b.Receive();
      overflow := reply.TooBig?;
      if overflow {
        p := Decisions.Pass(reply, Answers(Recovered(results), {}, false));
      } else if reply.Failed? || reply.msgs == [] {
        p := Rest(b, reply, results, e, old(b.trace), old(b.w), old(b.ops), old(b.Undisturbed()));
      } else {
        p := Round(b, r, reply, results, e, old(b.trace), old(b.w), old(b.ops), old(b.Undisturbed()));
      }
    }

    /** The rest of a pass that received nothing. */
    method Rest(b: Backend, reply: Received, ghost results: nat -> HandlerResult, ghost e: Circumstances,
                ghost t0: seq<Action>, ghost w0: World, ghost ops0: seq<Op>, ghost calm: bool)
        returns (ghost p: Decisions.Pass)
      requires b.Valid() && b.Phase(Waiting) && (reply.Failed? || reply == Got([])) && b.receipts != []
      requires b.c(b.me) == AsConfig() && e == CalmOf(e.victim, Recovered(results))
      requires Ran(b.c, b.coop, b.maxRetries, t0, w0) && w0.At(b.me) == Ready
      requires b.ops == ops0 + [Deliver(reply)]
      requires calm ==>
        && b.Undisturbed() && b.trace == t0 + [Action.Receive(b.me, e.victim, Fine)]
        && RepliesWith(w0.q, b.me, ceiling, e.victim, reply)
      modifies b`w, b`trace, b`tick, b`clock, b`ops
      ensures b.Valid() && b.Phase(Ready) && b.tick >= old(b.tick) && (b.Rested() || b.Cancelled())
      ensures p.reply == reply && p.answers.outcome == Recovered(results)
      ensures b.ops == ops0 + PassPlan(AsConfig(), reply, p.answers) && !Goes(AsConfig(), reply, p.answers)
      ensures calm ==> b.Undisturbed() && LikePoll(AsConfig(), w0.q, b.me, e, b.w.q, false)
    {
      b.Wait();
      p := Decisions.Pass(reply, Answers(Recovered(results), {}, false));
      if calm {
        WaitingPass(b.c, b.coop, b.maxRetries, t0, w0, b.trace, b.w, b.me, e.victim, reply, e.outcome);
      }
    }

    /** The rest of a pass that received a batch. */
    method Round(b: Backend, ghost r: nat, reply: Received, results: nat -> HandlerResult, ghost e: Circumstances,
                 ghost t0: seq<Action>, ghost w0: World, ghost ops0: seq<Op>, ghost calm: bool)
        returns (ghost p: Decisions.Pass)
      requires b.Valid() && b.c(b.me) == AsConfig() && reply.Got? && reply.msgs != [] && b.receipts != []
      requires b.Phase(Dispatching(r, 0, false)) && b.InRound(r, reply.msgs) && OneToken(reply.msgs)
      requires e == CalmOf(e.victim, Recovered(results)) && Ran(b.c, b.coop, b.maxRetries, t0, w0)
      requires w0.At(b.me) == Ready
      requires b.ops == ops0 + [Deliver(reply)]
      requires calm ==>
        && b.Undisturbed() && b.trace == t0 + [Action.Receive(b.me, e.victim, Fine)]
        && RepliesWith(w0.q, b.me, ceiling, e.victim, reply)
      modifies b`w, b`trace, b`tick, b`clock, b`ackReplies, b`ops
      ensures b.Valid() && b.Phase(Ready) && b.tick >= old(b.tick) && (b.Rested() || b.Cancelled())
      ensures p.reply == reply && p.answers.outcome == Recovered(results)
      ensures b.ops == ops0 + PassPlan(AsConfig(), reply, p.answers)
      ensures calm ==>
        b.Undisturbed() && LikePoll(AsConfig(), w0.q, b.me, e, b.w.q, Goes(AsConfig(), reply, p.answers))
    {
      RecoversAll(results);
      var batchID, nackFailed, lost := DispatchBatch(b, r, reply.msgs, results, e);
      ghost var t1, w1 := b.trace, b.w;
      if calm {
        NoNackFails(b.c, b.coop, b.maxRetries, t0, w0, t1, w1, b.me, e.victim, reply.msgs, e.outcome, r, nackFailed);
      }
      ghost var acked := false;
      if batchID != 0 {
        acked := FinishRound(b, r, reply.msgs, batchID, nackFailed);
      }
      p := Decisions.Pass(reply, Answers(Recovered(results), lost, acked));
      PassPlanIs(AsConfig(), reply, p.answers, nackFailed, ops0);
      if calm {
        FinishingPass(b.c, b.coop, b.maxRetries, t0, w0, b.trace, b.w, b.me, e.victim, reply.msgs, e.outcome);
      }
    }

    /** The poll loop. It does what the plan of its passes says and nothing else; it ends in Overflowed
        exactly when a receive overflowed, and otherwise when cancelled, so not before it made as many
        operations as the cancellation took. Left undisturbed and alone in its group, its passes go
        through the backlog one window each. */
    method Start(b: Backend, results: nat -> nat -> HandlerResult)
        returns (overflow: bool, ghost log: seq<Decisions.Pass>)
      requires b.Valid() && b.Phase(Ready) && b.c(b.me) == AsConfig() && b.Rested() && b.ops == []
      modifies b
      ensures b.Valid() && b.Phase(if overflow then Overflowed else Stopped) && (!overflow ==> b.cancelAt <= |b.ops|)
      ensures Logged(AsConfig(), log, b.ops, AllRecovered(results), overflow)
      ensures old(b.Undisturbed()) && Admits(AsConfig(), old(b.w).q, b.me) ==>
        !overflow && GoesThrough(Left(old(b.w).q, b.me), GoesOf(AsConfig(), log))
    {
      ghost var calm := b.Undisturbed() && Admits(AsConfig(), b.w.q, b.me);
      ghost var left := if calm then Left(b.w.q, b.me) else [];
      DrainingIs(AsConfig(), left, b.me, b.w.q, []);
      overflow, log := Loop(b, results, left, calm);
    }

    method Loop(b: Backend, results: nat -> nat -> HandlerResult, ghost left: seq<seq<Engine.Event>>, ghost calm: bool)
        returns (overflow: bool, ghost log: seq<Decisions.Pass>)
      requires b.Valid() && b.Phase(Ready) && b.c(b.me) == AsConfig() && b.Rested() && b.ops == []
      requires calm ==> b.Undisturbed() && Draining(AsConfig(), left, b.me, b.w.q, [])
      modifies b
      ensures b.Valid() && b.Phase(if overflow then Overflowed else Stopped) && (!overflow ==> b.cancelAt <= |b.ops|)
      ensures Logged(AsConfig(), log, b.ops, AllRecovered(results), overflow)
      ensures calm ==> !overflow && GoesThrough(left, GoesOf(AsConfig(), log))
    {
      log := [];
      var iteration := 0;
      while true
        invariant iteration == |log| && Logged(AsConfig(), log, b.ops, AllRecovered(results), false)
        invariant b.Valid() && b.Phase(Ready) && b.c(b.me) == AsConfig() && (b.Rested() || b.Cancelled())
        invariant calm ==> b.Undisturbed() && Draining(AsConfig(), left, b.me, b.w.q, log)
        decreases b.cancelAt - b.tick
      {
        if b.Cancelled() {
          DrainingIs(AsConfig(), left, b.me, b.w.q, log);
          b.Stop();
          return false, log;
        }
        ghost var p;
        overflow, p := Iterate(b, results, iteration, left, log, calm);
        log, iteration := log + [p], iteration + 1;
        if overflow {
          return;
        }
      }
    }

    /** One iteration of the loop, with what it means for the run so far. */
    method Iterate(b: Backend, results: nat -> nat -> HandlerResult, iteration: nat, ghost left: seq<seq<Engine.Event>>,
                   ghost log: seq<Decisions.Pass>, ghost calm: bool) returns (overflow: bool, ghost p: Decisions.Pass)
      requires b.Valid() && b.Phase(Ready) && b.c(b.me) == AsConfig() && b.Rested()
      requires iteration == |log| && Logged(AsConfig(), log, b.ops, AllRecovered(results), false)
      requires calm ==> b.Undisturbed() && Draining(AsConfig(), left, b.me, b.w.q, log)
      modifies b
      ensures b.Valid() && b.tick > old(b.tick) && b.Phase(if overflow then Overflowed else Ready)
      ensures overflow || b.Rested() || b.Cancelled()
      ensures Logged(AsConfig(), log + [p], b.ops, AllRecovered(results), overflow)
      ensures calm ==> !overflow && b.Undisturbed() && Draining(AsConfig(), left, b.me, b.w.q, log + [p])
    {
      overflow, p := Pass(b, results(iteration));
      LoggedNext(AsConfig(), log, old(b.ops), AllRecovered(results), p);
      if calm {
        RecoversAll(results(iteration));
        PassGoesOn(AsConfig(), left, b.me, old(b.w).q, log, b.env(old(b.tick)).victim, p, b.w.q);
      }
    }
  }
}
