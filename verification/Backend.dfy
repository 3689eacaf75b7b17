/** What a Go or TypeScript consumer loop sees of the world: each call is one step of the protocol,
    taken after any steps of the other workers and of the environment, and is recorded with its reply. */
module Backends {
  import opened Options
  import opened Engine
  import opened Protocol
  import opened Conservation
  import opened Guarantees
  import opened Markers
  import opened Runs
  import opened Decisions

  /** The environment around one call: what the others do first, how the call ends, how long it takes. */
  datatype Circumstance = Circumstance(others: seq<Action>, fault: Fault, victim: Option<nat>, elapsed: nat)

  /** When a receive started, and how many acks had been answered by then. */
  datatype Stamp = Stamp(clock: nat, acks: nat)

  /** An ack was answered in between, or a poll interval passed. */
  predicate Rests(a: Stamp, b: Stamp, pollInterval: nat) {
    a.clock <= b.clock && a.acks <= b.acks && (a.acks < b.acks || a.clock + pollInterval <= b.clock)
  }

  /** Between two receives in a row the loop rests. */
  ghost predicate Spaced(receipts: seq<Stamp>, pollInterval: nat) {
    |receipts| > 1 ==>
      && Spaced(receipts[..|receipts| - 1], pollInterval)
      && Rests(receipts[|receipts| - 2], receipts[|receipts| - 1], pollInterval)
  }

  lemma SpacedOn(receipts: seq<Stamp>, p: nat, next: Stamp)
    requires Spaced(receipts, p) && (receipts != [] ==> Rests(receipts[|receipts| - 1], next, p))
    ensures Spaced(receipts + [next], p)
  {
    assert (receipts + [next])[..|receipts|] == receipts;
  }

  lemma {:induction false} SpacedApart(receipts: seq<Stamp>, p: nat, i: nat, j: nat)
    requires Spaced(receipts, p) && i <= j < |receipts|
    ensures receipts[i].acks <= receipts[j].acks && receipts[i].clock <= receipts[j].clock
    ensures (j - i - (receipts[j].acks - receipts[i].acks)) * p <= receipts[j].clock - receipts[i].clock
    decreases |receipts|
  {
    var init := receipts[..|receipts| - 1];
    if j < |receipts| - 1 {
      SpacedApart(init, p, i, j);
    } else if i < j {
      SpacedApart(init, p, i, j - 1);
      assert Rests(receipts[j - 1], receipts[j], p);
      var before := j - 1 - i - (receipts[j - 1].acks - receipts[i].acks);
      var now := j - i - (receipts[j].acks - receipts[i].acks);
      if receipts[j - 1].acks < receipts[j].acks {
        Monotone(now, before, p);
      } else {
        assert now == before + 1;
        assert now * p == before * p + p;
      }
    } else {
      assert 0 * p == 0;
    }
  }

  lemma Bounded(n: int, p: nat, t: nat)
    requires p >= 1 && n * p <= t
    ensures n <= t / p
  {
    assert (t / p + 1) * p == t / p * p + p > t;
    if n > t / p {
      Monotone(t / p + 1, n, p);
    }
  }

  /** No hot loop: of the receives that start within any stretch of time T, there are at most as many
      as acks answered in it, plus T / pollInterval, plus one. */
  lemma NoHotLoop(receipts: seq<Stamp>, p: nat, i: nat, j: nat, from: nat, until: nat)
    requires Spaced(receipts, p) && p >= 1 && i <= j < |receipts|
    requires from <= receipts[i].clock && receipts[j].clock <= until
    ensures j - i + 1 <= receipts[j].acks - receipts[i].acks + (until - from) / p + 1
  {
    SpacedApart(receipts, p, i, j);
    Bounded(j - i - (receipts[j].acks - receipts[i].acks), p, until - from);
  }

  class Backend {
    const c: Fleet
    const me: nat
    const env: nat -> Circumstance
    const pollInterval: nat
    const cancelAt: nat
    const coop: bool
    const maxRetries: nat

    var w: World
    var tick: nat
    var clock: nat
    var ackReplies: nat
    ghost var trace: seq<Action>
    ghost var ops: seq<Op>
    ghost var receipts: seq<Stamp>

    /** The world is any one the protocol can reach. */
    constructor (c: Fleet, me: nat, env: nat -> Circumstance, pollInterval: nat, cancelAt: nat,
                 coop: bool, maxRetries: nat, past: seq<Action>)
      ensures Valid() && w == Run(c, Protocol.Start(coop, maxRetries), past) && trace == past
      ensures this.c == c && this.me == me && this.cancelAt == cancelAt && this.pollInterval == pollInterval
      ensures clock == 0 && ackReplies == 0 && tick == 0 && ops == [] && receipts == []
    {
      this.c, this.me, this.env, this.pollInterval, this.cancelAt := c, me, env, pollInterval, cancelAt;
      this.coop, this.maxRetries := coop, maxRetries;
      w, trace, ops, receipts := Run(c, Protocol.Start(coop, maxRetries), past), past, [], [];
      tick, clock, ackReplies := 0, 0, 0;
    }

    /** The world is what the recorded protocol actions make of an empty queue, the receives so far were
        spaced, and every step was an operation of the loop: it cannot let time pass in any other way. */
    ghost predicate Valid()
      reads this
    {
      Sound() && tick == |ops|
    }

    ghost predicate Sound()
      reads this
    {
      Ran(c, coop, maxRetries, trace, w) && OnTime()
    }

    ghost predicate OnTime()
      reads this
    {
      && Spaced(receipts, pollInterval)
      && (receipts != [] ==> Last().clock <= clock && Last().acks <= ackReplies)
    }

    ghost function Last(): Stamp
      requires receipts != []
      reads this
    {
      receipts[|receipts| - 1]
    }

    /** Since the last receive an ack was answered or a poll interval passed. */
    ghost predicate Rested()
      reads this
    {
      receipts != [] ==> Last().acks < ackReplies || Last().clock + pollInterval <= clock
    }

    predicate Cancelled()
      reads this
    {
      cancelAt <= tick
    }

    ghost predicate Phase(p: Protocol.Phase)
      reads this
    {
      w.At(me) == p
    }

    /** Round r has these messages, all with its token. */
    ghost predicate InRound(r: nat, msgs: seq<Msg>)
      reads this`w
    {
      RoundIs(w, r, msgs)
    }

    /** From now on nobody else acts and no call fails. */
    ghost predicate Undisturbed()
      reads this`tick
    {
      UndisturbedFrom(env, tick)
    }

    /** The others move, and time passes; only inside a call, which then records its operation. */
    method Interference()
      requires Sound()
      modifies `w, `trace, `tick, `clock
      ensures Sound() && KeepsRounds(old(w), w) && w.At(me) == old(w).At(me)
      ensures tick == old(tick) + 1 && clock >= old(clock)
      ensures trace == old(trace) + Without(me, env(old(tick)).others)
      ensures old(Undisturbed()) ==> Undisturbed() && w == old(w) && trace == old(trace)
    {
      var others := Without(me, env(tick).others);
      UndisturbedNow(env, tick);
      w := OthersStep(c, coop, maxRetries, trace, w, others, me);
      trace := trace + others;
      clock := clock + env(tick).elapsed;
      tick := tick + 1;
    }

    /** receive or receive_coop, on a rested loop: every message of the batch carries its token. */
    method Receive() returns (reply: Received, ghost r: nat)
      requires Valid() && Phase(Ready) && Rested()
      modifies `w, `trace, `tick, `clock, `ops, `receipts
      ensures Valid() && tick > old(tick) && clock >= old(clock) && ops == old(ops) + [Deliver(reply)]
      ensures receipts == old(receipts) + [Stamp(old(clock), ackReplies)] && Fits(c(me), reply)
      ensures reply.TooBig? ==> Phase(Overflowed)
      ensures reply.Failed? || reply == Got([]) ==> Phase(Waiting)
      ensures reply.Got? && reply.msgs != [] ==>
        Phase(Dispatching(r, 0, false)) && InRound(r, reply.msgs) && OneToken(reply.msgs)
      ensures var now := env(old(tick)); var found := Found(c, coop, maxRetries, old(trace) + Without(me, now.others));
        AnswersTo(found, me, c(me), now.victim, now.fault, reply)
      ensures old(Undisturbed()) ==>
        && Undisturbed() && trace == old(trace) + [Action.Receive(me, env(old(tick)).victim, Fine)]
        && RepliesWith(old(w).q, me, c(me).ceiling, env(old(tick)).victim, reply)
    {
      SpacedOn(receipts, pollInterval, Stamp(clock, ackReplies));
      receipts := receipts + [Stamp(clock, ackReplies)];
      reply, r := Ask();
      ops := ops + [Deliver(reply)];
    }

    /** The call itself. */
    method Ask() returns (reply: Received, ghost r: nat)
      requires Sound() && Phase(Ready)
      modifies `w, `trace, `tick, `clock
      ensures Sound() && tick == old(tick) + 1 && clock >= old(clock) && Fits(c(me), reply)
      ensures reply.TooBig? ==> Phase(Overflowed)
      ensures reply.Failed? || reply == Got([]) ==> Phase(Waiting)
      ensures reply.Got? && reply.msgs != [] ==>
        Phase(Dispatching(r, 0, false)) && InRound(r, reply.msgs) && OneToken(reply.msgs)
      ensures var now := env(old(tick)); var found := Found(c, coop, maxRetries, old(trace) + Without(me, now.others));
        AnswersTo(found, me, c(me), now.victim, now.fault, reply)
      ensures old(Undisturbed()) ==>
        && Undisturbed() && trace == old(trace) + [Action.Receive(me, env(old(tick)).victim, Fine)]
        && RepliesWith(old(w).q, me, c(me).ceiling, env(old(tick)).victim, reply)
    {
      var now := env(tick);
      UndisturbedNow(env, tick);
      Interference();
      r := |w.rounds|;
      w, reply := ReceiveStep(c, coop, maxRetries, trace, w, me, now.victim, now.fault);
      trace := trace + [Action.Receive(me, now.victim, now.fault)];
    }

    /** The handler of message i runs; the protocol sees whether it returned. */
    method CallHandler(ghost r: nat, ghost msgs: seq<Msg>, i: nat, ghost failed: bool, o: Outcome)
      requires Valid() && Phase(Dispatching(r, i, failed)) && InRound(r, msgs) && i < |msgs|
      requires c(me).Knows(msgs[i].kind)
      modifies `w, `trace, `tick, `clock, `ops
      ensures Valid() && InRound(r, msgs) && tick > old(tick) && clock >= old(clock)
      ensures Phase(if o.Returns? then Dispatching(r, i + 1, failed) else Nacking(r, i, failed))
      ensures ops == old(ops) + [Op.CallHandler(i)]
      ensures old(Undisturbed()) ==> Undisturbed() && trace == old(trace) + [Action.Dispatch(me, o.Returns?)]
    {
      Interference();
      RoundStays(old(w), w, r, msgs);
      w := DispatchStep(c, coop, maxRetries, trace, w, me, r, i, failed, msgs, o.Returns?);
      trace := trace + [Action.Dispatch(me, o.Returns?)];
      ops := ops + [Op.CallHandler(i)];
    }

    /** A message of unknown kind is passed over under the ack-unknown policy, or is to be nacked. */
    method NoHandler(ghost r: nat, ghost msgs: seq<Msg>, i: nat, ghost failed: bool)
      requires Valid() && Phase(Dispatching(r, i, failed)) && InRound(r, msgs) && i < |msgs|
      requires !c(me).Knows(msgs[i].kind)
      modifies `w, `trace
      ensures Valid() && InRound(r, msgs) && trace == old(trace) + [Action.Dispatch(me, false)]
      ensures Phase(if c(me).policy == AckUnknown then Dispatching(r, i + 1, failed) else Nacking(r, i, failed))
    {
      w := DispatchStep(c, coop, maxRetries, trace, w, me, r, i, failed, msgs, false);
      trace := trace + [Action.Dispatch(me, false)];
    }

    /** nack: allowed only for the message whose handling just failed. */
    method Nack(ghost r: nat, ghost msgs: seq<Msg>, i: nat, ghost failed: bool, batch: nat, m: Msg) returns (ok: bool)
      requires Valid() && Phase(Nacking(r, i, failed)) && InRound(r, msgs) && i < |msgs|
      requires m == msgs[i] && batch == m.batch
      modifies `w, `trace, `tick, `clock, `ops
      ensures Valid() && InRound(r, msgs) && tick > old(tick) && clock >= old(clock)
      ensures Phase(Dispatching(r, i + 1, failed || !ok))
      ensures ops == old(ops) + [TryNack(i, ok)]
      ensures old(Undisturbed()) ==> Undisturbed() && trace == old(trace) + [Action.Nack(me, Fine)]
    {
      var now := env(tick);
      UndisturbedNow(env, tick);
      Interference();
      RoundStays(old(w), w, r, msgs);
      w, ok := NackStep(c, coop, maxRetries, trace, w, me, now.fault, r, i, failed, msgs, batch, m.id);
      trace := trace + [Action.Nack(me, now.fault)];
      ops := ops + [TryNack(i, ok)];
    }

    /** ack: allowed at the end of a round without failed nacks. */
    method Ack(ghost r: nat, ghost msgs: seq<Msg>, batch: nat) returns (n: Option<nat>)
      requires Valid() && Phase(Dispatching(r, |msgs|, false)) && InRound(r, msgs)
      requires msgs != [] && batch == msgs[0].batch
      modifies `w, `trace, `tick, `clock, `ackReplies, `ops
      ensures Valid() && tick > old(tick) && clock >= old(clock)
      ensures Phase(if n.Some? then Ready else Waiting)
      ensures ackReplies == old(ackReplies) + if n.Some? then 1 else 0
      ensures ops == old(ops) + [TryAck(n.Some?)]
      ensures old(Undisturbed()) ==> Undisturbed() && n.Some? && trace == old(trace) + [Action.Ack(me, Fine)]
    {
      var now := env(tick);
      UndisturbedNow(env, tick);
      Interference();
      RoundStays(old(w), w, r, msgs);
      w, n := AckStep(c, coop, maxRetries, trace, w, me, now.fault, r, msgs, batch);
      trace := trace + [Action.Ack(me, now.fault)];
      ackReplies := ackReplies + if n.Some? then 1 else 0;
      ops := ops + [TryAck(n.Some?)];
    }

    /** The round is left without an ack, because a nack failed. */
    method GiveUp(ghost r: nat, ghost msgs: seq<Msg>)
      requires Valid() && Phase(Dispatching(r, |msgs|, true)) && InRound(r, msgs)
      modifies `w, `trace
      ensures Valid() && Phase(Waiting)
    {
      w := GiveUpStep(c, coop, maxRetries, trace, w, me, r, msgs);
      trace := trace + [Action.Ack(me, Refused)];
    }

    /** One wait: a full poll interval, unless the cancellation cuts it short. */
    method Wait()
      requires Valid() && Phase(Waiting)
      modifies `w, `trace, `tick, `clock, `ops
      ensures Valid() && Phase(Ready) && tick > old(tick) && ops == old(ops) + [Pause]
      ensures clock >= old(clock) + if Cancelled() then 0 else pollInterval
      ensures old(Undisturbed()) ==> Undisturbed() && trace == old(trace) + [Wake(me)]
    {
      UndisturbedNow(env, tick);
      Interference();
      w := WakeStep(c, coop, maxRetries, trace, w, me);
      trace, ops := trace + [Wake(me)], ops + [Pause];
      clock := clock + if Cancelled() then 0 else pollInterval;
    }

    method Stop()
      requires Valid() && Phase(Ready)
      modifies `w, `trace
      ensures Valid() && Phase(Stopped)
    {
      w := StopStep(c, coop, maxRetries, trace, w, me);
      trace := trace + [Cancel(me)];
    }
  }

  // ----- what a step does to its worker -----

  /** Round r has these messages; stated so that it is used only where a proof names it. */
  ghost predicate RoundIs(w: World, r: nat, msgs: seq<Msg>) {
    forall x: nat {:trigger Shown(x)} :: Shown(x) ==> w.HasRound(r) && msgs == Stamped(w.rounds[r].token, w.Messages(r))
  }

  lemma RoundMeans(w: World, r: nat, msgs: seq<Msg>)
    ensures RoundIs(w, r, msgs) <==> w.HasRound(r) && msgs == Stamped(w.rounds[r].token, w.Messages(r))
  {
    assert Shown(0);
  }

  lemma RoundStays(w: World, v: World, r: nat, msgs: seq<Msg>)
    requires RoundIs(w, r, msgs) && KeepsRounds(w, v)
    ensures RoundIs(v, r, msgs)
  {
    assert Shown(0);
  }

  ghost predicate UndisturbedFrom(env: nat -> Circumstance, tick: nat) {
    forall i: nat :: tick <= i ==> env(i).others == [] && env(i).fault.Fine?
  }

  lemma UndisturbedNow(env: nat -> Circumstance, tick: nat)
    ensures UndisturbedFrom(env, tick) ==>
      UndisturbedFrom(env, tick + 1) && env(tick).others == [] && env(tick).fault.Fine?
  {
  }

  /** What the loop gets from its receive. */
  function ReplyOf(q: Queue, k: nat, ceiling: int, victim: Option<nat>, fault: Fault): Received
    requires q.Valid()
  {
    if !fault.Fine? then Failed
    else
      match Engine.Receive(q, k, ceiling, victim).1
      case Nothing => Got([])
      case Rejected => Failed
      case Overflow => TooBig
      case Batch(b, _, events) => Got(Stamped(b, events))
  }

  /** The reply of an undisturbed receive, stated so that it is used only where a proof names it. */
  ghost predicate RepliesWith(q: Queue, k: nat, ceiling: int, victim: Option<nat>, reply: Received) {
    forall x: nat {:trigger Shown(x)} :: Shown(x) ==> (q.Valid() && reply == ReplyOf(q, k, ceiling, victim, Fine))
  }

  ghost predicate OneToken(msgs: seq<Msg>) {
    msgs != [] ==> msgs[0].batch != 0 && forall m <- msgs :: m.batch == msgs[0].batch
  }

  lemma BatchEffect(w: World, k: nat, ceiling: int, victim: Option<nat>)
    requires w.q.Valid() && w.At(k) == Ready && Engine.Receive(w.q, k, ceiling, victim).1.Batch?
    ensures var v := DoReceive(w, k, ceiling, victim, Fine); var d := Engine.Receive(w.q, k, ceiling, victim).1;
      var msgs := Stamped(d.token, d.events);
      && v.At(k) == Dispatching(|w.rounds|, 0, false) && RoundIs(v, |w.rounds|, msgs)
      && OneToken(msgs) && msgs != []
  {
    ReceiveContract(w.q, k, ceiling, victim);
    var d := Engine.Receive(w.q, k, ceiling, victim).1;
    RoundMeans(DoReceive(w, k, ceiling, victim, Fine), |w.rounds|, Stamped(d.token, d.events));
  }

  lemma ReceiveEffect(w: World, k: nat, ceiling: int, victim: Option<nat>, fault: Fault)
    requires w.q.Valid() && w.At(k) == Ready
    ensures var v := DoReceive(w, k, ceiling, victim, fault);
      match ReplyOf(w.q, k, ceiling, victim, fault) {
        case Failed => v.At(k) == Waiting
        case TooBig => v.At(k) == Overflowed
        case Got(msgs) =>
          && OneToken(msgs)
          && if msgs == [] then v.At(k) == Waiting
             else v.At(k) == Dispatching(|w.rounds|, 0, false) && RoundIs(v, |w.rounds|, msgs)
      }
  {
    if fault.Fine? && Engine.Receive(w.q, k, ceiling, victim).1.Batch? {
      BatchEffect(w, k, ceiling, victim);
    }
  }

  /** The queue that these actions leave. */
  ghost function Found(c: Fleet, coop: bool, maxRetries: nat, trace: seq<Action>): (q: Queue)
    ensures q.Valid()
  {
    Run(c, Protocol.Start(coop, maxRetries), trace).q
  }

  /** The reply to a receive on this queue, read off the queue: an overflow exactly when the window that
      falls to the loop is too large, no messages exactly when there is none or it is empty, and an error
      exactly when the call fails or the ceiling is below 1. Stated so that it is used only where a proof
      names it. */
  ghost predicate AnswersTo(q: Queue, k: nat, c: Config, victim: Option<nat>, fault: Fault, reply: Received) {
    forall x: nat {:trigger Shown(x)} :: Shown(x) ==>
      && (reply.TooBig? <==> fault.Fine? && ExceedsCeiling(q, k, c.ceiling, victim))
      && (reply == Got([]) <==> fault.Fine? && NothingFalls(q, k, c.ceiling, victim))
      && (reply.Failed? <==> !fault.Fine? || c.ceiling < 1)
  }

  lemma ReplyAnswers(q: Queue, k: nat, c: Config, victim: Option<nat>, fault: Fault)
    requires q.Valid()
    ensures AnswersTo(q, k, c, victim, fault, ReplyOf(q, k, c.ceiling, victim, fault))
  {
    ReceiveAnswers(q, k, c.ceiling, victim);
    ReceiveContract(q, k, c.ceiling, victim);
  }

  lemma ReplyFits(q: Queue, k: nat, c: Config, victim: Option<nat>, fault: Fault)
    requires q.Valid()
    ensures Fits(c, ReplyOf(q, k, c.ceiling, victim, fault))
  {
    ReceiveContract(q, k, c.ceiling, victim);
  }

  method OthersStep(c: Fleet, coop: bool, maxRetries: nat, ghost trace: seq<Action>, w: World,
                    others: seq<Action>, ghost k: nat) returns (v: World)
    requires Ran(c, coop, maxRetries, trace, w) && forall a <- others :: !By(k, a)
    ensures Ran(c, coop, maxRetries, trace + others, v) && KeepsRounds(w, v) && v.At(k) == w.At(k)
    ensures others == [] ==> v == w
  {
    RanOn(c, coop, maxRetries, trace, w, others);
    RunOthers(c, w, others, k);
    v := Run(c, w, others);
  }

  method ReceiveStep(c: Fleet, coop: bool, maxRetries: nat, ghost trace: seq<Action>, w: World, k: nat,
                     victim: Option<nat>, fault: Fault) returns (v: World, reply: Received)
    requires Ran(c, coop, maxRetries, trace, w) && w.At(k) == Ready
    ensures Ran(c, coop, maxRetries, trace + [Action.Receive(k, victim, fault)], v)
    ensures reply.Failed? || reply == Got([]) ==> v.At(k) == Waiting
    ensures reply.TooBig? ==> v.At(k) == Overflowed
    ensures reply.Got? ==> OneToken(reply.msgs)
    ensures Fits(c(k), reply)
    ensures reply.Got? && reply.msgs != [] ==>
      v.At(k) == Dispatching(|w.rounds|, 0, false) && RoundIs(v, |w.rounds|, reply.msgs)
    ensures fault.Fine? ==> RepliesWith(w.q, k, c(k).ceiling, victim, reply)
    ensures AnswersTo(Found(c, coop, maxRetries, trace), k, c(k), victim, fault, reply)
  {
    RanIsRun(c, coop, maxRetries, trace, w);
    ReplyAnswers(w.q, k, c(k), victim, fault);
    RanOne(c, coop, maxRetries, trace, w, Action.Receive(k, victim, fault));
    ReceiveEffect(w, k, c(k).ceiling, victim, fault);
    ReplyFits(w.q, k, c(k), victim, fault);
    v, reply := DoReceive(w, k, c(k).ceiling, victim, fault), ReplyOf(w.q, k, c(k).ceiling, victim, fault);
  }

  lemma NackEffect(w: World, k: nat, fault: Fault, r: nat, i: nat, failed: bool, msgs: seq<Msg>)
    requires w.q.Valid() && w.At(k) == Nacking(r, i, failed) && RoundIs(w, r, msgs) && i < |msgs|
    ensures RoundIs(DoNack(w, k, fault), r, msgs)
    ensures DoNack(w, k, fault).At(k) ==
      Dispatching(r, i + 1, failed || !(fault.Fine? && Engine.Nack(w.q, msgs[i].batch, msgs[i].id).1))
  {
    RoundMeans(w, r, msgs);
    NackKeepsRound(w, k, fault, r);
    RoundMeans(DoNack(w, k, fault), r, msgs);
  }

  lemma NackKeepsRound(w: World, k: nat, fault: Fault, r: nat)
    requires w.q.Valid() && w.HasRound(r)
    ensures var v := DoNack(w, k, fault); v.HasRound(r) && v.rounds == w.rounds && v.Messages(r) == w.Messages(r)
  {
    assert DoNack(w, k, fault).q.windows == w.q.windows;
  }

  lemma AckEffect(w: World, k: nat, fault: Fault, r: nat, failed: bool, msgs: seq<Msg>)
    requires w.q.Valid() && w.At(k) == Dispatching(r, |msgs|, failed) && RoundIs(w, r, msgs)
    ensures DoAck(w, k, fault).At(k) == if fault.Fine? && !failed then Ready else Waiting
  {
    RoundMeans(w, r, msgs);
  }

  lemma DispatchEffect(c: Config, w: World, k: nat, r: nat, i: nat, failed: bool, msgs: seq<Msg>, ok: bool)
    requires w.At(k) == Dispatching(r, i, failed) && RoundIs(w, r, msgs) && i < |msgs|
    ensures RoundIs(DoDispatch(c, w, k, ok), r, msgs)
    ensures DoDispatch(c, w, k, ok).At(k) ==
      if (if c.Knows(msgs[i].kind) then ok else c.policy == AckUnknown)
      then Dispatching(r, i + 1, failed) else Nacking(r, i, failed)
  {
    RoundMeans(w, r, msgs);
    RoundMeans(DoDispatch(c, w, k, ok), r, msgs);
  }

  method DispatchStep(c: Fleet, coop: bool, maxRetries: nat, ghost trace: seq<Action>, w: World, k: nat,
                      ghost r: nat, ghost i: nat, ghost failed: bool, ghost msgs: seq<Msg>, ok: bool) returns (v: World)
    requires Ran(c, coop, maxRetries, trace, w) && w.At(k) == Dispatching(r, i, failed)
    requires RoundIs(w, r, msgs) && i < |msgs|
    ensures Ran(c, coop, maxRetries, trace + [Action.Dispatch(k, ok)], v) && RoundIs(v, r, msgs)
    ensures v.At(k) == if (if c(k).Knows(msgs[i].kind) then ok else c(k).policy == AckUnknown)
                       then Dispatching(r, i + 1, failed) else Nacking(r, i, failed)
  {
    RanOne(c, coop, maxRetries, trace, w, Action.Dispatch(k, ok));
    DispatchEffect(c(k), w, k, r, i, failed, msgs, ok);
    v := DoDispatch(c(k), w, k, ok);
  }

  method NackStep(c: Fleet, coop: bool, maxRetries: nat, ghost trace: seq<Action>, w: World, k: nat, fault: Fault,
                  ghost r: nat, ghost i: nat, ghost failed: bool, ghost msgs: seq<Msg>, batch: nat, id: nat)
      returns (v: World, ok: bool)
    requires Ran(c, coop, maxRetries, trace, w) && w.At(k) == Nacking(r, i, failed)
    requires RoundIs(w, r, msgs) && i < |msgs| && batch == msgs[i].batch && id == msgs[i].id
    ensures Ran(c, coop, maxRetries, trace + [Action.Nack(k, fault)], v) && RoundIs(v, r, msgs)
    ensures v.At(k) == Dispatching(r, i + 1, failed || !ok)
  {
    RanOne(c, coop, maxRetries, trace, w, Action.Nack(k, fault));
    NackEffect(w, k, fault, r, i, failed, msgs);
    ok := fault.Fine? && Engine.Nack(w.q, batch, id).1;
    v := DoNack(w, k, fault);
  }

  method AckStep(c: Fleet, coop: bool, maxRetries: nat, ghost trace: seq<Action>, w: World, k: nat, fault: Fault,
                 ghost r: nat, ghost msgs: seq<Msg>, batch: nat) returns (v: World, n: Option<nat>)
    requires Ran(c, coop, maxRetries, trace, w) && w.At(k) == Dispatching(r, |msgs|, false)
    requires RoundIs(w, r, msgs) && msgs != [] && batch == msgs[0].batch
    ensures Ran(c, coop, maxRetries, trace + [Action.Ack(k, fault)], v)
    ensures n.Some? <==> fault.Fine?
    ensures v.At(k) == if n.Some? then Ready else Waiting
  {
    RanOne(c, coop, maxRetries, trace, w, Action.Ack(k, fault));
    AckEffect(w, k, fault, r, false, msgs);
    n := if fault.Fine? then Some(Engine.Ack(w.q, batch).1) else None;
    v := DoAck(w, k, fault);
  }

  method GiveUpStep(c: Fleet, coop: bool, maxRetries: nat, ghost trace: seq<Action>, w: World, k: nat,
                    ghost r: nat, ghost msgs: seq<Msg>) returns (v: World)
    requires Ran(c, coop, maxRetries, trace, w) && w.At(k) == Dispatching(r, |msgs|, true) && RoundIs(w, r, msgs)
    ensures Ran(c, coop, maxRetries, trace + [Action.Ack(k, Refused)], v) && v.At(k) == Waiting
  {
    RanOne(c, coop, maxRetries, trace, w, Action.Ack(k, Refused));
    AckEffect(w, k, Refused, r, true, msgs);
    v := DoAck(w, k, Refused);
  }

  method WakeStep(c: Fleet, coop: bool, maxRetries: nat, ghost trace: seq<Action>, w: World, k: nat) returns (v: World)
    requires Ran(c, coop, maxRetries, trace, w) && w.At(k) == Waiting
    ensures Ran(c, coop, maxRetries, trace + [Wake(k)], v) && v.At(k) == Ready
  {
    RanOne(c, coop, maxRetries, trace, w, Wake(k));
    v := w.Go(k, Ready);
  }

  method StopStep(c: Fleet, coop: bool, maxRetries: nat, ghost trace: seq<Action>, w: World, k: nat) returns (v: World)
    requires Ran(c, coop, maxRetries, trace, w) && w.At(k) == Ready
    ensures Ran(c, coop, maxRetries, trace + [Cancel(k)], v) && v.At(k) == Stopped
  {
    RanOne(c, coop, maxRetries, trace, w, Cancel(k));
    v := w.Go(k, Stopped);
  }
}
