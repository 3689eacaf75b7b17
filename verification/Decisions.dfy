/** The decisions every client makes: what is done for each message of a batch, when the batch is
    acked, and when the loop waits. */
module Decisions {
  import opened Engine
  import opened Protocol

  /** How a handler ends: normally, with an error the loop contains, or with one it lets through
      (a Python BaseException, a Ruby non-StandardError). Go recovers panics, so they raise. */
  datatype Outcome = Returns | Raises | Escapes

  /** A delivered message carries the token of its batch. */
  datatype Msg = Msg(id: nat, batch: nat, kind: string)

  /** What a receive gives the loop. */
  datatype Received = Failed | TooBig | Got(msgs: seq<Msg>)

  /** What a loop does to the outside, with the replies it got: a receive, a handler call or nack for
      the message at a position, an ack, a wait. */
  datatype Op =
    | Deliver(reply: Received)
    | CallHandler(position: nat)
    | TryNack(position: nat, ok: bool)
    | TryAck(ok: bool)
    | Pause

  /** The environment's answers to a round: how each handler ends, which nacks fail, and whether the
      ack, if there is one, returns. */
  datatype Answers = Answers(outcome: nat -> Outcome, lost: set<nat>, acked: bool)

  function Stamped(token: nat, events: seq<Event>): (r: seq<Msg>)
    ensures |r| == |events|
    ensures forall i :: 0 <= i < |r| ==> r[i] == Msg(events[i].id, token, events[i].kind)
  {
    seq(|events|, i requires 0 <= i < |events| => Msg(events[i].id, token, events[i].kind))
  }

  predicate NeedsNack(c: Config, m: Msg, o: Outcome) {
    if c.Knows(m.kind) then o.Raises? else c.policy == NackUnknown
  }

  predicate LetsThrough(c: Config, m: Msg, o: Outcome) {
    c.Knows(m.kind) && o.Escapes?
  }

  /** The operations for one message. */
  function Decide(c: Config, m: Msg, i: nat, o: Outcome, ok: bool): seq<Op> {
    (if c.Knows(m.kind) then [CallHandler(i)] else []) + if NeedsNack(c, m, o) then [TryNack(i, ok)] else []
  }

  /** The operations for the messages of a batch, cut short by an escaping handler. A failed nack does
      not change what is done for the messages after it. */
  function Plan(c: Config, msgs: seq<Msg>, outcome: nat -> Outcome, lost: set<nat>): seq<Op> {
    if msgs == [] then []
    else
      var n := |msgs| - 1;
      if Escaped(c, msgs[..n], outcome) then Plan(c, msgs[..n], outcome, lost)
      else Plan(c, msgs[..n], outcome, lost) + Decide(c, msgs[n], n, outcome(n), n !in lost)
  }

  predicate Escaped(c: Config, msgs: seq<Msg>, outcome: nat -> Outcome) {
    exists i: nat :: i < |msgs| && LetsThrough(c, msgs[i], outcome(i))
  }

  /** No handler escaped and every nack that was needed succeeded. */
  predicate AckDue(c: Config, msgs: seq<Msg>, outcome: nat -> Outcome, lost: set<nat>) {
    !Escaped(c, msgs, outcome) && forall i <- lost :: i < |msgs| ==> !NeedsNack(c, msgs[i], outcome(i))
  }

  /** The operations for a whole batch. */
  function RoundPlan(c: Config, msgs: seq<Msg>, a: Answers): seq<Op> {
    Plan(c, msgs, a.outcome, a.lost) + if AckDue(c, msgs, a.outcome, a.lost) then [TryAck(a.acked)] else []
  }

  /** The pass finished a batch: it received one, its ack was due, and the ack was answered. */
  predicate Goes(c: Config, reply: Received, a: Answers) {
    reply.Got? && reply.msgs != [] && AckDue(c, reply.msgs, a.outcome, a.lost) && a.acked
  }

  /** One pass of a polling loop. It waits, at its end, exactly when it did not finish a batch; a
      receive that overflows ends the loop instead. */
  function PassPlan(c: Config, reply: Received, a: Answers): seq<Op> {
    [Deliver(reply)]
    + (if reply.Got? && reply.msgs != [] then RoundPlan(c, reply.msgs, a) else [])
    + (if reply.TooBig? || Goes(c, reply, a) then [] else [Pause])
  }

  /** A pass over a batch, piece by piece. */
  lemma PassPlanIs(c: Config, reply: Received, a: Answers, nackFailed: bool, ops0: seq<Op>)
    requires reply.Got? && reply.msgs != [] && (AckDue(c, reply.msgs, a.outcome, a.lost) <==> !nackFailed)
    ensures Goes(c, reply, a) <==> !nackFailed && a.acked
    ensures ops0 + [Deliver(reply)] + Plan(c, reply.msgs, a.outcome, a.lost)
              + (if nackFailed then [] else [TryAck(a.acked)]) + (if !nackFailed && a.acked then [] else [Pause])
      == ops0 + PassPlan(c, reply, a)
  {
    Regroup(ops0, [Deliver(reply)], Plan(c, reply.msgs, a.outcome, a.lost),
            if nackFailed then [] else [TryAck(a.acked)], if !nackFailed && a.acked then [] else [Pause]);
  }

  lemma Regroup(a: seq<Op>, b: seq<Op>, c: seq<Op>, d: seq<Op>, e: seq<Op>)
    ensures a + b + c + d + e == a + (b + (c + d) + e)
  {
  }

  /** A batch is within the ceiling. */
  predicate Fits(c: Config, reply: Received) {
    reply.Got? && reply.msgs != [] ==> |reply.msgs| <= c.ceiling
  }

  /** The most operations a pass can need: a handler call and a nack per message, the receive, the ack
      and the wait. */
  function PassCost(c: Config): nat {
    3 + 2 * if c.ceiling < 0 then 0 else c.ceiling
  }

  lemma {:induction false} PlanSize(c: Config, msgs: seq<Msg>, outcome: nat -> Outcome, lost: set<nat>)
    ensures |Plan(c, msgs, outcome, lost)| <= 2 * |msgs|
  {
    if msgs != [] {
      PlanSize(c, msgs[..|msgs| - 1], outcome, lost);
    }
  }

  lemma PassSize(c: Config, reply: Received, a: Answers)
    requires Fits(c, reply)
    ensures |PassPlan(c, reply, a)| <= PassCost(c)
  {
    if reply.Got? && reply.msgs != [] {
      PlanSize(c, reply.msgs, a.outcome, a.lost);
    }
  }

  /** What a polling loop got in one pass. */
  datatype Pass = Pass(reply: Received, answers: Answers)

  /** A whole run of passes. */
  function RunPlan(c: Config, log: seq<Pass>): seq<Op> {
    if log == [] then []
    else
      var n := |log| - 1;
      RunPlan(c, log[..n]) + PassPlan(c, log[n].reply, log[n].answers)
  }

  lemma OnceMore(n: nat, p: nat)
    ensures (n + 1) * p == n * p + p
  {
  }

  lemma {:induction false} RunSize(c: Config, log: seq<Pass>, cost: nat)
    requires cost == PassCost(c) && forall i | 0 <= i < |log| :: Fits(c, log[i].reply)
    ensures |RunPlan(c, log)| <= |log| * cost
  {
    if log != [] {
      var n := |log| - 1;
      RunSize(c, log[..n], cost);
      PassSize(c, log[n].reply, log[n].answers);
      OnceMore(n, cost);
    }
  }

  function GoesOf(c: Config, log: seq<Pass>): (goes: seq<bool>)
    ensures |goes| == |log|
    ensures forall i | 0 <= i < |log| :: goes[i] == Goes(c, log[i].reply, log[i].answers)
  {
    seq(|log|, i requires 0 <= i < |log| => Goes(c, log[i].reply, log[i].answers))
  }

  /** The loop did exactly what its passes call for, with these handler results; every batch was within
      the ceiling; and no pass overflowed but, when the run is over by an overflow, the last. */
  ghost predicate Logged(c: Config, log: seq<Pass>, ops: seq<Op>, outcomes: nat -> nat -> Outcome, overflow: bool) {
    && ops == RunPlan(c, log)
    && (forall i | 0 <= i < |log| :: log[i].answers.outcome == outcomes(i) && Fits(c, log[i].reply))
    && (forall i | 0 <= i < |log| :: log[i].reply.TooBig? <==> overflow && i == |log| - 1)
    && (overflow ==> log != [])
  }

  lemma LoggedNext(c: Config, log: seq<Pass>, ops: seq<Op>, outcomes: nat -> nat -> Outcome, p: Pass)
    requires Logged(c, log, ops, outcomes, false) && p.answers.outcome == outcomes(|log|) && Fits(c, p.reply)
    ensures Logged(c, log + [p], ops + PassPlan(c, p.reply, p.answers), outcomes, p.reply.TooBig?)
  {
    assert (log + [p])[..|log|] == log;
  }

  lemma Monotone(a: int, b: int, p: nat)
    requires a <= b
    ensures a * p <= b * p
  {
    assert (b - a) * p >= 0;
    assert b * p == a * p + (b - a) * p;
  }

  /** A run of so many operations has more than n passes. */
  lemma LongRun(c: Config, log: seq<Pass>, ops: seq<Op>, outcomes: nat -> nat -> Outcome, overflow: bool, n: nat)
    requires Logged(c, log, ops, outcomes, overflow) && |ops| > n * PassCost(c)
    ensures |log| > n
  {
    RunSize(c, log, PassCost(c));
    if |log| <= n {
      Monotone(|log|, n, PassCost(c));
    }
  }

  predicate AllGo(c: Config, log: seq<Pass>) {
    log != [] ==> AllGo(c, log[..|log| - 1]) && Goes(c, log[|log| - 1].reply, log[|log| - 1].answers)
  }

  /** A run without overflow waits nowhere if and only if every pass of it finished a batch. */
  lemma {:induction false} RunWaits(c: Config, log: seq<Pass>)
    requires forall i | 0 <= i < |log| :: !log[i].reply.TooBig?
    ensures Pause !in RunPlan(c, log) <==> AllGo(c, log)
  {
    if log != [] {
      var n := |log| - 1;
      RunWaits(c, log[..n]);
      PassWaits(c, log[n].reply, log[n].answers);
      JoinedPlans(RunPlan(c, log[..n]), PassPlan(c, log[n].reply, log[n].answers));
    }
  }

  lemma JoinedPlans(a: seq<Op>, b: seq<Op>)
    ensures Pause !in a + b <==> Pause !in a && Pause !in b
  {
  }

  lemma PassWaits(c: Config, reply: Received, a: Answers)
    requires !reply.TooBig?
    ensures Pause in PassPlan(c, reply, a) <==> !Goes(c, reply, a)
  {
    if reply.Got? {
      NoPauseInPlan(c, reply.msgs, a.outcome, a.lost);
    }
    if !Goes(c, reply, a) {
      assert PassPlan(c, reply, a)[|PassPlan(c, reply, a)| - 1] == Pause;
    }
  }

  lemma {:induction false} NoPauseInPlan(c: Config, msgs: seq<Msg>, outcome: nat -> Outcome, lost: set<nat>)
    ensures Pause !in Plan(c, msgs, outcome, lost)
  {
    if msgs != [] {
      NoPauseInPlan(c, msgs[..|msgs| - 1], outcome, lost);
    }
  }

  ghost predicate Contained(outcome: nat -> Outcome) {
    forall i: nat :: outcome(i) != Escapes
  }

  // ----- what a round plan contains -----

  lemma DecideHas(c: Config, m: Msg, n: nat, o: Outcome, done: bool, i: nat, ok: bool)
    ensures CallHandler(i) in Decide(c, m, n, o, done) <==> i == n && c.Knows(m.kind)
    ensures TryNack(i, ok) in Decide(c, m, n, o, done) <==> i == n && NeedsNack(c, m, o) && ok == done
    ensures TryAck(ok) !in Decide(c, m, n, o, done)
  {
  }

  lemma Joined(a: seq<Op>, b: seq<Op>, op: Op)
    ensures op in a + b <==> op in a || op in b
  {
  }

  /** Up to the last message a plan has what it has without it. */
  lemma PlanLast(c: Config, msgs: seq<Msg>, outcome: nat -> Outcome, lost: set<nat>, op: Op)
    requires msgs != []
    ensures var n := |msgs| - 1;
      op in Plan(c, msgs, outcome, lost) <==>
        || op in Plan(c, msgs[..n], outcome, lost)
        || (!Escaped(c, msgs[..n], outcome) && op in Decide(c, msgs[n], n, outcome(n), n !in lost))
  {
    var n := |msgs| - 1;
    Joined(Plan(c, msgs[..n], outcome, lost), Decide(c, msgs[n], n, outcome(n), n !in lost), op);
  }

  /** A handler is called exactly for the messages of known kind, and a nack tried exactly for those
      that need one, up to the first escape. */
  lemma {:induction false} PlanHas(c: Config, msgs: seq<Msg>, outcome: nat -> Outcome, lost: set<nat>, i: nat, ok: bool)
    ensures CallHandler(i) in Plan(c, msgs, outcome, lost) <==>
      i < |msgs| && !Escaped(c, msgs[..i], outcome) && c.Knows(msgs[i].kind)
    ensures TryNack(i, ok) in Plan(c, msgs, outcome, lost) <==>
      && i < |msgs| && !Escaped(c, msgs[..i], outcome) && ok == (i !in lost)
      && if c.Knows(msgs[i].kind) then outcome(i) == Raises else c.policy == NackUnknown
    ensures TryAck(ok) !in Plan(c, msgs, outcome, lost)
  {
    if msgs != [] {
      var n := |msgs| - 1;
      PlanHas(c, msgs[..n], outcome, lost, i, ok);
      PlanLast(c, msgs, outcome, lost, CallHandler(i));
      PlanLast(c, msgs, outcome, lost, TryNack(i, ok));
      PlanLast(c, msgs, outcome, lost, TryAck(ok));
      DecideHas(c, msgs[n], n, outcome(n), n !in lost, i, ok);
      if i < n {
        assert msgs[..n][..i] == msgs[..i];
      }
    }
  }

  /** The position of an operation of a plan. */
  function Position(op: Op): int {
    match op
    case CallHandler(i) => i
    case TryNack(i, _) => i
    case _ => -1
  }

  /** Operations for the first n messages in batch order, each message at most once: its handler is called
      before its nack is tried. */
  predicate InBatchOrder(ops: seq<Op>, n: nat) {
    && (forall i | 0 <= i < |ops| :: 0 <= Position(ops[i]) < n)
    && forall i, j | 0 <= i < j < |ops| ::
         || Position(ops[i]) < Position(ops[j])
         || (Position(ops[i]) == Position(ops[j]) && ops[i].CallHandler? && ops[j].TryNack?)
  }

  lemma DecideInOrder(c: Config, m: Msg, n: nat, o: Outcome, ok: bool, before: seq<Op>)
    requires InBatchOrder(before, n)
    ensures InBatchOrder(before + Decide(c, m, n, o, ok), n + 1)
  {
    var ops := Decide(c, m, n, o, ok);
    assert |ops| <= 2 && forall i | 0 <= i < |ops| :: Position(ops[i]) == n;
    assert |ops| == 2 ==> ops[0].CallHandler? && ops[1].TryNack?;
  }

  /** A plan deals with the messages in batch order. */
  lemma {:induction false} PlanInOrder(c: Config, msgs: seq<Msg>, outcome: nat -> Outcome, lost: set<nat>)
    ensures InBatchOrder(Plan(c, msgs, outcome, lost), |msgs|)
  {
    if msgs != [] {
      var n := |msgs| - 1;
      PlanInOrder(c, msgs[..n], outcome, lost);
      DecideInOrder(c, msgs[n], n, outcome(n), n !in lost, Plan(c, msgs[..n], outcome, lost));
    }
  }

  lemma EscapedGrows(c: Config, msgs: seq<Msg>, i: nat, outcome: nat -> Outcome)
    requires i <= |msgs| && Escaped(c, msgs[..i], outcome)
    ensures Escaped(c, msgs, outcome)
  {
    var j: nat :| j < i && LetsThrough(c, msgs[..i][j], outcome(j));
    assert LetsThrough(c, msgs[j], outcome(j));
  }

  /** The ack rule, read off the operations: an ack is tried if and only if no handler escaped and no
      nack of the round failed. */
  lemma AckRule(c: Config, msgs: seq<Msg>, a: Answers, ok: bool)
    ensures TryAck(ok) in RoundPlan(c, msgs, a) <==>
      ok == a.acked && !Escaped(c, msgs, a.outcome) && forall i: nat :: TryNack(i, false) !in RoundPlan(c, msgs, a)
  {
    forall i: nat
      ensures TryNack(i, false) in RoundPlan(c, msgs, a) <==>
        i < |msgs| && !Escaped(c, msgs[..i], a.outcome) && NeedsNack(c, msgs[i], a.outcome(i)) && i in a.lost
    {
      PlanHas(c, msgs, a.outcome, a.lost, i, false);
    }
    PlanHas(c, msgs, a.outcome, a.lost, 0, ok);
    if !Escaped(c, msgs, a.outcome) {
      forall i: nat | i < |msgs| ensures !Escaped(c, msgs[..i], a.outcome) {
        if Escaped(c, msgs[..i], a.outcome) { EscapedGrows(c, msgs, i, a.outcome); }
      }
      if exists i <- a.lost :: i < |msgs| && NeedsNack(c, msgs[i], a.outcome(i)) {
        var i :| i in a.lost && i < |msgs| && NeedsNack(c, msgs[i], a.outcome(i));
        assert TryNack(i, false) in RoundPlan(c, msgs, a);
      }
    }
  }

  // ----- parity -----

  /** Two consumers treat every kind of the batch alike. */
  predicate Agree(c: Config, d: Config, msgs: seq<Msg>) {
    forall m <- msgs :: c.Knows(m.kind) == d.Knows(m.kind) && (c.Knows(m.kind) || c.policy == d.policy)
  }

  lemma {:induction false} AgreeingPlans(c: Config, d: Config, msgs: seq<Msg>, outcome: nat -> Outcome, lost: set<nat>)
    requires Agree(c, d, msgs)
    ensures Plan(c, msgs, outcome, lost) == Plan(d, msgs, outcome, lost)
    ensures Escaped(c, msgs, outcome) == Escaped(d, msgs, outcome)
  {
    if msgs != [] {
      var n := |msgs| - 1;
      assert msgs[n] in msgs;
      assert forall m <- msgs[..n] :: m in msgs;
      AgreeingPlans(c, d, msgs[..n], outcome, lost);
      EscapedLast(c, msgs, outcome);
      EscapedLast(d, msgs, outcome);
    }
  }

  lemma EscapedLast(c: Config, msgs: seq<Msg>, outcome: nat -> Outcome)
    requires msgs != []
    ensures var n := |msgs| - 1;
      Escaped(c, msgs, outcome) <==> Escaped(c, msgs[..n], outcome) || LetsThrough(c, msgs[n], outcome(n))
  {
  }

  lemma AgreeingRounds(c: Config, d: Config, msgs: seq<Msg>, a: Answers)
    requires Agree(c, d, msgs)
    ensures RoundPlan(c, msgs, a) == RoundPlan(d, msgs, a)
  {
    AgreeingPlans(c, d, msgs, a.outcome, a.lost);
    forall i: nat | i < |msgs| ensures NeedsNack(c, msgs[i], a.outcome(i)) == NeedsNack(d, msgs[i], a.outcome(i)) {
      assert msgs[i] in msgs;
    }
  }

  /** Every handler returns, and nothing fails. */
  function Quiet(): Answers {
    Answers((i: nat) => Returns, {}, true)
  }

  lemma QuietRound(c: Config, msgs: seq<Msg>, i: nat)
    requires i < |msgs|
    ensures CallHandler(i) in RoundPlan(c, msgs, Quiet()) <==> c.Knows(msgs[i].kind)
    ensures TryNack(i, true) in RoundPlan(c, msgs, Quiet()) <==> !c.Knows(msgs[i].kind) && c.policy == NackUnknown
  {
    PlanHas(c, msgs, Quiet().outcome, {}, i, true);
  }

  /** Parity: two consumers of one fleet do the same for a batch, whatever the handlers, nacks and acks
      do (the same handler calls and nacks in the same order, and the same ack), if and only if they
      treat every kind of the batch alike. */
  lemma PlansAgree(c: Config, d: Config, msgs: seq<Msg>)
    ensures (forall a :: RoundPlan(c, msgs, a) == RoundPlan(d, msgs, a)) <==> Agree(c, d, msgs)
  {
    if Agree(c, d, msgs) {
      forall a ensures RoundPlan(c, msgs, a) == RoundPlan(d, msgs, a) {
        AgreeingRounds(c, d, msgs, a);
      }
    } else {
      var i: nat :| i < |msgs| &&
        !(c.Knows(msgs[i].kind) == d.Knows(msgs[i].kind) && (c.Knows(msgs[i].kind) || c.policy == d.policy));
      QuietRound(c, msgs, i);
      QuietRound(d, msgs, i);
    }
  }

  /** A client with a "*" handler does the same as one without, if and only if the batch has no kind
      outside the shared table. */
  lemma CatchAllParity(handlers: set<string>, policy: Policy, ceiling: int, msgs: seq<Msg>)
    ensures var bare := Config(handlers, false, policy, ceiling); var star := bare.(catchAll := true);
      (forall a :: RoundPlan(bare, msgs, a) == RoundPlan(star, msgs, a)) <==> (forall m <- msgs :: m.kind in handlers)
  {
    var bare := Config(handlers, false, policy, ceiling);
    PlansAgree(bare, bare.(catchAll := true), msgs);
  }

  // ----- walking through a batch -----

  /** A loop has dealt with the first i messages: the nacks that failed, and the operations so far. */
  ghost predicate Walked(c: Config, msgs: seq<Msg>, outcome: nat -> Outcome, i: nat, lost: set<nat>, ops: seq<Op>) {
    && i <= |msgs| && ops == Plan(c, msgs[..i], outcome, lost)
    && forall j <- lost :: j < i && NeedsNack(c, msgs[j], outcome(j))
  }

  lemma {:induction false} PlanIsLocal(c: Config, msgs: seq<Msg>, outcome: nat -> Outcome, lost: set<nat>,
                                       more: set<nat>)
    requires forall i: nat | i < |msgs| :: i in lost <==> i in more
    ensures Plan(c, msgs, outcome, lost) == Plan(c, msgs, outcome, more)
  {
    if msgs != [] {
      PlanIsLocal(c, msgs[..|msgs| - 1], outcome, lost, more);
    }
  }

  lemma OpsSince(before: seq<Op>, ops: seq<Op>, more: seq<Op>)
    requires before <= ops
    ensures before <= ops + more && (ops + more)[|before|..] == ops[|before|..] + more
  {
  }

  /** A nack that was not needed counts as answered. */
  lemma WalkedNext(c: Config, msgs: seq<Msg>, outcome: nat -> Outcome, i: nat, lost: set<nat>, ops: seq<Op>, ok: bool)
    requires Walked(c, msgs, outcome, i, lost, ops) && i < |msgs| && !Escaped(c, msgs[..i], outcome)
    requires !ok ==> NeedsNack(c, msgs[i], outcome(i))
    ensures Walked(c, msgs, outcome, i + 1, if ok then lost else lost + {i},
                   ops + Decide(c, msgs[i], i, outcome(i), ok))
    ensures Escaped(c, msgs[..i + 1], outcome) <==> LetsThrough(c, msgs[i], outcome(i))
  {
    var more := if ok then lost else lost + {i};
    PlanIsLocal(c, msgs[..i], outcome, lost, more);
    assert msgs[..i + 1][..i] == msgs[..i];
    assert i !in lost;
    EscapedLast(c, msgs[..i + 1], outcome);
  }

  lemma {:induction false} EscapeEndsThePlan(c: Config, msgs: seq<Msg>, outcome: nat -> Outcome, i: nat, lost: set<nat>)
    requires i <= |msgs| && Escaped(c, msgs[..i], outcome)
    ensures Plan(c, msgs, outcome, lost) == Plan(c, msgs[..i], outcome, lost)
    decreases |msgs|
  {
    if i == |msgs| {
      assert msgs[..i] == msgs;
    } else {
      var init := msgs[..|msgs| - 1];
      assert init[..i] == msgs[..i];
      EscapeEndsThePlan(c, init, outcome, i, lost);
      EscapedGrows(c, init, i, outcome);
    }
  }

  /** The walk is over: the ack is due exactly when no nack failed and no handler escaped. */
  lemma WalkedEnd(c: Config, msgs: seq<Msg>, outcome: nat -> Outcome, i: nat, lost: set<nat>, ops: seq<Op>)
    requires Walked(c, msgs, outcome, i, lost, ops) && (i == |msgs| || Escaped(c, msgs[..i], outcome))
    ensures ops == Plan(c, msgs, outcome, lost)
    ensures Escaped(c, msgs, outcome) <==> Escaped(c, msgs[..i], outcome)
    ensures AckDue(c, msgs, outcome, lost) <==> lost == {} && !Escaped(c, msgs, outcome)
  {
    if i == |msgs| {
      assert msgs[..i] == msgs;
    } else {
      EscapeEndsThePlan(c, msgs, outcome, i, lost);
      EscapedGrows(c, msgs, i, outcome);
    }
    if lost != {} {
      var j :| j in lost;
      assert NeedsNack(c, msgs[j], outcome(j));
    }
  }
}
