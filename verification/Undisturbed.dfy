/** A pass of a Go or TypeScript loop that is left undisturbed: its protocol actions are those of a
    transactional poll in which nothing fails, so it has the same effect on the queue. */
module UndisturbedPasses {
  import opened Options
  import opened Engine
  import opened Protocol
  import opened Conservation
  import opened Guarantees
  import opened Markers
  import opened Runs
  import opened Decisions
  import opened Transactions
  import opened Simulation
  import opened Backends
  import opened Backlog

  /** The circumstances of a poll in which nothing fails but handlers. */
  function CalmOf(victim: Option<nat>, outcome: nat -> Outcome): Circumstances {
    Circumstances(victim, Runs, outcome, (i: nat) => Runs, Runs, Answered)
  }

  lemma CalmIsCalm(victim: Option<nat>, outcome: nat -> Outcome)
    requires Contained(outcome)
    ensures Calm(CalmOf(victim, outcome))
  {
  }

  /** The queue changes from q to v as by this poll, and `goes` says whether the poll finished a batch.
      Stated so that it is used only where a proof names it. */
  ghost predicate LikePoll(c: Config, q: Queue, k: nat, e: Circumstances, v: Queue, goes: bool) {
    forall x: nat {:trigger Shown(x)} :: Shown(x) ==>
      (q.Valid() && v == Poll(c, q, k, e).0 && (goes <==> Poll(c, q, k, e).1.Processed?))
  }

  lemma RanIsValid(c: Fleet, coop: bool, maxRetries: nat, trace: seq<Action>, w: World)
    requires Ran(c, coop, maxRetries, trace, w)
    ensures w.q.Valid()
  {
    RanOn(c, coop, maxRetries, trace, w, []);
  }

  /** The world after more actions. */
  lemma RanFrom(c: Fleet, coop: bool, maxRetries: nat, t0: seq<Action>, w0: World, acts: seq<Action>, w1: World)
    requires Ran(c, coop, maxRetries, t0, w0) && Ran(c, coop, maxRetries, t0 + acts, w1)
    ensures w0.q.Valid() && w1 == Run(c, w0, acts)
  {
    RanIsValid(c, coop, maxRetries, t0, w0);
    RanOn(c, coop, maxRetries, t0, w0, acts);
    RanIsRun(c, coop, maxRetries, t0 + acts, w1);
    RanIsRun(c, coop, maxRetries, t0 + acts, Run(c, w0, acts));
  }

  lemma BatchReplied(q: Queue, k: nat, ceiling: int, victim: Option<nat>, reply: Received)
    requires q.Valid() && RepliesWith(q, k, ceiling, victim, reply)
    ensures match Engine.Receive(q, k, ceiling, victim).1
      case Nothing => reply == Got([])
      case Rejected => reply == Failed
      case Overflow => reply == TooBig
      case Batch(b, _, events) => reply == Got(Stamped(b, events)) && reply.msgs != []
  {
    ReceiveContract(q, k, ceiling, victim);
    assert Shown(0);
  }

  lemma {:induction false} NothingLost(c: Config, msgs: seq<Msg>, victim: Option<nat>, outcome: nat -> Outcome)
    ensures Chosen(c, msgs, CalmOf(victim, outcome), {SqlError, LocalError}) == []
  {
    if msgs != [] {
      NothingLost(c, msgs[..|msgs| - 1], victim, outcome);
    }
  }

  /** No nack of an undisturbed round fails. */
  lemma NoNackFails(c: Fleet, coop: bool, maxRetries: nat, t0: seq<Action>, w0: World, t1: seq<Action>, w1: World,
                    k: nat, victim: Option<nat>, msgs: seq<Msg>, outcome: nat -> Outcome, r: nat, failed: bool)
    requires Ran(c, coop, maxRetries, t0, w0) && Ran(c, coop, maxRetries, t1, w1) && w0.At(k) == Ready
    requires RepliesWith(w0.q, k, c(k).ceiling, victim, Got(msgs)) && msgs != [] && Contained(outcome)
    requires t1 == t0 + [Action.Receive(k, victim, Fine)] + MimicAll(c(k), k, msgs, CalmOf(victim, outcome))
    requires w1.At(k) == Dispatching(r, |msgs|, failed)
    ensures !failed
  {
    var e := CalmOf(victim, outcome);
    var receive := Action.Receive(k, victim, Fine);
    RanIsValid(c, coop, maxRetries, t0, w0);
    BatchReplied(w0.q, k, c(k).ceiling, victim, Got(msgs));
    RanOne(c, coop, maxRetries, t0, w0, receive);
    var w := Apply(c, w0, receive);
    RanFrom(c, coop, maxRetries, t0 + [receive], w, MimicAll(c(k), k, msgs, e), w1);
    MimicReceive(c, w0, k, victim);
    MimicDispatch(c, w, k, |w0.rounds|, msgs, msgs, e);
    NothingLost(c(k), msgs, victim, outcome);
  }

  lemma RoundIsPoll(c: Fleet, w: World, k: nat, victim: Option<nat>, msgs: seq<Msg>, outcome: nat -> Outcome)
    requires w.q.Valid() && w.At(k) == Ready && Contained(outcome) && msgs != []
    requires RepliesWith(w.q, k, c(k).ceiling, victim, Got(msgs))
    ensures var e := CalmOf(victim, outcome); var v := Run(c, w, RoundActions(c(k), k, msgs, e));
      v.q == Poll(c(k), w.q, k, e).0 && Poll(c(k), w.q, k, e).1 == Processed
  {
    var e := CalmOf(victim, outcome);
    BatchReplied(w.q, k, c(k).ceiling, victim, Got(msgs));
    CalmRunsAll(c(k), msgs, e);
    CommittedPollIsARound(c, w, k, e);
    CalmBatch(c(k), w.q, k, e);
  }

  lemma ShowPoll(c: Config, q: Queue, k: nat, e: Circumstances, v: Queue, goes: bool)
    ensures LikePoll(c, q, k, e, v, goes) <==>
      (q.Valid() && v == Poll(c, q, k, e).0 && (goes <==> Poll(c, q, k, e).1.Processed?))
  {
    assert Shown(0);
  }

  /** A pass that finishes a batch is a poll that does. */
  lemma FinishingPass(c: Fleet, coop: bool, maxRetries: nat, t0: seq<Action>, w0: World, t1: seq<Action>, w1: World,
                      k: nat, victim: Option<nat>, msgs: seq<Msg>, outcome: nat -> Outcome)
    requires Ran(c, coop, maxRetries, t0, w0) && Ran(c, coop, maxRetries, t1, w1) && w0.At(k) == Ready
    requires RepliesWith(w0.q, k, c(k).ceiling, victim, Got(msgs)) && msgs != [] && Contained(outcome)
    requires t1 == t0 + [Action.Receive(k, victim, Fine)] + MimicAll(c(k), k, msgs, CalmOf(victim, outcome))
                   + [Action.Ack(k, Fine)]
    ensures LikePoll(c(k), w0.q, k, CalmOf(victim, outcome), w1.q, true)
  {
    var e := CalmOf(victim, outcome);
    assert t1 == t0 + RoundActions(c(k), k, msgs, e);
    RanFrom(c, coop, maxRetries, t0, w0, RoundActions(c(k), k, msgs, e), w1);
    RoundIsPoll(c, w0, k, victim, msgs, outcome);
    ShowPoll(c(k), w0.q, k, e, w1.q, true);
  }

  lemma ReceiveWaits(w: World, k: nat, ceiling: int, victim: Option<nat>, reply: Received)
    requires w.q.Valid() && w.At(k) == Ready && RepliesWith(w.q, k, ceiling, victim, reply)
    requires reply.Failed? || reply == Got([])
    ensures DoReceive(w, k, ceiling, victim, Fine) == w.(q := Engine.Receive(w.q, k, ceiling, victim).0).Go(k, Waiting)
  {
    BatchReplied(w.q, k, ceiling, victim, reply);
  }

  lemma PollFindsNothing(c: Config, q: Queue, k: nat, victim: Option<nat>, reply: Received, outcome: nat -> Outcome)
    requires q.Valid() && RepliesWith(q, k, c.ceiling, victim, reply) && (reply.Failed? || reply == Got([]))
    ensures var (v, end) := Poll(c, q, k, CalmOf(victim, outcome));
      v == Engine.Receive(q, k, c.ceiling, victim).0 && !end.Processed?
  {
    BatchReplied(q, k, c.ceiling, victim, reply);
    ReceiveContract(q, k, c.ceiling, victim);
  }

  /** A pass that waits after its receive is a poll that finds nothing. */
  lemma WaitingPass(c: Fleet, coop: bool, maxRetries: nat, t0: seq<Action>, w0: World, t1: seq<Action>, w1: World,
                    k: nat, victim: Option<nat>, reply: Received, outcome: nat -> Outcome)
    requires Ran(c, coop, maxRetries, t0, w0) && Ran(c, coop, maxRetries, t1, w1) && w0.At(k) == Ready
    requires RepliesWith(w0.q, k, c(k).ceiling, victim, reply) && (reply.Failed? || reply == Got([]))
    requires t1 == t0 + [Action.Receive(k, victim, Fine)] + [Wake(k)]
    ensures LikePoll(c(k), w0.q, k, CalmOf(victim, outcome), w1.q, false)
  {
    var acts := [Action.Receive(k, victim, Fine), Wake(k)];
    assert t1 == t0 + acts;
    RanFrom(c, coop, maxRetries, t0, w0, acts, w1);
    RunTwo(c, w0, acts[0], acts[1]);
    ReceiveWaits(w0, k, c(k).ceiling, victim, reply);
    PollFindsNothing(c(k), w0.q, k, victim, reply, outcome);
    ShowPoll(c(k), w0.q, k, CalmOf(victim, outcome), w1.q, false);
  }

  /** What such a pass makes of the backlog. */
  lemma PassDrains(c: Config, q: Queue, k: nat, victim: Option<nat>, outcome: nat -> Outcome, v: Queue, goes: bool)
    requires LikePoll(c, q, k, CalmOf(victim, outcome), v, goes) && Contained(outcome) && Admits(c, q, k)
    ensures Admits(c, v, k) && Left(v, k) == (if Left(q, k) == [] then [] else Left(q, k)[1..])
    ensures goes <==> Left(q, k) != [] && Left(q, k)[0] != []
  {
    ShowPoll(c, q, k, CalmOf(victim, outcome), v, goes);
    CalmIsCalm(victim, outcome);
    CalmPoll(c, q, k, CalmOf(victim, outcome));
  }

  /** No window is too large for such a pass. */
  lemma NeverTooBig(c: Config, q: Queue, k: nat, victim: Option<nat>, reply: Received)
    requires RepliesWith(q, k, c.ceiling, victim, reply) && Admits(c, q, k)
    ensures !reply.TooBig?
  {
    BatchReplied(q, k, c.ceiling, victim, reply);
    if b :| b in q.held {
      HeldReceive(c, q, k, victim, b);
    } else {
      FreeReceive(c, q, k, victim);
    }
  }

  /** Drains, stated so that it is used only where a proof names it. */
  ghost predicate Draining(c: Config, left: seq<seq<Event>>, k: nat, q: Queue, log: seq<Pass>) {
    forall x: nat {:trigger Shown(x)} :: Shown(x) ==> Drains(c, left, k, q, GoesOf(c, log))
  }

  lemma DrainingIs(c: Config, left: seq<seq<Event>>, k: nat, q: Queue, log: seq<Pass>)
    ensures Draining(c, left, k, q, log) <==> Drains(c, left, k, q, GoesOf(c, log))
  {
    assert Shown(0);
  }

  lemma PassGoesOn(c: Config, left: seq<seq<Event>>, k: nat, q: Queue, log: seq<Pass>, victim: Option<nat>,
                   p: Pass, v: Queue)
    requires Draining(c, left, k, q, log) && RepliesWith(q, k, c.ceiling, victim, p.reply)
    requires Contained(p.answers.outcome)
    requires !p.reply.TooBig? ==>
      LikePoll(c, q, k, CalmOf(victim, p.answers.outcome), v, Goes(c, p.reply, p.answers))
    ensures !p.reply.TooBig? && Draining(c, left, k, v, log + [p])
  {
    DrainingIs(c, left, k, q, log);
    DrainingIs(c, left, k, v, log + [p]);
    NeverTooBig(c, q, k, victim, p.reply);
    PassDrains(c, q, k, victim, p.answers.outcome, v, Goes(c, p.reply, p.answers));
    DrainsOn(c, left, k, q, GoesOf(c, log), v, Goes(c, p.reply, p.answers));
    assert GoesOf(c, log + [p]) == GoesOf(c, log) + [Goes(c, p.reply, p.answers)];
  }

  /** A run of a polling loop that is left undisturbed and alone in its group goes through its backlog
      without a wait if and only if no window of it is empty, and then waits. */
  lemma LoopDrainsInARow(c: Config, left: seq<seq<Event>>, log: seq<Pass>)
    requires GoesThrough(left, GoesOf(c, log)) && |log| > |left|
    requires forall i | 0 <= i < |log| :: !log[i].reply.TooBig?
    ensures Pause !in RunPlan(c, log[..|left|]) <==> forall w <- left :: w != []
    ensures Pause in PassPlan(c, log[|left|].reply, log[|left|].answers)
  {
    var goes := GoesOf(c, log);
    RunWaits(c, log[..|left|]);
    DrainsInARow(left, goes);
    PassWaits(c, log[|left|].reply, log[|left|].answers);
    AllGoMeans(c, log, |left|, goes);
  }

  /** Such a run has the passes for that whenever it went on long enough: so many operations that each
      window of the backlog could have taken the most a pass can need. */
  lemma LongRunDrains(c: Config, left: seq<seq<Event>>, log: seq<Pass>, ops: seq<Op>, outcomes: nat -> nat -> Outcome)
    requires Logged(c, log, ops, outcomes, false) && GoesThrough(left, GoesOf(c, log))
    requires |ops| > |left| * PassCost(c)
    ensures |log| > |left| && Pause in PassPlan(c, log[|left|].reply, log[|left|].answers)
    ensures Pause !in RunPlan(c, log[..|left|]) <==> forall w <- left :: w != []
  {
    LongRun(c, log, ops, outcomes, false, |left|);
    LoopDrainsInARow(c, left, log);
  }

  lemma {:induction false} AllGoMeans(c: Config, log: seq<Pass>, n: nat, goes: seq<bool>)
    requires n <= |log| && goes == GoesOf(c, log)
    ensures AllGo(c, log[..n]) <==> forall i | 0 <= i < n :: goes[i]
  {
    if n > 0 {
      AllGoMeans(c, log, n - 1, goes);
      assert log[..n][..n - 1] == log[..n - 1];
      assert goes[n - 1] == Goes(c, log[n - 1].reply, log[n - 1].answers);
    }
  }
}
