/** Conservation for fleets of transactional workers and for mixed fleets, with its exact condition. */
module FleetLosses {
  import opened Options
  import opened Engine
  import opened Protocol
  import opened Conservation
  import opened Markers
  import opened Safety
  import opened Guarantees
  import opened Runs
  import opened Decisions
  import opened Transactions
  import opened Simulation
  import opened Backlog
  import opened Duplicates
  import Losses
  import MixedFleets

  // ----- when no poll drops anything -----

  lemma OneAction(c: Fleet, w: World, acts: seq<Action>, a: Action)
    requires w.q.Valid() && (acts == [] || acts == [a]) && (a.Requeue? ==> Copies(w.q.pending, a.id) == 0)
    ensures Guarded(c, w, acts)
  {
    if acts != [] {
      assert acts[1..] == [];
    }
  }

  /** A step of such a fleet, as actions of the protocol from a world with the same queue. */
  lemma StepAsActions(c: Fleet, s: State, step: Step) returns (w: World, acts: seq<Action>)
    requires s.q.Valid()
    ensures w.q == s.q && w.dropped == s.dropped
    ensures Run(c, w, acts).q == StepState(c, s, step).q && Run(c, w, acts).dropped == StepState(c, s, step).dropped
    ensures !(step.Outside? && step.action.Requeue? && Copies(s.q.pending, step.action.id) > 0) ==> Guarded(c, w, acts)
  {
    w := Protocol.Start(s.q.coop, s.q.maxRetries).(q := s.q, dropped := s.dropped);
    acts := StepActions(c, s.q, step);
    match step
    case Outside(a) =>
      MimicChange(c, w, a);
      if !(a.Requeue? && Copies(s.q.pending, a.id) > 0) {
        OneAction(c, w, acts, a);
      }
    case PollBy(k, e) =>
      PollThenRest(c, w, k, e);
      PollActionsBy(c(k), s.q, k, e);
      NoRequeue(c, w, acts);
  }

  /** No event is requeued while it is among the events of the next tick. */
  ghost predicate GuardedSteps(c: Fleet, s: State, steps: seq<Step>)
    requires s.q.Valid()
  {
    steps != [] ==>
      var n := |steps| - 1;
      && GuardedSteps(c, s, steps[..n])
      && (steps[n].Outside? && steps[n].action.Requeue? ==>
            Copies(RunSteps(c, s, steps[..n]).q.pending, steps[n].action.id) == 0)
  }

  lemma {:induction false} GuardedPollers(c: Fleet, s: State, steps: seq<Step>)
    requires s.q.Valid() && AllSingle(s.q) && GuardedSteps(c, s, steps)
    ensures RunSteps(c, s, steps).dropped == s.dropped && AllSingle(RunSteps(c, s, steps).q)
  {
    if steps != [] {
      var n := |steps| - 1;
      GuardedPollers(c, s, steps[..n]);
      var w, acts := StepAsActions(c, RunSteps(c, s, steps[..n]), steps[n]);
      GuardedRun(c, w, acts);
    }
  }

  lemma {:induction false} LimitedPollers(c: Fleet, s: State, steps: seq<Step>)
    requires s.q.Valid() && FreshOnce(s.q) && s.q.maxRetries <= 1
    ensures var t := RunSteps(c, s, steps);
      t.dropped == s.dropped && FreshOnce(t.q) && t.q.maxRetries == s.q.maxRetries
  {
    if steps != [] {
      var n := |steps| - 1;
      LimitedPollers(c, s, steps[..n]);
      var w, acts := StepAsActions(c, RunSteps(c, s, steps[..n]), steps[n]);
      LimitedRun(c, w, acts);
    }
  }

  function Fresh(coop: bool, max: nat): (s: State)
    ensures s.q.Valid()
  {
    State(Engine.Empty(coop, max), {}, {})
  }

  /** A fleet of Python and Ruby workers loses nothing when no event is requeued while it is among the
      events of the next tick, or when the retry limit is at most one. */
  lemma PollersLoseNothing(c: Fleet, coop: bool, max: nat, steps: seq<Step>, id: nat)
    requires GuardedSteps(c, Fresh(coop, max), steps) || max <= 1
    ensures var s := RunSteps(c, Fresh(coop, max), steps); id < s.q.nextId ==> Accounted(s, id)
  {
    if max <= 1 {
      LimitedPollers(c, Fresh(coop, max), steps);
    } else {
      GuardedPollers(c, Fresh(coop, max), steps);
    }
    TransactionalFleetLosesNothing(c, coop, max, steps, id);
  }

  // ----- how polls lose an event -----

  const Other := Event(1, "order", 0)

  /** A poll in which every handler raises but, possibly, that of the second message; the nack of the
      second message may fail in the client. */
  function Trouble(second: Outcome, nack: Fate): Circumstances {
    Circumstances(None, Runs, (i: nat) => if i == 1 then second else Raises, (i: nat) => if i == 1 then nack else Runs,
                  Runs, Answered)
  }

  lemma TwoChosen(c: Config, msgs: seq<Msg>, e: Circumstances, fates: set<Fate>)
    requires |msgs| == 2
    ensures Chosen(c, msgs, e, fates) ==
      (if NeedsNack(c, msgs[0], e.outcome(0)) && e.nack(0) in fates then [msgs[0].id] else [])
      + (if NeedsNack(c, msgs[1], e.outcome(1)) && e.nack(1) in fates then [msgs[1].id] else [])
  {
    assert msgs[..1][..0] == [] && msgs[..1][0] == msgs[0];
    assert Chosen(c, msgs[..1], e, fates) ==
      if NeedsNack(c, msgs[0], e.outcome(0)) && e.nack(0) in fates then [msgs[0].id] else [];
  }

  lemma TwoServed(c: Config, msgs: seq<Msg>, e: Circumstances)
    requires |msgs| == 2
    ensures ServedBy(c, msgs, e) ==
      (if Serves(c, msgs[0], e.outcome(0)) then {msgs[0].id} else {})
      + (if Serves(c, msgs[1], e.outcome(1)) then {msgs[1].id} else {})
  {
    assert msgs[..1][..0] == [] && msgs[..1][0] == msgs[0];
    assert ServedBy(c, msgs[..1], e) == if Serves(c, msgs[0], e.outcome(0)) then {msgs[0].id} else {};
  }

  /** What such a poll makes of two messages of kind "order". */
  lemma TroubleWithTwo(msgs: seq<Msg>, second: Outcome, nack: Fate)
    requires |msgs| == 2 && msgs[0].kind == "order" && msgs[1].kind == "order"
    requires second in {Returns, Raises} && nack in {Runs, LocalError}
    ensures var c, e := Losses.Worker(), Trouble(second, nack);
      var routed := [msgs[0].id] + if second.Raises? && nack.Runs? then [msgs[1].id] else [];
      && !Escaped(c, msgs, e.outcome)
      && Chosen(c, msgs, e, {Runs}) == routed && Chosen(c, msgs, e, {SqlError}) == []
      && (AllRan(c, msgs, e) <==> second.Returns? || nack.Runs?)
      && (AllRan(c, msgs, e) ==> Required(c, msgs, e) == routed)
      && ServedBy(c, msgs, e) == if second.Returns? then {msgs[1].id} else {}
  {
    var c, e := Losses.Worker(), Trouble(second, nack);
    assert c.Knows("order");
    TwoServed(c, msgs, e);
    TwoChosen(c, msgs, e, {Runs});
    TwoChosen(c, msgs, e, {SqlError});
    TwoChosen(c, msgs, e, {SqlError, LocalError});
    if AllRan(c, msgs, e) {
      AllRanIsRequired(c, msgs, e);
    }
  }

  /** Worker 0 polls a batch of two events of kind "order", the first of which has id 0: what the poll
      leaves, and what it serves. */
  lemma PollTwo(q: Queue, r: Queue, d: Delivery, second: Outcome, nack: Fate)
    requires q.Valid() && r.Valid() && second in {Returns, Raises} && nack in {Runs, LocalError}
    requires Engine.Receive(q, 0, 10, None) == (r, d) && d.Batch? && |d.events| == 2
    requires d.events[0].kind == "order" && d.events[1].kind == "order" && d.token in r.held
    ensures var e := Trouble(second, nack); var first, last := d.events[0].id, d.events[1].id;
      Poll(Losses.Worker(), q, 0, e).0 ==
        if second.Returns? then Engine.Ack(RouteAll(r, d.token, [first]), d.token).0
        else if nack.Runs? then Engine.Ack(RouteAll(r, d.token, [first] + [last]), d.token).0
        else RouteAll(r, d.token, [first])
    ensures PollServes(Losses.Worker(), q, 0, Trouble(second, nack)) == if second.Returns? then {d.events[1].id} else {}
  {
    TroubleWithTwo(Stamped(d.token, d.events), second, nack);
    PollIsAtomic(Losses.Worker(), q, 0, Trouble(second, nack));
  }

  /** The queue on the way: two events were sent, nothing is dead. */
  function Q(coop: bool, max: nat, windows: seq<seq<Event>>, pending: seq<Event>, cursor: nat, held: map<nat, Hold>,
             nextBatch: nat, retries: map<nat, Event>): Queue
  {
    Queue(windows, pending, 2, coop, cursor, held, nextBatch, retries, map[], max)
  }

  lemma Routes(q: Queue, b: nat, x: nat, y: nat)
    requires q.Valid()
    ensures RouteAll(q, b, [x]) == Engine.Nack(q, b, x).0
    ensures RouteAll(q, b, [x] + [y]) == Engine.Nack(Engine.Nack(q, b, x).0, b, y).0
  {
    assert RouteAll(q, b, []) == q && [x][..0] == [];
    RouteOneMore(q, b, [x], y);
  }

  /** The windows on the way: the two events, and later both requeued copies of the first. */
  function Sent(): (w: seq<seq<Event>>) {
    [[Losses.First, Other]]
  }

  function SentTwice(): (w: seq<seq<Event>>) {
    [[Losses.First, Other], [Losses.Second, Losses.Second]]
  }

  lemma TheirCopies()
    ensures Copies([Losses.First, Other], 0) == 1 && Copies([Losses.Second, Losses.Second], 0) == 2
  {
    assert [Losses.First, Other][..1] == [Losses.First] && [Losses.First][..0] == [];
    Losses.OneCopy(Losses.Second);
  }

  /** Worker 0 receives the next window. */
  lemma TakesNext(coop: bool, max: nat, w: seq<seq<Event>>, cursor: nat, nb: nat)
    requires w in [Sent(), SentTwice()] && cursor < |w| && nb >= 1
    ensures var q := Q(coop, max, w, [], cursor, map[], nb, map[]);
      var r := Q(coop, max, w, [], cursor + if coop then 1 else 0, map[nb := Hold(0, cursor)], nb + 1, map[]);
      q.Valid() && r.Valid() && Engine.Receive(q, 0, 10, None) == (r, Batch(nb, cursor, w[cursor]))
  {
    var q := Q(coop, max, w, [], cursor, map[], nb, map[]);
    assert Admits(Losses.Worker(), q, 0);
    FreeReceive(Losses.Worker(), q, 0, None);
    GrantIsValid(q, 0);
  }

  lemma NackFirst(q: Queue, b: nat)
    requires q.Valid() && q.held == map[b := Hold(0, 0)] && q.windows == Sent() && q.retries == map[]
    requires q.maxRetries >= 2
    ensures Engine.Nack(q, b, 0).0 == q.(retries := map[0 := Losses.Second])
  {
    TheirCopies();
  }

  lemma NackCopies(q: Queue, b: nat)
    requires q.Valid() && q.held == map[b := Hold(0, 1)] && q.windows == SentTwice() && q.retries == map[]
    requires q.maxRetries >= 2
    ensures Engine.Nack(q, b, 0).0 == q
  {
    TheirCopies();
  }

  lemma AckOnly(q: Queue, b: nat, k: nat)
    requires q.Valid() && q.held == map[b := Hold(0, k)]
    ensures Engine.Ack(q, b).0 == q.(held := map[], cursor := q.cursor + if q.coop then 0 else 1)
  {
    assert q.held - {b} == map[];
  }

  /** The first poll: both handlers fail, and the second nack fails in the client, so the first one stays
      and the batch is left. */
  lemma FirstPoll(coop: bool, max: nat)
    requires max >= 2
    ensures var q := Q(coop, max, Sent(), [], 0, map[], 1, map[]); var e := Trouble(Raises, LocalError);
      && q.Valid() && PollServes(Losses.Worker(), q, 0, e) == {}
      && Poll(Losses.Worker(), q, 0, e).0 ==
           Q(coop, max, Sent(), [], if coop then 1 else 0, map[1 := Hold(0, 0)], 2, map[0 := Losses.Second])
  {
    var q := Q(coop, max, Sent(), [], 0, map[], 1, map[]);
    var r := Q(coop, max, Sent(), [], if coop then 1 else 0, map[1 := Hold(0, 0)], 2, map[]);
    TakesNext(coop, max, Sent(), 0, 1);
    PollTwo(q, r, Batch(1, 0, Sent()[0]), Raises, LocalError);
    Routes(r, 1, 0, 0);
    NackFirst(r, 1);
  }

  lemma HoldsIt(coop: bool, max: nat)
    ensures var q := Q(coop, max, Sent(), [Losses.Second], if coop then 1 else 0, map[1 := Hold(0, 0)], 2, map[]);
      q.Valid() && Engine.Receive(q, 0, 10, None) == (q, Batch(1, 0, Sent()[0]))
  {
    var q := Q(coop, max, Sent(), [Losses.Second], if coop then 1 else 0, map[1 := Hold(0, 0)], 2, map[]);
    assert Admits(Losses.Worker(), q, 0);
    HeldReceive(Losses.Worker(), q, 0, None, 1);
  }

  /** The second poll, after the first event was requeued: its handler fails again, and the batch is acked. */
  lemma SecondPoll(coop: bool, max: nat)
    requires max >= 2
    ensures var e := Trouble(Returns, Runs);
      var q := Q(coop, max, Sent(), [Losses.Second], if coop then 1 else 0, map[1 := Hold(0, 0)], 2, map[]);
      && q.Valid() && PollServes(Losses.Worker(), q, 0, e) == {1}
      && Poll(Losses.Worker(), q, 0, e).0 == Q(coop, max, Sent(), [Losses.Second], 1, map[], 2, map[0 := Losses.Second])
  {
    var q := Q(coop, max, Sent(), [Losses.Second], if coop then 1 else 0, map[1 := Hold(0, 0)], 2, map[]);
    HoldsIt(coop, max);
    PollTwo(q, q, Batch(1, 0, Sent()[0]), Returns, Runs);
    Routes(q, 1, 0, 0);
    NackedAndAcked(q);
  }

  lemma NackedAndAcked(q: Queue)
    requires q.Valid() && q.held == map[1 := Hold(0, 0)] && q.windows == Sent() && q.retries == map[]
    requires q.maxRetries >= 2
    ensures Engine.Ack(Engine.Nack(q, 1, 0).0, 1).0 ==
      q.(retries := map[0 := Losses.Second], held := map[], cursor := q.cursor + if q.coop then 0 else 1)
  {
    NackFirst(q, 1);
    AckOnly(Engine.Nack(q, 1, 0).0, 1, 0);
  }

  /** The third poll, over a window with both requeued copies: both handlers fail, both nacks are answered
      with success and store nothing, and the batch is acked. */
  lemma ThirdPoll(coop: bool, max: nat)
    requires max >= 2
    ensures var q := Q(coop, max, SentTwice(), [], 1, map[], 2, map[]); var e := Trouble(Raises, Runs);
      && q.Valid() && PollServes(Losses.Worker(), q, 0, e) == {}
      && Poll(Losses.Worker(), q, 0, e).0 == Q(coop, max, SentTwice(), [], 2, map[], 3, map[])
  {
    var q := Q(coop, max, SentTwice(), [], 1, map[], 2, map[]);
    var r := Q(coop, max, SentTwice(), [], if coop then 2 else 1, map[2 := Hold(0, 1)], 3, map[]);
    TakesNext(coop, max, SentTwice(), 1, 2);
    PollTwo(q, r, Batch(2, 1, SentTwice()[1]), Raises, Runs);
    Routes(r, 2, 0, 0);
    NackCopies(r, 2);
    AckOnly(r, 2, 1);
  }

  /** The state is what these steps of one worker make of an empty queue; stated so that it is used only
      where a proof names it. */
  ghost predicate Came(coop: bool, max: nat, steps: seq<Step>, q: Queue, served: set<nat>) {
    forall x: nat {:trigger Shown(x)} :: Shown(x) ==>
      var s := RunSteps(Losses.Workers(), Fresh(coop, max), steps); s.q == q && s.served == served && q.Valid()
  }

  lemma CameOn(coop: bool, max: nat, steps: seq<Step>, q: Queue, served: set<nat>, step: Step)
    requires Came(coop, max, steps, q, served)
    ensures q.Valid() && match step
      case Outside(a) => Came(coop, max, steps + [step], Change(q, a), served)
      case PollBy(k, e) =>
        Came(coop, max, steps + [step], Poll(Losses.Worker(), q, k, e).0, served + PollServes(Losses.Worker(), q, k, e))
  {
    assert Shown(0);
    assert (steps + [step])[..|steps|] == steps;
    if step.PollBy? {
      PollIsValid(Losses.Worker(), q, step.worker, step.e);
    }
  }

  lemma InOrder()
    ensures ById([Losses.First, Other]) == [Losses.First, Other]
    ensures ById([Losses.Second, Losses.Second]) == [Losses.Second, Losses.Second]
  {
    assert [Losses.First, Other][1..] == [Other] && [Other][1..] == [];
    assert [Losses.Second, Losses.Second][1..] == [Losses.Second] && [Losses.Second][1..] == [];
  }

  lemma TwoSent(coop: bool, max: nat) returns (steps: seq<Step>)
    ensures Came(coop, max, steps, Q(coop, max, Sent(), [], 0, map[], 1, map[]), {})
  {
    var send, tick := Outside(Send("order")), Outside(Tick);
    var q0 := Engine.Empty(coop, max);
    assert Came(coop, max, [], q0, {});
    CameOn(coop, max, [], q0, {}, send);
    var q1 := q0.(pending := [Losses.First], nextId := 1);
    assert Change(q0, send.action) == q1;
    CameOn(coop, max, [send], q1, {}, send);
    var q2 := q0.(pending := [Losses.First, Other], nextId := 2);
    assert Change(q1, send.action) == q2;
    CameOn(coop, max, [send] + [send], q2, {}, tick);
    InOrder();
    assert Change(q2, tick.action) == Q(coop, max, Sent(), [], 0, map[], 1, map[]);
    steps := [send] + [send] + [tick];
  }

  lemma Returned(coop: bool, max: nat, steps: seq<Step>, q: Queue, served: set<nat>)
    requires Came(coop, max, steps, q, served) && q.retries == map[0 := Losses.Second]
    ensures Came(coop, max, steps + [Outside(Requeue(0))],
                 q.(pending := q.pending + [Losses.Second], retries := map[]), served)
  {
    CameOn(coop, max, steps, q, served, Outside(Requeue(0)));
    assert q.retries - {0} == map[];
  }

  lemma RequeuedOnce(coop: bool, max: nat) returns (steps: seq<Step>)
    requires max >= 2
    ensures Came(coop, max, steps, Q(coop, max, Sent(), [Losses.Second], if coop then 1 else 0,
                                     map[1 := Hold(0, 0)], 2, map[]), {})
  {
    steps := TwoSent(coop, max);
    FirstPoll(coop, max);
    CameOn(coop, max, steps, Q(coop, max, Sent(), [], 0, map[], 1, map[]), {},
           Step.PollBy(0, Trouble(Raises, LocalError)));
    steps := steps + [Step.PollBy(0, Trouble(Raises, LocalError))];
    Returned(coop, max, steps,
             Q(coop, max, Sent(), [], if coop then 1 else 0, map[1 := Hold(0, 0)], 2, map[0 := Losses.Second]), {});
    steps := steps + [Outside(Requeue(0))];
  }

  lemma FailedAgain(coop: bool, max: nat) returns (steps: seq<Step>)
    requires max >= 2
    ensures Came(coop, max, steps, Q(coop, max, Sent(), [Losses.Second], 1, map[], 2, map[0 := Losses.Second]), {1})
  {
    steps := RequeuedOnce(coop, max);
    SecondPoll(coop, max);
    CameOn(coop, max, steps,
           Q(coop, max, Sent(), [Losses.Second], if coop then 1 else 0, map[1 := Hold(0, 0)], 2, map[]), {},
           Step.PollBy(0, Trouble(Returns, Runs)));
    assert {} + {1} == {1};
    steps := steps + [Step.PollBy(0, Trouble(Returns, Runs))];
  }

  lemma RequeuedTwice(coop: bool, max: nat) returns (steps: seq<Step>)
    requires max >= 2
    ensures Came(coop, max, steps, Q(coop, max, Sent(), [Losses.Second, Losses.Second], 1, map[], 2, map[]), {1})
  {
    steps := FailedAgain(coop, max);
    Returned(coop, max, steps, Q(coop, max, Sent(), [Losses.Second], 1, map[], 2, map[0 := Losses.Second]), {1});
    steps := steps + [Outside(Requeue(0))];
    assert [Losses.Second] + [Losses.Second] == [Losses.Second, Losses.Second];
  }

  lemma BothTicked(coop: bool, max: nat) returns (steps: seq<Step>)
    requires max >= 2
    ensures Came(coop, max, steps, Q(coop, max, SentTwice(), [], 1, map[], 2, map[]), {1})
  {
    steps := RequeuedTwice(coop, max);
    var q := Q(coop, max, Sent(), [Losses.Second, Losses.Second], 1, map[], 2, map[]);
    CameOn(coop, max, steps, q, {1}, Outside(Tick));
    InOrder();
    assert Change(q, Tick) == Q(coop, max, SentTwice(), [], 1, map[], 2, map[]);
    steps := steps + [Outside(Tick)];
  }

  /** A single Python or Ruby worker loses an event too, although its polls are transactions. */
  lemma PollsLoseAnEvent(coop: bool, max: nat) returns (steps: seq<Step>)
    requires max >= 2
    ensures var s := RunSteps(Losses.Workers(), Fresh(coop, max), steps); s.q.nextId == 2 && !Accounted(s, 0)
  {
    steps := BothTicked(coop, max);
    ThirdPoll(coop, max);
    CameOn(coop, max, steps, Q(coop, max, SentTwice(), [], 1, map[], 2, map[]), {1},
           Step.PollBy(0, Trouble(Raises, Runs)));
    steps := steps + [Step.PollBy(0, Trouble(Raises, Runs))];
    NowhereLeft(coop, max, steps, Q(coop, max, SentTwice(), [], 2, map[], 3, map[]), {1} + {}, 0);
  }

  lemma NowhereLeft(coop: bool, max: nat, steps: seq<Step>, q: Queue, served: set<nat>, id: nat)
    requires Came(coop, max, steps, q, served) && id !in served && q.pending == [] && q.cursor == |q.windows|
    requires q.held == map[] && q.retries == map[] && q.dead == map[]
    ensures var s := RunSteps(Losses.Workers(), Fresh(coop, max), steps); s.q == q && !Accounted(s, id)
  {
    assert forall k: nat :: !q.Unfinished(k);
    assert Shown(0);
  }

  /** Conservation for fleets of Python and Ruby workers, with its exact condition. */
  lemma PollersConserveExactly(coop: bool, max: nat)
    ensures (forall c: Fleet, steps: seq<Step>, id: nat ::
               id < RunSteps(c, Fresh(coop, max), steps).q.nextId ==>
                 Accounted(RunSteps(c, Fresh(coop, max), steps), id)) <==> max <= 1
  {
    if max <= 1 {
      forall c: Fleet, steps: seq<Step>, id: nat | id < RunSteps(c, Fresh(coop, max), steps).q.nextId
        ensures Accounted(RunSteps(c, Fresh(coop, max), steps), id)
      {
        PollersLoseNothing(c, coop, max, steps, id);
      }
    } else {
      var steps := PollsLoseAnEvent(coop, max);
      assert 0 < RunSteps(Losses.Workers(), Fresh(coop, max), steps).q.nextId;
    }
  }

  // ----- mixed fleets -----

  /** No event is requeued while it is among the events of the next tick. */
  ghost predicate GuardedMixed(c: Fleet, w: World, steps: seq<MixedFleets.MixedStep>)
    requires w.q.Valid()
  {
    steps != [] ==>
      var n := |steps| - 1;
      && GuardedMixed(c, w, steps[..n])
      && (steps[n].Act? && steps[n].action.Requeue? ==>
            Copies(MixedFleets.MixedRun(c, w, steps[..n]).q.pending, steps[n].action.id) == 0)
      && (steps[n].PollBy? ==> forall a <- steps[n].inside :: MixedFleets.Inside(steps[n].worker, a))
  }

  lemma NoneRequeues(k: nat, inside: seq<Action>, acts: seq<Action>)
    requires (forall a <- inside :: MixedFleets.Inside(k, a)) && forall a <- acts :: By(k, a) || a.SkipTokens?
    ensures forall a <- inside + acts + [Crash(k)] :: !a.Requeue?
  {
    forall a | a in inside + acts + [Crash(k)] ensures !a.Requeue? {
      assert a in inside || a in acts || a == Crash(k);
    }
  }

  lemma MixedStepGuarded(c: Fleet, w: World, step: MixedFleets.MixedStep)
    requires w.q.Valid() && (step.Act? && step.action.Requeue? ==> Copies(w.q.pending, step.action.id) == 0)
    requires step.PollBy? ==> forall a <- step.inside :: MixedFleets.Inside(step.worker, a)
    ensures Guarded(c, w, MixedFleets.MixedActions(c, w, step))
  {
    if step.Act? {
      OneAction(c, w, [step.action], step.action);
    } else if w.At(step.worker) == Ready {
      var q := Run(c, w, step.inside).q;
      PollActionsBy(c(step.worker), q, step.worker, step.e);
      NoneRequeues(step.worker, step.inside, PollActions(c(step.worker), q, step.worker, step.e));
      NoRequeue(c, w, MixedFleets.MixedActions(c, w, step));
    }
  }

  lemma {:induction false} GuardedMixedRun(c: Fleet, w: World, steps: seq<MixedFleets.MixedStep>)
    requires w.q.Valid() && AllSingle(w.q) && GuardedMixed(c, w, steps)
    ensures var v := MixedFleets.MixedRun(c, w, steps); v.dropped == w.dropped && AllSingle(v.q)
  {
    if steps != [] {
      var n := |steps| - 1;
      GuardedMixedRun(c, w, steps[..n]);
      var u := MixedFleets.MixedRun(c, w, steps[..n]);
      MixedStepGuarded(c, u, steps[n]);
      GuardedRun(c, u, MixedFleets.MixedActions(c, u, steps[n]));
    }
  }

  /** A mixed fleet loses nothing under the same conditions. */
  lemma MixedFleetsLoseNothing(c: Fleet, coop: bool, max: nat, steps: seq<MixedFleets.MixedStep>, id: nat)
    requires GuardedMixed(c, Protocol.Start(coop, max), steps) || max <= 1
    ensures var v := MixedFleets.MixedRun(c, Protocol.Start(coop, max), steps); id < v.q.nextId ==> Safe(v, id, -1)
  {
    if max <= 1 {
      var acts := MixedFleets.MixedRunIsARun(c, Protocol.Start(coop, max), steps);
      LimitedRun(c, Protocol.Start(coop, max), acts);
    } else {
      GuardedMixedRun(c, Protocol.Start(coop, max), steps);
    }
    MixedFleets.MixedFleetLosesNothing(c, coop, max, steps, id);
  }

  lemma {:induction false} ActsAlone(c: Fleet, w: World, acts: seq<Action>) returns (steps: seq<MixedFleets.MixedStep>)
    requires w.q.Valid()
    ensures MixedFleets.MixedRun(c, w, steps) == Run(c, w, acts)
  {
    if acts == [] {
      steps := [];
    } else {
      var n := |acts| - 1;
      var init := ActsAlone(c, w, acts[..n]);
      steps := init + [MixedFleets.Act(acts[n])];
      assert steps[..|init|] == init && acts == acts[..n] + [acts[n]];
      RunAppend(c, w, acts[..n], [acts[n]]);
    }
  }

  /** Conservation for mixed fleets, with its exact condition. */
  lemma MixedFleetsConserveExactly(coop: bool, max: nat)
    ensures (forall c: Fleet, steps: seq<MixedFleets.MixedStep>, id: nat ::
               id < MixedFleets.MixedRun(c, Protocol.Start(coop, max), steps).q.nextId ==>
                 Safe(MixedFleets.MixedRun(c, Protocol.Start(coop, max), steps), id, -1)) <==> max <= 1
  {
    if max <= 1 {
      forall c: Fleet, steps: seq<MixedFleets.MixedStep>, id: nat
        | id < MixedFleets.MixedRun(c, Protocol.Start(coop, max), steps).q.nextId
        ensures Safe(MixedFleets.MixedRun(c, Protocol.Start(coop, max), steps), id, -1)
      {
        MixedFleetsLoseNothing(c, coop, max, steps, id);
      }
    } else {
      var acts := Losses.EventIsLost(coop, max);
      var steps := ActsAlone(Losses.Workers(), Protocol.Start(coop, max), acts);
      assert 0 < MixedFleets.MixedRun(Losses.Workers(), Protocol.Start(coop, max), steps).q.nextId;
    }
  }
}
