/** How an event can be lost: its handler fails in a round that is not acked, the event is requeued, the
    round is repeated and acked, and both requeued copies are delivered in one window. */
module Losses {
  import opened Options
  import opened Engine
  import opened Protocol
  import opened Conservation
  import opened Markers
  import opened Runs
  import opened Backlog
  import opened Duplicates

  const First := Event(0, "order", 0)
  const Second := Event(0, "order", 1)

  function Worker(): Config {
    Config({"order"}, false, NackUnknown, 10)
  }

  function Workers(): Fleet {
    k => Worker()
  }

  /** What matters of the world on the way: worker 0 alone, one event, nothing served. */
  datatype Stage = Stage(
    windows: seq<seq<Event>>,
    pending: seq<Event>,
    retries: map<nat, Event>,
    held: map<nat, Hold>,
    cursor: nat,
    nextBatch: nat,
    phase: Phase,
    rounds: seq<Round>)

  ghost predicate At(w: World, s: Stage, coop: bool, max: nat) {
    && w.q == Queue(s.windows, s.pending, 1, coop, s.cursor, s.held, s.nextBatch, s.retries, map[], max)
    && w.q.Valid() && w.At(0) == s.phase && w.rounds == s.rounds && w.handled == {} && w.skipped == {}
  }

  /** A receive that takes the next window. */
  lemma ReceivesNext(w: World, s: Stage, coop: bool, max: nat)
    requires At(w, s, coop, max) && s.phase == Ready && s.held == map[] && s.cursor < |s.windows|
    requires forall events <- s.windows :: 1 <= |events| <= 10
    ensures At(Apply(Workers(), w, Receive(0, None, Fine)),
               s.(held := map[s.nextBatch := Hold(0, s.cursor)], cursor := s.cursor + (if coop then 1 else 0),
                  nextBatch := s.nextBatch + 1, phase := Dispatching(|s.rounds|, 0, false),
                  rounds := s.rounds + [Round(0, s.nextBatch, s.cursor)]), coop, max)
  {
    TakesNext(w, s, coop, max);
    BatchStarts(w, 0, 10, None);
  }

  lemma TakesNext(w: World, s: Stage, coop: bool, max: nat)
    requires At(w, s, coop, max) && s.phase == Ready && s.held == map[] && s.cursor < |s.windows|
    requires forall events <- s.windows :: 1 <= |events| <= 10
    ensures var (q, d) := Engine.Receive(w.q, 0, 10, None);
      && d == Batch(s.nextBatch, s.cursor, s.windows[s.cursor]) && q.Valid()
      && q == w.q.(held := map[s.nextBatch := Hold(0, s.cursor)], cursor := s.cursor + (if coop then 1 else 0),
                   nextBatch := s.nextBatch + 1)
  {
    assert Admits(Worker(), w.q, 0);
    FreeReceive(Worker(), w.q, 0, None);
    GrantIsValid(w.q, 0);
  }

  /** A receive that gets the held batch again. */
  lemma ReceivesAgain(w: World, s: Stage, coop: bool, max: nat, b: nat, k: nat)
    requires At(w, s, coop, max) && s.phase == Ready && s.held == map[b := Hold(0, k)]
    requires forall events <- s.windows :: 1 <= |events| <= 10
    ensures At(Apply(Workers(), w, Receive(0, None, Fine)),
               s.(phase := Dispatching(|s.rounds|, 0, false), rounds := s.rounds + [Round(0, b, k)]), coop, max)
  {
    assert Admits(Worker(), w.q, 0);
    HeldReceive(Worker(), w.q, 0, None, b);
  }

  /** The round is at message i of its batch b, which has the events of window k. */
  ghost predicate InBatch(s: Stage, r: nat, i: nat, b: nat, k: nat, e: Event, n: nat) {
    && s.phase == Dispatching(r, i, false) && r < |s.rounds| && s.rounds[r].token == b && s.rounds[r].window == k
    && b in s.held && s.held[b].window == k < |s.windows| && |s.windows[k]| == n && Copies(s.windows[k], 0) == n
    && e.id == 0 && e.kind == "order" && forall j | 0 <= j < n :: s.windows[k][j] == e
  }

  lemma FailsHandler(w: World, s: Stage, coop: bool, max: nat, r: nat, i: nat, b: nat, k: nat, e: Event, n: nat)
    requires At(w, s, coop, max) && InBatch(s, r, i, b, k, e, n) && i < n
    ensures At(Apply(Workers(), w, Dispatch(0, false)), s.(phase := Nacking(r, i, false)), coop, max)
  {
    assert Worker().Knows("order");
  }

  lemma NacksIt(w: World, s: Stage, coop: bool, max: nat, r: nat, i: nat, b: nat, k: nat, e: Event, n: nat)
    requires At(w, s.(phase := Nacking(r, i, false)), coop, max) && InBatch(s, r, i, b, k, e, n) && i < n
    requires e.retry < max && s.retries == map[]
    ensures At(Apply(Workers(), w, Nack(0, Fine)),
               s.(phase := Dispatching(r, i + 1, false),
                  retries := if n > 1 then map[] else map[0 := e.(retry := e.retry + 1)]), coop, max)
  {
    assert s.windows[k][i] == e;
  }

  /** The handler of the next message fails, and its nack is answered with success. */
  lemma FailsAndNacks(w: World, s: Stage, coop: bool, max: nat, r: nat, i: nat, b: nat, k: nat, e: Event, n: nat)
    requires At(w, s, coop, max) && InBatch(s, r, i, b, k, e, n) && i < n && e.retry < max && s.retries == map[]
    ensures At(Apply(Workers(), Apply(Workers(), w, Dispatch(0, false)), Nack(0, Fine)),
               s.(phase := Dispatching(r, i + 1, false),
                  retries := if n > 1 then map[] else map[0 := e.(retry := e.retry + 1)]), coop, max)
  {
    FailsHandler(w, s, coop, max, r, i, b, k, e, n);
    NacksIt(Apply(Workers(), w, Dispatch(0, false)), s, coop, max, r, i, b, k, e, n);
  }

  lemma Acks(w: World, s: Stage, coop: bool, max: nat, r: nat, b: nat, k: nat, e: Event, n: nat)
    requires At(w, s, coop, max) && InBatch(s, r, n, b, k, e, n) && s.held == map[b := Hold(0, k)]
    ensures At(Apply(Workers(), w, Ack(0, Fine)),
               s.(phase := Ready, held := map[], cursor := s.cursor + if coop then 0 else 1), coop, max)
  {
    assert s.held - {b} == map[];
  }

  lemma LeavesUnacked(w: World, s: Stage, coop: bool, max: nat, r: nat, b: nat, k: nat, e: Event, n: nat)
    requires At(w, s, coop, max) && InBatch(s, r, n, b, k, e, n)
    ensures At(Apply(Workers(), Apply(Workers(), w, Ack(0, Refused)), Wake(0)), s.(phase := Ready), coop, max)
  {
  }

  lemma Requeues(w: World, s: Stage, coop: bool, max: nat, e: Event)
    requires At(w, s, coop, max) && s.retries == map[0 := e]
    ensures At(Apply(Workers(), w, Requeue(0)), s.(pending := s.pending + [e], retries := map[]), coop, max)
  {
    assert s.retries - {0} == map[];
  }

  lemma Ticks(w: World, s: Stage, coop: bool, max: nat)
    requires At(w, s, coop, max)
    ensures At(Apply(Workers(), w, Tick), s.(windows := s.windows + [ById(s.pending)], pending := []), coop, max)
  {
  }

  // ----- the run -----

  /** The world is reached by these actions and stands at this stage; stated so that it is used only where
      a proof names it. */
  ghost predicate Reached(coop: bool, max: nat, acts: seq<Action>, w: World, s: Stage) {
    Ran(Workers(), coop, max, acts, w) && forall x: nat {:trigger Shown(x)} :: Shown(x) ==> At(w, s, coop, max)
  }

  lemma Stands(coop: bool, max: nat, acts: seq<Action>, w: World, s: Stage)
    ensures Reached(coop, max, acts, w, s) <==> Ran(Workers(), coop, max, acts, w) && At(w, s, coop, max)
  {
    assert Shown(0);
  }

  lemma OnBy(coop: bool, max: nat, acts: seq<Action>, w: World, s: Stage, a: Action, t: Stage)
      returns (more: seq<Action>, v: World)
    requires Reached(coop, max, acts, w, s) && w.q.Valid() && At(Apply(Workers(), w, a), t, coop, max)
    ensures Reached(coop, max, more, v, t) && v == Apply(Workers(), w, a)
  {
    RanOne(Workers(), coop, max, acts, w, a);
    more, v := acts + [a], Apply(Workers(), w, a);
  }

  lemma ReceiveNext(coop: bool, max: nat, acts: seq<Action>, w: World, s: Stage)
      returns (more: seq<Action>, v: World, t: Stage)
    requires Reached(coop, max, acts, w, s) && s.phase == Ready && s.held == map[] && s.cursor < |s.windows|
    requires forall events <- s.windows :: 1 <= |events| <= 10
    ensures Reached(coop, max, more, v, t)
    ensures t == s.(held := map[s.nextBatch := Hold(0, s.cursor)], cursor := s.cursor + (if coop then 1 else 0),
                    nextBatch := s.nextBatch + 1, phase := Dispatching(|s.rounds|, 0, false),
                    rounds := s.rounds + [Round(0, s.nextBatch, s.cursor)])
  {
    Stands(coop, max, acts, w, s);
    ReceivesNext(w, s, coop, max);
    t := s.(held := map[s.nextBatch := Hold(0, s.cursor)], cursor := s.cursor + (if coop then 1 else 0),
            nextBatch := s.nextBatch + 1, phase := Dispatching(|s.rounds|, 0, false),
            rounds := s.rounds + [Round(0, s.nextBatch, s.cursor)]);
    more, v := OnBy(coop, max, acts, w, s, Receive(0, None, Fine), t);
  }

  lemma ReceiveAgain(coop: bool, max: nat, acts: seq<Action>, w: World, s: Stage, b: nat, k: nat)
      returns (more: seq<Action>, v: World, t: Stage)
    requires Reached(coop, max, acts, w, s) && s.phase == Ready && s.held == map[b := Hold(0, k)]
    requires forall events <- s.windows :: 1 <= |events| <= 10
    ensures Reached(coop, max, more, v, t)
    ensures t == s.(phase := Dispatching(|s.rounds|, 0, false), rounds := s.rounds + [Round(0, b, k)])
  {
    Stands(coop, max, acts, w, s);
    ReceivesAgain(w, s, coop, max, b, k);
    t := s.(phase := Dispatching(|s.rounds|, 0, false), rounds := s.rounds + [Round(0, b, k)]);
    more, v := OnBy(coop, max, acts, w, s, Receive(0, None, Fine), t);
  }

  lemma Fail(coop: bool, max: nat, acts: seq<Action>, w: World, s: Stage,
             r: nat, i: nat, b: nat, k: nat, e: Event, n: nat)
      returns (more: seq<Action>, v: World, t: Stage)
    requires Reached(coop, max, acts, w, s) && InBatch(s, r, i, b, k, e, n) && i < n
    requires e.retry < max && s.retries == map[]
    ensures Reached(coop, max, more, v, t)
    ensures t == s.(phase := Dispatching(r, i + 1, false),
                    retries := if n > 1 then map[] else map[0 := e.(retry := e.retry + 1)])
  {
    Stands(coop, max, acts, w, s);
    FailsAndNacks(w, s, coop, max, r, i, b, k, e, n);
    t := s.(phase := Dispatching(r, i + 1, false),
            retries := if n > 1 then map[] else map[0 := e.(retry := e.retry + 1)]);
    RanOne(Workers(), coop, max, acts, w, Dispatch(0, false));
    RanOne(Workers(), coop, max, acts + [Dispatch(0, false)], Apply(Workers(), w, Dispatch(0, false)), Nack(0, Fine));
    more := acts + [Dispatch(0, false)] + [Nack(0, Fine)];
    v := Apply(Workers(), Apply(Workers(), w, Dispatch(0, false)), Nack(0, Fine));
  }

  lemma Acknowledge(coop: bool, max: nat, acts: seq<Action>, w: World, s: Stage,
                    r: nat, b: nat, k: nat, e: Event, n: nat)
      returns (more: seq<Action>, v: World, t: Stage)
    requires Reached(coop, max, acts, w, s) && InBatch(s, r, n, b, k, e, n) && s.held == map[b := Hold(0, k)]
    ensures Reached(coop, max, more, v, t)
    ensures t == s.(phase := Ready, held := map[], cursor := s.cursor + if coop then 0 else 1)
  {
    Stands(coop, max, acts, w, s);
    Acks(w, s, coop, max, r, b, k, e, n);
    t := s.(phase := Ready, held := map[], cursor := s.cursor + if coop then 0 else 1);
    more, v := OnBy(coop, max, acts, w, s, Ack(0, Fine), t);
  }

  lemma LeaveUnacked(coop: bool, max: nat, acts: seq<Action>, w: World, s: Stage,
                     r: nat, b: nat, k: nat, e: Event, n: nat)
      returns (more: seq<Action>, v: World, t: Stage)
    requires Reached(coop, max, acts, w, s) && InBatch(s, r, n, b, k, e, n)
    ensures Reached(coop, max, more, v, t) && t == s.(phase := Ready)
  {
    Stands(coop, max, acts, w, s);
    LeavesUnacked(w, s, coop, max, r, b, k, e, n);
    t := s.(phase := Ready);
    RanOne(Workers(), coop, max, acts, w, Ack(0, Refused));
    RanOne(Workers(), coop, max, acts + [Ack(0, Refused)], Apply(Workers(), w, Ack(0, Refused)), Wake(0));
    more := acts + [Ack(0, Refused)] + [Wake(0)];
    v := Apply(Workers(), Apply(Workers(), w, Ack(0, Refused)), Wake(0));
  }

  lemma ComesBack(coop: bool, max: nat, acts: seq<Action>, w: World, s: Stage, e: Event)
      returns (more: seq<Action>, v: World, t: Stage)
    requires Reached(coop, max, acts, w, s) && s.retries == map[0 := e]
    ensures Reached(coop, max, more, v, t) && t == s.(pending := s.pending + [e], retries := map[])
  {
    Stands(coop, max, acts, w, s);
    Requeues(w, s, coop, max, e);
    t := s.(pending := s.pending + [e], retries := map[]);
    more, v := OnBy(coop, max, acts, w, s, Requeue(0), t);
  }

  lemma TickOver(coop: bool, max: nat, acts: seq<Action>, w: World, s: Stage)
      returns (more: seq<Action>, v: World, t: Stage)
    requires Reached(coop, max, acts, w, s)
    ensures Reached(coop, max, more, v, t) && t == s.(windows := s.windows + [ById(s.pending)], pending := [])
  {
    Stands(coop, max, acts, w, s);
    Ticks(w, s, coop, max);
    t := s.(windows := s.windows + [ById(s.pending)], pending := []);
    more, v := OnBy(coop, max, acts, w, s, Tick, t);
  }

  /** One event is sent and ticked. */
  lemma Sent(coop: bool, max: nat) returns (acts: seq<Action>, w: World, s: Stage)
    ensures Reached(coop, max, acts, w, s) && s == Stage([[First]], [], map[], map[], 0, 1, Ready, [])
  {
    var start := Start(coop, max);
    RanIsRun(Workers(), coop, max, [], start);
    RanOne(Workers(), coop, max, [], start, Send("order"));
    w := Apply(Workers(), start, Send("order"));
    s := Stage([], [First], map[], map[], 0, 1, Ready, []);
    assert At(w, s, coop, max);
    Stands(coop, max, [Send("order")], w, s);
    assert ById([First]) == [First];
    acts, w, s := TickOver(coop, max, [] + [Send("order")], w, s);
  }

  /** Its handler fails, the ack fails, and the event is requeued. */
  lemma FailedOnce(coop: bool, max: nat) returns (acts: seq<Action>, w: World, s: Stage)
    requires max >= 2
    ensures Reached(coop, max, acts, w, s)
    ensures s == Stage([[First]], [Second], map[], map[1 := Hold(0, 0)], if coop then 1 else 0, 2, Ready,
                       [Round(0, 1, 0)])
  {
    OneCopy(First);
    acts, w, s := Sent(coop, max);
    acts, w, s := ReceiveNext(coop, max, acts, w, s);
    acts, w, s := Fail(coop, max, acts, w, s, 0, 0, 1, 0, First, 1);
    acts, w, s := LeaveUnacked(coop, max, acts, w, s, 0, 1, 0, First, 1);
    acts, w, s := ComesBack(coop, max, acts, w, s, Second);
  }

  /** The batch comes back, its handler fails again, and it is acked. */
  lemma FailedAgain(coop: bool, max: nat) returns (acts: seq<Action>, w: World, s: Stage)
    requires max >= 2
    ensures Reached(coop, max, acts, w, s)
    ensures s == Stage([[First]], [Second], map[0 := Second], map[], 1, 2, Ready, [Round(0, 1, 0), Round(0, 1, 0)])
  {
    OneCopy(First);
    acts, w, s := FailedOnce(coop, max);
    acts, w, s := ReceiveAgain(coop, max, acts, w, s, 1, 0);
    acts, w, s := Fail(coop, max, acts, w, s, 1, 0, 1, 0, First, 1);
    acts, w, s := Acknowledge(coop, max, acts, w, s, 1, 1, 0, First, 1);
  }

  /** The event is requeued again, and ticked. */
  lemma FailedTwice(coop: bool, max: nat) returns (acts: seq<Action>, w: World, s: Stage)
    requires max >= 2
    ensures Reached(coop, max, acts, w, s)
    ensures s == Stage([[First], [Second, Second]], [], map[], map[], 1, 2, Ready, [Round(0, 1, 0), Round(0, 1, 0)])
  {
    acts, w, s := FailedAgain(coop, max);
    acts, w, s := ComesBack(coop, max, acts, w, s, Second);
    assert ById([Second]) == [Second] && ById([Second, Second]) == [Second, Second];
    acts, w, s := TickOver(coop, max, acts, w, s);
  }

  lemma OneCopy(e: Event)
    requires e.id == 0
    ensures Copies([e], 0) == 1 && Copies([e, e], 0) == 2
  {
    assert [e][..0] == [] && [e, e][..1] == [e];
  }

  /** Both copies fail, both nacks are answered with success, the ack counts 1, and the event is gone: it
      was never served, and is in no table, not among the unticked events, and in no unfinished window. */
  lemma EventIsLost(coop: bool, max: nat) returns (acts: seq<Action>)
    requires max >= 2
    ensures var v := Run(Workers(), Start(coop, max), acts); v.q.nextId == 1 && !Safe(v, 0, -1)
  {
    var w, s;
    OneCopy(Second);
    acts, w, s := FailedTwice(coop, max);
    acts, w, s := ReceiveNext(coop, max, acts, w, s);
    acts, w, s := Fail(coop, max, acts, w, s, 2, 0, 2, 1, Second, 2);
    acts, w, s := Fail(coop, max, acts, w, s, 2, 1, 2, 1, Second, 2);
    acts, w, s := Acknowledge(coop, max, acts, w, s, 2, 2, 1, Second, 2);
    Stands(coop, max, acts, w, s);
    RanIsRun(Workers(), coop, max, acts, w);
    GoneAt(w, s, coop, max);
  }

  lemma GoneAt(w: World, s: Stage, coop: bool, max: nat)
    requires At(w, s, coop, max) && s.pending == [] && s.retries == map[] && s.held == map[] && s.cursor == |s.windows|
    ensures !Safe(w, 0, -1)
  {
    assert forall k: nat :: !w.q.Unfinished(k);
  }

  /** Conservation, with its exact condition: every event is accounted for in every run of every fleet if
      and only if the queue's retry limit is at most one. */
  lemma ConservationHoldsExactly(coop: bool, max: nat)
    ensures (forall c: Fleet, acts: seq<Action>, id: nat ::
               id < Run(c, Start(coop, max), acts).q.nextId ==>
                 Safe(Run(c, Start(coop, max), acts), id, -1)) <==> max <= 1
  {
    if max <= 1 {
      forall c: Fleet, acts: seq<Action>, id: nat | id < Run(c, Start(coop, max), acts).q.nextId
        ensures Safe(Run(c, Start(coop, max), acts), id, -1)
      {
        LimitedRunsLoseNothing(c, coop, max, acts, id);
      }
    } else {
      var acts := EventIsLost(coop, max);
      assert 0 < Run(Workers(), Start(coop, max), acts).q.nextId;
    }
  }
}
