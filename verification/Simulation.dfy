/** Every effect of a transactional poll is one the non-transactional protocol can have, so what
    holds for every run of the protocol holds for every run of Python and Ruby workers. */
module Simulation {
  import opened Options
  import opened Engine
  import opened Protocol
  import opened Safety
  import opened Conservation
  import opened Guarantees
  import opened Order
  import opened Decisions
  import opened Runs
  import opened Transactions

  /** The messages served by a poll: their handler returned, or the policy passed them over. */
  function ServedBy(c: Config, msgs: seq<Msg>, e: Circumstances): set<nat> {
    if msgs == [] then {}
    else
      var n := |msgs| - 1;
      ServedBy(c, msgs[..n], e) + if Serves(c, msgs[n], e.outcome(n)) then {msgs[n].id} else {}
  }

  predicate Serves(c: Config, m: Msg, o: Outcome) {
    if c.Knows(m.kind) then o.Returns? else c.policy == AckUnknown
  }

  /** The protocol actions that mimic the dispatch of one message. */
  function Mimic(c: Config, k: nat, m: Msg, o: Outcome, fate: Fate): seq<Action> {
    [Dispatch(k, c.Knows(m.kind) && o.Returns?)]
      + if NeedsNack(c, m, o) then [Action.Nack(k, if fate.Runs? then Fine else Refused)] else []
  }

  function MimicAll(c: Config, k: nat, msgs: seq<Msg>, e: Circumstances): seq<Action> {
    if msgs == [] then []
    else
      var n := |msgs| - 1;
      MimicAll(c, k, msgs[..n], e) + Mimic(c, k, msgs[n], e.outcome(n), e.nack(n))
  }

  lemma MimicNext(c: Config, k: nat, msgs: seq<Msg>, i: nat, e: Circumstances)
    requires i < |msgs|
    ensures MimicAll(c, k, msgs[..i + 1], e) ==
      MimicAll(c, k, msgs[..i], e) + Mimic(c, k, msgs[i], e.outcome(i), e.nack(i))
  {
    assert msgs[..i + 1][..i] == msgs[..i];
  }

  ghost predicate OnlyServes(w: World, v: World, ids: set<nat>) {
    && (forall m <- v.handled :: m in w.handled || m.id in ids)
    && (forall m <- v.skipped :: m in w.skipped || m.id in ids)
  }

  /** Worker k is at message i of round r, whose messages are `msgs`. */
  ghost predicate Dispatches(w: World, k: nat, r: nat, i: nat, failed: bool, msgs: seq<Msg>) {
    && w.q.Valid() && w.At(k) == Dispatching(r, i, failed) && w.HasRound(r)
    && msgs == Stamped(w.rounds[r].token, w.Messages(r)) && i <= |msgs|
    && BatchOf(w.q, w.rounds[r].token, msgs)
  }

  lemma MimicSkipOrServe(c: Fleet, w: World, k: nat, r: nat, i: nat, failed: bool, msgs: seq<Msg>, o: Outcome,
                         fate: Fate)
    requires Dispatches(w, k, r, i, failed, msgs) && i < |msgs| && !LetsThrough(c(k), msgs[i], o)
    requires !NeedsNack(c(k), msgs[i], o)
    ensures var v := Run(c, w, Mimic(c(k), k, msgs[i], o, fate));
      Dispatches(v, k, r, i + 1, failed, msgs) && v.q == w.q
      && OnlyServes(w, v, {msgs[i].id}) && Serves(c(k), msgs[i], o)
      && v.rounds == w.rounds && v.dropped == w.dropped
  {
    var ok := c(k).Knows(msgs[i].kind) && o.Returns?;
    assert Mimic(c(k), k, msgs[i], o, fate) == [Dispatch(k, ok)];
    RunOne(c, w, Dispatch(k, ok));
    ApplyDispatch(c, w, k, ok);
    SkipOrServe(c(k), w, k, r, i, failed, msgs, o);
  }

  lemma SkipOrServe(c: Config, w: World, k: nat, r: nat, i: nat, failed: bool, msgs: seq<Msg>, o: Outcome)
    requires Dispatches(w, k, r, i, failed, msgs) && i < |msgs| && !LetsThrough(c, msgs[i], o)
    requires !NeedsNack(c, msgs[i], o)
    ensures var v := DoDispatch(c, w, k, c.Knows(msgs[i].kind) && o.Returns?);
      Dispatches(v, k, r, i + 1, failed, msgs) && v.q == w.q
      && OnlyServes(w, v, {msgs[i].id}) && Serves(c, msgs[i], o)
      && v.rounds == w.rounds && v.dropped == w.dropped
  {
  }

  lemma RunTwo(c: Fleet, w: World, a: Action, b: Action)
    requires w.q.Valid()
    ensures Run(c, w, [a, b]) == Apply(c, Apply(c, w, a), b)
  {
    assert [a, b][1..] == [b];
    assert Run(c, Apply(c, w, a), [b]) == Apply(c, Apply(c, w, a), b);
  }

  lemma NackAtMessage(w: World, k: nat, r: nat, i: nat, failed: bool, msgs: seq<Msg>, runs: bool)
    requires Dispatches(w.Go(k, Dispatching(r, i, failed)), k, r, i, failed, msgs) && i < |msgs|
    requires w.At(k) == Nacking(r, i, failed)
    ensures var v := DoNack(w, k, if runs then Fine else Refused); var b := w.rounds[r].token;
      && v == w.(q := v.q, routed := v.routed, dropped := v.dropped).Go(k, Dispatching(r, i + 1, failed || !runs))
      && v.q == (if runs then Engine.Nack(w.q, b, msgs[i].id).0 else w.q)
      && v.dropped == w.dropped + if runs && Drops(w.q, b, msgs[i].id) then {msgs[i].id} else {}
  {
    assert msgs[i] in msgs;
  }

  lemma DispatchToNack(c: Config, w: World, k: nat, r: nat, i: nat, failed: bool, msgs: seq<Msg>, o: Outcome)
    requires Dispatches(w, k, r, i, failed, msgs) && i < |msgs| && NeedsNack(c, msgs[i], o)
    ensures var u := DoDispatch(c, w, k, false); u == w.(calls := u.calls).Go(k, Nacking(r, i, failed))
  {
  }

  lemma DispatchesOn(w: World, v: World, k: nat, r: nat, i: nat, j: nat, failed: bool, f: bool, msgs: seq<Msg>)
    requires Dispatches(w, k, r, i, failed, msgs) && j <= |msgs|
    requires v.q.Valid() && OnlyRoutes(w.q, v.q) && v.rounds == w.rounds && v.At(k) == Dispatching(r, j, f)
    ensures Dispatches(v, k, r, j, f, msgs)
  {
  }

  lemma ApplyDispatch(c: Fleet, w: World, k: nat, ok: bool)
    requires w.q.Valid()
    ensures Apply(c, w, Dispatch(k, ok)) == DoDispatch(c(k), w, k, ok)
  {
  }

  lemma ApplyNack(c: Fleet, w: World, k: nat, fault: Fault)
    requires w.q.Valid()
    ensures Apply(c, w, Action.Nack(k, fault)) == DoNack(w, k, fault)
  {
  }

  lemma MimicIsTwoSteps(c: Fleet, w: World, k: nat, m: Msg, o: Outcome, fate: Fate)
    requires w.q.Valid() && NeedsNack(c(k), m, o)
    ensures Run(c, w, Mimic(c(k), k, m, o, fate)) ==
      DoNack(DoDispatch(c(k), w, k, false), k, if fate.Runs? then Fine else Refused)
  {
    var fault := if fate.Runs? then Fine else Refused;
    ApplyDispatch(c, w, k, false);
    ApplyNack(c, DoDispatch(c(k), w, k, false), k, fault);
    RunTwo(c, w, Dispatch(k, false), Action.Nack(k, fault));
  }

  lemma NackAfterDispatch(c: Config, w: World, k: nat, r: nat, i: nat, failed: bool, msgs: seq<Msg>, o: Outcome,
                          runs: bool)
    requires Dispatches(w, k, r, i, failed, msgs) && i < |msgs| && NeedsNack(c, msgs[i], o)
    ensures var v := DoNack(DoDispatch(c, w, k, false), k, if runs then Fine else Refused); var b := w.rounds[r].token;
      && v.At(k) == Dispatching(r, i + 1, failed || !runs)
      && v.handled == w.handled && v.skipped == w.skipped && v.rounds == w.rounds
      && v.q == (if runs then Engine.Nack(w.q, b, msgs[i].id).0 else w.q)
      && v.dropped == w.dropped + if runs && Drops(w.q, b, msgs[i].id) then {msgs[i].id} else {}
  {
    var u := DoDispatch(c, w, k, false);
    DispatchToNack(c, w, k, r, i, failed, msgs, o);
    DispatchesOn(w, u.Go(k, Dispatching(r, i, failed)), k, r, i, i, failed, failed, msgs);
    NackAtMessage(u, k, r, i, failed, msgs, runs);
  }

  lemma MimicNack(c: Fleet, w: World, k: nat, r: nat, i: nat, failed: bool, msgs: seq<Msg>, o: Outcome, fate: Fate)
    requires Dispatches(w, k, r, i, failed, msgs) && i < |msgs| && NeedsNack(c(k), msgs[i], o)
    ensures var v := Run(c, w, Mimic(c(k), k, msgs[i], o, fate)); var b := w.rounds[r].token;
      Dispatches(v, k, r, i + 1, failed || !fate.Runs?, msgs) && OnlyServes(w, v, {}) && v.rounds == w.rounds
      && v.q == (if fate.Runs? then Engine.Nack(w.q, b, msgs[i].id).0 else w.q)
      && v.dropped == w.dropped + if fate.Runs? && Drops(w.q, b, msgs[i].id) then {msgs[i].id} else {}
  {
    MimicIsTwoSteps(c, w, k, msgs[i], o, fate);
    NackAfterDispatch(c(k), w, k, r, i, failed, msgs, o, fate.Runs?);
    var v := Run(c, w, Mimic(c(k), k, msgs[i], o, fate));
    DispatchesOn(w, v, k, r, i, i + 1, failed, failed || !fate.Runs?, msgs);
  }

  /** The mimicking run is at message i: the nacks of `ran` took effect and `ids` were served. */
  ghost predicate MimicAt(w: World, v: World, k: nat, r: nat, i: nat, failed: bool, ran: seq<nat>, ids: set<nat>,
                          msgs: seq<Msg>) {
    && w.HasRound(r) && w.q.Valid() && v.rounds == w.rounds
    && Dispatches(v, k, r, i, failed, msgs)
    && v.q == RouteAll(w.q, w.rounds[r].token, ran)
    && v.dropped == w.dropped + DroppedBy(w.q, w.rounds[r].token, ran)
    && OnlyServes(w, v, ids)
  }

  /** Where the mimicking run stands after the given messages. */
  ghost predicate Mimicked(c: Config, w: World, v: World, k: nat, r: nat, pre: seq<Msg>, msgs: seq<Msg>,
                           e: Circumstances) {
    MimicAt(w, v, k, r, |pre|, Chosen(c, pre, e, {SqlError, LocalError}) != [], Chosen(c, pre, e, {Runs}),
            ServedBy(c, pre, e), msgs)
  }

  lemma ReachNext(c: Fleet, w: World, u: World, k: nat, r: nat, i: nat, failed: bool, ran: seq<nat>, ids: set<nat>,
                  msgs: seq<Msg>, o: Outcome, fate: Fate)
    requires MimicAt(w, u, k, r, i, failed, ran, ids, msgs) && i < |msgs| && NeedsNack(c(k), msgs[i], o)
    ensures MimicAt(w, Run(c, u, Mimic(c(k), k, msgs[i], o, fate)), k, r, i + 1, failed || !fate.Runs?,
                    if fate.Runs? then ran + [msgs[i].id] else ran, ids, msgs)
  {
    var v := Run(c, u, Mimic(c(k), k, msgs[i], o, fate));
    MimicNack(c, u, k, r, i, failed, msgs, o, fate);
    ServesMore(w, u, v, ids);
    if fate.Runs? {
      NackedNext(w, u, v, k, r, i, failed, ran, ids, msgs);
    } else {
      RefusedNext(w, u, v, k, r, i, failed, ran, ids, msgs);
    }
  }

  /** After one more nack that did not run. */
  lemma RefusedNext(w: World, u: World, v: World, k: nat, r: nat, i: nat, failed: bool, ran: seq<nat>, ids: set<nat>,
                    msgs: seq<Msg>)
    requires MimicAt(w, u, k, r, i, failed, ran, ids, msgs) && v.rounds == u.rounds && v.q == u.q
    requires Dispatches(v, k, r, i + 1, true, msgs) && OnlyServes(w, v, ids) && v.dropped == u.dropped
    ensures MimicAt(w, v, k, r, i + 1, true, ran, ids, msgs)
  {
  }

  /** After one more nack that ran. */
  lemma NackedNext(w: World, u: World, v: World, k: nat, r: nat, i: nat, failed: bool, ran: seq<nat>, ids: set<nat>,
                   msgs: seq<Msg>)
    requires MimicAt(w, u, k, r, i, failed, ran, ids, msgs) && i < |msgs| && v.rounds == u.rounds
    requires Dispatches(v, k, r, i + 1, failed, msgs) && OnlyServes(w, v, ids)
    requires var b := w.rounds[r].token;
      && v.q == Engine.Nack(u.q, b, msgs[i].id).0
      && v.dropped == u.dropped + if Drops(u.q, b, msgs[i].id) then {msgs[i].id} else {}
    ensures MimicAt(w, v, k, r, i + 1, failed, ran + [msgs[i].id], ids, msgs)
  {
    RouteOneMore(w.q, w.rounds[r].token, ran, msgs[i].id);
  }

  lemma ServesMore(w: World, u: World, v: World, ids: set<nat>)
    requires OnlyServes(w, u, ids) && OnlyServes(u, v, {})
    ensures OnlyServes(w, v, ids)
  {
  }

  lemma CountNack(c: Config, pre: seq<Msg>, e: Circumstances)
    requires pre != [] && NeedsNack(c, pre[|pre| - 1], e.outcome(|pre| - 1))
    ensures var n := |pre| - 1;
      && (Chosen(c, pre, e, {SqlError, LocalError}) != [])
           == (Chosen(c, pre[..n], e, {SqlError, LocalError}) != [] || !e.nack(n).Runs?)
      && Chosen(c, pre, e, {Runs})
           == (if e.nack(n).Runs? then Chosen(c, pre[..n], e, {Runs}) + [pre[n].id] else Chosen(c, pre[..n], e, {Runs}))
      && ServedBy(c, pre, e) == ServedBy(c, pre[..n], e)
  {
    ChosenTurn(c, pre, e, {Runs});
    ChosenTurn(c, pre, e, {SqlError, LocalError});
    assert ServedBy(c, pre, e) == ServedBy(c, pre[..|pre| - 1], e) + {};
  }

  lemma MimicOneServed(c: Fleet, w: World, u: World, k: nat, r: nat, pre: seq<Msg>, msgs: seq<Msg>, e: Circumstances)
    requires pre != [] && pre <= msgs && Mimicked(c(k), w, u, k, r, pre[..|pre| - 1], msgs, e)
    requires !LetsThrough(c(k), pre[|pre| - 1], e.outcome(|pre| - 1))
    requires !NeedsNack(c(k), pre[|pre| - 1], e.outcome(|pre| - 1))
    ensures var n := |pre| - 1;
      Mimicked(c(k), w, Run(c, u, Mimic(c(k), k, pre[n], e.outcome(n), e.nack(n))), k, r, pre, msgs, e)
  {
    var n := |pre| - 1;
    assert pre[n] == msgs[n] && |pre[..n]| == n;
    ChosenTurn(c(k), pre, e, {Runs});
    ChosenTurn(c(k), pre, e, {SqlError, LocalError});
    MimicSkipOrServe(c, u, k, r, n, Chosen(c(k), pre[..n], e, {SqlError, LocalError}) != [], msgs, e.outcome(n),
                     e.nack(n));
  }

  lemma {:induction false} MimicDispatch(c: Fleet, w: World, k: nat, r: nat, pre: seq<Msg>, msgs: seq<Msg>,
                                         e: Circumstances)
    requires Dispatches(w, k, r, 0, false, msgs) && pre <= msgs && !Escaped(c(k), pre, e.outcome)
    ensures Mimicked(c(k), w, Run(c, w, MimicAll(c(k), k, pre, e)), k, r, pre, msgs, e)
    decreases |pre|
  {
    if pre != [] {
      var n := |pre| - 1;
      assert !Escaped(c(k), pre[..n], e.outcome) && !LetsThrough(c(k), pre[n], e.outcome(n));
      MimicDispatch(c, w, k, r, pre[..n], msgs, e);
      RunAppend(c, w, MimicAll(c(k), k, pre[..n], e), Mimic(c(k), k, pre[n], e.outcome(n), e.nack(n)));
      var u := Run(c, w, MimicAll(c(k), k, pre[..n], e));
      if NeedsNack(c(k), pre[n], e.outcome(n)) {
        CountNack(c(k), pre, e);
        assert pre[n] == msgs[n] && |pre[..n]| == n;
        ReachNext(c, w, u, k, r, n, Chosen(c(k), pre[..n], e, {SqlError, LocalError}) != [],
                  Chosen(c(k), pre[..n], e, {Runs}),
                  ServedBy(c(k), pre[..n], e), msgs, e.outcome(n), e.nack(n));
      } else {
        MimicOneServed(c, w, u, k, r, pre, msgs, e);
      }
    }
  }

  // ----- a whole poll -----

  /** The round the protocol starts for the poll's receive. */
  lemma MimicReceive(c: Fleet, w: World, k: nat, victim: Option<nat>)
    requires w.q.Valid() && w.At(k) == Ready && Engine.Receive(w.q, k, c(k).ceiling, victim).1.Batch?
    ensures var (q, d) := Engine.Receive(w.q, k, c(k).ceiling, victim);
      var v := Apply(c, w, Action.Receive(k, victim, Fine));
      && v.q == q && v.handled == w.handled && v.skipped == w.skipped && v.dropped == w.dropped
      && v.rounds == w.rounds + [Round(k, d.token, d.window)]
      && Dispatches(v, k, |w.rounds|, 0, false, Stamped(d.token, d.events))
  {
    var (q, d) := Engine.Receive(w.q, k, c(k).ceiling, victim);
    var v := Apply(c, w, Action.Receive(k, victim, Fine));
    ReceiveContract(w.q, k, c(k).ceiling, victim);
    ReceivedIsBatch(w.q, k, c(k).ceiling, victim);
    BatchStarts(w, k, c(k).ceiling, victim);
    RoundStarts(v, k, |w.rounds|, d.token, d.window, d.events);
  }

  lemma RoundStarts(v: World, k: nat, r: nat, b: nat, window: nat, events: seq<Event>)
    requires v.q.Valid() && v.At(k) == Dispatching(r, 0, false) && r < |v.rounds| && v.rounds[r] == Round(k, b, window)
    requires window < |v.q.windows| && events == v.q.windows[window] && BatchOf(v.q, b, Stamped(b, events))
    ensures Dispatches(v, k, r, 0, false, Stamped(b, events))
  {
  }

  lemma MimicAck(c: Fleet, w: World, k: nat, r: nat, failed: bool, msgs: seq<Msg>)
    requires Dispatches(w, k, r, |msgs|, failed, msgs)
    ensures var v := Apply(c, w, Action.Ack(k, Fine));
      && v.q == (if failed then w.q else Engine.Ack(w.q, w.rounds[r].token).0)
      && v.handled == w.handled && v.skipped == w.skipped && v.dropped == w.dropped && v.At(k) in {Ready, Waiting}
  {
  }

  function RoundActions(c: Config, k: nat, msgs: seq<Msg>, e: Circumstances): seq<Action> {
    [Action.Receive(k, e.victim, Fine)] + MimicAll(c, k, msgs, e) + [Action.Ack(k, Fine)]
  }

  lemma RoundRuns(c: Fleet, w: World, k: nat, msgs: seq<Msg>, e: Circumstances)
    requires w.q.Valid()
    ensures var u := Run(c, Apply(c, w, Action.Receive(k, e.victim, Fine)), MimicAll(c(k), k, msgs, e));
      Run(c, w, RoundActions(c(k), k, msgs, e)) == Apply(c, u, Action.Ack(k, Fine))
  {
    var receive := [Action.Receive(k, e.victim, Fine)];
    var body := MimicAll(c(k), k, msgs, e);
    var end := [Action.Ack(k, Fine)];
    RunOne(c, w, receive[0]);
    RunOne(c, Run(c, Run(c, w, receive), body), end[0]);
    RunAppend(c, w, receive, body);
    RunAppend(c, w, receive + body, end);
  }

  /** The poll received a batch and commits what it did to it. */
  predicate CommitsBatch(c: Config, q: Queue, k: nat, e: Circumstances)
    requires q.Valid()
  {
    var d := Engine.Receive(q, k, c.ceiling, e.victim).1;
    e.receive.Runs? && d.Batch? &&
      (Completes(c, Stamped(d.token, d.events), e) || KeepsNacks(c, Stamped(d.token, d.events), e))
  }

  function PollMessages(c: Config, q: Queue, k: nat, e: Circumstances): seq<Msg>
    requires q.Valid() && CommitsBatch(c, q, k, e)
  {
    var d := Engine.Receive(q, k, c.ceiling, e.victim).1;
    Stamped(d.token, d.events)
  }

  function PollDrops(c: Config, q: Queue, k: nat, e: Circumstances): set<nat>
    requires q.Valid()
  {
    if !CommitsBatch(c, q, k, e) then {}
    else
      var (r, d) := Engine.Receive(q, k, c.ceiling, e.victim);
      ReceiveContract(q, k, c.ceiling, e.victim);
      DroppedBy(r, d.token, Chosen(c, PollMessages(c, q, k, e), e, {Runs}))
  }

  /** A poll that commits what it did to a batch is one round of the protocol: receive, the same
      dispatch with refused nacks for failed ones, and the end of the round. */
  lemma CommittedPollIsARound(c: Fleet, w: World, k: nat, e: Circumstances)
    requires w.q.Valid() && w.At(k) == Ready && e.receive.Runs?
    requires Engine.Receive(w.q, k, c(k).ceiling, e.victim).1.Batch?
    requires var d := Engine.Receive(w.q, k, c(k).ceiling, e.victim).1; var msgs := Stamped(d.token, d.events);
      Completes(c(k), msgs, e) || KeepsNacks(c(k), msgs, e)
    ensures var d := Engine.Receive(w.q, k, c(k).ceiling, e.victim).1; var msgs := Stamped(d.token, d.events);
      var v := Run(c, w, RoundActions(c(k), k, msgs, e));
      && v.q == Poll(c(k), w.q, k, e).0 && v.At(k) in {Ready, Waiting}
      && OnlyServes(w, v, ServedBy(c(k), msgs, e))
      && v.dropped == w.dropped + PollDrops(c(k), w.q, k, e)
  {
    var (q, d) := Engine.Receive(w.q, k, c(k).ceiling, e.victim);
    var msgs := Stamped(d.token, d.events);
    var w1 := Apply(c, w, Action.Receive(k, e.victim, Fine));
    var w2 := Run(c, w1, MimicAll(c(k), k, msgs, e));
    RoundRuns(c, w, k, msgs, e);
    MimicReceive(c, w, k, e.victim);
    MimicDispatch(c, w1, k, |w.rounds|, msgs, msgs, e);
    MimicAck(c, w2, k, |w.rounds|, Chosen(c(k), msgs, e, {SqlError, LocalError}) != [], msgs);
    PollIsAtomic(c(k), w.q, k, e);
    if AllRan(c(k), msgs, e) {
      AllRanIsRequired(c(k), msgs, e);
    }
  }

  // ----- any number of transactional workers -----

  /** What happens to a fleet of Python and Ruby workers: a poll by one of them, or the environment. */
  datatype Step = Outside(action: Action) | PollBy(worker: nat, e: Circumstances)

  /** The queue, and the events served, and dropped by a nack, in polls that committed. */
  datatype State = State(q: Queue, served: set<nat>, dropped: set<nat>)

  /** The poll found nothing, and commits that. */
  predicate CommitsNothing(c: Config, q: Queue, k: nat, e: Circumstances)
    requires q.Valid()
  {
    e.receive.Runs? && Engine.Receive(q, k, c.ceiling, e.victim).1.Nothing? && !e.commit.Broken?
  }

  function PollServes(c: Config, q: Queue, k: nat, e: Circumstances): set<nat>
    requires q.Valid()
  {
    if CommitsBatch(c, q, k, e) then ServedBy(c, PollMessages(c, q, k, e), e) else {}
  }

  lemma PollIsValid(c: Config, q: Queue, k: nat, e: Circumstances)
    requires q.Valid()
    ensures Poll(c, q, k, e).0.Valid()
  {
    ReceiveContract(q, k, c.ceiling, e.victim);
    if e.receive.Runs? && Engine.Receive(q, k, c.ceiling, e.victim).1.Batch? {
      PollIsAtomic(c, q, k, e);
    }
    BurnKeepsWork(q, Engine.Receive(q, k, c.ceiling, e.victim).0.nextBatch);
  }

  function Change(q: Queue, a: Action): (r: Queue)
    requires q.Valid()
    ensures r.Valid()
  {
    match a
    case Send(kind) => DoSend(q, kind)
    case Tick => DoTick(q)
    case Requeue(id) => DoRequeue(q, id)
    case SkipTokens(n) => q.(nextBatch := q.nextBatch + n)
    case _ => q
  }

  function StepState(c: Fleet, s: State, step: Step): (t: State)
    requires s.q.Valid()
    ensures t.q.Valid()
  {
    match step
    case Outside(a) => s.(q := Change(s.q, a))
    case PollBy(k, e) =>
      PollIsValid(c(k), s.q, k, e);
      State(Poll(c(k), s.q, k, e).0, s.served + PollServes(c(k), s.q, k, e), s.dropped + PollDrops(c(k), s.q, k, e))
  }

  function RunSteps(c: Fleet, s: State, steps: seq<Step>): (t: State)
    requires s.q.Valid()
    ensures t.q.Valid()
  {
    if steps == [] then s else StepState(c, RunSteps(c, s, steps[..|steps| - 1]), steps[|steps| - 1])
  }

  function Skip(q: Queue, r: Queue): seq<Action> {
    if r.nextBatch > q.nextBatch then [SkipTokens(r.nextBatch - q.nextBatch)] else []
  }

  /** The protocol actions with the same effect on the queue as a poll. */
  function PollActions(c: Config, q: Queue, k: nat, e: Circumstances): seq<Action>
    requires q.Valid()
  {
    if CommitsBatch(c, q, k, e) then RoundActions(c, k, PollMessages(c, q, k, e), e)
    else if CommitsNothing(c, q, k, e) then [Action.Receive(k, e.victim, Fine)]
    else Skip(q, Poll(c, q, k, e).0)
  }

  lemma OtherPollsUndo(c: Config, q: Queue, k: nat, e: Circumstances)
    requires q.Valid() && !CommitsBatch(c, q, k, e) && !CommitsNothing(c, q, k, e)
    ensures var v := Poll(c, q, k, e).0; q.nextBatch <= v.nextBatch && v == q.(nextBatch := v.nextBatch)
  {
    ReceiveContract(q, k, c.ceiling, e.victim);
    if e.receive.Runs? && Engine.Receive(q, k, c.ceiling, e.victim).1.Batch? {
      PollIsAtomic(c, q, k, e);
    }
  }

  lemma MimicSkip(c: Fleet, w: World, q: Queue)
    requires w.q.Valid() && w.q.nextBatch <= q.nextBatch && q == w.q.(nextBatch := q.nextBatch)
    ensures Run(c, w, Skip(w.q, q)) == w.(q := q)
  {
    if q.nextBatch > w.q.nextBatch {
      RunOne(c, w, SkipTokens(q.nextBatch - w.q.nextBatch));
    }
  }

  lemma MimicEmptyReceive(c: Fleet, w: World, k: nat, e: Circumstances)
    requires w.q.Valid() && w.At(k) == Ready && CommitsNothing(c(k), w.q, k, e)
    ensures var v := Run(c, w, [Action.Receive(k, e.victim, Fine)]);
      v == w.(q := Poll(c(k), w.q, k, e).0).Go(k, Waiting)
  {
    var a := Action.Receive(k, e.victim, Fine);
    RunOne(c, w, a);
    assert Apply(c, w, a) == DoReceive(w, k, c(k).ceiling, e.victim, Fine);
    assert Poll(c(k), w.q, k, e).0 == Engine.Receive(w.q, k, c(k).ceiling, e.victim).0;
  }

  /** Simulation: from any state of the protocol, with any other workers in any phase, a poll has
      the same effect on the queue as some actions of the protocol, and serves no more than they do. */
  lemma MimicPoll(c: Fleet, w: World, k: nat, e: Circumstances)
    requires w.q.Valid() && w.At(k) == Ready
    ensures var v := Run(c, w, PollActions(c(k), w.q, k, e));
      && v.q == Poll(c(k), w.q, k, e).0 && v.At(k) in {Ready, Waiting}
      && OnlyServes(w, v, PollServes(c(k), w.q, k, e)) && v.dropped == w.dropped + PollDrops(c(k), w.q, k, e)
  {
    if CommitsBatch(c(k), w.q, k, e) {
      CommittedPollIsARound(c, w, k, e);
    } else if CommitsNothing(c(k), w.q, k, e) {
      MimicEmptyReceive(c, w, k, e);
    } else {
      OtherPollsUndo(c(k), w.q, k, e);
      MimicSkip(c, w, Poll(c(k), w.q, k, e).0);
    }
  }

  // ----- what carries over -----

  lemma MimicChange(c: Fleet, w: World, a: Action)
    requires w.q.Valid()
    ensures Run(c, w, if FromEnvironment(a) then [a] else []) == w.(q := Change(w.q, a))
  {
    if FromEnvironment(a) {
      RunOne(c, w, a);
    }
  }

  function StepActions(c: Fleet, q: Queue, step: Step): seq<Action>
    requires q.Valid()
  {
    match step
    case Outside(a) => if FromEnvironment(a) then [a] else []
    case PollBy(k, e) => PollActions(c(k), q, k, e) + [Crash(k)]
  }

  lemma CrashRests(c: Fleet, w: World, k: nat)
    requires w.q.Valid() && w.At(k) in {Ready, Waiting}
    ensures Apply(c, w, Crash(k)) == w.Go(k, Ready)
  {
  }

  lemma {:induction false} MimicAllBy(c: Config, k: nat, msgs: seq<Msg>, e: Circumstances)
    ensures forall a <- MimicAll(c, k, msgs, e) :: By(k, a)
  {
    if msgs != [] {
      MimicAllBy(c, k, msgs[..|msgs| - 1], e);
    }
  }

  lemma PollActionsBy(c: Config, q: Queue, k: nat, e: Circumstances)
    requires q.Valid()
    ensures forall a <- PollActions(c, q, k, e) :: By(k, a) || a.SkipTokens?
  {
    if CommitsBatch(c, q, k, e) {
      MimicAllBy(c, k, PollMessages(c, q, k, e), e);
    }
  }

  lemma PollLeavesOthers(c: Fleet, w: World, k: nat, e: Circumstances, j: nat)
    requires w.q.Valid() && j != k
    ensures Run(c, w, PollActions(c(k), w.q, k, e)).At(j) == w.At(j)
  {
    PollActionsBy(c(k), w.q, k, e);
    RunOthers(c, w, PollActions(c(k), w.q, k, e), j);
  }

  lemma PollThenRest(c: Fleet, w: World, k: nat, e: Circumstances)
    requires w.q.Valid() && w.At(k) == Ready
    ensures var v := Run(c, w, PollActions(c(k), w.q, k, e) + [Crash(k)]);
      && v.q == Poll(c(k), w.q, k, e).0 && OnlyServes(w, v, PollServes(c(k), w.q, k, e))
      && v.dropped == w.dropped + PollDrops(c(k), w.q, k, e)
      && forall j: nat :: v.At(j) == if j == k then Ready else w.At(j)
  {
    var acts := PollActions(c(k), w.q, k, e);
    var u := Run(c, w, acts);
    MimicPoll(c, w, k, e);
    forall j: nat | j != k ensures u.At(j) == w.At(j) {
      PollLeavesOthers(c, w, k, e, j);
    }
    RunThenCrash(c, w, acts, k);
  }

  lemma RunThenCrash(c: Fleet, w: World, acts: seq<Action>, k: nat)
    requires w.q.Valid() && Run(c, w, acts).At(k) in {Ready, Waiting}
    ensures Run(c, w, acts + [Crash(k)]) == Run(c, w, acts).Go(k, Ready)
  {
    RunAppend(c, w, acts, [Crash(k)]);
    RunOne(c, Run(c, w, acts), Crash(k));
    CrashRests(c, Run(c, w, acts), k);
  }

  function AllActions(c: Fleet, s: State, steps: seq<Step>): seq<Action>
    requires s.q.Valid()
  {
    if steps == [] then []
    else
      var n := |steps| - 1;
      AllActions(c, s, steps[..n]) + StepActions(c, RunSteps(c, s, steps[..n]).q, steps[n])
  }

  ghost predicate Tracks(w: World, s: State) {
    && w.q == s.q && w.dropped == s.dropped && (forall j: nat :: w.At(j) == Ready)
    && forall m :: m in w.handled || m in w.skipped ==> m.id in s.served
  }

  lemma StepTracks(c: Fleet, w: World, s: State, step: Step)
    requires w.q.Valid() && Tracks(w, s)
    ensures Tracks(Run(c, w, StepActions(c, s.q, step)), StepState(c, s, step))
  {
    match step
    case Outside(a) =>
      MimicChange(c, w, a);
      assert forall j: nat :: w.(q := Change(w.q, a)).At(j) == w.At(j);
    case PollBy(k, e) => PollThenRest(c, w, k, e);
  }

  /** Every run of transactional workers is tracked by a run of the protocol. */
  lemma {:induction false} RunsAreTracked(c: Fleet, w: World, s: State, steps: seq<Step>)
    requires w.q.Valid() && Tracks(w, s)
    ensures Tracks(Run(c, w, AllActions(c, s, steps)), RunSteps(c, s, steps))
    decreases |steps|
  {
    if steps != [] {
      var n := |steps| - 1;
      RunsAreTracked(c, w, s, steps[..n]);
      RunAppend(c, w, AllActions(c, s, steps[..n]), StepActions(c, RunSteps(c, s, steps[..n]).q, steps[n]));
      StepTracks(c, Run(c, w, AllActions(c, s, steps[..n])), RunSteps(c, s, steps[..n]), steps[n]);
    }
  }

  /** The event was served by a committed poll, or is in the retry table, the dead letter table, the
      unticked events or an unfinished window. */
  ghost predicate Accounted(s: State, id: nat) {
    || id in s.served || id in s.q.retries || id in s.q.dead || Has(s.q.pending, id)
    || exists k: nat :: s.q.Unfinished(k) && Has(s.q.windows[k], id)
  }

  /** No event is lost by any fleet of Python and Ruby workers, whatever fails, unless a nack dropped it. */
  lemma TransactionalFleetLosesNothing(c: Fleet, coop: bool, maxRetries: nat, steps: seq<Step>, id: nat)
    ensures var s := RunSteps(c, State(Engine.Empty(coop, maxRetries), {}, {}), steps);
      id < s.q.nextId && id !in s.dropped ==> Accounted(s, id)
  {
    var start := State(Engine.Empty(coop, maxRetries), {}, {});
    var acts := AllActions(c, start, steps);
    RunsAreTracked(c, Protocol.Start(coop, maxRetries), start, steps);
    EveryEventIsAccountedFor(c, coop, maxRetries, acts, id);
    var v := Run(c, Protocol.Start(coop, maxRetries), acts);
    if id < v.q.nextId && Served(v, id) {
      var r :| Mark(r, id) in v.handled || Mark(r, id) in v.skipped;
      assert Mark(r, id).id == id;
    }
  }

  /** The queue of a run of transactional workers is that of a run of the protocol. */
  lemma TrackedQueue(c: Fleet, coop: bool, maxRetries: nat, steps: seq<Step>) returns (acts: seq<Action>)
    ensures RunSteps(c, State(Engine.Empty(coop, maxRetries), {}, {}), steps).q ==
      Run(c, Protocol.Start(coop, maxRetries), acts).q
  {
    var start := State(Engine.Empty(coop, maxRetries), {}, {});
    acts := AllActions(c, start, steps);
    RunsAreTracked(c, Protocol.Start(coop, maxRetries), start, steps);
  }

  lemma PrefixOfARun(c: Fleet, maxRetries: nat, acts: seq<Action>)
    ensures var q := Run(c, Protocol.Start(false, maxRetries), acts).q;
      forall k: nat :: q.Unfinished(k) <==> q.cursor <= k < |q.windows|
  {
    forall k: nat {
      FinishedIsAPrefix(c, maxRetries, acts, k);
    }
  }

  /** One live owner per window, and on a normal consumer a finished prefix. */
  lemma TransactionalFleetKeepsOwners(c: Fleet, coop: bool, maxRetries: nat, steps: seq<Step>)
    ensures var q := RunSteps(c, State(Engine.Empty(coop, maxRetries), {}, {}), steps).q;
      && (forall a, b :: a in q.held && b in q.held && q.held[a].window == q.held[b].window ==> a == b)
      && (!coop ==> forall k: nat :: q.Unfinished(k) <==> q.cursor <= k < |q.windows|)
  {
    var acts := TrackedQueue(c, coop, maxRetries, steps);
    OneOwnerOneAck(c, coop, maxRetries, acts);
    if !coop {
      PrefixOfARun(c, maxRetries, acts);
    }
  }
}
