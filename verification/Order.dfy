/** Delivery order: finished windows form a prefix, a single loop never runs ahead of it, and a
    round visits every message. */
module Order {
  import opened Options
  import opened Engine
  import opened Protocol
  import opened Safety
  import opened Conservation
  import opened Guarantees

  /** For a normal consumer, shared by any number of loops, the finished windows are exactly
      those before the cursor. */
  lemma FinishedIsAPrefix(c: Fleet, maxRetries: nat, acts: seq<Action>, k: nat)
    ensures var v := Run(c, Start(false, maxRetries), acts);
      v.q.Unfinished(k) <==> v.q.cursor <= k < |v.q.windows|
  {
    StartIsOk(false, maxRetries);
    RunKeeps(c, Start(false, maxRetries), acts);
  }

  // ----- one loop on a normal consumer -----

  ghost predicate Before(a: Call, b: Call) {
    a.round < b.round || (a.round == b.round && a.position < b.position)
  }

  /** How far round r has called handlers. */
  function Reach(p: Phase): nat
    requires p.InRound()
  {
    p.next + if p.Nacking? then 1 else 0
  }

  ghost predicate Alone(w: World) {
    !w.q.coop && forall k <- w.phases :: k == 0
  }

  /** While the loop is in a round, it is the latest round and its token is live. */
  ghost predicate OnLatest(w: World) {
    w.At(0).InRound() ==> w.At(0).round == |w.rounds| - 1 && w.rounds[w.At(0).round].token in w.q.held
  }

  ghost predicate CallsBehind(w: World) {
    forall x <- w.calls :: x.round < |w.rounds| &&
      (w.At(0).InRound() && x.round == w.At(0).round ==> x.position < Reach(w.At(0)))
  }

  ghost predicate CallsSorted(w: World) {
    forall i, j :: 0 <= i < j < |w.calls| ==> Before(w.calls[i], w.calls[j])
  }

  ghost predicate WindowsSorted(w: World) {
    forall r, s :: 0 <= r <= s < |w.rounds| ==> w.rounds[r].window <= w.rounds[s].window
  }

  ghost predicate InOrder(w: World) {
    Alone(w) && OnLatest(w) && CallsBehind(w) && CallsSorted(w) && WindowsSorted(w)
  }

  predicate Only(k: nat, a: Action) {
    FromEnvironment(a) || a.worker == k
  }

  lemma ReceiveAtCursor(w: World, ceiling: int, victim: Option<nat>, fault: Fault)
    requires Inv(w) && !w.q.coop && |DoReceive(w, 0, ceiling, victim, fault).rounds| > |w.rounds|
    ensures var v := DoReceive(w, 0, ceiling, victim, fault);
      && v.rounds == w.rounds + [v.rounds[|w.rounds|]]
      && v.At(0) == Dispatching(|w.rounds|, 0, false)
      && v.rounds[|w.rounds|].token in v.q.held && v.rounds[|w.rounds|].window == v.q.cursor
      && w.q.cursor <= v.q.cursor
  {
    ReceiveContract(w.q, 0, ceiling, victim);
  }

  lemma NewRoundInOrder(w: World, v: World, r: Round)
    requires Inv(w) && InOrder(w) && !v.q.coop && v.calls == w.calls && v.rounds == w.rounds + [r]
    requires v.phases == w.phases[0 := Dispatching(|w.rounds|, 0, false)]
    requires r.token in v.q.held && w.q.cursor <= r.window
    ensures InOrder(v)
  {
    forall s | 0 <= s < |w.rounds| ensures w.rounds[s].window <= w.q.cursor {
      assert RoundOk(w.q, w.rounds[s]);
    }
  }

  lemma NoRoundInOrder(w: World, v: World, p: Phase)
    requires InOrder(w) && !v.q.coop && v.calls == w.calls && v.rounds == w.rounds && !p.InRound()
    requires v.phases == w.phases[0 := p]
    ensures InOrder(v)
  {
  }

  lemma ReceiveInOrder(w: World, ceiling: int, victim: Option<nat>, fault: Fault)
    requires Inv(w) && InOrder(w)
    ensures InOrder(DoReceive(w, 0, ceiling, victim, fault))
  {
    var v := DoReceive(w, 0, ceiling, victim, fault);
    if w.At(0) == Ready {
      if |v.rounds| > |w.rounds| {
        ReceiveAtCursor(w, ceiling, victim, fault);
        NewRoundInOrder(w, v, v.rounds[|w.rounds|]);
      } else {
        NoRoundInOrder(w, v, v.At(0));
      }
    }
  }

  lemma DispatchInOrder(c: Config, w: World, ok: bool)
    requires Inv(w) && InOrder(w)
    ensures InOrder(DoDispatch(c, w, 0, ok))
    ensures var v := DoDispatch(c, w, 0, ok);
      |v.calls| > |w.calls| ==>
        && v.calls == w.calls + [Call(w.At(0).round, w.At(0).next)]
        && w.At(0).round < |w.rounds| && w.rounds[w.At(0).round].window == w.q.cursor
  {
    if w.At(0).InRound() {
      assert RoundOk(w.q, w.rounds[w.At(0).round]);
    }
  }

  lemma NackInOrder(w: World, fault: Fault)
    requires Inv(w) && InOrder(w)
    ensures InOrder(DoNack(w, 0, fault))
  {
    NackGrows(w, 0, fault);
  }

  lemma AckInOrder(w: World, fault: Fault)
    requires Inv(w) && InOrder(w)
    ensures InOrder(DoAck(w, 0, fault))
  {
  }

  lemma OutsideInOrder(c: Fleet, w: World, a: Action)
    requires Inv(w) && InOrder(w) && FromEnvironment(a)
    ensures InOrder(Apply(c, w, a))
  {
    assert Apply(c, w, a).q.held == w.q.held;
  }

  lemma RestInOrder(c: Fleet, w: World, a: Action)
    requires Inv(w) && InOrder(w) && (FromEnvironment(a) || (IsLocal(a) && a.worker == 0))
    ensures InOrder(Apply(c, w, a))
  {
    if FromEnvironment(a) {
      OutsideInOrder(c, w, a);
    } else if Apply(c, w, a) != w {
      NoRoundInOrder(w, Apply(c, w, a), Apply(c, w, a).At(0));
    }
  }

  lemma {:induction false} SoleLoopInOrder(c: Fleet, w: World, acts: seq<Action>)
    requires Inv(w) && InOrder(w) && forall a <- acts :: Only(0, a)
    ensures Inv(Run(c, w, acts)) && InOrder(Run(c, w, acts))
    decreases |acts|
  {
    if acts != [] {
      var a := acts[0];
      assert Only(0, a);
      ApplyInv(c, w, a);
      match a {
        case Receive(_, victim, fault) => ReceiveInOrder(w, c(0).ceiling, victim, fault);
        case Dispatch(_, ok) => DispatchInOrder(c(0), w, ok);
        case Nack(_, fault) => NackInOrder(w, fault);
        case Ack(_, fault) => AckInOrder(w, fault);
        case _ => RestInOrder(c, w, a);
      }
      SoleLoopInOrder(c, Apply(c, w, a), acts[1..]);
    }
  }

  /** In every run of one loop, under any faults and restarts: handler calls are ordered by window,
      then round, then position; and a handler only ever runs for the window at the cursor, so no
      handler of window k + 1 runs before window k is finished. */
  lemma HandlersFollowTheCursor(c: Fleet, maxRetries: nat, acts: seq<Action>, ok: bool)
    requires forall a <- acts :: Only(0, a)
    ensures var v := Run(c, Start(false, maxRetries), acts);
      && (forall i, j :: 0 <= i < j < |v.calls| ==> Before(v.calls[i], v.calls[j]))
      && (forall r, s :: 0 <= r <= s < |v.rounds| ==> v.rounds[r].window <= v.rounds[s].window)
      && (forall x <- v.calls :: x.round < |v.rounds|)
      && var u := Apply(c, v, Dispatch(0, ok));
         |u.calls| > |v.calls| ==>
           && u.calls == v.calls + [Call(v.At(0).round, v.At(0).next)]
           && v.At(0).round < |v.rounds| && v.rounds[v.At(0).round].window == v.q.cursor
           && forall k: nat :: k < v.q.cursor ==> !v.q.Unfinished(k)
  {
    StartIsOk(false, maxRetries);
    SoleLoopInOrder(c, Start(false, maxRetries), acts);
    var v := Run(c, Start(false, maxRetries), acts);
    DispatchInOrder(c(0), v, ok);
  }

  // ----- every message of a round is visited, even after a failed nack -----

  ghost predicate Visited(c: Config, w: World, p: Phase) {
    p.InRound() ==> (
      && w.HasRound(p.round) && Reach(p) <= |w.Messages(p.round)|
      && forall j: nat :: j < Reach(p) && c.Knows(w.Messages(p.round)[j].kind) ==> Call(p.round, j) in w.calls)
  }

  ghost predicate VisitsOk(c: Fleet, w: World) {
    forall k <- w.phases :: Visited(c(k), w, w.phases[k])
  }

  lemma ApplyVisits(c: Fleet, w: World, a: Action)
    requires Inv(w) && VisitsOk(c, w)
    ensures VisitsOk(c, Apply(c, w, a))
  {
    var v := Apply(c, w, a);
    ApplyGrows(c, w, a);
    ApplyInv(c, w, a);
    CallsGrow(c, w, a);
    forall k | k in v.phases ensures Visited(c(k), v, v.phases[k]) {
      if By(k, a) {
        OwnVisit(c, w, a, k, v);
      } else {
        OtherVisit(c, w, a, k, v);
      }
    }
  }

  lemma OtherVisit(c: Fleet, w: World, a: Action, k: nat, v: World)
    requires w.q.Valid() && VisitsOk(c, w) && v == Apply(c, w, a) && !By(k, a) && k in v.phases
    requires Grows(w, v) && w.calls <= v.calls
    ensures Visited(c(k), v, v.phases[k])
  {
    ApplyOthers(c, w, a, k);
    if k in w.phases {
      VisitedGrows(c(k), w, v, w.phases[k]);
    }
  }

  lemma OwnVisit(c: Fleet, w: World, a: Action, k: nat, v: World)
    requires w.q.Valid() && VisitsOk(c, w) && v == Apply(c, w, a) && By(k, a) && k in v.phases
    requires Grows(w, v) && w.calls <= v.calls && PhaseOk(v, k, v.phases[k])
    ensures Visited(c(k), v, v.phases[k])
  {
    if k in w.phases {
      VisitedGrows(c(k), w, v, w.phases[k]);
    }
    match a
    case Dispatch(_, ok) => DispatchVisit(c(k), w, k, ok, v);
    case Nack(_, fault) => NackVisit(c(k), w, k, fault, v);
    case Receive(_, victim, fault) => ReceiveVisit(c(k), w, k, victim, fault, v);
    case _ =>
  }

  lemma DispatchVisit(c: Config, w: World, k: nat, ok: bool, v: World)
    requires v == DoDispatch(c, w, k, ok) && k in v.phases && PhaseOk(v, k, v.phases[k])
    requires k in w.phases ==> Visited(c, v, w.phases[k])
    ensures Visited(c, v, v.phases[k])
  {
  }

  lemma NackVisit(c: Config, w: World, k: nat, fault: Fault, v: World)
    requires w.q.Valid() && v == DoNack(w, k, fault) && k in v.phases && PhaseOk(v, k, v.phases[k])
    requires k in w.phases ==> Visited(c, v, w.phases[k])
    ensures Visited(c, v, v.phases[k])
  {
  }

  lemma ReceiveVisit(c: Config, w: World, k: nat, victim: Option<nat>, fault: Fault, v: World)
    requires w.q.Valid() && v == DoReceive(w, k, c.ceiling, victim, fault) && k in v.phases
    requires PhaseOk(v, k, v.phases[k])
    requires k in w.phases ==> Visited(c, v, w.phases[k])
    ensures Visited(c, v, v.phases[k])
  {
  }

  lemma CallsGrow(c: Fleet, w: World, a: Action)
    requires w.q.Valid()
    ensures w.calls <= Apply(c, w, a).calls
  {
  }

  lemma VisitedGrows(c: Config, w: World, v: World, p: Phase)
    requires Visited(c, w, p) && Grows(w, v) && w.calls <= v.calls
    ensures Visited(c, v, p)
  {
  }

  lemma {:induction false} RunVisits(c: Fleet, w: World, acts: seq<Action>)
    requires Inv(w) && VisitsOk(c, w)
    ensures VisitsOk(c, Run(c, w, acts))
    decreases |acts|
  {
    if acts != [] {
      ApplyVisits(c, w, acts[0]);
      ApplyInv(c, w, acts[0]);
      RunVisits(c, Apply(c, w, acts[0]), acts[1..]);
    }
  }

  /** Whatever failed on the way, a worker that reaches the end of a round has called the handler
      of every message of the round that has one. */
  lemma NoMessageIsSkipped(c: Fleet, coop: bool, maxRetries: nat, acts: seq<Action>, k: nat, j: nat)
    ensures var v := Run(c, Start(coop, maxRetries), acts);
      AtEnd(v, k) && j < |v.Messages(v.At(k).round)| && c(k).Knows(v.Messages(v.At(k).round)[j].kind) ==>
        Call(v.At(k).round, j) in v.calls
  {
    StartIsOk(coop, maxRetries);
    RunVisits(c, Start(coop, maxRetries), acts);
    var v := Run(c, Start(coop, maxRetries), acts);
    if AtEnd(v, k) {
      assert Visited(c(k), v, v.phases[k]);
    }
  }
}
