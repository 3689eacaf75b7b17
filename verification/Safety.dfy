/** What every step of the protocol keeps, and what follows for every run. */
module Safety {
  import opened Options
  import opened Engine
  import opened Protocol

  // ----- monotonicity -----

  /** The engine never reopens a window, never changes what a live token means, and never reissues one. */
  ghost predicate Advances(q: Queue, r: Queue) {
    && q.coop == r.coop && q.windows <= r.windows && q.nextBatch <= r.nextBatch && q.cursor <= r.cursor
    && (forall k: nat :: k < |q.windows| && r.Unfinished(k) ==> q.Unfinished(k))
    && (forall b <- r.held :: if b in q.held then r.held[b] == q.held[b] else q.nextBatch <= b)
  }

  ghost predicate Grows(w: World, v: World) {
    && Advances(w.q, v.q)
    && w.rounds <= v.rounds && w.acks <= v.acks
    && w.handled <= v.handled && w.skipped <= v.skipped && w.routed <= v.routed && w.dropped <= v.dropped
  }

  lemma AckAdvances(q: Queue, b: nat)
    requires q.Valid()
    ensures Advances(q, Engine.Ack(q, b).0)
  {
    if b in q.held {
      FinishEndsOneWindow(q, b);
    }
  }

  lemma SameHoldsAdvance(q: Queue, r: Queue)
    requires q.Valid() && q.windows <= r.windows && q.nextBatch <= r.nextBatch
    requires r.held == q.held && r.cursor == q.cursor && r.coop == q.coop
    ensures Advances(q, r)
    ensures forall k: nat :: q.Unfinished(k) ==> r.Unfinished(k)
  {
    assert forall k: nat :: q.Live(k) <==> r.Live(k);
  }

  lemma ReceiveAdvances(w: World, k: nat, ceiling: int, victim: Option<nat>, fault: Fault)
    requires w.q.Valid()
    ensures Grows(w, DoReceive(w, k, ceiling, victim, fault))
    ensures KeepsWork(w.q, DoReceive(w, k, ceiling, victim, fault).q)
  {
    ReceiveKeepsWork(w.q, k, ceiling, victim);
    BurnKeepsWork(w.q, w.q.nextBatch);
    assert w.q.(nextBatch := w.q.nextBatch) == w.q;
    ReceivedQueue(w, k, ceiling, victim, fault);
    KeptWorkAdvances(w.q, DoReceive(w, k, ceiling, victim, fault).q);
  }

  lemma ReceiveKeepsWork(q: Queue, k: nat, ceiling: int, victim: Option<nat>)
    requires q.Valid()
    ensures KeepsWork(q, Engine.Receive(q, k, ceiling, victim).0)
  {
    ReceiveContract(q, k, ceiling, victim);
  }

  lemma ReceivedQueue(w: World, k: nat, ceiling: int, victim: Option<nat>, fault: Fault)
    requires w.q.Valid()
    ensures DoReceive(w, k, ceiling, victim, fault).q in {w.q, Engine.Receive(w.q, k, ceiling, victim).0}
    ensures w.rounds <= DoReceive(w, k, ceiling, victim, fault).rounds
  {
  }

  lemma KeptWorkAdvances(q: Queue, r: Queue)
    requires KeepsWork(q, r)
    ensures Advances(q, r)
  {
  }

  lemma NackGrows(w: World, k: nat, fault: Fault)
    requires w.q.Valid()
    ensures Grows(w, DoNack(w, k, fault))
    ensures var v := DoNack(w, k, fault); v.q == w.q.(retries := v.q.retries, dead := v.q.dead)
    ensures var v := DoNack(w, k, fault); w.q.retries.Keys <= v.q.retries.Keys && w.q.dead.Keys <= v.q.dead.Keys
  {
    SameHoldsAdvance(w.q, DoNack(w, k, fault).q);
  }

  lemma AckGrows(w: World, k: nat, fault: Fault)
    requires w.q.Valid()
    ensures Grows(w, DoAck(w, k, fault))
  {
    SameHoldsAdvance(w.q, w.q);
    if AtEnd(w, k) {
      AckAdvances(w.q, w.rounds[w.At(k).round].token);
    }
  }

  lemma DispatchGrows(c: Config, w: World, k: nat, ok: bool)
    requires w.q.Valid()
    ensures Grows(w, DoDispatch(c, w, k, ok))
  {
    SameHoldsAdvance(w.q, w.q);
  }

  predicate FromEnvironment(a: Action) {
    a.Send? || a.Tick? || a.Requeue? || a.SkipTokens?
  }

  predicate IsLocal(a: Action) {
    a.Wake? || a.Cancel? || a.Crash?
  }

  lemma EnvironmentGrows(c: Fleet, w: World, a: Action)
    requires w.q.Valid() && (FromEnvironment(a) || IsLocal(a))
    ensures Grows(w, Apply(c, w, a))
    ensures forall k: nat :: w.q.Unfinished(k) ==> Apply(c, w, a).q.Unfinished(k)
  {
    SameHoldsAdvance(w.q, Apply(c, w, a).q);
  }

  lemma ApplyGrows(c: Fleet, w: World, a: Action)
    requires w.q.Valid()
    ensures Grows(w, Apply(c, w, a))
  {
    match a
    case Receive(k, victim, fault) => ReceiveAdvances(w, k, c(k).ceiling, victim, fault);
    case Dispatch(k, ok) => DispatchGrows(c(k), w, k, ok);
    case Nack(k, fault) => NackGrows(w, k, fault);
    case Ack(k, fault) => AckGrows(w, k, fault);
    case _ => EnvironmentGrows(c, w, a);
  }

  // ----- the invariant -----

  /** A live token of a round is still the same row: its worker's slot and its window. */
  ghost predicate RoundOk(q: Queue, r: Round) {
    && r.window < |q.windows| && q.windows[r.window] != []
    && 0 < r.token < q.nextBatch
    && (if q.coop then r.window < q.cursor else r.window <= q.cursor)
    && (r.token in q.held ==> q.held[r.token] == Hold(q.Slot(r.worker), r.window))
  }

  ghost predicate RoundsOk(w: World) {
    forall r <- w.rounds :: RoundOk(w.q, r)
  }

  /** The first n messages of round r are settled in that round. */
  ghost predicate SettledUpTo(w: World, r: nat, n: nat)
    requires w.HasRound(r) && n <= |w.Messages(r)|
  {
    forall j: nat :: j < n ==> w.Settled(r, w.Messages(r)[j].id)
  }

  ghost predicate PhaseOk(w: World, k: nat, p: Phase) {
    p.InRound() ==>
      && w.HasRound(p.round) && w.rounds[p.round].worker == k
      && p.next <= |w.Messages(p.round)| && (p.Nacking? ==> p.next < |w.Messages(p.round)|)
      && (!p.failed ==> SettledUpTo(w, p.round, p.next))
  }

  ghost predicate PhasesOk(w: World) {
    forall k <- w.phases :: PhaseOk(w, k, w.phases[k])
  }

  /** Round r finished its window and had settled every message of it. */
  ghost predicate AckOk(w: World, r: nat) {
    && w.HasRound(r) && !w.q.Unfinished(w.rounds[r].window) && SettledUpTo(w, r, |w.Messages(r)|)
  }

  /** The i-th ack that took effect finished window k. */
  ghost predicate AckedBy(w: World, k: nat, i: nat) {
    i < |w.acks| && w.acks[i] < |w.rounds| && w.rounds[w.acks[i]].window == k
  }

  ghost predicate AcksOk(w: World) {
    && (forall r <- w.acks :: AckOk(w, r))
    && (forall i: nat, j: nat, k: nat :: AckedBy(w, k, i) && AckedBy(w, k, j) ==> i == j)
  }

  /** Every finished window with events was finished by an ack. */
  ghost predicate FinishedOk(w: World) {
    forall k: nat :: k < |w.q.windows| && w.q.windows[k] != [] && !w.q.Unfinished(k) ==> exists i :: AckedBy(w, k, i)
  }

  ghost predicate Ok(w: World) {
    w.q.Valid() && RoundsOk(w) && PhasesOk(w) && AcksOk(w) && FinishedOk(w)
  }

  // ----- each part is kept by growth -----

  lemma RoundsGrow(w: World, v: World)
    requires w.q.Valid() && RoundsOk(w) && Grows(w, v)
    ensures forall r <- w.rounds :: RoundOk(v.q, r)
  {
  }

  lemma PhaseGrows(w: World, v: World, k: nat, p: Phase)
    requires PhaseOk(w, k, p) && Grows(w, v)
    ensures PhaseOk(v, k, p)
  {
  }

  lemma AckOkGrows(w: World, v: World, r: nat)
    requires AckOk(w, r) && Grows(w, v)
    ensures AckOk(v, r)
  {
  }

  /** A step that finishes nothing keeps everything but what it adds itself. */
  lemma KeepsOk(w: World, v: World)
    requires Ok(w) && v.q.Valid() && Grows(w, v) && v.acks == w.acks
    requires RoundsOk(v) && PhasesOk(v)
    requires forall k: nat :: k < |v.q.windows| && v.q.windows[k] != [] && !v.q.Unfinished(k) ==>
      k < |w.q.windows| && !w.q.Unfinished(k)
    ensures Ok(v)
  {
    forall r | r in v.acks ensures AckOk(v, r) {
      AckOkGrows(w, v, r);
    }
    forall i: nat, j: nat, k: nat | AckedBy(v, k, i) && AckedBy(v, k, j) ensures i == j {
      assert w.acks[i] in w.acks && w.acks[j] in w.acks;
      assert AckedBy(w, k, i) && AckedBy(w, k, j);
    }
    forall k: nat | k < |v.q.windows| && v.q.windows[k] != [] && !v.q.Unfinished(k)
      ensures exists i :: AckedBy(v, k, i)
    {
      var i :| AckedBy(w, k, i);
      assert AckedBy(v, k, i);
    }
  }

  lemma OtherPhases(w: World, v: World, k: nat)
    requires PhasesOk(w) && Grows(w, v) && v.phases - {k} == w.phases - {k}
    requires k in v.phases ==> PhaseOk(v, k, v.phases[k])
    ensures PhasesOk(v)
  {
    forall j | j in v.phases ensures PhaseOk(v, j, v.phases[j]) {
      if j != k {
        assert j in v.phases - {k};
        assert j in w.phases && w.phases[j] == v.phases[j] by {
          assert j in w.phases - {k};
          assert (w.phases - {k})[j] == (v.phases - {k})[j];
        }
        PhaseGrows(w, v, j, w.phases[j]);
      }
    }
  }

  lemma SamePhases(w: World, v: World)
    requires PhasesOk(w) && Grows(w, v) && v.phases == w.phases
    ensures PhasesOk(v)
  {
    forall j | j in v.phases ensures PhaseOk(v, j, v.phases[j]) {
      PhaseGrows(w, v, j, w.phases[j]);
    }
  }

  // ----- each step keeps the invariant -----

  lemma EnvironmentOk(c: Fleet, w: World, a: Action)
    requires Ok(w) && FromEnvironment(a)
    ensures Ok(Apply(c, w, a))
  {
    var v := Apply(c, w, a);
    EnvironmentGrows(c, w, a);
    SamePhases(w, v);
    RoundsGrow(w, v);
    KeepsOk(w, v);
  }

  lemma LocalOk(c: Fleet, w: World, a: Action)
    requires Ok(w) && IsLocal(a)
    ensures Ok(Apply(c, w, a))
  {
    var v := Apply(c, w, a);
    EnvironmentGrows(c, w, a);
    OtherPhases(w, v, a.worker);
    RoundsGrow(w, v);
    KeepsOk(w, v);
  }

  lemma DispatchOk(c: Config, w: World, k: nat, ok: bool)
    requires Ok(w)
    ensures Ok(DoDispatch(c, w, k, ok))
  {
    var v := DoDispatch(c, w, k, ok);
    DispatchGrows(c, w, k, ok);
    if w.At(k).Dispatching? && w.AtMessage(k) {
      PhaseGrows(w, v, k, w.At(k));
    }
    OtherPhases(w, v, k);
    RoundsGrow(w, v);
    KeepsOk(w, v);
  }

  lemma NackedPhase(w: World, k: nat, fault: Fault)
    requires w.q.Valid() && w.At(k).Nacking? && w.AtMessage(k)
    ensures var v := DoNack(w, k, fault); var Nacking(r, i, failed) := w.At(k);
      && v.phases == w.phases[k := v.At(k)] && v.At(k).Dispatching? && v.At(k).round == r && v.At(k).next == i + 1
      && (!v.At(k).failed ==> !failed && Mark(r, w.Messages(r)[i].id) in v.routed)
  {
  }

  lemma NackPhase(w: World, k: nat, fault: Fault)
    requires Ok(w) && Grows(w, DoNack(w, k, fault))
    ensures var v := DoNack(w, k, fault);
      v.phases - {k} == w.phases - {k} && (k in v.phases ==> PhaseOk(v, k, v.phases[k]))
  {
    if w.At(k).Nacking? && w.AtMessage(k) {
      PhaseGrows(w, DoNack(w, k, fault), k, w.At(k));
      NackedPhase(w, k, fault);
    } else if k in w.phases {
      PhaseGrows(w, w, k, w.At(k));
    }
  }

  lemma NackOk(w: World, k: nat, fault: Fault)
    requires Ok(w)
    ensures Ok(DoNack(w, k, fault))
  {
    var v := DoNack(w, k, fault);
    NackGrows(w, k, fault);
    SameHoldsAdvance(w.q, v.q);
    NackPhase(w, k, fault);
    OtherPhases(w, v, k);
    RoundsGrow(w, v);
    KeepsOk(w, v);
  }

  /** The step that finishes a window: the round's own token is live, so the window is the round's. */
  lemma FinishOk(w: World, k: nat, fault: Fault)
    requires Ok(w) && AtEnd(w, k) && !w.At(k).failed && !fault.Refused?
    requires w.rounds[w.At(k).round].token in w.q.held
    ensures Ok(DoAck(w, k, fault))
  {
    var v := DoAck(w, k, fault);
    var r := w.At(k).round;
    var done := w.rounds[r].window;
    AckGrows(w, k, fault);
    assert RoundOk(w.q, w.rounds[r]);
    FinishEndsOneWindow(w.q, w.rounds[r].token);
    assert v.acks == w.acks + [r];
    RoundsGrow(w, v);
    OtherPhases(w, v, k);
    forall x | x in v.acks ensures AckOk(v, x) {
      if x in w.acks {
        AckOkGrows(w, v, x);
      } else {
        PhaseGrows(w, v, k, w.At(k));
      }
    }
    forall i: nat, j: nat, n: nat | AckedBy(v, n, i) && AckedBy(v, n, j) ensures i == j {
      OnlyNewAck(w, v, n, i, r);
      OnlyNewAck(w, v, n, j, r);
    }
    forall n: nat | n < |v.q.windows| && v.q.windows[n] != [] && !v.q.Unfinished(n)
      ensures exists i :: AckedBy(v, n, i)
    {
      if n == done {
        assert AckedBy(v, n, |w.acks|);
      } else {
        var i :| AckedBy(w, n, i);
        assert AckedBy(v, n, i);
      }
    }
  }

  lemma OnlyNewAck(w: World, v: World, n: nat, i: nat, r: nat)
    requires AcksOk(w) && w.HasRound(r) && w.q.Unfinished(w.rounds[r].window)
    requires v.rounds == w.rounds && v.acks == w.acks + [r] && AckedBy(v, n, i)
    ensures n == w.rounds[r].window ==> i == |w.acks|
    ensures n != w.rounds[r].window ==> AckedBy(w, n, i)
  {
    if i < |w.acks| {
      assert w.acks[i] in w.acks && AckOk(w, w.acks[i]);
      assert AckedBy(w, n, i);
    }
  }

  lemma AckStepOk(w: World, k: nat, fault: Fault)
    requires Ok(w)
    ensures Ok(DoAck(w, k, fault))
  {
    var v := DoAck(w, k, fault);
    if AtEnd(w, k) && !w.At(k).failed && !fault.Refused? && w.rounds[w.At(k).round].token in w.q.held {
      FinishOk(w, k, fault);
    } else {
      AckGrows(w, k, fault);
      OtherPhases(w, v, k);
      RoundsGrow(w, v);
      KeepsOk(w, v);
    }
  }

  lemma NewRoundOk(w: World, k: nat, ceiling: int, victim: Option<nat>, fault: Fault)
    requires w.q.Valid()
    ensures var v := DoReceive(w, k, ceiling, victim, fault);
      v.rounds == w.rounds || exists r :: v.rounds == w.rounds + [r] && RoundOk(v.q, r)
  {
    ReceiveContract(w.q, k, ceiling, victim);
    var v := DoReceive(w, k, ceiling, victim, fault);
    if v.rounds != w.rounds {
      var d := Engine.Receive(w.q, k, ceiling, victim).1;
      assert RoundOk(v.q, Round(k, d.token, d.window));
    }
  }

  lemma ReceiveStartsARound(w: World, k: nat, ceiling: int, victim: Option<nat>, fault: Fault)
    requires Ok(w)
    ensures RoundsOk(DoReceive(w, k, ceiling, victim, fault))
  {
    ReceiveAdvances(w, k, ceiling, victim, fault);
    NewRoundOk(w, k, ceiling, victim, fault);
    RoundsGrow(w, DoReceive(w, k, ceiling, victim, fault));
  }

  lemma ReceiveOk(w: World, k: nat, ceiling: int, victim: Option<nat>, fault: Fault)
    requires Ok(w)
    ensures Ok(DoReceive(w, k, ceiling, victim, fault))
  {
    var v := DoReceive(w, k, ceiling, victim, fault);
    ReceiveAdvances(w, k, ceiling, victim, fault);
    ReceiveStartsARound(w, k, ceiling, victim, fault);
    OtherPhases(w, v, k);
    KeepsOk(w, v);
  }

  lemma ApplyOk(c: Fleet, w: World, a: Action)
    requires Ok(w)
    ensures Ok(Apply(c, w, a))
  {
    match a
    case Receive(k, victim, fault) => ReceiveOk(w, k, c(k).ceiling, victim, fault);
    case Dispatch(k, ok) => DispatchOk(c(k), w, k, ok);
    case Nack(k, fault) => NackOk(w, k, fault);
    case Ack(k, fault) => AckStepOk(w, k, fault);
    case Wake(_) => LocalOk(c, w, a);
    case Cancel(_) => LocalOk(c, w, a);
    case Crash(_) => LocalOk(c, w, a);
    case _ => EnvironmentOk(c, w, a);
  }
}
