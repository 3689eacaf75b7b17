/** The delivery guarantees, for every run of every fleet from an empty queue. */
module Guarantees {
  import opened Options
  import opened Engine
  import opened Protocol
  import opened Safety
  import opened Conservation

  lemma {:induction false} RunKeeps(c: Fleet, w: World, acts: seq<Action>)
    requires Inv(w)
    ensures Inv(Run(c, w, acts)) && Grows(w, Run(c, w, acts))
    decreases |acts|
  {
    if acts == [] {
      SameHoldsAdvance(w.q, w.q);
    } else {
      var u := Apply(c, w, acts[0]);
      ApplyGrows(c, w, acts[0]);
      ApplyInv(c, w, acts[0]);
      RunKeeps(c, u, acts[1..]);
    }
  }

  lemma StartIsOk(coop: bool, maxRetries: nat)
    ensures Inv(Start(coop, maxRetries))
  {
  }

  /** At-least-once, window by window: a finished window was finished by exactly one ack, and the
      acking round itself handled, skipped or routed every message of the window. */
  lemma NoSilentLoss(c: Fleet, coop: bool, maxRetries: nat, acts: seq<Action>, k: nat)
    ensures var v := Run(c, Start(coop, maxRetries), acts);
      k < |v.q.windows| && v.q.windows[k] != [] && !v.q.Unfinished(k) ==>
        exists i: nat :: AckedBy(v, k, i) && (forall j: nat :: AckedBy(v, k, j) ==> j == i) &&
          forall e <- v.q.windows[k] :: v.Settled(v.acks[i], e.id)
  {
    StartIsOk(coop, maxRetries);
    RunKeeps(c, Start(coop, maxRetries), acts);
    var v := Run(c, Start(coop, maxRetries), acts);
    if k < |v.q.windows| && v.q.windows[k] != [] && !v.q.Unfinished(k) {
      var i: nat :| AckedBy(v, k, i);
      assert v.acks[i] in v.acks && AckOk(v, v.acks[i]);
      forall e | e in v.q.windows[k] ensures v.Settled(v.acks[i], e.id) {
        var j: nat :| j < |v.q.windows[k]| && v.q.windows[k][j] == e;
      }
    }
  }

  /** End to end: every event ever sent was served, or is still in the retry table, the dead
      letter table, the unticked events or an unfinished window, unless a nack dropped it. */
  lemma EveryEventIsAccountedFor(c: Fleet, coop: bool, maxRetries: nat, acts: seq<Action>, id: nat)
    ensures var v := Run(c, Start(coop, maxRetries), acts); id < v.q.nextId && id !in v.dropped ==> Safe(v, id, -1)
  {
    StartIsOk(coop, maxRetries);
    RunKeeps(c, Start(coop, maxRetries), acts);
    var v := Run(c, Start(coop, maxRetries), acts);
    assert id < v.q.nextId ==> Kept(v, id, -1);
  }

  /** Any two live rows differ in slot and window; any two effective acks finished different
      windows; no acked window is live again. */
  lemma OneOwnerOneAck(c: Fleet, coop: bool, maxRetries: nat, acts: seq<Action>)
    ensures var v := Run(c, Start(coop, maxRetries), acts);
      && (forall a, b :: a in v.q.held && b in v.q.held && a != b ==>
            v.q.held[a].slot != v.q.held[b].slot && v.q.held[a].window != v.q.held[b].window)
      && (forall i: nat, j: nat, k: nat :: AckedBy(v, k, i) && AckedBy(v, k, j) ==> i == j)
      && (forall i: nat, k: nat :: AckedBy(v, k, i) ==> !v.q.Live(k))
  {
    StartIsOk(coop, maxRetries);
    RunKeeps(c, Start(coop, maxRetries), acts);
    var v := Run(c, Start(coop, maxRetries), acts);
    forall i: nat, k: nat | AckedBy(v, k, i) ensures !v.q.Live(k) {
      assert AckOk(v, v.acks[i]);
    }
  }

  // ----- fencing -----

  predicate Dead(w: World, r: nat) {
    r < |w.rounds| && w.rounds[r].token !in w.q.held
  }

  /** Nobody is in round r with a clean record, so r cannot reach its ack. */
  ghost predicate Spoiled(w: World, r: nat) {
    r < |w.rounds| && forall k <- w.phases :: w.phases[k].InRound() && w.phases[k].round == r ==> w.phases[k].failed
  }

  lemma DeadStays(c: Fleet, w: World, a: Action, r: nat)
    requires Inv(w) && Dead(w, r)
    ensures Dead(Apply(c, w, a), r)
  {
    ApplyGrows(c, w, a);
    assert RoundOk(w.q, w.rounds[r]);
  }

  /** A worker stays in a round it was in, and never forgets a failed nack. */
  lemma FailureIsKept(c: Fleet, w: World, a: Action, k: nat, r: nat)
    requires w.q.Valid() && By(k, a) && r < |w.rounds|
    ensures var p := w.At(k); var u := Apply(c, w, a).At(k);
      u.InRound() && u.round == r ==> p.InRound() && p.round == r && (p.failed ==> u.failed)
  {
  }

  lemma SpoiledStays(c: Fleet, w: World, a: Action, r: nat)
    requires Inv(w) && Spoiled(w, r)
    ensures Spoiled(Apply(c, w, a), r)
  {
    ApplyGrows(c, w, a);
    var v := Apply(c, w, a);
    forall k | k in v.phases && v.phases[k].InRound() && v.phases[k].round == r ensures v.phases[k].failed {
      if By(k, a) {
        FailureIsKept(c, w, a, k, r);
      } else {
        ApplyOthers(c, w, a, k);
      }
      assert k in w.phases && w.At(k).InRound();
    }
  }

  lemma NoAckFor(c: Fleet, w: World, a: Action, r: nat)
    requires Inv(w) && (Dead(w, r) || Spoiled(w, r))
    ensures r in Apply(c, w, a).acks <==> r in w.acks
  {
    if a.Ack? && AtEnd(w, a.worker) {
      assert a.worker in w.phases && w.phases[a.worker].InRound();
    }
  }

  /** A round whose token died, or that lost a nack, finishes nothing in any continuation. */
  lemma {:induction false} FencedForever(c: Fleet, w: World, acts: seq<Action>, r: nat)
    requires Inv(w) && (Dead(w, r) || Spoiled(w, r))
    ensures r in Run(c, w, acts).acks <==> r in w.acks
    decreases |acts|
  {
    if acts != [] {
      if Dead(w, r) { DeadStays(c, w, acts[0], r); } else { SpoiledStays(c, w, acts[0], r); }
      NoAckFor(c, w, acts[0], r);
      ApplyInv(c, w, acts[0]);
      FencedForever(c, Apply(c, w, acts[0]), acts[1..], r);
    }
  }

  /** What a worker with a dead token can still do: its nack raises and spoils the round, and its
      ack returns 0; neither touches the queue. */
  lemma StaleWorkerTouchesNothing(c: Fleet, w: World, k: nat, fault: Fault)
    requires Inv(w) && w.At(k).InRound() && Dead(w, w.At(k).round)
    ensures DoNack(w, k, fault).q == w.q && DoAck(w, k, fault).q == w.q
    ensures DoAck(w, k, fault).acks == w.acks && DoNack(w, k, fault).routed == w.routed
    ensures w.At(k).Nacking? ==> DoNack(w, k, fault).At(k) == Dispatching(w.At(k).round, w.At(k).next + 1, true)
    ensures w.At(k).Nacking? ==> Spoiled(DoNack(w, k, fault), w.At(k).round)
  {
    assert PhaseOk(w, k, w.At(k));
    if w.At(k).Nacking? {
      var v := DoNack(w, k, fault);
      forall j | j in w.phases && w.phases[j].InRound() && w.phases[j].round == w.At(k).round ensures j == k {
        assert PhaseOk(w, j, w.phases[j]);
      }
      assert forall j <- v.phases :: j == k || v.phases[j] == w.phases[j];
    }
  }

  // ----- overflow -----

  /** A receive that overflows leaves the queue as it was, but for a drawn batch id, and starts no round. */
  lemma OverflowTouchesNothing(c: Fleet, w: World, k: nat, victim: Option<nat>, fault: Fault)
    requires Inv(w) && Apply(c, w, Receive(k, victim, fault)).At(k) == Overflowed && w.At(k) != Overflowed
    ensures var v := Apply(c, w, Receive(k, victim, fault));
      v == w.(q := w.q.(nextBatch := v.q.nextBatch)).Go(k, Overflowed)
  {
    ReceiveContract(w.q, k, c(k).ceiling, victim);
  }

  /** Where a receive leaves its loop, read off the queue: for good exactly when it is answered and the
      window that falls to it is too large; in a round exactly when it is answered with a window that has
      events and is not; and waiting otherwise. */
  lemma ReceivePhases(c: Fleet, w: World, k: nat, victim: Option<nat>, fault: Fault)
    requires w.q.Valid() && w.At(k) == Ready
    ensures var p := Apply(c, w, Receive(k, victim, fault)).At(k);
      && (p == Overflowed <==> fault.Fine? && ExceedsCeiling(w.q, k, c(k).ceiling, victim))
      && (p.Dispatching? <==>
            && fault.Fine? && c(k).ceiling >= 1 && !ExceedsCeiling(w.q, k, c(k).ceiling, victim)
            && !NothingFalls(w.q, k, c(k).ceiling, victim))
      && (p in {Overflowed, Waiting} || p == Dispatching(|w.rounds|, 0, false))
  {
    ReceiveAnswers(w.q, k, c(k).ceiling, victim);
  }

  // ----- crashes -----

  lemma OwnBatchAgain(q: Queue, k: nat, ceiling: int, victim: Option<nat>, b: nat)
    requires q.Valid() && b in q.held && q.held[b].slot == q.Slot(k)
    requires |q.windows[q.held[b].window]| <= ceiling
    ensures Engine.Receive(q, k, ceiling, victim) == (q, Batch(b, q.held[b].window, q.windows[q.held[b].window]))
  {
    assert q.Owns(q.Slot(k)) && q.TokenOf(q.Slot(k)) == b;
  }

  /** A worker that is killed in the middle of a round and starts again gets the whole batch again, under the
      same token, as long as it still holds it: the crash itself changes nothing but the worker. */
  lemma CrashThenReceive(c: Fleet, w: World, k: nat, victim: Option<nat>)
    requires w.q.Valid() && w.At(k).InRound() && w.HasRound(w.At(k).round)
    requires var r := w.rounds[w.At(k).round];
      r.token in w.q.held && w.q.held[r.token] == Hold(w.q.Slot(k), r.window) && |w.q.windows[r.window]| <= c(k).ceiling
    ensures var r := w.rounds[w.At(k).round];
      var u := Apply(c, w, Crash(k)); var v := Apply(c, u, Receive(k, victim, Fine));
      && u == w.Go(k, Ready)
      && v.q == w.q && v.rounds == w.rounds + [Round(k, r.token, r.window)]
      && v.At(k) == Dispatching(|w.rounds|, 0, false)
  {
    OwnBatchAgain(w.q, k, c(k).ceiling, victim, w.rounds[w.At(k).round].token);
  }

  // ----- lost replies -----

  /** A receive whose reply is lost has its effect on the queue, and starts no round; a refused one has none. */
  lemma LostReceive(w: World, k: nat, ceiling: int, victim: Option<nat>)
    requires w.q.Valid() && w.At(k) == Ready
    ensures var q := Engine.Receive(w.q, k, ceiling, victim).0;
      && DoReceive(w, k, ceiling, victim, Fine).q == q
      && DoReceive(w, k, ceiling, victim, LostReply) == w.(q := q).Go(k, Waiting)
      && DoReceive(w, k, ceiling, victim, Refused) == w.Go(k, Waiting)
  {
  }

  /** A nack whose reply is lost has its effect on the queue, but counts as failed; so does a refused one,
      without the effect. */
  lemma LostNack(c: Fleet, w: World, k: nat)
    requires w.q.Valid() && w.At(k).Nacking? && w.AtMessage(k)
    ensures var Nacking(r, i, _) := w.At(k); var q := Engine.Nack(w.q, w.rounds[r].token, w.Messages(r)[i].id).0;
      && Apply(c, w, Nack(k, Fine)).q == q
      && Apply(c, w, Nack(k, LostReply)) == w.(q := q).Go(k, Dispatching(r, i + 1, true))
      && Apply(c, w, Nack(k, Refused)) == w.Go(k, Dispatching(r, i + 1, true))
  {
  }

  /** An ack whose reply is lost finishes its batch as an answered one does, but the loop waits; a refused
      one leaves the batch. */
  lemma LostAck(c: Fleet, w: World, k: nat)
    requires w.q.Valid() && AtEnd(w, k) && !w.At(k).failed
    ensures var r := w.At(k).round; var (q, n) := Engine.Ack(w.q, w.rounds[r].token);
      var done := w.(q := q, acks := w.acks + if n == 1 then [r] else []);
      && Apply(c, w, Ack(k, Fine)) == done.Go(k, Ready) && Apply(c, w, Ack(k, LostReply)) == done.Go(k, Waiting)
      && Apply(c, w, Ack(k, Refused)) == w.Go(k, Waiting)
  {
  }

  predicate By(k: nat, a: Action) {
    !FromEnvironment(a) && a.worker == k
  }

  lemma OverflowedIsInert(c: Fleet, w: World, a: Action, k: nat)
    requires w.q.Valid() && w.At(k) == Overflowed
    ensures Apply(c, w, a).At(k) == Overflowed
    ensures By(k, a) ==> Apply(c, w, a) == w
  {
    if !By(k, a) { ApplyOthers(c, w, a, k); }
  }

  /** A worker's phase is changed by its own actions only. */
  lemma ApplyOthers(c: Fleet, w: World, a: Action, k: nat)
    requires w.q.Valid() && !By(k, a)
    ensures Apply(c, w, a).At(k) == w.At(k)
  {
  }

  /** After an overflow the loop is over: no action of that worker changes anything again. */
  lemma {:induction false} OverflowIsFinal(c: Fleet, w: World, acts: seq<Action>, k: nat)
    requires w.q.Valid() && w.At(k) == Overflowed
    ensures Run(c, w, acts).At(k) == Overflowed
    ensures forall a :: By(k, a) ==> Apply(c, Run(c, w, acts), a) == Run(c, w, acts)
    decreases |acts|
  {
    if acts == [] {
      forall a | By(k, a) ensures Apply(c, w, a) == w {
        OverflowedIsInert(c, w, a, k);
      }
    } else {
      OverflowedIsInert(c, w, acts[0], k);
      OverflowIsFinal(c, Apply(c, w, acts[0]), acts[1..], k);
    }
  }
}
