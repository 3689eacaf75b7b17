/** No event is ever lost: an account of every event id across windows, retries and dead letters. */
module Conservation {
  import opened Options
  import opened Engine
  import opened Protocol
  import opened Safety

  ghost predicate Has(events: seq<Event>, id: nat) {
    exists e :: e in events && e.id == id
  }

  /** Some round handled the event successfully, or skipped it under the ack-unknown policy. */
  ghost predicate Served(w: World, id: nat) {
    exists r :: Mark(r, id) in w.handled || Mark(r, id) in w.skipped
  }

  ghost predicate Ahead(q: Queue, id: nat, above: int, k: nat) {
    above < k && q.Unfinished(k) && Has(q.windows[k], id)
  }

  /** The event was served, or is in the retry table, the dead letter table, the unticked events,
      or a window after `above` that is still to be finished. */
  ghost predicate Safe(w: World, id: nat, above: int) {
    || Served(w, id) || id in w.q.retries || id in w.q.dead || Has(w.q.pending, id)
    || exists k :: Ahead(w.q, id, above, k)
  }

  /** The event is safe, unless a nack dropped it. */
  ghost predicate Kept(w: World, id: nat, above: int) {
    id in w.dropped || Safe(w, id, above)
  }

  /** A routed event stays safe without its round's window: a requeued copy only ever
      reappears in a later window. */
  ghost predicate RoutedOk(w: World) {
    forall m <- w.routed :: m.round < |w.rounds| && Kept(w, m.id, w.rounds[m.round].window)
  }

  ghost predicate Conserved(w: World) {
    && (forall id: nat :: id < w.q.nextId ==> Kept(w, id, -1))
    && RoutedOk(w)
    && (forall id <- w.q.retries :: w.q.retries[id].id == id)
  }

  ghost predicate Inv(w: World) {
    Ok(w) && Conserved(w)
  }

  /** A step that finishes no window with events and removes nothing from the tables. */
  ghost predicate Keeps(w: World, v: World) {
    && Grows(w, v) && v.q.pending == w.q.pending && v.q.nextId == w.q.nextId
    && w.q.retries.Keys <= v.q.retries.Keys && w.q.dead.Keys <= v.q.dead.Keys
    && (forall k: nat :: w.q.Unfinished(k) && w.q.windows[k] != [] ==> v.q.Unfinished(k))
  }

  lemma SafeKept(w: World, v: World, id: nat, above: int)
    requires Keeps(w, v) && Safe(w, id, above)
    ensures Safe(v, id, above)
  {
    if Served(w, id) {
      var r :| Mark(r, id) in w.handled || Mark(r, id) in w.skipped;
      assert Served(v, id);
    } else if k :| Ahead(w.q, id, above, k) {
      assert Ahead(v.q, id, above, k);
    }
  }

  lemma KeptKept(w: World, v: World, id: nat, above: int)
    requires Keeps(w, v) && Kept(w, id, above)
    ensures Kept(v, id, above)
  {
    if Safe(w, id, above) {
      SafeKept(w, v, id, above);
    }
  }

  lemma ConservedKept(w: World, v: World)
    requires Conserved(w) && Keeps(w, v) && v.q.retries == w.q.retries && v.routed == w.routed
    ensures Conserved(v)
  {
    forall id: nat | id < v.q.nextId ensures Kept(v, id, -1) {
      KeptKept(w, v, id, -1);
    }
    forall m | m in v.routed ensures m.round < |v.rounds| && Kept(v, m.id, v.rounds[m.round].window) {
      KeptKept(w, v, m.id, w.rounds[m.round].window);
    }
  }

  lemma NackConserves(w: World, k: nat, fault: Fault)
    requires Inv(w)
    ensures Conserved(DoNack(w, k, fault))
  {
    var v := DoNack(w, k, fault);
    NackGrows(w, k, fault);
    SameHoldsAdvance(w.q, v.q);
    forall id: nat | id < v.q.nextId ensures Kept(v, id, -1) {
      KeptKept(w, v, id, -1);
    }
    forall m | m in v.routed ensures m.round < |v.rounds| && Kept(v, m.id, v.rounds[m.round].window) {
      if m in w.routed {
        KeptKept(w, v, m.id, w.rounds[m.round].window);
      }
    }
    NackKeepsIds(w, k, fault);
  }

  lemma NackKeepsIds(w: World, k: nat, fault: Fault)
    requires w.q.Valid() && forall id <- w.q.retries :: w.q.retries[id].id == id
    ensures var v := DoNack(w, k, fault); forall id <- v.q.retries :: v.q.retries[id].id == id
  {
    if w.At(k).Nacking? && w.AtMessage(k) {
      TableKeepsIds(w.q, w.rounds[w.At(k).round].token, w.Messages(w.At(k).round)[w.At(k).next].id);
    }
  }

  lemma TableKeepsIds(q: Queue, b: nat, id: nat)
    requires q.Valid() && forall i <- q.retries :: q.retries[i].id == i
    ensures var r := Engine.Nack(q, b, id).0; forall i <- r.retries :: r.retries[i].id == i
  {
  }

  /** The heart of the argument: what the finished window held was settled by its round, and what the
      round routed is in a table or further on, unless its nack dropped it. */
  lemma FinishSafe(w: World, k: nat, fault: Fault, id: nat, above: int)
    requires Inv(w) && AtEnd(w, k) && !w.At(k).failed && !fault.Refused?
    requires w.rounds[w.At(k).round].token in w.q.held && Kept(w, id, above)
    ensures Kept(DoAck(w, k, fault), id, above)
  {
    var v := DoAck(w, k, fault);
    var r := w.At(k).round;
    var done := w.rounds[r].window;
    assert RoundOk(w.q, w.rounds[r]);
    FinishEndsOneWindow(w.q, w.rounds[r].token);
    if id in w.dropped {
    } else if Served(w, id) {
      assert Served(v, id);
    } else if n :| Ahead(w.q, id, above, n) {
      if n != done {
        assert Ahead(v.q, id, above, n);
      } else {
        var e :| e in w.q.windows[done] && e.id == id;
        assert PhaseOk(w, k, w.At(k));
        assert w.Settled(r, id);
        assert Mark(r, id) in w.routed;
        if p :| Ahead(w.q, id, done, p) {
          assert Ahead(v.q, id, above, p);
        }
      }
    }
  }

  lemma AckConserves(w: World, k: nat, fault: Fault)
    requires Inv(w)
    ensures Conserved(DoAck(w, k, fault))
  {
    var v := DoAck(w, k, fault);
    AckGrows(w, k, fault);
    if AtEnd(w, k) && !w.At(k).failed && !fault.Refused? && w.rounds[w.At(k).round].token in w.q.held {
      forall id: nat | id < v.q.nextId ensures Kept(v, id, -1) {
        FinishSafe(w, k, fault, id, -1);
      }
      forall m | m in v.routed ensures m.round < |v.rounds| && Kept(v, m.id, v.rounds[m.round].window) {
        FinishSafe(w, k, fault, m.id, w.rounds[m.round].window);
      }
    } else {
      ConservedKept(w, v);
    }
  }

  lemma AheadStays(c: Fleet, w: World, a: Action, id: nat, above: int, k: nat)
    requires w.q.Valid() && FromEnvironment(a) && Ahead(w.q, id, above, k)
    ensures Ahead(Apply(c, w, a).q, id, above, k)
  {
    var v := Apply(c, w, a);
    assert v.q.held == w.q.held && v.q.cursor == w.q.cursor && v.q.windows[k] == w.q.windows[k];
  }

  lemma PendingStays(c: Fleet, w: World, a: Action, id: nat, above: int)
    requires w.q.Valid() && FromEnvironment(a) && Has(w.q.pending, id) && above < |w.q.windows|
    ensures Safe(Apply(c, w, a), id, above)
  {
    var v := Apply(c, w, a);
    var e :| e in w.q.pending && e.id == id;
    if a.Tick? {
      assert e in multiset(ById(w.q.pending));
      assert Ahead(v.q, id, above, |w.q.windows|);
    } else {
      assert e in v.q.pending;
    }
  }

  lemma RowStays(c: Fleet, w: World, a: Action, id: nat, above: int)
    requires w.q.Valid() && FromEnvironment(a) && id in w.q.retries && w.q.retries[id].id == id
    ensures Safe(Apply(c, w, a), id, above)
  {
    if a.Requeue? && a.id == id {
      assert w.q.retries[id] in Apply(c, w, a).q.pending;
    }
  }

  lemma EnvironmentSafe(c: Fleet, w: World, a: Action, id: nat, above: int)
    requires Inv(w) && FromEnvironment(a) && Safe(w, id, above) && above < |w.q.windows|
    ensures Safe(Apply(c, w, a), id, above)
  {
    var v := Apply(c, w, a);
    if Served(w, id) {
      assert v.handled == w.handled && v.skipped == w.skipped;
    } else if k :| Ahead(w.q, id, above, k) {
      AheadStays(c, w, a, id, above, k);
    } else if Has(w.q.pending, id) {
      PendingStays(c, w, a, id, above);
    } else if id in w.q.retries {
      RowStays(c, w, a, id, above);
    }
  }

  lemma EnvironmentKept(c: Fleet, w: World, a: Action, id: nat, above: int)
    requires Inv(w) && FromEnvironment(a) && Kept(w, id, above) && above < |w.q.windows|
    ensures Kept(Apply(c, w, a), id, above)
  {
    EnvironmentGrows(c, w, a);
    if Safe(w, id, above) {
      EnvironmentSafe(c, w, a, id, above);
    }
  }

  lemma EnvironmentConserves(c: Fleet, w: World, a: Action)
    requires Inv(w) && FromEnvironment(a)
    ensures Conserved(Apply(c, w, a))
  {
    var v := Apply(c, w, a);
    forall id: nat | id < v.q.nextId ensures Kept(v, id, -1) {
      if id < w.q.nextId {
        EnvironmentKept(c, w, a, id, -1);
      } else {
        assert v.q.pending[|w.q.pending|].id == id;
      }
    }
    forall m | m in v.routed ensures m.round < |v.rounds| && Kept(v, m.id, v.rounds[m.round].window) {
      assert RoundOk(w.q, w.rounds[m.round]);
      EnvironmentKept(c, w, a, m.id, w.rounds[m.round].window);
    }
  }

  lemma ReceiveConserves(w: World, k: nat, ceiling: int, victim: Option<nat>, fault: Fault)
    requires Inv(w)
    ensures Conserved(DoReceive(w, k, ceiling, victim, fault))
  {
    ReceiveAdvances(w, k, ceiling, victim, fault);
    ConservedKept(w, DoReceive(w, k, ceiling, victim, fault));
  }

  lemma DispatchConserves(c: Config, w: World, k: nat, ok: bool)
    requires Inv(w)
    ensures Conserved(DoDispatch(c, w, k, ok))
  {
    DispatchGrows(c, w, k, ok);
    ConservedKept(w, DoDispatch(c, w, k, ok));
  }

  lemma LocalConserves(c: Fleet, w: World, a: Action)
    requires Inv(w) && IsLocal(a)
    ensures Conserved(Apply(c, w, a))
  {
    EnvironmentGrows(c, w, a);
    ConservedKept(w, Apply(c, w, a));
  }

  lemma ApplyInv(c: Fleet, w: World, a: Action)
    requires Inv(w)
    ensures Inv(Apply(c, w, a))
  {
    ApplyOk(c, w, a);
    match a
    case Receive(k, victim, fault) => ReceiveConserves(w, k, c(k).ceiling, victim, fault);
    case Dispatch(k, ok) => DispatchConserves(c(k), w, k, ok);
    case Nack(k, fault) => NackConserves(w, k, fault);
    case Ack(k, fault) => AckConserves(w, k, fault);
    case Wake(_) => LocalConserves(c, w, a);
    case Cancel(_) => LocalConserves(c, w, a);
    case Crash(_) => LocalConserves(c, w, a);
    case _ => EnvironmentConserves(c, w, a);
  }
}
