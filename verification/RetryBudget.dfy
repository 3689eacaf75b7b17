/** The retry budget: how often an event can come back, and when it is given up. */
module RetryBudgets {
  import opened Options
  import opened Engine
  import opened Protocol
  import opened Transactions
  import opened Simulation

  ghost predicate Within(events: seq<Event>, max: nat) {
    forall e <- events :: e.retry <= max
  }

  /** No event has been retried more than `max` times, one in the retry table at least once, and one in
      the dead letter table exactly `max` times. */
  ghost predicate Budgeted(q: Queue, max: nat) {
    && q.maxRetries == max
    && (forall k | 0 <= k < |q.windows| :: Within(q.windows[k], max))
    && Within(q.pending, max)
    && (forall id <- q.retries :: 1 <= q.retries[id].retry <= max)
    && (forall id <- q.dead :: q.dead[id].retry == max)
  }

  lemma RoutedBudgeted(q: Queue, e: Event, max: nat)
    requires Budgeted(q, max) && e.retry <= max
    ensures Budgeted(Routed(q, e), max)
  {
  }

  lemma NackBudgeted(q: Queue, b: nat, id: nat, max: nat)
    requires q.Valid() && Budgeted(q, max)
    ensures Budgeted(Engine.Nack(q, b, id).0, max)
  {
    if Engine.Nack(q, b, id).1 {
      NackRoutes(q, b, id);
      var e :| e in q.windows[q.held[b].window] && e.id == id && RoutesAs(q, b, id, e);
      assert Within(q.windows[q.held[b].window], max);
      RoutedBudgeted(q, e, max);
    }
  }

  lemma NackStepBudgeted(w: World, k: nat, fault: Fault, max: nat)
    requires w.q.Valid() && Budgeted(w.q, max)
    ensures Budgeted(DoNack(w, k, fault).q, max)
  {
    if w.At(k).Nacking? && w.AtMessage(k) {
      NackBudgeted(w.q, w.rounds[w.At(k).round].token, w.Messages(w.At(k).round)[w.At(k).next].id, max);
    }
  }

  lemma ReceiveBudgeted(q: Queue, k: nat, ceiling: int, victim: Option<nat>, max: nat)
    requires q.Valid() && Budgeted(q, max)
    ensures Budgeted(Engine.Receive(q, k, ceiling, victim).0, max)
  {
    ReceiveContract(q, k, ceiling, victim);
  }

  lemma RequeueBudgeted(q: Queue, id: nat, max: nat)
    requires q.Valid() && Budgeted(q, max)
    ensures Budgeted(DoRequeue(q, id), max)
  {
    if id in q.retries {
      assert forall e <- q.pending + [q.retries[id]] :: e in q.pending || e == q.retries[id];
    }
  }

  lemma ReceiveStepBudgeted(w: World, k: nat, ceiling: int, victim: Option<nat>, fault: Fault, max: nat)
    requires w.q.Valid() && Budgeted(w.q, max)
    ensures Budgeted(DoReceive(w, k, ceiling, victim, fault).q, max)
  {
    ReceiveBudgeted(w.q, k, ceiling, victim, max);
  }

  lemma AckStepBudgeted(w: World, k: nat, fault: Fault, max: nat)
    requires w.q.Valid() && Budgeted(w.q, max)
    ensures Budgeted(DoAck(w, k, fault).q, max)
  {
    if AtEnd(w, k) {
      assert OnlyCursor(w.q, Engine.Ack(w.q, w.rounds[w.At(k).round].token).0);
    }
  }

  predicate OnlyCursor(q: Queue, r: Queue) {
    r == q.(held := r.held, cursor := r.cursor)
  }

  lemma TickBudgeted(q: Queue, max: nat)
    requires q.Valid() && Budgeted(q, max)
    ensures Budgeted(DoTick(q), max)
  {
    forall e | e in ById(q.pending) ensures e in q.pending {
      assert e in multiset(ById(q.pending));
    }
  }

  lemma ApplyBudgeted(c: Fleet, w: World, a: Action, max: nat)
    requires w.q.Valid() && Budgeted(w.q, max)
    ensures Budgeted(Apply(c, w, a).q, max)
  {
    match a
    case Send(kind) => assert Within(w.q.pending + [Event(w.q.nextId, kind, 0)], max);
    case Tick => TickBudgeted(w.q, max);
    case Requeue(id) => RequeueBudgeted(w.q, id, max);
    case Receive(k, victim, fault) => ReceiveStepBudgeted(w, k, c(k).ceiling, victim, fault, max);
    case Nack(k, fault) => NackStepBudgeted(w, k, fault, max);
    case Ack(k, fault) => AckStepBudgeted(w, k, fault, max);
    case _ =>
  }

  lemma {:induction false} RunBudgeted(c: Fleet, w: World, acts: seq<Action>, max: nat)
    requires w.q.Valid() && Budgeted(w.q, max)
    ensures Budgeted(Run(c, w, acts).q, max)
    decreases |acts|
  {
    if acts != [] {
      ApplyBudgeted(c, w, acts[0], max);
      RunBudgeted(c, Apply(c, w, acts[0]), acts[1..], max);
    }
  }

  /** In every run, of Go and TypeScript loops as of transactional workers, no event is retried more
      than the queue allows, and an event is a dead letter only with its retries used up. */
  lemma RetriesAreBounded(c: Fleet, coop: bool, max: nat, acts: seq<Action>, steps: seq<Step>)
    ensures Budgeted(Run(c, Protocol.Start(coop, max), acts).q, max)
    ensures Budgeted(RunSteps(c, State(Engine.Empty(coop, max), {}, {}), steps).q, max)
  {
    var s := State(Engine.Empty(coop, max), {}, {});
    RunBudgeted(c, Protocol.Start(coop, max), acts, max);
    RunBudgeted(c, Protocol.Start(coop, max), AllActions(c, s, steps), max);
    RunsAreTracked(c, Protocol.Start(coop, max), s, steps);
  }
}
