/** Events that their window holds more than once, and when a nack can drop one. */
module Duplicates {
  import opened Options
  import opened Engine
  import opened Protocol
  import opened Conservation
  import opened Guarantees

  // ----- counting copies -----

  lemma {:induction false} CopiesConcat(a: seq<Event>, b: seq<Event>, id: nat)
    ensures Copies(a + b, id) == Copies(a, id) + Copies(b, id)
  {
    if b == [] {
      assert a + b == a;
    } else {
      assert (a + b)[..|a + b| - 1] == a + b[..|b| - 1];
      CopiesConcat(a, b[..|b| - 1], id);
    }
  }

  lemma {:induction false} CopiesInsert(e: Event, events: seq<Event>, id: nat)
    ensures Copies(Insert(e, events), id) == Copies(events, id) + if e.id == id then 1 else 0
  {
    assert Copies([e], id) == if e.id == id then 1 else 0 by {
      assert [e][..0] == [];
    }
    if events == [] || e.id <= events[0].id {
      CopiesConcat([e], events, id);
    } else {
      CopiesInsert(e, events[1..], id);
      CopiesConcat([events[0]], Insert(e, events[1..]), id);
      CopiesConcat([events[0]], events[1..], id);
      assert events == [events[0]] + events[1..];
    }
  }

  /** Putting a batch in order changes no count. */
  lemma {:induction false} CopiesById(events: seq<Event>, id: nat)
    ensures Copies(ById(events), id) == Copies(events, id)
  {
    if events != [] {
      CopiesById(events[1..], id);
      CopiesInsert(events[0], ById(events[1..]), id);
      CopiesConcat([events[0]], events[1..], id);
      assert [events[0]][..0] == [];
      assert events == [events[0]] + events[1..];
    }
  }

  lemma CopiesOneMore(events: seq<Event>, e: Event, id: nat)
    ensures Copies(events + [e], id) == Copies(events, id) + if e.id == id then 1 else 0
  {
    assert (events + [e])[..|events|] == events;
  }

  // ----- the order of a batch -----

  ghost predicate InIdOrder(events: seq<Event>) {
    forall i, j | 0 <= i < j < |events| :: events[i].id <= events[j].id
  }

  lemma {:induction false} InsertInOrder(e: Event, events: seq<Event>)
    requires InIdOrder(events)
    ensures InIdOrder(Insert(e, events))
  {
    if events != [] && e.id > events[0].id {
      InsertInOrder(e, events[1..]);
      forall x | x in Insert(e, events[1..]) ensures events[0].id <= x.id {
        assert x in multiset(Insert(e, events[1..]));
        assert x == e || x in events[1..];
      }
      FrontInOrder(events[0], Insert(e, events[1..]));
    } else if events != [] {
      FrontInOrder(e, events);
    }
  }

  lemma FrontInOrder(e: Event, events: seq<Event>)
    requires InIdOrder(events) && forall x <- events :: e.id <= x.id
    ensures InIdOrder([e] + events)
  {
  }

  lemma {:induction false} ByIdInOrder(events: seq<Event>)
    ensures InIdOrder(ById(events))
  {
    if events != [] {
      ByIdInOrder(events[1..]);
      InsertInOrder(events[0], ById(events[1..]));
    }
  }

  // ----- when every window holds an id at most once -----

  ghost predicate Single(events: seq<Event>) {
    forall id: nat :: Copies(events, id) <= 1
  }

  ghost predicate KnownIds(events: seq<Event>, nextId: nat) {
    forall id: nat :: nextId <= id ==> Copies(events, id) == 0
  }

  /** No list of events holds an id twice, and all ids were given out. */
  ghost predicate AllSingle(q: Queue) {
    && Single(q.pending) && KnownIds(q.pending, q.nextId)
    && (forall k | 0 <= k < |q.windows| :: Single(q.windows[k]) && KnownIds(q.windows[k], q.nextId))
    && (forall id <- q.retries :: id < q.nextId && q.retries[id].id == id)
  }

  /** No event is requeued while it is among the events of the next tick. */
  ghost predicate Guarded(c: Fleet, w: World, acts: seq<Action>)
    requires w.q.Valid()
    decreases |acts|
  {
    acts != [] ==>
      && (acts[0].Requeue? ==> Copies(w.q.pending, acts[0].id) == 0)
      && Guarded(c, Apply(c, w, acts[0]), acts[1..])
  }

  /** Only rows for events of some window come to the retry table, with a retry counted. */
  ghost predicate OnlyRows(q: Queue, r: Queue) {
    && r.windows == q.windows && r.pending == q.pending && r.nextId == q.nextId && r.maxRetries == q.maxRetries
    && forall id <- r.retries ::
         if id in q.retries then r.retries[id] == q.retries[id] else NewRow(q, id, r.retries[id])
  }

  ghost predicate NewRow(q: Queue, id: nat, e: Event) {
    e.id == id && e.retry >= 1 && exists k :: 0 <= k < |q.windows| && Copies(q.windows[k], id) > 0
  }

  lemma NackOnlyRows(q: Queue, b: nat, id: nat)
    requires q.Valid()
    ensures OnlyRows(q, Engine.Nack(q, b, id).0)
  {
  }

  predicate MovesEvents(a: Action) {
    a.Send? || a.Tick? || a.Requeue?
  }

  lemma SameRows(q: Queue, r: Queue)
    requires r == q.(held := r.held, cursor := r.cursor, nextBatch := r.nextBatch)
    ensures OnlyRows(q, r)
  {
  }

  lemma ReceiveOnlyRows(w: World, k: nat, ceiling: int, victim: Option<nat>, fault: Fault)
    requires w.q.Valid()
    ensures OnlyRows(w.q, DoReceive(w, k, ceiling, victim, fault).q)
  {
    ReceiveContract(w.q, k, ceiling, victim);
    SameRows(w.q, Engine.Receive(w.q, k, ceiling, victim).0);
    SameRows(w.q, w.q);
  }

  lemma NackStepOnlyRows(w: World, k: nat, fault: Fault)
    requires w.q.Valid()
    ensures OnlyRows(w.q, DoNack(w, k, fault).q)
  {
    SameRows(w.q, w.q);
    if w.At(k).Nacking? && w.AtMessage(k) {
      NackOnlyRows(w.q, w.rounds[w.At(k).round].token, w.Messages(w.At(k).round)[w.At(k).next].id);
    }
  }

  lemma AckOnlyRows(w: World, k: nat, fault: Fault)
    requires w.q.Valid()
    ensures OnlyRows(w.q, DoAck(w, k, fault).q)
  {
    SameRows(w.q, DoAck(w, k, fault).q);
  }

  lemma StepOnlyRows(c: Fleet, w: World, a: Action)
    requires w.q.Valid() && !MovesEvents(a)
    ensures OnlyRows(w.q, Apply(c, w, a).q)
  {
    if a.Receive? {
      ReceiveOnlyRows(w, a.worker, c(a.worker).ceiling, a.victim, a.fault);
    } else if a.Nack? {
      NackStepOnlyRows(w, a.worker, a.fault);
    } else if a.Ack? {
      AckOnlyRows(w, a.worker, a.fault);
    } else {
      SameRows(w.q, Apply(c, w, a).q);
    }
  }

  ghost predicate AllInOrder(q: Queue) {
    forall k | 0 <= k < |q.windows| :: InIdOrder(q.windows[k])
  }

  lemma StepKeepsOrder(c: Fleet, w: World, a: Action)
    requires w.q.Valid() && AllInOrder(w.q)
    ensures AllInOrder(Apply(c, w, a).q)
  {
    if a.Tick? {
      ByIdInOrder(w.q.pending);
    } else if !MovesEvents(a) {
      StepOnlyRows(c, w, a);
    } else {
      assert Apply(c, w, a).q.windows == w.q.windows;
    }
  }

  lemma {:induction false} WindowsKeepOrder(c: Fleet, w: World, acts: seq<Action>)
    requires w.q.Valid() && AllInOrder(w.q)
    ensures AllInOrder(Run(c, w, acts).q)
    decreases |acts|
  {
    if acts != [] {
      StepKeepsOrder(c, w, acts[0]);
      WindowsKeepOrder(c, Apply(c, w, acts[0]), acts[1..]);
    }
  }

  /** In every run each window is in the order of the event ids. */
  lemma BatchesInIdOrder(c: Fleet, coop: bool, maxRetries: nat, acts: seq<Action>, k: nat)
    ensures var v := Run(c, Start(coop, maxRetries), acts); k < |v.q.windows| ==> InIdOrder(v.q.windows[k])
  {
    WindowsKeepOrder(c, Start(coop, maxRetries), acts);
  }

  // ----- under the guard -----

  lemma RowsKeepSingle(q: Queue, r: Queue)
    requires AllSingle(q) && OnlyRows(q, r)
    ensures AllSingle(r)
  {
  }

  lemma SendKeepsSingle(q: Queue, kind: string)
    requires q.Valid() && AllSingle(q)
    ensures AllSingle(DoSend(q, kind))
  {
    forall id: nat
      ensures Copies(DoSend(q, kind).pending, id) == Copies(q.pending, id) + if q.nextId == id then 1 else 0
    {
      CopiesOneMore(q.pending, Event(q.nextId, kind, 0), id);
    }
  }

  lemma TickKeepsSingle(q: Queue)
    requires q.Valid() && AllSingle(q)
    ensures AllSingle(DoTick(q))
  {
    forall id: nat ensures Copies(ById(q.pending), id) == Copies(q.pending, id) {
      CopiesById(q.pending, id);
    }
  }

  lemma RequeueKeepsSingle(q: Queue, x: nat)
    requires q.Valid() && AllSingle(q) && Copies(q.pending, x) == 0
    ensures AllSingle(DoRequeue(q, x))
  {
    if x in q.retries {
      forall id: nat ensures Copies(DoRequeue(q, x).pending, id) == Copies(q.pending, id) + if x == id then 1 else 0 {
        CopiesOneMore(q.pending, q.retries[x], id);
      }
    }
  }

  lemma StepKeepsSingle(c: Fleet, w: World, a: Action)
    requires w.q.Valid() && AllSingle(w.q) && (a.Requeue? ==> Copies(w.q.pending, a.id) == 0)
    ensures AllSingle(Apply(c, w, a).q)
  {
    match a
    case Send(kind) => SendKeepsSingle(w.q, kind);
    case Tick => TickKeepsSingle(w.q);
    case Requeue(id) => RequeueKeepsSingle(w.q, id);
    case _ =>
      StepOnlyRows(c, w, a);
      RowsKeepSingle(w.q, Apply(c, w, a).q);
  }

  /** Nothing but a requeue can break the guard. */
  lemma {:induction false} NoRequeue(c: Fleet, w: World, acts: seq<Action>)
    requires w.q.Valid() && forall a <- acts :: !a.Requeue?
    ensures Guarded(c, w, acts)
    decreases |acts|
  {
    if acts != [] {
      NoRequeue(c, Apply(c, w, acts[0]), acts[1..]);
    }
  }

  ghost predicate NothingDrops(q: Queue)
    requires q.Valid()
  {
    forall b: nat, id: nat :: !Drops(q, b, id)
  }

  lemma SingleNeverDrops(q: Queue)
    requires q.Valid() && AllSingle(q)
    ensures NothingDrops(q)
  {
  }

  lemma StepDropsNothing(c: Fleet, w: World, a: Action)
    requires w.q.Valid() && NothingDrops(w.q)
    ensures Apply(c, w, a).dropped == w.dropped
  {
  }

  lemma {:induction false} GuardedRun(c: Fleet, w: World, acts: seq<Action>)
    requires w.q.Valid() && AllSingle(w.q) && Guarded(c, w, acts)
    ensures Run(c, w, acts).dropped == w.dropped && AllSingle(Run(c, w, acts).q)
    decreases |acts|
  {
    if acts != [] {
      SingleNeverDrops(w.q);
      StepDropsNothing(c, w, acts[0]);
      StepKeepsSingle(c, w, acts[0]);
      GuardedRun(c, Apply(c, w, acts[0]), acts[1..]);
    }
  }

  // ----- with a retry limit of at most one -----

  ghost predicate FreshIsSingle(events: seq<Event>) {
    forall e <- events :: e.retry == 0 ==> Copies(events, e.id) == 1
  }

  /** An event that was never retried is in one list, once; only such an event can be nacked under the limit. */
  ghost predicate FreshOnce(q: Queue) {
    && FreshIsSingle(q.pending) && KnownIds(q.pending, q.nextId)
    && (forall k | 0 <= k < |q.windows| :: FreshIsSingle(q.windows[k]) && KnownIds(q.windows[k], q.nextId))
    && (forall id <- q.retries :: id < q.nextId && q.retries[id].id == id && q.retries[id].retry >= 1)
    && (forall e <- q.pending :: e.retry == 0 ==> e.id !in q.retries)
    && (forall e <- q.pending, k | e.retry == 0 && 0 <= k < |q.windows| :: Copies(q.windows[k], e.id) == 0)
  }

  lemma RowsKeepFresh(q: Queue, r: Queue)
    requires FreshOnce(q) && OnlyRows(q, r)
    ensures FreshOnce(r)
  {
  }

  lemma SendKeepsFresh(q: Queue, kind: string)
    requires q.Valid() && FreshOnce(q)
    ensures FreshOnce(DoSend(q, kind))
  {
    var r := DoSend(q, kind);
    forall id: nat ensures Copies(r.pending, id) == Copies(q.pending, id) + if q.nextId == id then 1 else 0 {
      CopiesOneMore(q.pending, Event(q.nextId, kind, 0), id);
    }
    forall e | e in r.pending && e.retry == 0 ensures Copies(r.pending, e.id) == 1 && e.id !in r.retries {
      if e in q.pending {
        assert Copies(q.pending, e.id) == 1;
      }
    }
    forall e, k | e in r.pending && e.retry == 0 && 0 <= k < |r.windows| ensures Copies(r.windows[k], e.id) == 0 {
      assert e in q.pending || e.id == q.nextId;
    }
  }

  lemma TickKeepsFresh(q: Queue)
    requires q.Valid() && FreshOnce(q)
    ensures FreshOnce(DoTick(q))
  {
    var r := DoTick(q);
    forall id: nat ensures Copies(ById(q.pending), id) == Copies(q.pending, id) {
      CopiesById(q.pending, id);
    }
    forall e | e in ById(q.pending) && e.retry == 0 ensures Copies(ById(q.pending), e.id) == 1 {
      assert e in multiset(ById(q.pending));
      assert e in q.pending;
    }
  }

  lemma RequeueKeepsFresh(q: Queue, x: nat)
    requires q.Valid() && FreshOnce(q)
    ensures FreshOnce(DoRequeue(q, x))
  {
    if x in q.retries {
      var r := DoRequeue(q, x);
      forall id: nat ensures Copies(r.pending, id) == Copies(q.pending, id) + if x == id then 1 else 0 {
        CopiesOneMore(q.pending, q.retries[x], id);
      }
      forall e | e in r.pending && e.retry == 0 ensures e in q.pending && e.id != x {
        assert e == q.retries[x] || e in q.pending;
      }
    }
  }

  lemma StepKeepsFresh(c: Fleet, w: World, a: Action)
    requires w.q.Valid() && FreshOnce(w.q)
    ensures FreshOnce(Apply(c, w, a).q)
  {
    match a
    case Send(kind) => SendKeepsFresh(w.q, kind);
    case Tick => TickKeepsFresh(w.q);
    case Requeue(id) => RequeueKeepsFresh(w.q, id);
    case _ =>
      StepOnlyRows(c, w, a);
      RowsKeepFresh(w.q, Apply(c, w, a).q);
  }

  lemma FreshNeverDrops(q: Queue)
    requires q.Valid() && FreshOnce(q) && q.maxRetries <= 1
    ensures NothingDrops(q)
  {
    forall b: nat, id: nat ensures !Drops(q, b, id) {
      if b in q.held {
        var events := q.windows[q.held[b].window];
        var first := Find(events, id);
        if first.Some? && first.value.retry == 0 {
          assert Copies(events, id) == 1;
        }
      }
    }
  }

  lemma StepKeepsLimit(c: Fleet, w: World, a: Action)
    requires w.q.Valid()
    ensures Apply(c, w, a).q.maxRetries == w.q.maxRetries
  {
    if !MovesEvents(a) {
      StepOnlyRows(c, w, a);
    }
  }

  lemma {:induction false} LimitedRun(c: Fleet, w: World, acts: seq<Action>)
    requires w.q.Valid() && FreshOnce(w.q) && w.q.maxRetries <= 1
    ensures var v := Run(c, w, acts); v.dropped == w.dropped && FreshOnce(v.q) && v.q.maxRetries == w.q.maxRetries
    decreases |acts|
  {
    if acts != [] {
      FreshNeverDrops(w.q);
      StepDropsNothing(c, w, acts[0]);
      StepKeepsFresh(c, w, acts[0]);
      StepKeepsLimit(c, w, acts[0]);
      LimitedRun(c, Apply(c, w, acts[0]), acts[1..]);
    }
  }

  // ----- conservation, with its condition -----

  /** Every event is accounted for in every run in which no event is requeued while it is among the
      events of the next tick. */
  lemma GuardedRunsLoseNothing(c: Fleet, coop: bool, maxRetries: nat, acts: seq<Action>, id: nat)
    requires Guarded(c, Start(coop, maxRetries), acts)
    ensures var v := Run(c, Start(coop, maxRetries), acts); id < v.q.nextId ==> Safe(v, id, -1)
  {
    GuardedRun(c, Start(coop, maxRetries), acts);
    EveryEventIsAccountedFor(c, coop, maxRetries, acts, id);
  }

  lemma LimitedRunsLoseNothing(c: Fleet, coop: bool, maxRetries: nat, acts: seq<Action>, id: nat)
    requires maxRetries <= 1
    ensures var v := Run(c, Start(coop, maxRetries), acts); id < v.q.nextId ==> Safe(v, id, -1)
  {
    LimitedRun(c, Start(coop, maxRetries), acts);
    EveryEventIsAccountedFor(c, coop, maxRetries, acts, id);
  }
}
