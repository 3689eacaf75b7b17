/** The delivery engine behind every client: one queue as one consumer group sees it.
    A window is the run of events between two consecutive ticks; a token is a batch id. */

module Options {
  datatype Option<+T> = None | Some(value: T)
}

module Markers {
  /** Always true. A fact stated under it is used only where a proof names it. */
  predicate Shown(x: nat) {
    true
  }
}

module Engine {
  import opened Options

  datatype Event = Event(id: nat, kind: string, retry: nat)

  /** An active subscription row. A normal consumer has the single slot 0; a cooperative
      group has one slot per member. */
  datatype Hold = Hold(slot: nat, window: nat)

  /** `held` maps each live token to its row; `retries` and `dead` are keyed by event id. */
  datatype Queue = Queue(
    windows: seq<seq<Event>>,
    pending: seq<Event>,
    nextId: nat,
    coop: bool,
    cursor: nat,
    held: map<nat, Hold>,
    nextBatch: nat,
    retries: map<nat, Event>,
    dead: map<nat, Event>,
    maxRetries: nat
  ) {
    /** A slot holds at most one token, and a window has at most one live owner. */
    ghost predicate OneOwner() {
      forall a, b ::
        a in held && b in held && (held[a].slot == held[b].slot || held[a].window == held[b].window) ==> a == b
    }

    ghost predicate Valid() {
      && cursor <= |windows|
      && 1 <= nextBatch
      && OneOwner()
      && (forall b <- held :: 0 < b < nextBatch && held[b].window < |windows| && windows[held[b].window] != [])
      && (!coop ==> forall b <- held :: held[b] == Hold(0, cursor))
      && (coop ==> forall b <- held :: held[b].window < cursor)
    }

    ghost predicate Live(k: nat) {
      exists b :: b in held && held[b].window == k
    }

    /** Window k still has to be delivered or is being processed. */
    ghost predicate Unfinished(k: nat) {
      k < |windows| && (cursor <= k || Live(k))
    }

    function Slot(worker: nat): nat {
      if coop then worker else 0
    }

    predicate Owns(slot: nat) {
      exists b <- held :: held[b].slot == slot
    }

    function TokenOf(slot: nat): (b: nat)
      requires OneOwner() && Owns(slot)
      ensures b in held && held[b].slot == slot
    {
      var b :| b in held && held[b].slot == slot; b
    }
  }

  datatype Delivery = Nothing | Rejected | Overflow | Batch(token: nat, window: nat, events: seq<Event>)

  function Empty(coop: bool, maxRetries: nat): (q: Queue)
    ensures q.Valid()
  {
    Queue([], [], 0, coop, 0, map[], 1, map[], map[], maxRetries)
  }

  /** Ends a live batch; a normal row moves the cursor, a member row only lets go. */
  function Finish(q: Queue, b: nat): Queue
    requires q.Valid() && b in q.held
  {
    q.(held := q.held - {b}, cursor := q.cursor + if q.coop then 0 else 1)
  }

  /** Finishing batch b finishes exactly its own window. */
  lemma FinishEndsOneWindow(q: Queue, b: nat)
    requires q.Valid() && b in q.held
    ensures Finish(q, b).Valid()
    ensures forall k: nat :: Finish(q, b).Unfinished(k) <==> q.Unfinished(k) && k != q.held[b].window
  {
    var r := Finish(q, b);
    forall k: nat | q.Unfinished(k) && k != q.held[b].window ensures r.Unfinished(k) {
      if q.Live(k) {
        var c :| c in q.held && q.held[c].window == k;
        assert c in r.held;
      }
    }
  }

  /** pgque.ack: the row count, 0 when the token is not live. */
  function Ack(q: Queue, b: nat): (r: (Queue, nat))
    requires q.Valid()
    ensures r.0.Valid()
  {
    if b in q.held then
      FinishEndsOneWindow(q, b);
      (Finish(q, b), 1)
    else (q, 0)
  }

  /** The first event with this id, in the order of delivery. */
  function Find(events: seq<Event>, id: nat): (r: Option<Event>)
    ensures r.None? <==> forall e <- events :: e.id != id
    ensures r.Some? ==> r.value in events && r.value.id == id
  {
    if events == [] then None
    else if events[0].id == id then Some(events[0])
    else Find(events[1..], id)
  }

  /** How many events of the list have this id. */
  function Copies(events: seq<Event>, id: nat): (n: nat)
    ensures n > 0 <==> exists e :: e in events && e.id == id
  {
    if events == [] then 0
    else Copies(events[..|events| - 1], id) + if events[|events| - 1].id == id then 1 else 0
  }

  /** The nack of the message is answered with success but stores nothing: its retries are not used up,
      it has no retry row, and its window holds the id more than once, so that the rows to insert violate
      the key of the retry table and the insert is undone. */
  predicate Drops(q: Queue, b: nat, id: nat)
    requires q.Valid()
  {
    && b in q.held && id !in q.retries && Copies(q.windows[q.held[b].window], id) > 1
    && Find(q.windows[q.held[b].window], id).value.retry < q.maxRetries
  }

  /** pgque.nack: routes the canonical event to the retry table or the dead letter table; both inserts
      tolerate a row that is there. The flag is false when the call raises. */
  function Nack(q: Queue, b: nat, id: nat): (r: (Queue, bool))
    requires q.Valid()
    ensures r.0.Valid()
    ensures r.1 <==> b in q.held && exists e :: e in q.windows[q.held[b].window] && e.id == id
    ensures !r.1 || Drops(q, b, id) ==> r.0 == q
    ensures r.1 && !Drops(q, b, id) ==> id in r.0.retries || id in r.0.dead
    ensures q.retries.Keys <= r.0.retries.Keys && q.dead.Keys <= r.0.dead.Keys
    ensures r.0 == q.(retries := r.0.retries, dead := r.0.dead)
  {
    if b !in q.held then (q, false)
    else
      var events := q.windows[q.held[b].window];
      match Find(events, id)
      case None => (q, false)
      case Some(e) =>
        if e.retry >= q.maxRetries then
          (if id in q.dead then q else q.(dead := q.dead[id := e]), true)
        else
          (if id in q.retries || Copies(events, id) > 1 then q
           else q.(retries := q.retries[id := e.(retry := e.retry + 1)]), true)
  }

  /** An ack counts 1 exactly for a live token, and then finishes that token's window alone; the token
      is dead afterwards, so a second ack counts 0 and a late nack raises. A stale ack does nothing. */
  lemma AckContract(q: Queue, b: nat)
    requires q.Valid()
    ensures var (r, n) := Ack(q, b);
      && (n == 1 <==> b in q.held) && (n == 0 <==> b !in q.held) && (n == 0 ==> r == q)
      && (n == 1 ==> forall k: nat :: r.Unfinished(k) <==> q.Unfinished(k) && k != q.held[b].window)
      && Ack(r, b) == (r, 0) && forall id: nat :: Nack(r, b, id) == (r, false)
  {
    if b in q.held {
      FinishEndsOneWindow(q, b);
    }
  }

  /** Where a nacked event goes: to the dead letter table when its retries are used up, else to the
      retry table with one more retry counted; what is there already stays as it is. */
  ghost function Routed(q: Queue, e: Event): Queue {
    if e.retry < q.maxRetries then q.(retries := map[e.id := e.(retry := e.retry + 1)] + q.retries)
    else q.(dead := map[e.id := e] + q.dead)
  }

  ghost predicate RoutesAs(q: Queue, b: nat, id: nat, e: Event)
    requires q.Valid()
  {
    Nack(q, b, id).0 == if Drops(q, b, id) then q else Routed(q, e)
  }

  lemma NackRoutes(q: Queue, b: nat, id: nat)
    requires q.Valid() && Nack(q, b, id).1
    ensures exists e :: e in q.windows[q.held[b].window] && e.id == id && RoutesAs(q, b, id, e)
  {
    var e := Find(q.windows[q.held[b].window], id).value;
    KeptOrAdded(q.dead, e);
    KeptOrAdded(q.retries, e.(retry := e.retry + 1));
    assert RoutesAs(q, b, id, e);
  }

  /** A nack that is answered with success leaves the event in the retry or the dead letter table, as it
      promises, if and only if it does not drop it, or a dead letter is there already. */
  lemma NackStores(q: Queue, b: nat, id: nat)
    requires q.Valid() && Nack(q, b, id).1
    ensures id in Nack(q, b, id).0.retries || id in Nack(q, b, id).0.dead <==> !Drops(q, b, id) || id in q.dead
  {
  }

  lemma KeptOrAdded(table: map<nat, Event>, e: Event)
    ensures map[e.id := e] + table == if e.id in table then table else table[e.id := e]
  {
  }

  /** A stale sibling's row moves to `slot` under a fresh token. */
  function Takeover(q: Queue, slot: nat, victim: nat): Queue
    requires victim in q.held
  {
    q.(held := (q.held - {victim})[q.nextBatch := Hold(slot, q.held[victim].window)], nextBatch := q.nextBatch + 1)
  }

  /** The next window goes to `slot`; a window without events is finished in the same call. */
  function Grant(q: Queue, slot: nat): Queue
    requires q.cursor < |q.windows|
  {
    if q.windows[q.cursor] == [] then q.(cursor := q.cursor + 1, nextBatch := q.nextBatch + 1)
    else q.(held := q.held[q.nextBatch := Hold(slot, q.cursor)],
            cursor := q.cursor + if q.coop then 1 else 0,
            nextBatch := q.nextBatch + 1)
  }

  /** pgque.next_batch: the slot's own live batch, else a stale sibling's window, else the next
      window, else nothing. */
  function Claim(q: Queue, slot: nat, victim: Option<nat>): Queue
    requires q.Valid()
  {
    if q.Owns(slot) then q
    else if q.coop && victim.Some? && victim.value in q.held then Takeover(q, slot, victim.value)
    else if q.cursor < |q.windows| then Grant(q, slot)
    else q
  }

  /** Work is neither gained nor lost between two states of the engine, and no live token changes
      its meaning. */
  ghost predicate KeepsWork(q: Queue, r: Queue) {
    && r == q.(held := r.held, cursor := r.cursor, nextBatch := r.nextBatch)
    && q.nextBatch <= r.nextBatch && q.cursor <= r.cursor
    && (forall k: nat :: r.Unfinished(k) ==> q.Unfinished(k))
    && (forall k: nat :: q.Unfinished(k) && q.windows[k] != [] ==> r.Unfinished(k))
    && (forall b <- r.held :: if b in q.held then r.held[b] == q.held[b] else q.nextBatch <= b)
  }

  lemma TakeoverKeepsWork(q: Queue, slot: nat, victim: nat)
    requires q.Valid() && q.coop && victim in q.held && !q.Owns(slot)
    ensures Takeover(q, slot, victim).Valid() && KeepsWork(q, Takeover(q, slot, victim))
  {
    var r := Takeover(q, slot, victim);
    forall k: nat | q.Live(k) ensures r.Live(k) {
      var b :| b in q.held && q.held[b].window == k;
      assert (if b == victim then q.nextBatch else b) in r.held;
    }
    forall k: nat | r.Live(k) ensures q.Live(k) {
      var b :| b in r.held && r.held[b].window == k;
      assert (if b == q.nextBatch then victim else b) in q.held;
    }
  }

  lemma GrantIsValid(q: Queue, slot: nat)
    requires q.Valid() && q.cursor < |q.windows| && !q.Owns(slot) && (q.coop || slot == 0)
    ensures Grant(q, slot).Valid()
    ensures !q.coop ==> q.held == map[]
  {
    var r := Grant(q, slot);
    if q.windows[q.cursor] != [] {
      assert forall b <- r.held :: b == q.nextBatch || (b in q.held && r.held[b] == q.held[b]);
    }
  }

  lemma GrantKeepsWindow(q: Queue, slot: nat, k: nat)
    requires q.Valid() && q.cursor < |q.windows| && q.windows[q.cursor] != [] && !q.Owns(slot) && (q.coop || slot == 0)
    ensures Grant(q, slot).Unfinished(k) <==> q.Unfinished(k)
  {
    var r := Grant(q, slot);
    if q.Live(k) {
      var b :| b in q.held && q.held[b].window == k;
      assert b in r.held && r.held[b].window == k;
    }
    if r.Live(k) && k != q.cursor {
      var b :| b in r.held && r.held[b].window == k;
      assert b in q.held;
    }
    assert q.nextBatch in r.held && r.held[q.nextBatch].window == q.cursor;
  }

  lemma GrantKeepsWork(q: Queue, slot: nat)
    requires q.Valid() && q.cursor < |q.windows| && !q.Owns(slot) && (q.coop || slot == 0)
    ensures KeepsWork(q, Grant(q, slot))
  {
    var r := Grant(q, slot);
    if q.windows[q.cursor] == [] {
      assert forall k: nat :: q.Live(k) <==> r.Live(k);
    } else {
      forall k: nat ensures r.Unfinished(k) <==> q.Unfinished(k) {
        GrantKeepsWindow(q, slot, k);
      }
    }
  }

  lemma ClaimKeepsWork(q: Queue, slot: nat, victim: Option<nat>)
    requires q.Valid() && (q.coop || slot == 0)
    ensures Claim(q, slot, victim).Valid() && KeepsWork(q, Claim(q, slot, victim))
  {
    if q.Owns(slot) {
    } else if q.coop && victim.Some? && victim.value in q.held {
      TakeoverKeepsWork(q, slot, victim.value);
    } else if q.cursor < |q.windows| {
      GrantIsValid(q, slot);
      GrantKeepsWork(q, slot);
    }
  }

  lemma BurnKeepsWork(q: Queue, n: nat)
    requires q.Valid() && q.nextBatch <= n
    ensures q.(nextBatch := n).Valid() && KeepsWork(q, q.(nextBatch := n))
  {
    var r := q.(nextBatch := n);
    assert forall k: nat :: q.Live(k) <==> r.Live(k);
  }

  /** pgque.receive and pgque.receive_coop. An error inside the call undoes everything but the
      batch id drawn from the sequence. */
  function Receive(q: Queue, worker: nat, ceiling: int, victim: Option<nat>): (Queue, Delivery)
    requires q.Valid()
  {
    var slot := q.Slot(worker);
    var c := Claim(q, slot, victim);
    ClaimKeepsWork(q, slot, victim);
    if ceiling < 1 then (q, Rejected)
    else if !c.Owns(slot) then (c, Nothing)
    else
      var b := c.TokenOf(slot);
      var events := c.windows[c.held[b].window];
      if |events| > ceiling then (q.(nextBatch := c.nextBatch), Overflow)
      else (c, Batch(b, c.held[b].window, events))
  }

  /** What one receive call can and cannot do to the queue. */
  lemma ReceiveContract(q: Queue, worker: nat, ceiling: int, victim: Option<nat>)
    requires q.Valid()
    ensures var (r, d) := Receive(q, worker, ceiling, victim);
      && r.Valid() && KeepsWork(q, r)
      && (d.Overflow? || d.Rejected? ==> r == q.(nextBatch := r.nextBatch))
      && (d.Batch? ==>
          && d.token in r.held && r.held[d.token] == Hold(q.Slot(worker), d.window)
          && d.events == r.windows[d.window] && d.events != [] && |d.events| <= ceiling)
  {
    var c := Claim(q, q.Slot(worker), victim);
    ClaimKeepsWork(q, q.Slot(worker), victim);
    if ceiling < 1 {
      BurnKeepsWork(q, q.nextBatch);
    } else if c.Owns(q.Slot(worker)) {
      var events := c.windows[c.held[c.TokenOf(q.Slot(worker))].window];
      if |events| > ceiling {
        BurnKeepsWork(q, c.nextBatch);
      }
    }
  }

  /** The window that falls to a caller: that of its own live batch, else that of the stale sibling, else
      the one at the cursor. */
  ghost predicate Falls(q: Queue, slot: nat, victim: Option<nat>, k: nat) {
    && k < |q.windows|
    && if q.Owns(slot) then exists b <- q.held :: q.held[b] == Hold(slot, k)
       else if q.coop && victim.Some? && victim.value in q.held then k == q.held[victim.value].window
       else k == q.cursor
  }

  /** It has more events than the caller allows. */
  ghost predicate ExceedsCeiling(q: Queue, worker: nat, ceiling: int, victim: Option<nat>) {
    ceiling >= 1 && exists k: nat :: Falls(q, q.Slot(worker), victim, k) && |q.windows[k]| > ceiling
  }

  /** There is none, or it has no events. */
  ghost predicate NothingFalls(q: Queue, worker: nat, ceiling: int, victim: Option<nat>) {
    ceiling >= 1 && forall k: nat :: Falls(q, q.Slot(worker), victim, k) ==> q.windows[k] == []
  }

  lemma OwnBatchFalls(q: Queue, slot: nat, victim: Option<nat>)
    requires q.Valid() && q.Owns(slot)
    ensures forall k: nat :: Falls(q, slot, victim, k) <==> k == q.held[q.TokenOf(slot)].window
  {
  }

  /** After the claim, the slot holds the window that fell to it, under its own token or a fresh one. */
  lemma ClaimTakesWhatFalls(q: Queue, slot: nat, victim: Option<nat>)
    requires q.Valid() && (q.coop || slot == 0)
    ensures var c := Claim(q, slot, victim);
      && c.Valid() && c.windows == q.windows
      && c.nextBatch == q.nextBatch + (if c == q then 0 else 1) && (q.Owns(slot) ==> c == q)
      && (c.Owns(slot) ==>
            var b := c.TokenOf(slot);
            && Falls(q, slot, victim, c.held[b].window) && c.windows[c.held[b].window] != []
            && (forall k: nat :: Falls(q, slot, victim, k) ==> k == c.held[b].window)
            && (if q.Owns(slot) then b in q.held && q.held[b].slot == slot else b == q.nextBatch))
      && (!c.Owns(slot) ==> forall k: nat :: Falls(q, slot, victim, k) ==> k == q.cursor && q.windows[k] == [])
  {
    ClaimKeepsWork(q, slot, victim);
    if q.Owns(slot) {
      OwnBatchFalls(q, slot, victim);
    } else if q.coop && victim.Some? && victim.value in q.held {
      assert Claim(q, slot, victim).held[q.nextBatch] == Hold(slot, q.held[victim.value].window);
    } else if q.cursor < |q.windows| && q.windows[q.cursor] != [] {
      assert Claim(q, slot, victim).held[q.nextBatch] == Hold(slot, q.cursor);
    }
  }

  /** A receive whose claim got a window. */
  lemma ReceiveOfAWindow(q: Queue, worker: nat, ceiling: int, victim: Option<nat>, c: Queue, b: nat, k: nat)
    requires q.Valid() && ceiling >= 1 && c == Claim(q, q.Slot(worker), victim) && c.Valid() && c.windows == q.windows
    requires c.Owns(q.Slot(worker)) && b == c.TokenOf(q.Slot(worker)) && c.held[b].window == k
    ensures Receive(q, worker, ceiling, victim) ==
      if |q.windows[k]| > ceiling then (q.(nextBatch := c.nextBatch), Overflow) else (c, Batch(b, k, q.windows[k]))
  {
  }

  lemma ReceiveOfNothing(q: Queue, worker: nat, ceiling: int, victim: Option<nat>, c: Queue)
    requires q.Valid() && ceiling >= 1 && c == Claim(q, q.Slot(worker), victim) && !c.Owns(q.Slot(worker))
    ensures Receive(q, worker, ceiling, victim) == (c, Nothing)
  {
  }

  /** Which of the four answers it is, read off the queue alone: rejected exactly for a ceiling below 1;
      an overflow exactly when the window that falls to the caller is too large; nothing exactly when
      there is none or it has no events; and else that whole window. */
  lemma ReceiveAnswers(q: Queue, worker: nat, ceiling: int, victim: Option<nat>)
    requires q.Valid()
    ensures var d := Receive(q, worker, ceiling, victim).1;
      && (d.Rejected? <==> ceiling < 1)
      && (d.Overflow? <==> ExceedsCeiling(q, worker, ceiling, victim))
      && (d.Nothing? <==> NothingFalls(q, worker, ceiling, victim))
      && (d.Batch? ==> Falls(q, q.Slot(worker), victim, d.window) && d.events == q.windows[d.window])
  {
    var slot := q.Slot(worker);
    var c := Claim(q, slot, victim);
    ClaimTakesWhatFalls(q, slot, victim);
    if ceiling >= 1 && c.Owns(slot) {
      var b := c.TokenOf(slot);
      ReceiveOfAWindow(q, worker, ceiling, victim, c, b, c.held[b].window);
      assert Falls(q, slot, victim, c.held[b].window);
    } else if ceiling >= 1 {
      ReceiveOfNothing(q, worker, ceiling, victim, c);
    }
  }

  lemma OwnReceive(q: Queue, worker: nat, ceiling: int, victim: Option<nat>)
    requires q.Valid() && ceiling >= 1 && q.Owns(q.Slot(worker))
    ensures var b := q.TokenOf(q.Slot(worker)); var events := q.windows[q.held[b].window];
      Receive(q, worker, ceiling, victim) ==
        (q, if |events| > ceiling then Overflow else Batch(b, q.held[b].window, events))
  {
  }

  lemma FreshReceive(q: Queue, worker: nat, ceiling: int, victim: Option<nat>)
    requires q.Valid() && ceiling >= 1 && !q.Owns(q.Slot(worker))
    ensures var (r, d) := Receive(q, worker, ceiling, victim);
      && (d.Overflow? ==> r == q.(nextBatch := q.nextBatch + 1))
      && (d.Batch? ==> d.token == q.nextBatch && r.nextBatch == q.nextBatch + 1)
  {
    var slot := q.Slot(worker);
    var c := Claim(q, slot, victim);
    ClaimTakesWhatFalls(q, slot, victim);
    if c.Owns(slot) {
      var b := c.TokenOf(slot);
      ReceiveOfAWindow(q, worker, ceiling, victim, c, b, c.held[b].window);
      assert b in c.held && b !in q.held;
    } else {
      ReceiveOfNothing(q, worker, ceiling, victim, c);
    }
  }

  /** What the answers leave: a rejection nothing; an overflow a drawn batch id, unless the batch is the
      caller's own; a batch is the caller's own, unchanged, or comes under a fresh token. */
  lemma ReceiveLeaves(q: Queue, worker: nat, ceiling: int, victim: Option<nat>)
    requires q.Valid()
    ensures var (r, d) := Receive(q, worker, ceiling, victim); var own := q.Owns(q.Slot(worker));
      && (d.Rejected? ==> r == q)
      && (d.Overflow? ==> r == q.(nextBatch := q.nextBatch + if own then 0 else 1))
      && (d.Batch? && own ==> r == q && d.token in q.held && q.held[d.token].slot == q.Slot(worker))
      && (d.Batch? && !own ==> d.token == q.nextBatch && r.nextBatch == q.nextBatch + 1)
  {
    if ceiling >= 1 {
      if q.Owns(q.Slot(worker)) {
        OwnReceive(q, worker, ceiling, victim);
      } else {
        FreshReceive(q, worker, ceiling, victim);
      }
    }
  }

  /** An unacknowledged batch is returned again, unchanged. */
  lemma UnackedBatchReturns(q: Queue, worker: nat, ceiling: int, victim: Option<nat>, again: Option<nat>)
    requires q.Valid() && Receive(q, worker, ceiling, victim).1.Batch?
    ensures var (r, d) := Receive(q, worker, ceiling, victim);
      r.Valid() && Receive(r, worker, ceiling, again) == (r, d)
  {
    ReceiveContract(q, worker, ceiling, victim);
  }

  /** A takeover keeps the window, changes the token, and kills the old one. */
  lemma TakeoverFencesTheVictim(q: Queue, worker: nat, ceiling: int, victim: nat)
    requires q.Valid() && q.coop && !q.Owns(worker) && victim in q.held
    requires |q.windows[q.held[victim].window]| <= ceiling
    ensures var (r, d) := Receive(q, worker, ceiling, Some(victim));
      && d == Batch(q.nextBatch, q.held[victim].window, q.windows[q.held[victim].window])
      && r.Valid() && victim !in r.held && d.token !in q.held
      && Ack(r, victim) == (r, 0) && forall id: nat :: Nack(r, victim, id) == (r, false)
  {
    TakeoverKeepsWork(q, worker, victim);
    var c := Takeover(q, worker, victim);
    assert c.held[q.nextBatch].slot == worker;
  }
}
