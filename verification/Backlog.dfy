/** Draining a backlog: what a worker does that is alone in its group while nothing fails. */
module Backlog {
  import opened Options
  import opened Engine
  import opened Protocol
  import opened Decisions
  import opened Transactions

  /** Nothing fails but, possibly, handlers. */
  ghost predicate Calm(e: Circumstances) {
    && e.receive.Runs? && e.ack.Runs? && e.commit.Answered? && Contained(e.outcome)
    && forall i: nat :: e.nack(i).Runs?
  }

  /** The ceiling admits every window, and nobody but worker k holds a batch: a normal consumer, or a
      cooperative group with one active member. */
  ghost predicate Admits(c: Config, q: Queue, k: nat) {
    && q.Valid() && c.ceiling >= 1 && (forall w <- q.windows :: |w| <= c.ceiling)
    && forall b <- q.held :: q.held[b].slot == q.Slot(k)
  }

  /** The windows worker k has still to go through: the one a member holds, then those at the cursor. */
  function Left(q: Queue, k: nat): seq<seq<Event>>
    requires q.Valid()
  {
    (if q.coop && q.Owns(k) then [q.windows[q.held[q.TokenOf(k)].window]] else []) + q.windows[q.cursor..]
  }

  /** What is left when k holds nothing, and when it holds batch b. */
  lemma LeftIs(c: Config, q: Queue, k: nat, b: nat)
    requires Admits(c, q, k)
    ensures q.held == map[] ==> Left(q, k) == q.windows[q.cursor..]
    ensures b in q.held ==>
      && q.held - {b} == map[] && q.windows[q.held[b].window] != []
      && Left(q, k) == [q.windows[q.held[b].window]] + q.windows[q.cursor + (if q.coop then 0 else 1)..]
  {
    if b in q.held {
      assert q.Owns(q.Slot(k)) && q.TokenOf(q.Slot(k)) == b;
    }
  }

  lemma GrantHolds(q: Queue, slot: nat)
    requires q.Valid() && q.held == map[] && q.cursor < |q.windows| && (q.coop || slot == 0)
    ensures var r := Grant(q, slot);
      && (q.windows[q.cursor] == [] ==>
            r == q.(cursor := q.cursor + 1, nextBatch := q.nextBatch + 1) && !r.Owns(slot))
      && (q.windows[q.cursor] != [] ==>
            && r.OneOwner() && r.Owns(slot) && r.TokenOf(slot) == q.nextBatch
            && r.held[q.nextBatch] == Hold(slot, q.cursor))
  {
    var r := Grant(q, slot);
    GrantIsValid(q, slot);
    if q.windows[q.cursor] != [] {
      assert r.held[q.nextBatch] == Hold(slot, q.cursor);
    }
  }

  lemma FreeClaim(q: Queue, slot: nat, victim: Option<nat>)
    requires q.Valid() && q.held == map[]
    ensures !q.Owns(slot) && Claim(q, slot, victim) == if q.cursor < |q.windows| then Grant(q, slot) else q
  {
  }

  /** A receive of a worker that holds nothing. */
  lemma FreeReceive(c: Config, q: Queue, k: nat, victim: Option<nat>)
    requires Admits(c, q, k) && q.held == map[]
    ensures var (r, d) := Engine.Receive(q, k, c.ceiling, victim);
      if q.cursor == |q.windows| then d.Nothing? && r == q
      else if q.windows[q.cursor] == [] then d.Nothing? && r == q.(cursor := q.cursor + 1, nextBatch := q.nextBatch + 1)
      else d == Batch(q.nextBatch, q.cursor, q.windows[q.cursor]) && r == Grant(q, q.Slot(k))
  {
    FreeClaim(q, q.Slot(k), victim);
    if q.cursor < |q.windows| {
      GrantHolds(q, q.Slot(k));
    }
  }

  /** A receive of a worker that holds batch b. */
  lemma HeldReceive(c: Config, q: Queue, k: nat, victim: Option<nat>, b: nat)
    requires Admits(c, q, k) && b in q.held
    ensures Engine.Receive(q, k, c.ceiling, victim) ==
      (q, Batch(b, q.held[b].window, q.windows[q.held[b].window]))
  {
    ReceiveContract(q, k, c.ceiling, victim);
    assert q.Owns(q.Slot(k)) && q.TokenOf(q.Slot(k)) == b;
  }

  lemma {:induction false} CalmRunsAll(c: Config, msgs: seq<Msg>, e: Circumstances)
    requires Calm(e)
    ensures AllRan(c, msgs, e) && !Escaped(c, msgs, e.outcome)
  {
    if msgs != [] {
      CalmRunsAll(c, msgs[..|msgs| - 1], e);
    }
  }

  /** A calm poll that receives a batch finishes it. */
  lemma CalmBatch(c: Config, q: Queue, k: nat, e: Circumstances)
    requires q.Valid() && Calm(e) && Engine.Receive(q, k, c.ceiling, e.victim).1.Batch?
    ensures var (r, d) := Engine.Receive(q, k, c.ceiling, e.victim); var (v, end) := Poll(c, q, k, e);
      && end == Processed && v.Valid() && v.windows == q.windows && v.coop == q.coop
      && v.held == r.held - {d.token} && v.cursor == r.cursor + if q.coop then 0 else 1
  {
    var (r, d) := Engine.Receive(q, k, c.ceiling, e.victim);
    var msgs := Stamped(d.token, d.events);
    ReceiveContract(q, k, c.ceiling, e.victim);
    CalmRunsAll(c, msgs, e);
    PollIsAtomic(c, q, k, e);
    RoutedThenAcked(r, d.token, Required(c, msgs, e));
  }

  lemma CalmHeld(c: Config, q: Queue, k: nat, e: Circumstances, b: nat)
    requires Admits(c, q, k) && Calm(e) && b in q.held
    ensures var (v, end) := Poll(c, q, k, e); var left := Left(q, k);
      && Admits(c, v, k) && v.held == map[] && left != [] && v.windows[v.cursor..] == left[1..]
      && left[0] != [] && end == Processed
  {
    LeftIs(c, q, k, b);
    HeldReceive(c, q, k, e.victim, b);
    CalmBatch(c, q, k, e);
  }

  lemma CalmFree(c: Config, q: Queue, k: nat, e: Circumstances)
    requires Admits(c, q, k) && Calm(e) && q.held == map[]
    ensures var (v, end) := Poll(c, q, k, e); var left := q.windows[q.cursor..];
      && Admits(c, v, k) && v.held == map[] && v.windows[v.cursor..] == (if left == [] then [] else left[1..])
      && end == if left != [] && left[0] != [] then Processed else Idle
  {
    FreeReceive(c, q, k, e.victim);
    if q.cursor < |q.windows| && q.windows[q.cursor] != [] {
      var r := Grant(q, q.Slot(k));
      assert r.held - {q.nextBatch} == map[];
      CalmBatch(c, q, k, e);
    } else {
      CalmNothing(c, q, k, e);
    }
  }

  /** A calm poll goes through the next window that is left, and reports a batch exactly when that
      window has events. */
  lemma CalmPoll(c: Config, q: Queue, k: nat, e: Circumstances)
    requires Admits(c, q, k) && Calm(e)
    ensures var (v, end) := Poll(c, q, k, e); var left := Left(q, k);
      && Admits(c, v, k) && Left(v, k) == (if left == [] then [] else left[1..])
      && end == if left != [] && left[0] != [] then Processed else Idle
  {
    if b :| b in q.held {
      CalmHeld(c, q, k, e, b);
    } else {
      LeftIs(c, q, k, 0);
      CalmFree(c, q, k, e);
    }
    LeftIs(c, Poll(c, q, k, e).0, k, 0);
  }

  lemma CalmNothing(c: Config, q: Queue, k: nat, e: Circumstances)
    requires q.Valid() && Calm(e) && Engine.Receive(q, k, c.ceiling, e.victim).1.Nothing?
    ensures Poll(c, q, k, e) == (Engine.Receive(q, k, c.ceiling, e.victim).0, Idle)
  {
  }

  // ----- a row of passes or polls -----

  /** Which of the passes that go through these windows, one each, finish a batch and go on at once. */
  ghost predicate GoesThrough(left: seq<seq<Event>>, goes: seq<bool>) {
    forall i | 0 <= i < |goes| :: goes[i] <==> i < |left| && left[i] != []
  }

  /** N windows take N passes that go on at once, and then one that does not, if and only if none of
      them is empty: an empty window reads as an empty queue, with the rest of the backlog behind it. */
  lemma DrainsInARow(left: seq<seq<Event>>, goes: seq<bool>)
    requires GoesThrough(left, goes) && |goes| > |left|
    ensures (forall i | 0 <= i < |left| :: goes[i]) <==> (forall w <- left :: w != [])
    ensures !goes[|left|]
  {
    if forall i | 0 <= i < |left| :: goes[i] {
      forall i | 0 <= i < |left| ensures left[i] != [] {
        assert goes[i];
      }
    }
    if forall w <- left :: w != [] {
      forall i | 0 <= i < |left| ensures goes[i] {
        assert left[i] in left;
      }
    }
  }

  lemma GoesOn(left: seq<seq<Event>>, goes: seq<bool>, next: bool)
    requires GoesThrough(left, goes) && (next <==> |goes| < |left| && left[|goes|] != [])
    ensures GoesThrough(left, goes + [next])
  {
  }

  /** After so many passes k has gone through the first of the windows that were left. */
  ghost predicate Drains(c: Config, left: seq<seq<Event>>, k: nat, q: Queue, goes: seq<bool>) {
    && Admits(c, q, k) && GoesThrough(left, goes)
    && Left(q, k) == if |goes| <= |left| then left[|goes|..] else []
  }

  lemma DrainsOn(c: Config, left: seq<seq<Event>>, k: nat, q: Queue, goes: seq<bool>, v: Queue, next: bool)
    requires Drains(c, left, k, q, goes) && Admits(c, v, k)
    requires Left(v, k) == if Left(q, k) == [] then [] else Left(q, k)[1..]
    requires next <==> Left(q, k) != [] && Left(q, k)[0] != []
    ensures Drains(c, left, k, v, goes + [next])
  {
    GoesOn(left, goes, next);
  }

  /** The smallest backlog that is not drained in a row: an empty window in front of a waiting one. */
  lemma EmptyWindowStopsTheDrain(c: Config, e: Circumstances, coop: bool)
    requires Calm(e) && c.ceiling >= 1
    ensures var q := Engine.Empty(coop, 5).(windows := [[], [Event(0, "order", 0)]]);
      && Admits(c, q, 0) && Poll(c, q, 0, e).1 == Idle
      && Left(Poll(c, q, 0, e).0, 0) == [[Event(0, "order", 0)]]
  {
    var q := Engine.Empty(coop, 5).(windows := [[], [Event(0, "order", 0)]]);
    assert Admits(c, q, 0);
    LeftIs(c, q, 0, 0);
    CalmPoll(c, q, 0, e);
  }
}
