/** Fleets in which transactional workers (Python, Ruby) share a group with Go and TypeScript workers.
    The row lock of a poll keeps the others from receiving, but not from nacking, and not from acking a
    batch of their own; such effects inside a poll are the same as effects just before it. */
module MixedFleets {
  import opened Options
  import opened Engine
  import opened Protocol
  import opened Safety
  import opened Conservation
  import opened Guarantees
  import opened Markers
  import opened Runs
  import opened Decisions
  import opened Transactions
  import opened Simulation

  // ----- effects of siblings inside a poll -----

  /** A sibling nacks message `id` of its batch, or acks its batch. */
  datatype Effect = Route(token: nat, id: nat) | Finish(token: nat)

  /** The effect on the committed queue. */
  function Do(q: Queue, x: Effect): (r: Queue)
    requires q.Valid()
    ensures r.Valid()
  {
    match x
    case Route(b, id) => Engine.Nack(q, b, id).0
    case Finish(b) => Engine.Ack(q, b).0
  }

  /** A queue with rows added to its tables and batches let go. */
  function Overlay(q: Queue, retries: map<nat, Event>, dead: map<nat, Event>, gone: set<nat>): (r: Queue)
    ensures q.Valid() ==> r.Valid()
  {
    q.(retries := q.retries + retries, dead := q.dead + dead, held := q.held - gone)
  }

  /** The same effect as the open transaction sees it: the rows that appear in the committed tables, and
      the batch that is let go. It is computed from the committed queue, where a batch that the poll has
      just taken over is still live. */
  function Seen(staged: Queue, q: Queue, x: Effect): (r: Queue)
    requires q.Valid() && staged.Valid()
    ensures r.Valid()
  {
    var v := Do(q, x);
    Overlay(staged, v.retries - q.retries.Keys, v.dead - q.dead.Keys, q.held.Keys - v.held.Keys)
  }

  /** The effect does not touch what the poll of batch b does: it acks a batch that is not live in the
      committed queue q, finishes another live batch of the group, or routes a message that the poll does
      not nack. (An ack of the poll's own batch, or of one it has taken over, waits for its row.) */
  predicate Harmless(q: Queue, r: Queue, b: nat, x: Effect, c: Config, msgs: seq<Msg>, e: Circumstances) {
    match x
    case Route(_, id) => forall i | 0 <= i < |msgs| && NeedsNack(c, msgs[i], e.outcome(i)) :: msgs[i].id != id
    case Finish(f) => f !in q.held || (r.coop && f in r.held && f != b)
  }

  lemma RouteSeen(staged: Queue, q: Queue, b: nat, id: nat)
    requires q.Valid() && staged.Valid()
    ensures var v := Engine.Nack(q, b, id).0;
      Seen(staged, q, Route(b, id)) ==
        staged.(retries := staged.retries + (v.retries - q.retries.Keys), dead := staged.dead + (v.dead - q.dead.Keys))
    ensures (Engine.Nack(q, b, id).0.retries - q.retries.Keys).Keys <= {id}
    ensures (Engine.Nack(q, b, id).0.dead - q.dead.Keys).Keys <= {id}
  {
    assert q.held.Keys - q.held.Keys == {};
    assert staged.held - {} == staged.held;
    NackEnters(q, b, id);
  }

  lemma FinishSeen(staged: Queue, q: Queue, b: nat)
    requires q.Valid() && staged.Valid() && b in q.held
    ensures Seen(staged, q, Finish(b)) == staged.(held := staged.held - {b})
  {
    assert q.held.Keys - (q.held - {b}).Keys == {b};
    assert staged.retries + (q.retries - q.retries.Keys) == staged.retries;
    assert staged.dead + (q.dead - q.dead.Keys) == staged.dead;
  }

  lemma TokenIsOne(q: Queue, r: Queue, slot: nat, b: nat)
    requires q.OneOwner() && r.OneOwner() && b in q.held && b in r.held && q.held[b].slot == r.held[b].slot == slot
    ensures q.Owns(slot) && r.Owns(slot) && q.TokenOf(slot) == r.TokenOf(slot) == b
  {
  }

  function WithTables(q: Queue, retries: map<nat, Event>, dead: map<nat, Event>): Queue {
    q.(retries := retries, dead := dead)
  }

  lemma SameOwner(q: Queue, v: Queue, slot: nat)
    requires q.held == v.held && q.OneOwner()
    ensures v.OneOwner() && (q.Owns(slot) <==> v.Owns(slot))
    ensures q.Owns(slot) ==> q.TokenOf(slot) == v.TokenOf(slot)
  {
    if b :| b in q.held && q.held[b].slot == slot {
      TokenIsOne(q, v, slot, b);
    }
  }

  lemma ClaimIgnoresTables(q: Queue, slot: nat, victim: Option<nat>, retries: map<nat, Event>, dead: map<nat, Event>)
    requires q.Valid()
    ensures WithTables(q, retries, dead).Valid()
    ensures Claim(WithTables(q, retries, dead), slot, victim) == WithTables(Claim(q, slot, victim), retries, dead)
  {
    TablesKeepValid(q, retries, dead);
    SameOwner(q, WithTables(q, retries, dead), slot);
    if !q.Owns(slot) {
      if q.coop && victim.Some? && victim.value in q.held {
        TakeoverIgnoresTables(q, slot, victim.value, retries, dead);
      } else if q.cursor < |q.windows| {
        GrantIgnoresTables(q, slot, retries, dead);
      }
    }
  }

  lemma TakeoverIgnoresTables(q: Queue, slot: nat, victim: nat, retries: map<nat, Event>, dead: map<nat, Event>)
    requires victim in q.held
    ensures Takeover(WithTables(q, retries, dead), slot, victim) == WithTables(Takeover(q, slot, victim), retries, dead)
  {
  }

  lemma GrantIgnoresTables(q: Queue, slot: nat, retries: map<nat, Event>, dead: map<nat, Event>)
    requires q.cursor < |q.windows|
    ensures Grant(WithTables(q, retries, dead), slot) == WithTables(Grant(q, slot), retries, dead)
  {
  }

  lemma TablesKeepValid(q: Queue, retries: map<nat, Event>, dead: map<nat, Event>)
    requires q.Valid()
    ensures WithTables(q, retries, dead).Valid()
  {
  }

  /** What a receive makes of its claim. */
  function FromClaim(q: Queue, c: Queue, slot: nat, ceiling: int): (Queue, Delivery)
    requires c.OneOwner() && c.Owns(slot) ==> c.held[c.TokenOf(slot)].window < |c.windows|
    requires c.OneOwner()
  {
    if ceiling < 1 then (q, Rejected)
    else if !c.Owns(slot) then (c, Nothing)
    else
      var b := c.TokenOf(slot);
      var events := c.windows[c.held[b].window];
      if |events| > ceiling then (q.(nextBatch := c.nextBatch), Overflow) else (c, Batch(b, c.held[b].window, events))
  }

  lemma ReceiveIsFromClaim(q: Queue, k: nat, ceiling: int, victim: Option<nat>)
    requires q.Valid()
    ensures var c := Claim(q, q.Slot(k), victim);
      c.Valid() && Engine.Receive(q, k, ceiling, victim) == FromClaim(q, c, q.Slot(k), ceiling)
  {
    ClaimKeepsWork(q, q.Slot(k), victim);
  }

  lemma FromClaimIgnoresTables(q: Queue, c: Queue, slot: nat, ceiling: int, retries: map<nat, Event>, dead: map<nat,
                               Event>)
    requires q.Valid() && c.Valid()
    ensures var v, d := WithTables(q, retries, dead), WithTables(c, retries, dead);
      && v.Valid() && d.Valid()
      && FromClaim(v, d, slot, ceiling) ==
           (WithTables(FromClaim(q, c, slot, ceiling).0, retries, dead), FromClaim(q, c, slot, ceiling).1)
  {
    TablesKeepValid(q, retries, dead);
    TablesKeepValid(c, retries, dead);
    SameOwner(c, WithTables(c, retries, dead), slot);
  }

  /** A receive does not look at the tables. */
  lemma ReceiveIgnoresTables(q: Queue, k: nat, ceiling: int, victim: Option<nat>, retries: map<nat, Event>,
                             dead: map<nat, Event>)
    requires q.Valid()
    ensures var v := WithTables(q, retries, dead); var (r, d) := Engine.Receive(q, k, ceiling, victim);
      v.Valid() && Engine.Receive(v, k, ceiling, victim) == (WithTables(r, retries, dead), d)
  {
    ReceiveIsFromClaim(q, k, ceiling, victim);
    ClaimIgnoresTables(q, q.Slot(k), victim, retries, dead);
    ReceiveIsFromClaim(WithTables(q, retries, dead), k, ceiling, victim);
    FromClaimIgnoresTables(q, Claim(q, q.Slot(k), victim), q.Slot(k), ceiling, retries, dead);
  }

  lemma NewEntries(a: map<nat, Event>, b: map<nat, Event>)
    requires a.Keys <= b.Keys && forall k <- a :: b[k] == a[k]
    ensures a + (b - a.Keys) == b
  {
  }

  /** A nack keeps the rows that are there. */
  lemma NackKeepsRows(q: Queue, b: nat, id: nat)
    requires q.Valid()
    ensures var v := Engine.Nack(q, b, id).0;
      && v == WithTables(q, v.retries, v.dead)
      && q.retries + (v.retries - q.retries.Keys) == v.retries && q.dead + (v.dead - q.dead.Keys) == v.dead
  {
    var v := Engine.Nack(q, b, id).0;
    NewEntries(q.retries, v.retries);
    NewEntries(q.dead, v.dead);
  }

  lemma ReceiveKeepsTables(q: Queue, k: nat, ceiling: int, victim: Option<nat>)
    requires q.Valid()
    ensures var r := Engine.Receive(q, k, ceiling, victim).0; r.retries == q.retries && r.dead == q.dead && r.Valid()
  {
    ReceiveContract(q, k, ceiling, victim);
  }

  lemma RouteBeforeReceive(q: Queue, k: nat, ceiling: int, victim: Option<nat>, b: nat, id: nat)
    requires q.Valid()
    ensures var (r, d) := Engine.Receive(q, k, ceiling, victim);
      r.Valid() && Engine.Receive(Do(q, Route(b, id)), k, ceiling, victim) == (Seen(r, q, Route(b, id)), d)
  {
    var r := Engine.Receive(q, k, ceiling, victim).0;
    var v := Engine.Nack(q, b, id).0;
    ReceiveKeepsTables(q, k, ceiling, victim);
    RouteSeen(r, q, b, id);
    NackKeepsRows(q, b, id);
    ReceiveIgnoresTables(q, k, ceiling, victim, v.retries, v.dead);
  }

  function Without(q: Queue, b: nat): Queue {
    q.(held := q.held - {b})
  }

  lemma OwnerWithout(q: Queue, slot: nat, b: nat)
    requires q.OneOwner() && b in q.held && q.held[b].slot != slot
    ensures Without(q, b).OneOwner() && (q.Owns(slot) <==> Without(q, b).Owns(slot))
    ensures q.Owns(slot) ==> q.TokenOf(slot) == Without(q, b).TokenOf(slot)
  {
    if t :| t in q.held && q.held[t].slot == slot {
      assert t in Without(q, b).held;
      TokenIsOne(q, Without(q, b), slot, t);
    }
  }

  lemma TakeoverWithout(q: Queue, slot: nat, victim: nat, b: nat)
    requires q.Valid() && victim in q.held && b in q.held && b != victim
    ensures Takeover(Without(q, b), slot, victim) == Without(Takeover(q, slot, victim), b)
  {
    var h := Hold(slot, q.held[victim].window);
    assert b != q.nextBatch;
    assert (q.held - {b} - {victim})[q.nextBatch := h] == (q.held - {victim})[q.nextBatch := h] - {b};
  }

  lemma GrantWithout(q: Queue, slot: nat, b: nat)
    requires q.Valid() && q.cursor < |q.windows| && b in q.held
    ensures Grant(Without(q, b), slot) == Without(Grant(q, slot), b)
  {
    var h := Hold(slot, q.cursor);
    assert b != q.nextBatch;
    assert (q.held - {b})[q.nextBatch := h] == q.held[q.nextBatch := h] - {b};
  }

  /** The batch of another member does not matter to a claim that leaves it alone. */
  lemma ClaimWithout(q: Queue, slot: nat, victim: Option<nat>, b: nat)
    requires q.Valid() && q.coop && b in q.held && q.held[b].slot != slot && b in Claim(q, slot, victim).held
    ensures Claim(Without(q, b), slot, victim) == Without(Claim(q, slot, victim), b)
  {
    OwnerWithout(q, slot, b);
    if !q.Owns(slot) {
      if victim.Some? && victim.value in q.held {
        assert victim.value != b;
        TakeoverWithout(q, slot, victim.value, b);
      } else if q.cursor < |q.windows| {
        GrantWithout(q, slot, b);
      }
    }
  }

  lemma FinishIsWithout(q: Queue, b: nat)
    requires q.Valid() && q.coop && b in q.held
    ensures Do(q, Finish(b)) == Without(q, b) && Without(q, b).Valid()
  {
    assert Engine.Finish(q, b) == Without(q, b);
  }

  lemma BatchIsClaimed(q: Queue, k: nat, ceiling: int, victim: Option<nat>)
    requires q.Valid() && q.coop && Engine.Receive(q, k, ceiling, victim).1.Batch?
    ensures var (r, d) := Engine.Receive(q, k, ceiling, victim);
      r == Claim(q, k, victim) && d.token in r.held && r.held[d.token].slot == k
  {
    ClaimKeepsWork(q, k, victim);
  }

  /** A claim adds no batch but one for its own slot. */
  lemma ClaimAdds(q: Queue, k: nat, victim: Option<nat>, b: nat)
    requires q.Valid() && q.coop && b in Claim(q, k, victim).held
    ensures var c := Claim(q, k, victim); (b in q.held && c.held[b] == q.held[b]) || c.held[b].slot == k
  {
  }

  lemma OtherBatch(q: Queue, k: nat, ceiling: int, victim: Option<nat>, b: nat)
    requires q.Valid() && q.coop && Engine.Receive(q, k, ceiling, victim).1.Batch?
    requires var (r, d) := Engine.Receive(q, k, ceiling, victim); b in r.held && b != d.token
    ensures var r := Engine.Receive(q, k, ceiling, victim).0;
      && r == Claim(q, k, victim) && r.Valid()
      && b in q.held && q.held[b].slot != k && r.held[b] == q.held[b]
  {
    BatchIsClaimed(q, k, ceiling, victim);
    ClaimAdds(q, k, victim, b);
    ClaimIsValid(q, k, victim);
    OtherSlot(Claim(q, k, victim), k, Engine.Receive(q, k, ceiling, victim).1.token, b);
  }

  lemma ClaimIsValid(q: Queue, k: nat, victim: Option<nat>)
    requires q.Valid() && q.coop
    ensures Claim(q, k, victim).Valid()
  {
    ClaimKeepsWork(q, k, victim);
  }

  lemma OtherSlot(c: Queue, k: nat, t: nat, b: nat)
    requires c.OneOwner() && t in c.held && c.held[t].slot == k && b in c.held && b != t
    ensures c.held[b].slot != k
  {
  }

  lemma FinishBeforeReceive(q: Queue, k: nat, ceiling: int, victim: Option<nat>, b: nat)
    requires q.Valid() && q.coop && Engine.Receive(q, k, ceiling, victim).1.Batch?
    requires var (r, d) := Engine.Receive(q, k, ceiling, victim); b in r.held && b != d.token
    ensures var (r, d) := Engine.Receive(q, k, ceiling, victim);
      r.Valid() && Engine.Receive(Do(q, Finish(b)), k, ceiling, victim) == (Seen(r, q, Finish(b)), d)
  {
    var r := Engine.Receive(q, k, ceiling, victim).0;
    OtherBatch(q, k, ceiling, victim, b);
    FinishSeen(r, q, b);
    FinishIsWithout(q, b);
    ClaimWithout(q, k, victim, b);
    OwnerWithout(r, k, b);
    SameReceive(q, Without(q, b), k, ceiling, victim, b);
  }

  lemma SameReceive(q: Queue, v: Queue, k: nat, ceiling: int, victim: Option<nat>, b: nat)
    requires q.Valid() && v.Valid() && q.coop && v == Without(q, b) && Engine.Receive(q, k, ceiling, victim).1.Batch?
    requires var c := Claim(q, k, victim);
      && c.OneOwner() && Without(c, b).OneOwner() && Claim(v, k, victim) == Without(c, b)
      && (c.Owns(k) <==> Without(c, b).Owns(k)) && (c.Owns(k) ==> c.TokenOf(k) == Without(c, b).TokenOf(k))
    ensures var (r, d) := Engine.Receive(q, k, ceiling, victim);
      Engine.Receive(v, k, ceiling, victim) == (Without(r, b), d)
  {
  }

  // ----- effects between the messages -----

  /** Adding a row to a table, unless it is there. */
  function Entered(table: map<nat, Event>, id: nat, e: Event): map<nat, Event> {
    if id in table then table else table[id := e]
  }

  lemma EnteredBeside(table: map<nat, Event>, more: map<nat, Event>, id: nat, e: Event)
    requires id !in more
    ensures Entered(table + more, id, e) == Entered(table, id, e) + more
  {
  }

  /** A nack whose message was looked up in its window; `many` when the window holds it more than once. */
  function Enters(q: Queue, id: nat, found: Option<Event>, many: bool): (Queue, bool) {
    if found.None? then (q, false)
    else if found.value.retry >= q.maxRetries then (q.(dead := Entered(q.dead, id, found.value)), true)
    else if many then (q, true)
    else (q.(retries := Entered(q.retries, id, found.value.(retry := found.value.retry + 1))), true)
  }

  function LookedUp(q: Queue, b: nat, id: nat): Option<Event>
    requires q.Valid()
  {
    if b in q.held then Find(q.windows[q.held[b].window], id) else None
  }

  function HeldTwice(q: Queue, b: nat, id: nat): bool
    requires q.Valid()
  {
    b in q.held && Copies(q.windows[q.held[b].window], id) > 1
  }

  lemma NackEnters(q: Queue, b: nat, id: nat)
    requires q.Valid()
    ensures Engine.Nack(q, b, id) == Enters(q, id, LookedUp(q, b, id), HeldTwice(q, b, id))
  {
  }

  lemma EnteredOverlay(q: Queue, id: nat, e: Event, retries: map<nat, Event>, dead: map<nat, Event>, gone: set<nat>)
    requires id !in retries && id !in dead
    ensures var v := Overlay(q, retries, dead, gone);
      && v.(dead := Entered(v.dead, id, e)) == Overlay(q.(dead := Entered(q.dead, id, e)), retries, dead, gone)
      && v.(retries := Entered(v.retries, id, e)) ==
           Overlay(q.(retries := Entered(q.retries, id, e)), retries, dead, gone)
  {
    EnteredBeside(q.dead, dead, id, e);
    EnteredBeside(q.retries, retries, id, e);
  }

  lemma EntersOverlay(q: Queue, id: nat, found: Option<Event>, many: bool, retries: map<nat, Event>,
                      dead: map<nat, Event>, gone: set<nat>)
    requires id !in retries && id !in dead
    ensures Enters(Overlay(q, retries, dead, gone), id, found, many) ==
      (Overlay(Enters(q, id, found, many).0, retries, dead, gone), Enters(q, id, found, many).1)
  {
    if found.Some? {
      EnteredOverlay(q, id, found.value, retries, dead, gone);
      EnteredOverlay(q, id, found.value.(retry := found.value.retry + 1), retries, dead, gone);
    }
  }

  lemma NackOverlay(q: Queue, b: nat, id: nat, retries: map<nat, Event>, dead: map<nat, Event>, gone: set<nat>)
    requires q.Valid() && b !in gone && id !in retries && id !in dead
    ensures var (r, ok) := Engine.Nack(q, b, id);
      Engine.Nack(Overlay(q, retries, dead, gone), b, id) == (Overlay(r, retries, dead, gone), ok)
  {
    NackEnters(q, b, id);
    NackEnters(Overlay(q, retries, dead, gone), b, id);
    assert LookedUp(Overlay(q, retries, dead, gone), b, id) == LookedUp(q, b, id);
    EntersOverlay(q, id, LookedUp(q, b, id), HeldTwice(q, b, id), retries, dead, gone);
  }

  function Over(t: Tx, retries: map<nat, Event>, dead: map<nat, Event>, gone: set<nat>): (r: Tx)
    requires t.staged.Valid()
    ensures r.staged.Valid()
  {
    t.(staged := Overlay(t.staged, retries, dead, gone))
  }

  lemma TxNackOverlay(t: Tx, b: nat, id: nat, fate: Fate, retries: map<nat, Event>, dead: map<nat, Event>,
                      gone: set<nat>)
    requires t.staged.Valid() && b !in gone && id !in retries && id !in dead
    ensures var (u, ok) := TxNack(t, b, id, fate);
      TxNack(Over(t, retries, dead, gone), b, id, fate) == (Over(u, retries, dead, gone), ok)
  {
    NackOverlay(t.staged, b, id, retries, dead, gone);
  }

  /** An overlay below a dispatch that does not touch it comes out on top. */
  lemma {:induction false} DispatchOverlay(c: Config, msgs: seq<Msg>, r: Queue, e: Circumstances, b: nat,
                                           retries: map<nat, Event>, dead: map<nat, Event>, gone: set<nat>)
    requires r.Valid() && b !in gone && forall m <- msgs :: m.batch == b
    requires forall i | 0 <= i < |msgs| && NeedsNack(c, msgs[i], e.outcome(i)) ::
      msgs[i].id !in retries && msgs[i].id !in dead
    ensures var p := Dispatched(c, msgs, Tx(r, false), e);
      Dispatched(c, msgs, Tx(Overlay(r, retries, dead, gone), false), e) ==
        p.(tx := Over(p.tx, retries, dead, gone))
  {
    if msgs != [] {
      var n := |msgs| - 1;
      assert msgs[0] in msgs && msgs[n] in msgs;
      assert forall m <- msgs[..n] :: m in msgs;
      DispatchOverlay(c, msgs[..n], r, e, b, retries, dead, gone);
      TurnOverlay(c, msgs[n], n, b, Dispatched(c, msgs[..n], Tx(r, false), e), e, retries, dead, gone);
    }
  }

  lemma TurnOverlay(c: Config, m: Msg, n: nat, b: nat, p: Progress, e: Circumstances,
                    retries: map<nat, Event>, dead: map<nat, Event>, gone: set<nat>)
    requires p.tx.staged.Valid() && b !in gone
    requires NeedsNack(c, m, e.outcome(n)) ==> m.id !in retries && m.id !in dead
    ensures var u := TurnAt(c, b, m, n, p, e);
      TurnAt(c, b, m, n, p.(tx := Over(p.tx, retries, dead, gone)), e) ==
        u.(tx := Over(u.tx, retries, dead, gone))
  {
    if NeedsNack(c, m, e.outcome(n)) {
      TxNackOverlay(p.tx, b, m.id, e.nack(n), retries, dead, gone);
    }
  }

  /** The rows and batches of one effect, as the transaction sees it. */
  lemma EffectOverlay(q: Queue, k: nat, ceiling: int, victim: Option<nat>, x: Effect, c: Config, msgs: seq<Msg>,
                      e: Circumstances)
    requires q.Valid() && Engine.Receive(q, k, ceiling, victim).1.Batch?
    requires var (r, d) := Engine.Receive(q, k, ceiling, victim); Harmless(q, r, d.token, x, c, msgs, e)
    ensures var (r, d) := Engine.Receive(q, k, ceiling, victim);
      r.Valid() && Engine.Receive(Do(q, x), k, ceiling, victim) == (Seen(r, q, x), d)
    ensures var d := Engine.Receive(q, k, ceiling, victim).1; var v := Do(q, x);
      && d.token !in q.held.Keys - v.held.Keys
      && forall i | 0 <= i < |msgs| && NeedsNack(c, msgs[i], e.outcome(i)) ::
           msgs[i].id !in v.retries - q.retries.Keys && msgs[i].id !in v.dead - q.dead.Keys
  {
    match x
    case Route(b, id) => RouteOverlay(q, k, ceiling, victim, b, id);
    case Finish(b) =>
      if b in q.held {
        BatchIsLive(q, k, ceiling, victim, b);
        FinishBeforeReceive(q, k, ceiling, victim, b);
      } else {
        StaleAckUnseen(q, k, ceiling, victim, b);
      }
  }

  /** An ack of a batch that is not live is seen by nobody. */
  lemma StaleAckUnseen(q: Queue, k: nat, ceiling: int, victim: Option<nat>, b: nat)
    requires q.Valid() && b !in q.held
    ensures Do(q, Finish(b)) == q
    ensures var r := Engine.Receive(q, k, ceiling, victim).0; r.Valid() && Seen(r, q, Finish(b)) == r
  {
    ReceiveContract(q, k, ceiling, victim);
    NothingSeen(Engine.Receive(q, k, ceiling, victim).0, q, b);
  }

  lemma NothingSeen(r: Queue, q: Queue, b: nat)
    requires q.Valid() && r.Valid() && b !in q.held
    ensures Seen(r, q, Finish(b)) == r
  {
    assert r.retries + (q.retries - q.retries.Keys) == r.retries;
    assert r.dead + (q.dead - q.dead.Keys) == r.dead;
    assert r.held - (q.held.Keys - q.held.Keys) == r.held;
  }

  lemma RouteOverlay(q: Queue, k: nat, ceiling: int, victim: Option<nat>, b: nat, id: nat)
    requires q.Valid()
    ensures var (r, d) := Engine.Receive(q, k, ceiling, victim);
      r.Valid() && Engine.Receive(Do(q, Route(b, id)), k, ceiling, victim) == (Seen(r, q, Route(b, id)), d)
    ensures var v := Do(q, Route(b, id));
      v.held == q.held && (v.retries - q.retries.Keys).Keys <= {id} && (v.dead - q.dead.Keys).Keys <= {id}
  {
    RouteBeforeReceive(q, k, ceiling, victim, b, id);
    RouteSeen(q, q, b, id);
    NackKeepsRows(q, b, id);
  }

  lemma BatchIsLive(q: Queue, k: nat, ceiling: int, victim: Option<nat>, b: nat)
    requires q.Valid() && q.coop && Engine.Receive(q, k, ceiling, victim).1.Batch?
    requires var (r, d) := Engine.Receive(q, k, ceiling, victim); r.coop && b in r.held && b != d.token
    ensures var v := Do(q, Finish(b)); var d := Engine.Receive(q, k, ceiling, victim).1;
      b in q.held && q.held.Keys - v.held.Keys == {b} && v.retries == q.retries && v.dead == q.dead
  {
    OtherBatch(q, k, ceiling, victim, b);
    FinishIsWithout(q, b);
  }

  /** The dispatch on the queue as seen after the effect is the dispatch before it, as seen after it. */
  lemma SeenDispatch(c: Config, q: Queue, r: Queue, x: Effect, done: seq<Msg>, msgs: seq<Msg>, e: Circumstances, b: nat)
    requires q.Valid() && r.Valid() && done <= msgs && forall i | 0 <= i < |msgs| :: msgs[i].batch == b
    requires var v := Do(q, x);
      && b !in q.held.Keys - v.held.Keys
      && forall i | 0 <= i < |msgs| && NeedsNack(c, msgs[i], e.outcome(i)) ::
           msgs[i].id !in v.retries - q.retries.Keys && msgs[i].id !in v.dead - q.dead.Keys
    ensures var p := Dispatched(c, done, Tx(r, false), e);
      Dispatched(c, done, Tx(Seen(r, q, x), false), e) == p.(tx := p.tx.(staged := Seen(p.tx.staged, q, x)))
  {
    var v := Do(q, x);
    forall m | m in done ensures m.batch == b {
      var i :| 0 <= i < |done| && done[i] == m;
      assert done[i] == msgs[i];
    }
    DispatchOverlay(c, done, r, e, b, v.retries - q.retries.Keys, v.dead - q.dead.Keys, q.held.Keys - v.held.Keys);
  }

  /** One effect in the middle of a dispatch, after the messages of `done`: committed queue and loop state
      are then as if the effect had come before the poll. */
  lemma EffectMovesUp(c: Config, q: Queue, k: nat, e: Circumstances, x: Effect, done: seq<Msg>, msgs: seq<Msg>,
                      r: Queue, d: Delivery)
    requires q.Valid() && Engine.Receive(q, k, c.ceiling, e.victim) == (r, d) && d.Batch? && done <= msgs
    requires Harmless(q, r, d.token, x, c, msgs, e) && msgs == Stamped(d.token, d.events)
    ensures r.Valid() && Engine.Receive(Do(q, x), k, c.ceiling, e.victim) == (Seen(r, q, x), d)
    ensures var p := Dispatched(c, done, Tx(r, false), e);
      Dispatched(c, done, Tx(Seen(r, q, x), false), e) == p.(tx := p.tx.(staged := Seen(p.tx.staged, q, x)))
  {
    EffectOverlay(q, k, c.ceiling, e.victim, x, c, msgs, e);
    SeenDispatch(c, q, r, x, done, msgs, e, d.token);
  }

  /** What happens after the receive of a poll: a sibling's effect, or the turn of the next message. */
  datatype Point = Sibling(x: Effect) | Turn

  /** The committed queue, the loop, and the number of messages dealt with. */
  datatype Midway = Midway(q: Queue, p: Progress, i: nat)

  function Interleaved(c: Config, q: Queue, r: Queue, msgs: seq<Msg>, e: Circumstances, points: seq<Point>): (m: Midway)
    requires q.Valid() && r.Valid()
    ensures m.q.Valid() && m.p.tx.staged.Valid() && m.i <= |msgs|
  {
    if points == [] then Midway(q, Progress(Tx(r, false), {}, false), 0)
    else
      var m := Interleaved(c, q, r, msgs, e, points[..|points| - 1]);
      match points[|points| - 1]
      case Sibling(x) => Midway(Do(m.q, x), m.p.(tx := m.p.tx.(staged := Seen(m.p.tx.staged, m.q, x))), m.i)
      case Turn =>
        if m.i == |msgs| then m
        else Midway(m.q, TurnAt(c, msgs[0].batch, msgs[m.i], m.i, m.p, e), m.i + 1)
  }

  /** The effect is harmless when it happens to the committed queue. */
  ghost predicate HarmlessNow(c: Config, q: Queue, k: nat, e: Circumstances, b: nat, msgs: seq<Msg>, x: Effect) {
    forall y: nat {:trigger Shown(y)} :: Shown(y) ==>
      (q.Valid() && Harmless(q, Engine.Receive(q, k, c.ceiling, e.victim).0, b, x, c, msgs, e))
  }

  ghost predicate AllHarmless(c: Config, q: Queue, r: Queue, k: nat, e: Circumstances, b: nat, msgs: seq<Msg>,
                              points: seq<Point>)
    requires q.Valid() && r.Valid()
  {
    points != [] ==>
      var init := points[..|points| - 1];
      && AllHarmless(c, q, r, k, e, b, msgs, init)
      && (points[|points| - 1].Sibling? ==>
            HarmlessNow(c, Interleaved(c, q, r, msgs, e, init).q, k, e, b, msgs, points[|points| - 1].x))
  }

  /** The queue after the siblings' effects alone. */
  function Committed(q: Queue, points: seq<Point>): (r: Queue)
    requires q.Valid()
    ensures r.Valid()
  {
    if points == [] then q
    else
      var u := Committed(q, points[..|points| - 1]);
      match points[|points| - 1]
      case Sibling(x) => Do(u, x)
      case Turn => u
  }

  /** The poll stands, at m, where it would stand had it begun on the queue committed now; stated so that
      it is used only where a proof names it. */
  ghost predicate AsIfLater(c: Config, k: nat, e: Circumstances, msgs: seq<Msg>, d: Delivery, m: Midway) {
    forall y: nat {:trigger Shown(y)} :: Shown(y) ==> (m.q.Valid() && m.i <= |msgs| &&
      (var (u, f) := Engine.Receive(m.q, k, c.ceiling, e.victim);
       u.Valid() && f == d && m.p == Dispatched(c, msgs[..m.i], Tx(u, false), e)))
  }

  lemma EffectAsIfLater(c: Config, k: nat, e: Circumstances, msgs: seq<Msg>, d: Delivery, m: Midway, x: Effect)
    requires m.q.Valid() && m.p.tx.staged.Valid() && m.i <= |msgs| && AsIfLater(c, k, e, msgs, d, m)
    requires d.Batch? && msgs == Stamped(d.token, d.events) && HarmlessNow(c, m.q, k, e, d.token, msgs, x)
    ensures AsIfLater(c, k, e, msgs, d,
                      Midway(Do(m.q, x), m.p.(tx := m.p.tx.(staged := Seen(m.p.tx.staged, m.q, x))), m.i))
  {
    assert Shown(0);
    EffectMovesUp(c, m.q, k, e, x, msgs[..m.i], msgs, Engine.Receive(m.q, k, c.ceiling, e.victim).0, d);
  }

  lemma TurnAsIfLater(c: Config, k: nat, e: Circumstances, msgs: seq<Msg>, d: Delivery, m: Midway)
    requires m.q.Valid() && m.p.tx.staged.Valid() && m.i < |msgs| && AsIfLater(c, k, e, msgs, d, m)
    ensures AsIfLater(c, k, e, msgs, d, Midway(m.q, TurnAt(c, msgs[0].batch, msgs[m.i], m.i, m.p, e), m.i + 1))
  {
    assert Shown(0);
    DispatchedNext(c, msgs, m.i, Tx(Engine.Receive(m.q, k, c.ceiling, e.victim).0, false), e);
  }

  lemma {:induction false} InterleavedAsIfLater(c: Config, q: Queue, r: Queue, k: nat, e: Circumstances, d: Delivery,
                                                msgs: seq<Msg>, points: seq<Point>)
    requires q.Valid() && r.Valid() && d.Batch? && msgs == Stamped(d.token, d.events)
    requires AsIfLater(c, k, e, msgs, d, Midway(q, Progress(Tx(r, false), {}, false), 0))
    requires AllHarmless(c, q, r, k, e, d.token, msgs, points)
    ensures AsIfLater(c, k, e, msgs, d, Interleaved(c, q, r, msgs, e, points))
  {
    if points != [] {
      var init := points[..|points| - 1];
      InterleavedAsIfLater(c, q, r, k, e, d, msgs, init);
      var m := Interleaved(c, q, r, msgs, e, init);
      match points[|points| - 1]
      case Sibling(x) => EffectAsIfLater(c, k, e, msgs, d, m, x);
      case Turn =>
        if m.i < |msgs| {
          TurnAsIfLater(c, k, e, msgs, d, m);
        }
    }
  }

  lemma {:induction false} CommittedInOrder(c: Config, q: Queue, r: Queue, msgs: seq<Msg>, e: Circumstances,
                                            points: seq<Point>)
    requires q.Valid() && r.Valid()
    ensures Interleaved(c, q, r, msgs, e, points).q == Committed(q, points)
  {
    if points != [] {
      CommittedInOrder(c, q, r, msgs, e, points[..|points| - 1]);
    }
  }

  lemma PollAsIfLater(c: Config, k: nat, e: Circumstances, msgs: seq<Msg>, d: Delivery, m: Midway)
    requires m.q.Valid() && m.p.tx.staged.Valid() && m.i == |msgs| && AsIfLater(c, k, e, msgs, d, m)
    requires e.receive.Runs? && d.Batch? && msgs == Stamped(d.token, d.events)
    ensures PollEnd(m.q, m.p, d.token, e) == Poll(c, m.q, k, e)
  {
    assert Shown(0);
    assert msgs[..|msgs|] == msgs;
  }

  /** However the siblings' effects fall between the steps of a poll, the poll leaves the queue, and ends,
      as if all of them had come before it. */
  lemma SiblingsInsideAPoll(c: Config, q: Queue, k: nat, e: Circumstances, r: Queue, d: Delivery, points: seq<Point>)
    requires q.Valid() && e.receive.Runs? && Engine.Receive(q, k, c.ceiling, e.victim) == (r, d) && d.Batch?
    requires r.Valid() && AllHarmless(c, q, r, k, e, d.token, Stamped(d.token, d.events), points)
    ensures var m := Interleaved(c, q, r, Stamped(d.token, d.events), e, points);
      m.i == |d.events| ==> PollEnd(m.q, m.p, d.token, e) == Poll(c, Committed(q, points), k, e)
  {
    var msgs := Stamped(d.token, d.events);
    var start := Midway(q, Progress(Tx(r, false), {}, false), 0);
    assert AsIfLater(c, k, e, msgs, d, start);
    InterleavedAsIfLater(c, q, r, k, e, d, msgs, points);
    CommittedInOrder(c, q, r, msgs, e, points);
    var m := Interleaved(c, q, r, msgs, e, points);
    if m.i == |msgs| {
      PollAsIfLater(c, k, e, msgs, d, m);
    }
  }

  // ----- runs of mixed fleets -----

  /** A step of a Go or TypeScript worker or of the environment, or a poll of a transactional worker in
      the course of which the other workers do what `inside` lists. */
  datatype MixedStep = Act(action: Action) | PollBy(worker: nat, e: Circumstances, inside: seq<Action>)

  /** What the others can do while the poll holds its locks: run handlers, nack, and ack. */
  predicate Inside(k: nat, a: Action) {
    !By(k, a) && (a.Dispatch? || a.Nack? || a.Ack?)
  }

  function MixedActions(c: Fleet, w: World, step: MixedStep): seq<Action>
    requires w.q.Valid()
  {
    match step
    case Act(a) => [a]
    case PollBy(k, e, inside) =>
      if w.At(k) == Ready then inside + PollActions(c(k), Run(c, w, inside).q, k, e) + [Crash(k)] else []
  }

  lemma {:induction false} InsideLeavesReady(c: Fleet, w: World, inside: seq<Action>, k: nat)
    requires w.q.Valid() && forall a <- inside :: Inside(k, a)
    ensures Run(c, w, inside).At(k) == w.At(k)
  {
    RunOthers(c, w, inside, k);
  }

  /** A poll in a mixed fleet leaves the queue as its own steps, interleaved in any harmless way with the
      effects of the others, leave it, and leaves the other workers where their own actions brought them. */
  lemma PollsInAMixedFleet(c: Fleet, w: World, k: nat, e: Circumstances, inside: seq<Action>, r: Queue, d: Delivery,
                           points: seq<Point>)
    requires w.q.Valid() && w.At(k) == Ready && (forall a <- inside :: Inside(k, a))
    requires e.receive.Runs? && Engine.Receive(w.q, k, c(k).ceiling, e.victim) == (r, d) && d.Batch? && r.Valid()
    requires AllHarmless(c(k), w.q, r, k, e, d.token, Stamped(d.token, d.events), points)
    requires Committed(w.q, points) == Run(c, w, inside).q
    ensures var m := Interleaved(c(k), w.q, r, Stamped(d.token, d.events), e, points);
      var v := Run(c, w, MixedActions(c, w, MixedStep.PollBy(k, e, inside)));
      && (m.i == |d.events| ==> v.q == PollEnd(m.q, m.p, d.token, e).0)
      && forall j: nat :: v.At(j) == Run(c, w, inside).At(j)
  {
    PollAfterInside(c, w, k, e, inside);
    SiblingsInsideAPoll(c(k), w.q, k, e, r, d, points);
  }

  lemma PollAfterInside(c: Fleet, w: World, k: nat, e: Circumstances, inside: seq<Action>)
    requires w.q.Valid() && w.At(k) == Ready && (forall a <- inside :: Inside(k, a))
    ensures var u := Run(c, w, inside); var v := Run(c, w, MixedActions(c, w, MixedStep.PollBy(k, e, inside)));
      v.q == Poll(c(k), u.q, k, e).0 && forall j: nat :: v.At(j) == u.At(j)
  {
    var u := Run(c, w, inside);
    var acts := PollActions(c(k), u.q, k, e) + [Crash(k)];
    InsideLeavesReady(c, w, inside, k);
    RunAppend(c, w, inside, acts);
    assert inside + PollActions(c(k), u.q, k, e) + [Crash(k)] == inside + acts;
    PollThenRest(c, u, k, e);
  }

  function MixedRun(c: Fleet, w: World, steps: seq<MixedStep>): (v: World)
    requires w.q.Valid()
    ensures v.q.Valid()
  {
    if steps == [] then w
    else
      var u := MixedRun(c, w, steps[..|steps| - 1]);
      Run(c, u, MixedActions(c, u, steps[|steps| - 1]))
  }

  /** A run of a mixed fleet is a run of the protocol. */
  lemma {:induction false} MixedRunIsARun(c: Fleet, w: World, steps: seq<MixedStep>) returns (acts: seq<Action>)
    requires w.q.Valid()
    ensures MixedRun(c, w, steps) == Run(c, w, acts)
  {
    if steps == [] {
      acts := [];
    } else {
      var init := steps[..|steps| - 1];
      acts := MixedRunIsARun(c, w, init);
      var more := MixedActions(c, MixedRun(c, w, init), steps[|steps| - 1]);
      RunAppend(c, w, acts, more);
      acts := acts + more;
    }
  }

  /** In every run of a mixed fleet no event is lost that no nack dropped, and every window has at most one
      live owner and at most one effective ack. */
  lemma MixedFleetLosesNothing(c: Fleet, coop: bool, maxRetries: nat, steps: seq<MixedStep>, id: nat)
    ensures var v := MixedRun(c, Start(coop, maxRetries), steps);
      && (id < v.q.nextId && id !in v.dropped ==> Safe(v, id, -1)) && v.q.OneOwner()
      && forall i: nat, j: nat, k: nat :: AckedBy(v, k, i) && AckedBy(v, k, j) ==> i == j
  {
    var acts := MixedRunIsARun(c, Start(coop, maxRetries), steps);
    EveryEventIsAccountedFor(c, coop, maxRetries, acts, id);
    OneOwnerOneAck(c, coop, maxRetries, acts);
    StartIsOk(coop, maxRetries);
    RunKeeps(c, Start(coop, maxRetries), acts);
  }
}
