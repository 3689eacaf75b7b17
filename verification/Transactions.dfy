/** A transactional poll (Python, Ruby): receive, nacks and ack run in one database transaction. The
    engine locks the group's row at the receive, so nobody else of the group receives during a poll;
    what siblings may still do during it is the subject of module MixedFleets. */
module Transactions {
  import opened Options
  import opened Engine
  import opened Protocol
  import opened Decisions
  import opened Markers

  /** How one statement ends: it runs, it fails on the server (and the transaction is aborted), or
      it fails in the client before it is sent. */
  datatype Fate = Runs | SqlError | LocalError

  /** How COMMIT ends: answered, failed, or done with its answer lost. */
  datatype CommitFate = Answered | Broken | AnswerLost

  datatype Circumstances = Circumstances(
    victim: Option<nat>,
    receive: Fate,
    outcome: nat -> Outcome,
    nack: nat -> Fate,
    ack: Fate,
    commit: CommitFate)

  /** Processed: the batch was acked. Idle: nothing there, or left unacked. Raised: a database error.
      RaisedEscape: an error let through by a handler. */
  datatype Ending = Processed | Idle | Raised | RaisedOverflow | RaisedEscape

  /** The staged effects, and whether an SQL error has aborted the transaction. */
  datatype Tx = Tx(staged: Queue, aborted: bool)

  /** Where the dispatch loop stands: the transaction, the positions whose nack failed, and whether a
      handler let an error through. */
  datatype Progress = Progress(tx: Tx, lost: set<nat>, escaped: bool)

  /** In an aborted transaction every further command fails. */
  function TxNack(t: Tx, b: nat, id: nat, fate: Fate): (r: (Tx, bool))
    requires t.staged.Valid()
    ensures r.0.staged.Valid()
  {
    if fate.LocalError? || t.aborted then (t, false)
    else
      var (q, ok) := Engine.Nack(t.staged, b, id);
      if fate.Runs? && ok then (t.(staged := q), true) else (t.(aborted := true), false)
  }

  /** One turn of the dispatch loop: message n of batch b. */
  function TurnAt(c: Config, b: nat, m: Msg, n: nat, p: Progress, e: Circumstances): (r: Progress)
    requires p.tx.staged.Valid()
    ensures r.tx.staged.Valid()
  {
    if p.escaped then p
    else if LetsThrough(c, m, e.outcome(n)) then p.(escaped := true)
    else if NeedsNack(c, m, e.outcome(n)) then
      var (u, ok) := TxNack(p.tx, b, m.id, e.nack(n));
      Progress(u, if ok then p.lost else p.lost + {n}, false)
    else p
  }

  function Turn(c: Config, msgs: seq<Msg>, p: Progress, e: Circumstances): (r: Progress)
    requires msgs != [] && p.tx.staged.Valid()
    ensures r.tx.staged.Valid()
  {
    TurnAt(c, msgs[0].batch, msgs[|msgs| - 1], |msgs| - 1, p, e)
  }

  /** The dispatch loop. */
  function Dispatched(c: Config, msgs: seq<Msg>, t: Tx, e: Circumstances): (p: Progress)
    requires t.staged.Valid()
    ensures p.tx.staged.Valid()
  {
    if msgs == [] then Progress(t, {}, false) else Turn(c, msgs, Dispatched(c, msgs[..|msgs| - 1], t, e), e)
  }

  /** Undoes everything but the batch id drawn from the sequence. */
  function Rollback(q: Queue, staged: Queue): Queue {
    q.(nextBatch := staged.nextBatch)
  }

  /** COMMIT of an aborted transaction rolls back, and says so without an error. */
  function Commit(q: Queue, t: Tx, fate: CommitFate): Queue {
    if t.aborted || fate.Broken? then Rollback(q, t.staged) else t.staged
  }

  /** The end of a poll whose dispatch loop ended in p: q is the queue before the poll. */
  function PollEnd(q: Queue, p: Progress, b: nat, e: Circumstances): (Queue, Ending)
    requires p.tx.staged.Valid()
  {
    if p.escaped then (Rollback(q, p.tx.staged), RaisedEscape)
    else if p.lost != {} then (Commit(q, p.tx, e.commit), if e.commit.Answered? then Idle else Raised)
    else if p.tx.aborted || !e.ack.Runs? then (Rollback(q, p.tx.staged), Raised)
    else
      (Commit(q, Tx(Engine.Ack(p.tx.staged, b).0, false), e.commit), if e.commit.Answered? then Processed else Raised)
  }

  /** The rest of a poll that received the messages of batch b: r is the staged queue so far. */
  function PollBatch(c: Config, q: Queue, r: Queue, b: nat, msgs: seq<Msg>, e: Circumstances): (Queue, Ending)
    requires r.Valid()
  {
    PollEnd(q, Dispatched(c, msgs, Tx(r, false), e), b, e)
  }

  /** One poll: the committed queue afterwards, and how the poll ended. */
  function Poll(c: Config, q: Queue, k: nat, e: Circumstances): (Queue, Ending)
    requires q.Valid()
  {
    if !e.receive.Runs? then (q, Raised)
    else
      var (r, d) := Engine.Receive(q, k, c.ceiling, e.victim);
      ReceiveContract(q, k, c.ceiling, e.victim);
      match d
      case Rejected => (q, Raised)
      case Overflow => (r, RaisedOverflow)
      case Nothing => (Commit(q, Tx(r, false), e.commit), if e.commit.Answered? then Idle else Raised)
      case Batch(b, _, events) => PollBatch(c, q, r, b, Stamped(b, events), e)
  }

  /** What one poll does to the outside, in order, with the replies. */
  function PollPlan(c: Config, q: Queue, k: nat, e: Circumstances): seq<Op>
    requires q.Valid()
  {
    if !e.receive.Runs? then [Deliver(Failed)]
    else
      var (r, d) := Engine.Receive(q, k, c.ceiling, e.victim);
      ReceiveContract(q, k, c.ceiling, e.victim);
      match d
      case Rejected => [Deliver(Failed)]
      case Overflow => [Deliver(TooBig)]
      case Nothing => [Deliver(Got([]))]
      case Batch(b, _, events) => [Deliver(Got(Stamped(b, events)))] + BatchPlan(c, r, Stamped(b, events), e)
  }

  /** What the loop gets from the receive that opens a poll, and the transaction after it: a receive
      that raises, for whatever reason, aborts it, and only the one that overflows has drawn a batch id.
      Stated so that it is used only where a proof names it. */
  ghost predicate Opens(q: Queue, k: nat, ceiling: int, victim: Option<nat>, fate: Fate, t: Tx, reply: Received) {
    forall x: nat {:trigger Shown(x)} :: Shown(x) ==> (q.Valid() && OpensAs(q, k, ceiling, victim, fate, t, reply))
  }

  lemma OpensIs(q: Queue, k: nat, ceiling: int, victim: Option<nat>, fate: Fate, t: Tx, reply: Received)
    ensures Opens(q, k, ceiling, victim, fate, t, reply) <==>
      (q.Valid() && OpensAs(q, k, ceiling, victim, fate, t, reply))
  {
    assert Shown(0);
  }

  ghost predicate OpensAs(q: Queue, k: nat, ceiling: int, victim: Option<nat>, fate: Fate, t: Tx, reply: Received)
    requires q.Valid()
  {
    var (r, d) := Engine.Receive(q, k, ceiling, victim);
    && t.staged.Valid() && (t.aborted <==> !reply.Got?)
    && match reply {
         case Failed => (!fate.Runs? || d.Rejected?) && t.staged == q
         case TooBig => fate.Runs? && d.Overflow? && t.staged == r
         case Got(msgs) =>
           fate.Runs? && t.staged == r
           && (if d.Batch? then msgs == Stamped(d.token, d.events) != [] else d.Nothing? && msgs == [])
       }
  }

  /** The rest of a poll after its receive. */
  function PollRest(c: Config, q: Queue, t: Tx, reply: Received, e: Circumstances): (Queue, Ending)
    requires t.staged.Valid()
  {
    match reply
    case Failed => (Rollback(q, t.staged), Raised)
    case TooBig => (Rollback(q, t.staged), RaisedOverflow)
    case Got(msgs) =>
      if msgs == [] then (Commit(q, t, e.commit), if e.commit.Answered? then Idle else Raised)
      else PollBatch(c, q, t.staged, msgs[0].batch, msgs, e)
  }

  function RestPlan(c: Config, t: Tx, reply: Received, e: Circumstances): seq<Op>
    requires t.staged.Valid()
  {
    if reply.Got? && reply.msgs != [] then BatchPlan(c, t.staged, reply.msgs, e) else []
  }

  lemma OpenedPoll(c: Config, q: Queue, k: nat, e: Circumstances, t: Tx, reply: Received)
    requires q.Valid() && t.staged.Valid() && Opens(q, k, c.ceiling, e.victim, e.receive, t, reply)
    ensures Poll(c, q, k, e) == PollRest(c, q, t, reply, e)
    ensures PollPlan(c, q, k, e) == [Deliver(reply)] + RestPlan(c, t, reply, e)
  {
    OpensIs(q, k, c.ceiling, e.victim, e.receive, t, reply);
    ReceiveContract(q, k, c.ceiling, e.victim);
  }

  function BatchPlan(c: Config, r: Queue, msgs: seq<Msg>, e: Circumstances): seq<Op>
    requires r.Valid()
  {
    RoundPlan(c, msgs, Answers(e.outcome, Dispatched(c, msgs, Tx(r, false), e).lost, e.ack.Runs?))
  }

  /** One more turn, for a loop that goes forward. */
  lemma DispatchedNext(c: Config, msgs: seq<Msg>, i: nat, t: Tx, e: Circumstances)
    requires t.staged.Valid() && i < |msgs|
    ensures Dispatched(c, msgs[..i + 1], t, e) ==
      TurnAt(c, msgs[0].batch, msgs[i], i, Dispatched(c, msgs[..i], t, e), e)
  {
    assert msgs[..i + 1][..i] == msgs[..i];
  }

  /** After an escape the rest of the batch is not looked at. */
  lemma {:induction false} EscapeStops(c: Config, msgs: seq<Msg>, i: nat, t: Tx, e: Circumstances)
    requires t.staged.Valid() && i <= |msgs| && Dispatched(c, msgs[..i], t, e).escaped
    ensures Dispatched(c, msgs, t, e) == Dispatched(c, msgs[..i], t, e)
    decreases |msgs|
  {
    if i == |msgs| {
      assert msgs[..i] == msgs;
    } else {
      var init := msgs[..|msgs| - 1];
      assert init[..i] == msgs[..i];
      EscapeStops(c, init, i, t, e);
    }
  }

  /** A forward loop has dealt with the first i messages: its state and the operations so far. */
  ghost predicate Reached(c: Config, msgs: seq<Msg>, t: Tx, e: Circumstances, i: nat, p: Progress, ops: seq<Op>)
    requires t.staged.Valid()
  {
    && Walked(c, msgs, e.outcome, i, p.lost, ops)
    && (p.escaped <==> Escaped(c, msgs[..i], e.outcome))
    && p == Dispatched(c, msgs[..i], t, e)
  }

  lemma ReachedFresh(c: Config, msgs: seq<Msg>, t: Tx, e: Circumstances, i: nat, p: Progress, ops: seq<Op>)
    requires t.staged.Valid() && Reached(c, msgs, t, e, i, p, ops)
    ensures i !in p.lost && p.tx.staged.Valid()
  {
  }

  lemma ReachedNext(c: Config, msgs: seq<Msg>, t: Tx, e: Circumstances, i: nat, p: Progress, ops: seq<Op>,
                    next: Progress)
    requires t.staged.Valid() && Reached(c, msgs, t, e, i, p, ops) && i < |msgs| && !p.escaped
    requires p.tx.staged.Valid() && next == TurnAt(c, msgs[0].batch, msgs[i], i, p, e)
    ensures Reached(c, msgs, t, e, i + 1, next, ops + Decide(c, msgs[i], i, e.outcome(i), i !in next.lost))
  {
    DispatchedNext(c, msgs, i, t, e);
    WalkedNext(c, msgs, e.outcome, i, p.lost, ops, i !in next.lost);
  }

  lemma ReachedEnd(c: Config, msgs: seq<Msg>, t: Tx, e: Circumstances, i: nat, p: Progress, ops: seq<Op>)
    requires t.staged.Valid() && Reached(c, msgs, t, e, i, p, ops) && (i == |msgs| || p.escaped)
    ensures p == Dispatched(c, msgs, t, e) && ops == Plan(c, msgs, e.outcome, p.lost)
    ensures AckDue(c, msgs, e.outcome, p.lost) <==> p.lost == {} && !p.escaped
  {
    WalkedEnd(c, msgs, e.outcome, i, p.lost, ops);
    if p.escaped {
      EscapeStops(c, msgs, i, t, e);
    } else {
      assert msgs[..i] == msgs;
    }
  }

  /** A transaction is aborted by a failed nack only. */
  lemma {:induction false} AbortIsRemembered(c: Config, msgs: seq<Msg>, t: Tx, e: Circumstances)
    requires t.staged.Valid() && !t.aborted
    ensures var p := Dispatched(c, msgs, t, e); p.tx.aborted ==> p.lost != {}
  {
    if msgs != [] {
      AbortIsRemembered(c, msgs[..|msgs| - 1], t, e);
    }
  }

  // ----- what a poll does, said without the loop -----

  /** The nacks of the listed messages, one after the other. */
  function RouteAll(q: Queue, b: nat, ids: seq<nat>): (r: Queue)
    requires q.Valid()
    ensures r.Valid()
    ensures r == q.(retries := r.retries, dead := r.dead)
    ensures q.retries.Keys <= r.retries.Keys && q.dead.Keys <= r.dead.Keys
  {
    if ids == [] then q else Engine.Nack(RouteAll(q, b, ids[..|ids| - 1]), b, ids[|ids| - 1]).0
  }

  /** The events that these nacks drop. */
  function DroppedBy(q: Queue, b: nat, ids: seq<nat>): set<nat>
    requires q.Valid()
  {
    if ids == [] then {}
    else
      var n := |ids| - 1;
      DroppedBy(q, b, ids[..n]) + if Drops(RouteAll(q, b, ids[..n]), b, ids[n]) then {ids[n]} else {}
  }

  /** The messages that need a nack and whose nack ends as `fates` says, in batch order. */
  function Chosen(c: Config, msgs: seq<Msg>, e: Circumstances, fates: set<Fate>): seq<nat> {
    if msgs == [] then []
    else
      var n := |msgs| - 1;
      Chosen(c, msgs[..n], e, fates) +
      if NeedsNack(c, msgs[n], e.outcome(n)) && e.nack(n) in fates then [msgs[n].id] else []
  }

  /** Everything that needs a nack, whatever becomes of it. */
  function Required(c: Config, msgs: seq<Msg>, e: Circumstances): seq<nat> {
    Chosen(c, msgs, e, {Runs, SqlError, LocalError})
  }

  /** The messages are those of the live batch b. */
  ghost predicate BatchOf(q: Queue, b: nat, msgs: seq<Msg>) {
    && q.Valid() && b in q.held
    && forall m <- msgs :: m.batch == b && exists x :: x in q.windows[q.held[b].window] && x.id == m.id
  }

  /** The staged queue differs from the received one in the retry and dead letter tables only. */
  predicate OnlyRoutes(q: Queue, r: Queue) {
    r == q.(retries := r.retries, dead := r.dead)
  }

  lemma NackOfTheBatch(t: Tx, q: Queue, b: nat, m: Msg, msgs: seq<Msg>, fate: Fate)
    requires BatchOf(q, b, msgs) && m in msgs && t.staged.Valid() && OnlyRoutes(q, t.staged)
    ensures OnlyRoutes(q, TxNack(t, b, m.id, fate).0.staged)
    ensures var (u, ok) := TxNack(t, b, m.id, fate);
      && (fate.LocalError? || t.aborted ==> u == t && !ok)
      && (fate.SqlError? && !t.aborted ==> u == t.(aborted := true) && !ok)
      && (fate.Runs? && !t.aborted ==> u == t.(staged := Engine.Nack(t.staged, b, m.id).0) && ok)
  {
  }

  /** The loop state in terms of the nacks that ran, failed on the server, and failed at all. */
  ghost predicate Sums(q: Queue, b: nat, ran: seq<nat>, broke: seq<nat>, failed: seq<nat>, p: Progress)
    requires q.Valid()
  {
    && !p.escaped
    && (p.lost != {} <==> failed != [])
    && (p.tx.aborted <==> broke != [])
    && (p.tx.aborted ==> p.lost != {})
    && (!p.tx.aborted ==> p.tx.staged == RouteAll(q, b, ran))
    && OnlyRoutes(q, p.tx.staged)
  }

  ghost predicate Means(c: Config, msgs: seq<Msg>, q: Queue, b: nat, e: Circumstances, p: Progress)
    requires q.Valid()
  {
    Sums(q, b, Chosen(c, msgs, e, {Runs}), Chosen(c, msgs, e, {SqlError}),
         Chosen(c, msgs, e, {SqlError, LocalError}), p)
  }

  lemma SumsNack(q: Queue, b: nat, ran: seq<nat>, broke: seq<nat>, failed: seq<nat>, p: Progress, msgs: seq<Msg>,
                 m: Msg, fate: Fate, n: nat)
    requires BatchOf(q, b, msgs) && m in msgs && p.tx.staged.Valid() && Sums(q, b, ran, broke, failed, p)
    ensures var (u, ok) := TxNack(p.tx, b, m.id, fate);
      Sums(q, b,
           if fate.Runs? then ran + [m.id] else ran,
           if fate.SqlError? then broke + [m.id] else broke,
           if fate.Runs? then failed else failed + [m.id],
           Progress(u, if ok then p.lost else p.lost + {n}, false))
  {
    NackOfTheBatch(p.tx, q, b, m, msgs, fate);
    RouteOneMore(q, b, ran, m.id);
  }

  /** The nack of message n added to the messages of one kind, if it is of that kind. */
  function Added(c: Config, m: Msg, n: nat, e: Circumstances, fates: set<Fate>, ids: seq<nat>): seq<nat> {
    if NeedsNack(c, m, e.outcome(n)) && e.nack(n) in fates then ids + [m.id] else ids
  }

  lemma TurnSums(c: Config, m: Msg, n: nat, q: Queue, b: nat, e: Circumstances, p: Progress,
                 ran: seq<nat>, broke: seq<nat>, failed: seq<nat>, msgs: seq<Msg>)
    requires BatchOf(q, b, msgs) && m in msgs && !LetsThrough(c, m, e.outcome(n))
    requires p.tx.staged.Valid() && Sums(q, b, ran, broke, failed, p)
    ensures Sums(q, b, Added(c, m, n, e, {Runs}, ran), Added(c, m, n, e, {SqlError}, broke),
                 Added(c, m, n, e, {SqlError, LocalError}, failed), TurnAt(c, b, m, n, p, e))
  {
    if NeedsNack(c, m, e.outcome(n)) {
      SumsNack(q, b, ran, broke, failed, p, msgs, m, e.nack(n), n);
      NackedTurn(c, m, n, b, e, p);
    } else {
      assert TurnAt(c, b, m, n, p, e) == p;
    }
  }

  lemma NackedTurn(c: Config, m: Msg, n: nat, b: nat, e: Circumstances, p: Progress)
    requires p.tx.staged.Valid() && !p.escaped && NeedsNack(c, m, e.outcome(n))
    ensures var (u, ok) := TxNack(p.tx, b, m.id, e.nack(n));
      TurnAt(c, b, m, n, p, e) == Progress(u, if ok then p.lost else p.lost + {n}, false)
  {
  }

  lemma ChosenTurn(c: Config, msgs: seq<Msg>, e: Circumstances, fates: set<Fate>)
    requires msgs != []
    ensures var n := |msgs| - 1;
      Chosen(c, msgs, e, fates) == Added(c, msgs[n], n, e, fates, Chosen(c, msgs[..n], e, fates))
  {
  }

  lemma TurnMeans(c: Config, msgs: seq<Msg>, q: Queue, b: nat, e: Circumstances, p: Progress)
    requires msgs != [] && BatchOf(q, b, msgs) && !LetsThrough(c, msgs[|msgs| - 1], e.outcome(|msgs| - 1))
    requires p.tx.staged.Valid() && Means(c, msgs[..|msgs| - 1], q, b, e, p)
    ensures Means(c, msgs, q, b, e, Turn(c, msgs, p, e))
  {
    var n := |msgs| - 1;
    var init := msgs[..n];
    ChosenTurn(c, msgs, e, {Runs});
    ChosenTurn(c, msgs, e, {SqlError});
    ChosenTurn(c, msgs, e, {SqlError, LocalError});
    assert msgs[0] in msgs && msgs[n] in msgs;
    TurnSums(c, msgs[n], n, q, b, e, p, Chosen(c, init, e, {Runs}), Chosen(c, init, e, {SqlError}),
             Chosen(c, init, e, {SqlError, LocalError}), msgs);
  }

  /** The loop state, characterised: failures are exactly the nacks that did not run, the abort is
      exactly a required nack that failed on the server, and without one the staged queue is the
      received one with the nacks that ran. */
  lemma {:induction false} DispatchedMeaning(c: Config, msgs: seq<Msg>, q: Queue, b: nat, e: Circumstances)
    requires BatchOf(q, b, msgs) && !Escaped(c, msgs, e.outcome)
    ensures Means(c, msgs, q, b, e, Dispatched(c, msgs, Tx(q, false), e))
  {
    if msgs != [] {
      var n := |msgs| - 1;
      assert forall m <- msgs[..n] :: m in msgs;
      assert !Escaped(c, msgs[..n], e.outcome);
      DispatchedMeaning(c, msgs[..n], q, b, e);
      assert !LetsThrough(c, msgs[n], e.outcome(n));
      TurnMeans(c, msgs, q, b, e, Dispatched(c, msgs[..n], Tx(q, false), e));
    }
  }

  lemma RouteOneMore(q: Queue, b: nat, ids: seq<nat>, id: nat)
    requires q.Valid()
    ensures RouteAll(q, b, ids + [id]) == Engine.Nack(RouteAll(q, b, ids), b, id).0
    ensures DroppedBy(q, b, ids + [id]) == DroppedBy(q, b, ids) + if Drops(RouteAll(q, b, ids), b, id) then {id} else {}
  {
    assert (ids + [id])[..|ids|] == ids;
  }

  lemma TurnEscape(c: Config, b: nat, m: Msg, n: nat, p: Progress, e: Circumstances)
    requires p.tx.staged.Valid()
    ensures var r := TurnAt(c, b, m, n, p, e);
      (r.escaped <==> p.escaped || LetsThrough(c, m, e.outcome(n))) && OnlyRoutes(p.tx.staged, r.tx.staged)
  {
  }

  lemma {:induction false} EscapeMeaning(c: Config, msgs: seq<Msg>, t: Tx, e: Circumstances)
    requires t.staged.Valid()
    ensures var p := Dispatched(c, msgs, t, e);
      (p.escaped <==> Escaped(c, msgs, e.outcome)) && OnlyRoutes(t.staged, p.tx.staged)
  {
    if msgs != [] {
      var n := |msgs| - 1;
      EscapeMeaning(c, msgs[..n], t, e);
      EscapedLast(c, msgs, e.outcome);
      TurnEscape(c, msgs[0].batch, msgs[n], n, Dispatched(c, msgs[..n], t, e), e);
    }
  }

  // ----- what one poll leaves behind -----

  /** Every required nack ran. */
  predicate AllRan(c: Config, msgs: seq<Msg>, e: Circumstances) {
    Chosen(c, msgs, e, {SqlError, LocalError}) == []
  }

  lemma {:induction false} AllRanIsRequired(c: Config, msgs: seq<Msg>, e: Circumstances)
    requires AllRan(c, msgs, e)
    ensures Chosen(c, msgs, e, {Runs}) == Required(c, msgs, e) && Chosen(c, msgs, e, {SqlError}) == []
  {
    if msgs != [] {
      AllRanIsRequired(c, msgs[..|msgs| - 1], e);
    }
  }

  /** The poll finishes the batch. */
  predicate Completes(c: Config, msgs: seq<Msg>, e: Circumstances) {
    !Escaped(c, msgs, e.outcome) && AllRan(c, msgs, e) && e.ack.Runs? && !e.commit.Broken?
  }

  /** The poll keeps the nacks that ran and leaves the batch: some nack failed, none of them on the server. */
  predicate KeepsNacks(c: Config, msgs: seq<Msg>, e: Circumstances) {
    && !Escaped(c, msgs, e.outcome) && !AllRan(c, msgs, e) && Chosen(c, msgs, e, {SqlError}) == []
    && !e.commit.Broken?
  }

  lemma ReceivedIsBatch(q: Queue, k: nat, ceiling: int, victim: Option<nat>)
    requires q.Valid() && Engine.Receive(q, k, ceiling, victim).1.Batch?
    ensures var (r, d) := Engine.Receive(q, k, ceiling, victim); BatchOf(r, d.token, Stamped(d.token, d.events))
    ensures var (r, d) := Engine.Receive(q, k, ceiling, victim); r.Unfinished(d.window)
  {
    ReceiveContract(q, k, ceiling, victim);
    var (r, d) := Engine.Receive(q, k, ceiling, victim);
    assert r.held[d.token].window == d.window;
    forall m | m in Stamped(d.token, d.events) ensures exists x :: x in d.events && x.id == m.id {
      var i :| 0 <= i < |d.events| && Stamped(d.token, d.events)[i] == m;
      assert d.events[i] in d.events;
    }
  }

  lemma UnbrokenBatch(c: Config, q: Queue, r: Queue, b: nat, msgs: seq<Msg>, e: Circumstances)
    requires r.Valid() && BatchOf(r, b, msgs) && !Escaped(c, msgs, e.outcome)
    ensures var (v, end) := PollBatch(c, q, r, b, msgs, e);
      if Completes(c, msgs, e) then v == Engine.Ack(RouteAll(r, b, Required(c, msgs, e)), b).0
      else if KeepsNacks(c, msgs, e) then v == RouteAll(r, b, Chosen(c, msgs, e, {Runs}))
      else v == Rollback(q, r)
    ensures var end := PollBatch(c, q, r, b, msgs, e).1;
      && (end.Processed? <==> Completes(c, msgs, e) && e.commit.Answered?)
      && (end.Idle? <==> !AllRan(c, msgs, e) && e.commit.Answered?)
      && !end.RaisedOverflow? && !end.RaisedEscape?
  {
    DispatchedMeaning(c, msgs, r, b, e);
    if AllRan(c, msgs, e) {
      AllRanIsRequired(c, msgs, e);
    }
  }

  lemma EscapedBatch(c: Config, q: Queue, r: Queue, b: nat, msgs: seq<Msg>, e: Circumstances)
    requires r.Valid() && Escaped(c, msgs, e.outcome)
    ensures PollBatch(c, q, r, b, msgs, e) == (Rollback(q, r), RaisedEscape)
  {
    EscapeMeaning(c, msgs, Tx(r, false), e);
  }

  /** Routing messages of a live batch keeps it live; the ack that follows finishes its window. */
  lemma RoutedThenAcked(r: Queue, b: nat, ids: seq<nat>)
    requires r.Valid() && b in r.held
    ensures var u := RouteAll(r, b, ids);
      b in u.held && u.Unfinished(r.held[b].window) && !Engine.Ack(u, b).0.Unfinished(r.held[b].window)
  {
    FinishEndsOneWindow(RouteAll(r, b, ids), b);
    assert RouteAll(r, b, ids).held[b].window == r.held[b].window;
  }

  /** What a poll over the messages of batch b, for this window, leaves, and how it ends. */
  ghost predicate Leaves(c: Config, q: Queue, r: Queue, b: nat, window: nat, msgs: seq<Msg>, e: Circumstances,
                         v: Queue, end: Ending)
    requires r.Valid()
  {
    && v.Valid()
    && (if Completes(c, msgs, e) then
          v == Engine.Ack(RouteAll(r, b, Required(c, msgs, e)), b).0 && !v.Unfinished(window)
        else if KeepsNacks(c, msgs, e) then
          v == RouteAll(r, b, Chosen(c, msgs, e, {Runs})) && b in v.held && v.Unfinished(window)
        else v == Rollback(q, r) && v.Unfinished(window))
    && (end.Processed? <==> Completes(c, msgs, e) && e.commit.Answered?)
    && (end.Idle? <==> !Escaped(c, msgs, e.outcome) && !AllRan(c, msgs, e) && e.commit.Answered?)
    && (end.RaisedEscape? <==> Escaped(c, msgs, e.outcome))
    && !end.RaisedOverflow?
  }

  lemma EscapedLeaves(c: Config, q: Queue, r: Queue, b: nat, window: nat, msgs: seq<Msg>, e: Circumstances)
    requires r.Valid() && Escaped(c, msgs, e.outcome) && Rollback(q, r).Valid() && Rollback(q, r).Unfinished(window)
    ensures var (v, end) := PollBatch(c, q, r, b, msgs, e); Leaves(c, q, r, b, window, msgs, e, v, end)
  {
    EscapedBatch(c, q, r, b, msgs, e);
  }

  lemma UnbrokenLeaves(c: Config, q: Queue, r: Queue, b: nat, window: nat, msgs: seq<Msg>, e: Circumstances)
    requires r.Valid() && BatchOf(r, b, msgs) && r.held[b].window == window && !Escaped(c, msgs, e.outcome)
    requires Rollback(q, r).Valid() && Rollback(q, r).Unfinished(window)
    ensures var (v, end) := PollBatch(c, q, r, b, msgs, e); Leaves(c, q, r, b, window, msgs, e, v, end)
  {
    UnbrokenBatch(c, q, r, b, msgs, e);
    if Completes(c, msgs, e) {
      RoutedThenAcked(r, b, Required(c, msgs, e));
    } else if KeepsNacks(c, msgs, e) {
      RoutedThenAcked(r, b, Chosen(c, msgs, e, {Runs}));
    }
  }

  /** Atomicity. A poll that received a batch leaves one of three queues: all required nacks applied
      and the batch finished; the nacks that ran applied and the batch still live; or the queue as it
      was. Which one is decided by the conditions below, and the batch is finished exactly in the first. */
  lemma PollIsAtomic(c: Config, q: Queue, k: nat, e: Circumstances)
    requires q.Valid() && e.receive.Runs? && Engine.Receive(q, k, c.ceiling, e.victim).1.Batch?
    ensures var (r, d) := Engine.Receive(q, k, c.ceiling, e.victim); var msgs := Stamped(d.token, d.events);
      var (v, end) := Poll(c, q, k, e);
      && r.Valid() && v.Valid()
      && (if Completes(c, msgs, e) then
            v == Engine.Ack(RouteAll(r, d.token, Required(c, msgs, e)), d.token).0 && !v.Unfinished(d.window)
          else if KeepsNacks(c, msgs, e) then
            v == RouteAll(r, d.token, Chosen(c, msgs, e, {Runs})) && d.token in v.held && v.Unfinished(d.window)
          else v == q.(nextBatch := r.nextBatch) && v.Unfinished(d.window))
      && (end.Processed? <==> Completes(c, msgs, e) && e.commit.Answered?)
      && (end.Idle? <==> !Escaped(c, msgs, e.outcome) && !AllRan(c, msgs, e) && e.commit.Answered?)
      && (end.RaisedEscape? <==> Escaped(c, msgs, e.outcome))
      && !end.RaisedOverflow?
  {
    var (r, d) := Engine.Receive(q, k, c.ceiling, e.victim);
    var msgs := Stamped(d.token, d.events);
    ReceiveContract(q, k, c.ceiling, e.victim);
    ReceivedIsBatch(q, k, c.ceiling, e.victim);
    BurnKeepsWork(q, r.nextBatch);
    assert Rollback(q, r).Unfinished(d.window);
    if Escaped(c, msgs, e.outcome) {
      EscapedLeaves(c, q, r, d.token, d.window, msgs, e);
    } else {
      UnbrokenLeaves(c, q, r, d.token, d.window, msgs, e);
    }
  }

  /** A swallowed SQL error in one nack undoes every effect of the poll, however many nacks ran before it. */
  lemma SqlErrorUndoesEverything(c: Config, q: Queue, k: nat, e: Circumstances, i: nat)
    requires q.Valid() && e.receive.Runs? && Engine.Receive(q, k, c.ceiling, e.victim).1.Batch?
    requires var d := Engine.Receive(q, k, c.ceiling, e.victim).1; var msgs := Stamped(d.token, d.events);
      i < |msgs| && NeedsNack(c, msgs[i], e.outcome(i)) && e.nack(i).SqlError?
    ensures var (v, end) := Poll(c, q, k, e); v == q.(nextBatch := v.nextBatch) && !end.Processed?
  {
    var d := Engine.Receive(q, k, c.ceiling, e.victim).1;
    PollIsAtomic(c, q, k, e);
    ChosenHas(c, Stamped(d.token, d.events), e, {SqlError}, i);
    ChosenHas(c, Stamped(d.token, d.events), e, {SqlError, LocalError}, i);
  }

  lemma {:induction false} ChosenHas(c: Config, msgs: seq<Msg>, e: Circumstances, fates: set<Fate>, i: nat)
    requires i < |msgs| && NeedsNack(c, msgs[i], e.outcome(i)) && e.nack(i) in fates
    ensures msgs[i].id in Chosen(c, msgs, e, fates)
  {
    if i < |msgs| - 1 {
      ChosenHas(c, msgs[..|msgs| - 1], e, fates, i);
    }
  }

  /** Inside a poll the ack always finds its batch, so the branch for a stale ack cannot be reached. */
  lemma AckInPollIsNeverStale(c: Config, q: Queue, k: nat, e: Circumstances)
    requires q.Valid() && Engine.Receive(q, k, c.ceiling, e.victim).1.Batch?
    ensures var (r, d) := Engine.Receive(q, k, c.ceiling, e.victim); (
      r.Valid() && Engine.Ack(Dispatched(c, Stamped(d.token, d.events), Tx(r, false), e).tx.staged, d.token).1 == 1)
  {
    var (r, d) := Engine.Receive(q, k, c.ceiling, e.victim);
    ReceiveContract(q, k, c.ceiling, e.victim);
    EscapeMeaning(c, Stamped(d.token, d.events), Tx(r, false), e);
  }

  /** A poll ends with the overflow error exactly when its receive runs and the window that falls to it is
      too large, and leaves the queue as it was, but for the drawn batch id. */
  lemma OverflowEndsThePoll(c: Config, q: Queue, k: nat, e: Circumstances)
    requires q.Valid()
    ensures var (v, end) := Poll(c, q, k, e);
      && (end.RaisedOverflow? <==> e.receive.Runs? && ExceedsCeiling(q, k, c.ceiling, e.victim))
      && (end.RaisedOverflow? ==>
            && v == q.(nextBatch := q.nextBatch + if q.Owns(q.Slot(k)) then 0 else 1)
            && PollPlan(c, q, k, e) == [Deliver(TooBig)])
  {
    ReceiveAnswers(q, k, c.ceiling, e.victim);
    ReceiveLeaves(q, k, c.ceiling, e.victim);
    if e.receive.Runs? {
      OverflowingPoll(c, q, k, e);
    }
  }

  lemma OverflowingPoll(c: Config, q: Queue, k: nat, e: Circumstances)
    requires q.Valid() && e.receive.Runs?
    ensures var (r, d) := Engine.Receive(q, k, c.ceiling, e.victim);
      if d.Overflow? then Poll(c, q, k, e) == (r, RaisedOverflow) && PollPlan(c, q, k, e) == [Deliver(TooBig)]
      else !Poll(c, q, k, e).1.RaisedOverflow?
  {
    var (r, d) := Engine.Receive(q, k, c.ceiling, e.victim);
    ReceiveContract(q, k, c.ceiling, e.victim);
    if d.Batch? {
      BatchNeverOverflows(q, Dispatched(c, Stamped(d.token, d.events), Tx(r, false), e), d.token, e);
    }
  }

  lemma BatchNeverOverflows(q: Queue, p: Progress, b: nat, e: Circumstances)
    requires p.tx.staged.Valid()
    ensures !PollEnd(q, p, b, e).1.RaisedOverflow?
  {
  }

  /** A receive that does not run, or is rejected, ends the poll with a database error, and nothing else
      is tried. */
  lemma FailedReceiveEndsThePoll(c: Config, q: Queue, k: nat, e: Circumstances)
    requires q.Valid() && (!e.receive.Runs? || c.ceiling < 1)
    ensures Poll(c, q, k, e) == (q, Raised) && PollPlan(c, q, k, e) == [Deliver(Failed)]
  {
    ReceiveAnswers(q, k, c.ceiling, e.victim);
  }

  /** An empty receive: the poll is Idle if its commit is answered, and a database error if not; what the
      receive did stays unless the commit broke. */
  lemma EmptyPoll(c: Config, q: Queue, k: nat, e: Circumstances)
    requires q.Valid() && e.receive.Runs? && NothingFalls(q, k, c.ceiling, e.victim)
    ensures var (v, end) := Poll(c, q, k, e); var r := Engine.Receive(q, k, c.ceiling, e.victim).0;
      && end == (if e.commit.Answered? then Idle else Raised)
      && v == (if e.commit.Broken? then q.(nextBatch := r.nextBatch) else r)
      && PollPlan(c, q, k, e) == [Deliver(Got([]))]
  {
    ReceiveAnswers(q, k, c.ceiling, e.victim);
  }

  /** How every poll ends, read off the queue and the circumstances. A database error: the receive failed or
      was rejected; or the commit was not answered; or the ack failed, when it was due. Idle: nothing fell
      to the caller, or a nack failed, and the commit was answered. */
  lemma PollEndings(c: Config, q: Queue, k: nat, e: Circumstances)
    requires q.Valid()
    ensures var end := Poll(c, q, k, e).1;
      && (!e.receive.Runs? || c.ceiling < 1 ==> end == Raised)
      && (e.receive.Runs? && ExceedsCeiling(q, k, c.ceiling, e.victim) ==> end == RaisedOverflow)
      && (e.receive.Runs? && NothingFalls(q, k, c.ceiling, e.victim) ==>
            end == if e.commit.Answered? then Idle else Raised)
      && (e.receive.Runs? && c.ceiling >= 1 && !ExceedsCeiling(q, k, c.ceiling, e.victim)
            && !NothingFalls(q, k, c.ceiling, e.victim) ==>
          exists msgs: seq<Msg> :: (msgs != [] && Delivers(q, k, c.ceiling, e.victim, msgs) &&
            end == if Escaped(c, msgs, e.outcome) then RaisedEscape
                   else if !AllRan(c, msgs, e) then (if e.commit.Answered? then Idle else Raised)
                   else if e.ack.Runs? && e.commit.Answered? then Processed
                   else Raised))
  {
    ReceiveAnswers(q, k, c.ceiling, e.victim);
    if !e.receive.Runs? || c.ceiling < 1 {
      FailedReceiveEndsThePoll(c, q, k, e);
    } else if ExceedsCeiling(q, k, c.ceiling, e.victim) {
      OverflowEndsThePoll(c, q, k, e);
    } else if NothingFalls(q, k, c.ceiling, e.victim) {
      EmptyPoll(c, q, k, e);
    } else {
      var d := Engine.Receive(q, k, c.ceiling, e.victim).1;
      ReceiveContract(q, k, c.ceiling, e.victim);
      BatchEnding(c, q, k, e, Stamped(d.token, d.events));
    }
  }

  /** The messages are those of the window that falls to the caller. */
  ghost predicate Delivers(q: Queue, k: nat, ceiling: int, victim: Option<nat>, msgs: seq<Msg>) {
    exists window: nat, token: nat ::
      Falls(q, q.Slot(k), victim, window) && 1 <= |q.windows[window]| <= ceiling
      && msgs == Stamped(token, q.windows[window])
  }

  lemma BatchEnding(c: Config, q: Queue, k: nat, e: Circumstances, msgs: seq<Msg>)
    requires q.Valid() && e.receive.Runs? && Engine.Receive(q, k, c.ceiling, e.victim).1.Batch?
    requires var d := Engine.Receive(q, k, c.ceiling, e.victim).1; msgs == Stamped(d.token, d.events)
    ensures msgs != [] && Delivers(q, k, c.ceiling, e.victim, msgs)
    ensures Poll(c, q, k, e).1 ==
      if Escaped(c, msgs, e.outcome) then RaisedEscape
      else if !AllRan(c, msgs, e) then (if e.commit.Answered? then Idle else Raised)
      else if e.ack.Runs? && e.commit.Answered? then Processed
      else Raised
  {
    var d := Engine.Receive(q, k, c.ceiling, e.victim).1;
    ReceiveAnswers(q, k, c.ceiling, e.victim);
    ReceiveContract(q, k, c.ceiling, e.victim);
    PollIsAtomic(c, q, k, e);
    assert Falls(q, q.Slot(k), e.victim, d.window) && msgs == Stamped(d.token, q.windows[d.window]);
  }
}
