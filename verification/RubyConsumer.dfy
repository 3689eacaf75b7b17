/** The Ruby consumer: one poll in one transaction, one connection, no reconnect. */
module RubyConsumers {
  import opened Options
  import opened Engine
  import opened Protocol
  import opened Decisions
  import opened Transactions
  import opened Connections
  import opened Markers
  import opened Runs
  import opened Sessions
  import opened Hosts

  class Consumer {
    var handlers: set<string>
    var hasDefault: bool
    var running: bool
    const unknownHandlerPolicy: Policy
    const maxMessages: int
    const pollInterval: nat
    const me: nat

    constructor (unknownHandlerPolicy: Policy, maxMessages: int, pollInterval: nat, me: nat)
      ensures handlers == {} && !hasDefault && !running
    {
      handlers, hasDefault, running := {}, false, false;
      this.unknownHandlerPolicy, this.maxMessages := unknownHandlerPolicy, maxMessages;
      this.pollInterval, this.me := pollInterval, me;
    }

    /** Registers a handler; the type "*" is the default handler. */
    method On(eventType: string)
      modifies this`handlers, this`hasDefault
      ensures if eventType == "*" then hasDefault && handlers == old(handlers)
              else handlers == old(handlers) + {eventType} && hasDefault == old(hasDefault)
    {
      if eventType == "*" {
        hasDefault := true;
      } else {
        handlers := handlers + {eventType};
      }
    }

    function AsConfig(): Config
      reads `handlers, `hasDefault
    {
      Config(handlers, hasDefault, unknownHandlerPolicy, maxMessages)
    }

    /** The block of the message loop; the first flag is nack_failed. */
    method HandleMessage(conn: Connection, batchId: nat, msg: Msg, i: nat, nackFailed: bool, e: Circumstances,
                         ghost lost: set<nat>) returns (failed: bool, escaped: bool, ghost more: set<nat>)
      requires conn.tx.staged.Valid() && (nackFailed <==> lost != {}) && i !in lost
      modifies conn`tx, conn`ops
      ensures Progress(conn.tx, more, escaped) ==
        TurnAt(AsConfig(), batchId, msg, i, Progress(old(conn.tx), lost, false), e)
      ensures failed <==> more != {}
      ensures conn.ops == old(conn.ops) + Decide(AsConfig(), msg, i, e.outcome(i), i !in more)
    {
      var ok := true;
      escaped := false;
      if !(msg.kind in handlers || hasDefault) {
        if unknownHandlerPolicy != AckUnknown {
          ok := conn.Nack(batchId, msg, e.nack(i), i);
        }
      } else {
        conn.Run(i);
        if e.outcome(i).Raises? {
          ok := conn.Nack(batchId, msg, e.nack(i), i);
        }
        escaped := e.outcome(i).Escapes?;
      }
      failed := nackFailed || !ok;
      more := if ok then lost else lost + {i};
      assert conn.ops == old(conn.ops) + Decide(AsConfig(), msg, i, e.outcome(i), i !in more);
    }

    /** One turn of the message loop. */
    method Next(conn: Connection, msgs: seq<Msg>, i: nat, nackFailed: bool, e: Circumstances,
                ghost t: Tx, ghost lost: set<nat>, ghost before: seq<Op>)
        returns (failed: bool, escaped: bool, ghost more: set<nat>)
      requires t.staged.Valid() && i < |msgs| && (nackFailed <==> lost != {}) && before <= conn.ops
      requires Reached(AsConfig(), msgs, t, e, i, Progress(conn.tx, lost, false), conn.ops[|before|..])
      modifies conn`tx, conn`ops
      ensures before <= conn.ops && (failed <==> more != {})
      ensures Reached(AsConfig(), msgs, t, e, i + 1, Progress(conn.tx, more, escaped), conn.ops[|before|..])
    {
      ghost var p, ops := Progress(conn.tx, lost, false), conn.ops;
      ReachedFresh(AsConfig(), msgs, t, e, i, p, ops[|before|..]);
      failed, escaped, more := HandleMessage(conn, msgs[0].batch, msgs[i], i, nackFailed, e, lost);
      ReachedNext(AsConfig(), msgs, t, e, i, p, ops[|before|..], Progress(conn.tx, more, escaped));
      OpsSince(before, ops, Decide(AsConfig(), msgs[i], i, e.outcome(i), i !in more));
    }

    /** The message loop. */
    method DispatchBatch(conn: Connection, msgs: seq<Msg>, e: Circumstances)
        returns (nackFailed: bool, escaped: bool, ghost lost: set<nat>)
      requires conn.tx.staged.Valid()
      modifies conn`tx, conn`ops
      ensures Dispatched(AsConfig(), msgs, old(conn.tx), e) == Progress(conn.tx, lost, escaped)
      ensures conn.ops == old(conn.ops) + Plan(AsConfig(), msgs, e.outcome, lost)
      ensures nackFailed <==> lost != {}
      ensures AckDue(AsConfig(), msgs, e.outcome, lost) <==> !nackFailed && !escaped
    {
      ghost var t, before := conn.tx, conn.ops;
      nackFailed, escaped, lost := false, false, {};
      for i := 0 to |msgs|
        invariant before <= conn.ops && (nackFailed <==> lost != {}) && !escaped
        invariant Reached(AsConfig(), msgs, t, e, i, Progress(conn.tx, lost, false), conn.ops[|before|..])
      {
        nackFailed, escaped, lost := Next(conn, msgs, i, nackFailed, e, t, lost, before);
        if escaped {
          ReachedEnd(AsConfig(), msgs, t, e, i + 1, Progress(conn.tx, lost, escaped), conn.ops[|before|..]);
          return;
        }
      }
      ReachedEnd(AsConfig(), msgs, t, e, |msgs|, Progress(conn.tx, lost, escaped), conn.ops[|before|..]);
    }

    /** The rest of the transaction block after dispatch_batch: no ack after a failed nack. */
    method FinishBlock(conn: Connection, batchId: nat, nackFailed: bool, escaped: bool, e: Circumstances,
                       ghost lost: set<nat>) returns (end: Ending)
      requires conn.Valid() && conn.committed.nextBatch <= conn.tx.staged.nextBatch
      requires (nackFailed <==> lost != {}) && (conn.tx.aborted ==> nackFailed || escaped)
      modifies conn`tx, conn`committed, conn`ops
      ensures conn.Valid()
      ensures (conn.committed, end) ==
        PollEnd(old(conn.committed), Progress(old(conn.tx), lost, escaped), batchId, e)
      ensures conn.ops == old(conn.ops) + if nackFailed || escaped then [] else [TryAck(e.ack.Runs?)]
    {
      if escaped {
        conn.Rollback();
        return RaisedEscape;
      }
      if !nackFailed {
        var rowcount := conn.Ack(batchId, e.ack);
        if rowcount.None? {
          conn.Rollback();
          return Raised;
        }
      }
      var ok := conn.Commit(e.commit);
      end := if !ok then Raised else if nackFailed then Idle else Processed;
    }

    /** The part of the block that has messages. */
    method ProcessBatch(conn: Connection, msgs: seq<Msg>, e: Circumstances) returns (end: Ending)
      requires conn.Valid() && !conn.tx.aborted && msgs != []
      requires conn.committed.nextBatch <= conn.tx.staged.nextBatch
      modifies conn
      ensures conn.Valid() && conn.ops == old(conn.ops) + BatchPlan(AsConfig(), old(conn.tx).staged, msgs, e)
      ensures (conn.committed, end) ==
        PollBatch(AsConfig(), old(conn.committed), old(conn.tx).staged, msgs[0].batch, msgs, e)
    {
      EscapeMeaning(AsConfig(), msgs, conn.tx, e);
      AbortIsRemembered(AsConfig(), msgs, conn.tx, e);
      var nackFailed, escaped, lost := DispatchBatch(conn, msgs, e);
      end := FinishBlock(conn, msgs[0].batch, nackFailed, escaped, e, lost);
    }

    /** The block after its receive. */
    method LeaveBlock(conn: Connection, reply: Received, e: Circumstances) returns (end: Ending)
      requires conn.Valid() && conn.committed.nextBatch <= conn.tx.staged.nextBatch
      requires conn.tx.aborted <==> !reply.Got?
      modifies conn
      ensures conn.Valid() && conn.ops == old(conn.ops) + RestPlan(AsConfig(), old(conn.tx), reply, e)
      ensures (conn.committed, end) == PollRest(AsConfig(), old(conn.committed), old(conn.tx), reply, e)
    {
      match reply
      case Failed =>
        conn.Rollback();
        return Raised;
      case TooBig =>
        conn.Rollback();
        return RaisedOverflow;
      case Got(msgs) =>
        if msgs == [] {
          var ok := conn.Commit(e.commit);
          return if ok then Idle else Raised;
        }
        end := ProcessBatch(conn, msgs, e);
    }

    /** The transaction: what its receive gave, and the rest. */
    method Transact(conn: Connection, e: Circumstances) returns (end: Ending, ghost t: Tx, ghost reply: Received)
      requires conn.Valid() && conn.ops == []
      modifies conn
      ensures conn.Valid() && t.staged.Valid()
      ensures Opens(old(conn.committed), me, maxMessages, e.victim, e.receive, t, reply)
      ensures (conn.committed, end) == PollRest(AsConfig(), old(conn.committed), t, reply, e)
      ensures conn.ops == [Deliver(reply)] + RestPlan(AsConfig(), t, reply, e)
    {
      conn.Begin();
      var got := conn.Receive(me, maxMessages, e.victim, e.receive);
      t, reply := conn.tx, got;
      assert conn.ops == [Deliver(reply)];
      end := LeaveBlock(conn, got, e);
    }

    /** One poll: the whole transaction, and all its effects on the outside. */
    method PollOnce(conn: Connection, e: Circumstances) returns (end: Ending)
      requires conn.Valid() && conn.ops == []
      modifies conn
      ensures conn.Valid() && (conn.committed, end) == Poll(AsConfig(), old(conn.committed), me, e)
      ensures conn.ops == PollPlan(AsConfig(), old(conn.committed), me, e)
      ensures !e.receive.Runs? || maxMessages < 1 ==> end == Raised && conn.committed == old(conn.committed)
      ensures end == RaisedOverflow <==>
        e.receive.Runs? && ExceedsCeiling(old(conn.committed), me, maxMessages, e.victim)
    {
      ghost var t, reply;
      end, t, reply := Transact(conn, e);
      OpenedPoll(AsConfig(), old(conn.committed), me, e, t, reply);
      OverflowEndsThePoll(AsConfig(), old(conn.committed), me, e);
      if !e.receive.Runs? || maxMessages < 1 {
        FailedReceiveEndsThePoll(AsConfig(), old(conn.committed), me, e);
      }
    }

    /** stop from another thread, or a signal trap. */
    method Stop()
      modifies `running
      ensures !running
    {
      running := false;
    }

    /** The flag is set exactly as long as no stop has fired since it was set, when `base` had. */
    ghost predicate Flag(h: Host, base: nat)
      reads this`running, h`fired
    {
      base <= h.fired && (running <==> h.fired == base)
    }

    /** Reading the flag that stop and the signal traps clear. */
    method IsRunning(h: Host, ghost base: nat) returns (b: bool)
      requires h.Valid() && Flag(h, base)
      modifies this`running, h`tick, h`fired, h`sinceLook
      ensures h.Valid() && Flag(h, base) && b == running && (b ==> old(running))
      ensures h.tick == old(h.tick) + 1 && h.sinceLook == 0
    {
      var stop := h.Look();
      if stop {
        Stop();
      }
      b := running;
    }

    /** The LISTEN wait. It ends because a NOTIFY was buffered or the socket readable, by the stop, after
        a poll interval, or because the connection broke. A NOTIFY that is buffered ends it at once, and one
        that arrives at the next look. It never blocks longer than half a second without looking at the
        flag. */
    method WaitForNotifyOrStop(h: Host, ghost base: nat) returns (reason: WaitEnd)
      requires h.Valid() && Flag(h, base) && running && h.worst <= SLICE
      modifies this`running, h`tick, h`fired, h`sinceLook, h`clock, h`worst, h`deeds
      ensures h.Valid() && Flag(h, base) && h.tick >= old(h.tick) && h.worst <= SLICE <= 500
      ensures h.deeds == old(h.deeds) + [Waited(reason)]
      ensures reason.Notified? ==> running && Heard(h.env, old(h.tick), h.tick)
      ensures reason.Deadline? ==> running && h.clock == old(h.clock) + pollInterval
      ensures reason.ByStop? ==> !running
      ensures reason.ConnectionLost? ==> Broke(h.env, old(h.tick), h.tick)
      ensures h.env(old(h.tick)).breaks ==> reason == ConnectionLost
      ensures h.env(old(h.tick)).notified && !h.env(old(h.tick)).breaks ==>
        reason == Notified && h.clock == old(h.clock)
      ensures reason.Deadline? ==> Silent(h.env, old(h.tick), (h.tick - old(h.tick)) / 2)
      ensures old(h.clock) <= h.clock <= old(h.clock) + pollInterval
      ensures h.tick <= old(h.tick) + Looks(pollInterval)
    {
      reason := Listen(h, base);
      h.deeds := h.deeds + [Waited(reason)];
    }

    method Listen(h: Host, ghost base: nat) returns (reason: WaitEnd)
      requires h.Valid() && Flag(h, base) && running && h.worst <= SLICE
      modifies this`running, h`tick, h`fired, h`sinceLook, h`clock, h`worst
      ensures h.Valid() && Flag(h, base) && h.tick >= old(h.tick) && h.worst <= SLICE
      ensures reason.Notified? ==> running && Heard(h.env, old(h.tick), h.tick)
      ensures reason.Deadline? ==> running && h.clock == old(h.clock) + pollInterval
      ensures reason.ByStop? ==> !running
      ensures reason.ConnectionLost? ==> Broke(h.env, old(h.tick), h.tick)
      ensures h.env(old(h.tick)).breaks ==> reason == ConnectionLost
      ensures h.env(old(h.tick)).notified && !h.env(old(h.tick)).breaks ==>
        reason == Notified && h.clock == old(h.clock)
      ensures reason.Deadline? ==> Silent(h.env, old(h.tick), (h.tick - old(h.tick)) / 2)
      ensures old(h.clock) <= h.clock <= old(h.clock) + pollInterval
      ensures h.tick <= old(h.tick) + Looks(pollInterval)
    {
      if h.env(h.tick).breaks {
        return ConnectionLost;
      }
      if h.env(h.tick).notified {
        return Notified;
      }
      reason := InSlices(h, base);
    }

    /** The part of the wait that blocks. */
    method InSlices(h: Host, ghost base: nat) returns (reason: WaitEnd)
      requires h.Valid() && Flag(h, base) && running && h.worst <= SLICE
      modifies this`running, h`tick, h`fired, h`sinceLook, h`clock, h`worst
      ensures h.Valid() && Flag(h, base) && h.tick >= old(h.tick) && h.worst <= SLICE
      ensures reason.Notified? ==> running && Heard(h.env, old(h.tick), h.tick)
      ensures reason.Deadline? ==> running && h.clock == old(h.clock) + pollInterval
      ensures reason.ByStop? ==> !running
      ensures reason.ConnectionLost? ==> Broke(h.env, old(h.tick), h.tick)
      ensures reason.Deadline? ==> Silent(h.env, old(h.tick), (h.tick - old(h.tick)) / 2)
      ensures old(h.clock) <= h.clock <= old(h.clock) + pollInterval
      ensures h.tick <= old(h.tick) + Looks(pollInterval)
    {
      var deadline := h.clock + pollInterval;
      ghost var slices: nat := 0;
      SilentAtFirst(h.env, h.tick);
      while true
        invariant h.Valid() && Flag(h, base) && running && h.worst <= SLICE
        invariant h.tick == old(h.tick) + 2 * slices && slices <= pollInterval / SLICE + 1
        invariant h.clock == deadline || h.clock == old(h.clock) + slices * SLICE < deadline
        invariant Silent(h.env, old(h.tick), slices)
        decreases deadline - h.clock
      {
        var go := IsRunning(h, base);
        if !go {
          return ByStop;
        }
        var remaining := deadline - h.clock;
        if remaining <= 0 {
          return Deadline;
        }
        var notification := h.Select(if SLICE < remaining then SLICE else remaining);
        if h.env(h.tick).breaks {
          return ConnectionLost;
        }
        ghost var seen := h.tick;
        go := IsRunning(h, base);
        if !go {
          return ByStop;
        }
        if notification {
          assert h.env(seen).readable && seen <= h.tick;
          return Notified;
        }
        SilentOn(h.env, old(h.tick), slices);
        slices := slices + 1;
      }
    }

    /** Of the receives since the n-th, only the last may have started after a stop of this run, and all
        of them with the signal handlers as they are now. */
    ghost predicate Prompt(h: Host, base: nat, n: nat)
      reads h`receives, h`fired, h`sigterm, h`sigint
    {
      && n <= |h.receives| && AllButLast(h.receives, n, base, h.sigterm, h.sigint)
      && (|h.receives| > n ==> base <= h.receives[|h.receives| - 1].fired <= h.fired)
    }

    /** What the run keeps between two polls; stated so that it is used only where a proof names it. */
    ghost predicate Steady(h: Host, base: nat, n: nat)
      reads this, h
    {
      forall x: nat {:trigger Shown(x)} :: Shown(x) ==>
        (h.Valid() && h.worst <= SLICE && h.fleet(me) == AsConfig()
         && Flag(h, base) && Prompt(h, base, n))
    }

    lemma Unfold(h: Host, base: nat, n: nat)
      requires Steady(h, base, n)
      ensures h.Valid() && h.worst <= SLICE && h.fleet(me) == AsConfig() && Flag(h, base) && Prompt(h, base, n)
    {
      assert Shown(0);
    }

    lemma Fold(h: Host, base: nat, n: nat)
      requires h.Valid() && h.worst <= SLICE && h.fleet(me) == AsConfig() && Flag(h, base) && Prompt(h, base, n)
      ensures Steady(h, base, n)
    {
    }

    /** A look at the flag, between two polls. */
    method GoesOn(h: Host, ghost base: nat, ghost n: nat) returns (b: bool)
      requires Steady(h, base, n)
      modifies this`running, h`tick, h`fired, h`sinceLook
      ensures Steady(h, base, n) && b == running && (b ==> old(running)) && h.tick == old(h.tick) + 1
    {
      Unfold(h, base, n);
      b := IsRunning(h, base);
      Fold(h, base, n);
    }

    /** A poll starts: a receive is counted, and a stop may fire. */
    method Begin(h: Host, ghost base: nat, ghost n: nat) returns (conn: Connection, e: Circumstances)
      requires Steady(h, base, n) && h.sessions == 1 && running
      modifies this`running, h`tick, h`clock, h`state, h`steps, h`fired, h`receives
      ensures Steady(h, base, n) && h.tick == old(h.tick) + 1 && h.clock >= old(h.clock)
      ensures |h.receives| == |old(h.receives)| + 1
      ensures fresh(conn) && conn.Valid() && conn.committed == h.state.q && conn.ops == []
    {
      Unfold(h, base, n);
      ghost var receives := h.receives;
      var stop;
      conn, e, stop := h.Block();
      AllButLastOn(receives, n, base, Sight(h.fired, h.sigterm, h.sigint));
      if stop {
        Stop();
      }
      Fold(h, base, n);
    }

    /** The poll is over. */
    method Finish(h: Host, ghost base: nat, ghost n: nat, e: Circumstances, q: Queue, end: Ending)
        returns (ghost d: Deed)
      requires Steady(h, base, n) && h.state.q.Valid() && (q, end) == Transactions.Poll(AsConfig(), h.state.q, me, e)
      modifies h`state, h`steps, h`deeds
      ensures Steady(h, base, n) && h.deeds == old(h.deeds) + [d]
      ensures Real(AsConfig(), me, d) && d.Polled? && d.end == end
    {
      Unfold(h, base, n);
      d := Polled(h.state.q, e, end);
      RealIs(AsConfig(), me, d);
      h.Done(me, e, q, end);
      Fold(h, base, n);
    }

    /** One poll on the open connection. */
    method NextPoll(h: Host, ghost base: nat, ghost n: nat) returns (end: Ending, ghost d: Deed)
      requires Steady(h, base, n) && h.sessions == 1 && running
      modifies this`running, h`tick, h`clock, h`state, h`steps, h`fired, h`receives, h`deeds
      ensures Steady(h, base, n) && h.tick == old(h.tick) + 1 && h.clock >= old(h.clock)
      ensures Did(old(h.Now()), h.Now(), Looks(pollInterval), [d], -2)
      ensures Real(AsConfig(), me, d) && d.Polled? && d.end == end
    {
      var conn, e := Begin(h, base, n);
      end := PollOnce(conn, e);
      d := Finish(h, base, n, e, conn.committed, end);
      DidOne(old(h.Now()), h.Now(), Looks(pollInterval), d, -2);
    }

    /** A wait in the loop. */
    method WaitOn(h: Host, ghost base: nat, ghost n: nat) returns (reason: WaitEnd)
      requires Steady(h, base, n) && running
      modifies this`running, h`tick, h`fired, h`sinceLook, h`clock, h`worst, h`deeds
      ensures Steady(h, base, n) && h.clock >= old(h.clock) && h.tick >= old(h.tick)
      ensures Did(old(h.Now()), h.Now(), Looks(pollInterval), [Waited(reason)], 0)
      ensures running && !reason.ConnectionLost? ==> reason.Notified? || reason.Deadline?
    {
      Unfold(h, base, n);
      reason := WaitForNotifyOrStop(h, base);
      DidOne(old(h.Now()), h.Now(), Looks(pollInterval), Waited(reason), 0);
      Fold(h, base, n);
    }

    /** The body of the poll loop: a poll, and a wait whatever the poll did. */
    method Turn(h: Host, ghost base: nat, ghost n: nat, ghost ds: seq<Deed>, ghost start: Tally)
        returns (end: SessionEnd, ghost now: seq<Deed>)
      requires Steady(h, base, n) && h.sessions == 1 && running
      requires Session(false, AsConfig(), me, ds) && MayPoll(false, ds)
      requires Did(start, h.Now(), Looks(pollInterval), ds, 1)
      modifies this`running, h`tick, h`clock, h`state, h`steps, h`fired, h`receives, h`deeds, h`sinceLook, h`worst
      ensures Steady(h, base, n) && h.tick > old(h.tick) && h.clock >= old(h.clock)
      ensures Did(start, h.Now(), Looks(pollInterval), now, 0) && Standing(false, AsConfig(), me, now, end, running)
    {
      ghost var before := h.Now();
      var polled;
      ghost var d;
      polled, d := NextPoll(h, base, n);
      now, end := ds + [d], PollVerdict(polled);
      DidBoth(start, before, h.Now(), Looks(pollInterval), ds, [d], 1, -2);
      PollReached(false, AsConfig(), me, ds, d);
      if end.Finished? {
        end, now := GoOn(h, base, n, polled, now, start);
      } else {
        DidLook(start, h.Now(), h.Now(), Looks(pollInterval), now, -1, 1);
      }
    }

    /** After a poll that ended without an error. */
    method GoOn(h: Host, ghost base: nat, ghost n: nat, polled: Ending, ghost ds: seq<Deed>, ghost start: Tally)
        returns (end: SessionEnd, ghost now: seq<Deed>)
      requires Steady(h, base, n) && Session(false, AsConfig(), me, ds) && PollVerdict(polled).Finished?
      requires ds != [] && ds[|ds| - 1].Polled? && ds[|ds| - 1].end == polled
      requires Did(start, h.Now(), Looks(pollInterval), ds, -1)
      modifies this`running, h`tick, h`clock, h`fired, h`deeds, h`sinceLook, h`worst
      ensures Steady(h, base, n) && h.tick > old(h.tick) && h.clock >= old(h.clock)
      ensures Did(start, h.Now(), Looks(pollInterval), now, 0) && Standing(false, AsConfig(), me, now, end, running)
    {
      ghost var before := h.Now();
      var go := GoesOn(h, base, n);
      ghost var mid := h.Now();
      DidLook(start, before, mid, Looks(pollInterval), ds, -1, 1);
      if !go {
        return Finished, ds;
      }
      var reason := WaitOn(h, base, n);
      end, now := if reason.ConnectionLost? then DatabaseError else Finished, ds + [Waited(reason)];
      DidBoth(start, mid, h.Now(), Looks(pollInterval), ds, [Waited(reason)], 0, 0);
      WaitReached(false, AsConfig(), me, ds, reason, running);
    }

    /** The poll loop on the open connection. It ends by its last deed, or by the stop, or with the
        observation, and it does nothing but polls and waits: its steps are theirs. */
    method PollLoop(h: Host, ghost base: nat, ghost n: nat) returns (end: SessionEnd, ghost ds: seq<Deed>)
      requires Steady(h, base, n) && h.sessions == 1
      modifies this`running, h`tick, h`clock, h`state, h`steps, h`fired, h`receives, h`deeds, h`sinceLook, h`worst
      ensures Steady(h, base, n) && h.clock >= old(h.clock) && h.tick >= old(h.tick)
      ensures Did(old(h.Now()), h.Now(), Looks(pollInterval), ds, 1)
      ensures Session(false, AsConfig(), me, ds) && EndsAs(ds, end)
      ensures (end.Finished? ==> !running) && (end.StillRunning? ==> running && h.Over())
    {
      ds := [];
      ghost var start := h.Now();
      DidNothing(start, Looks(pollInterval));
      while true
        invariant Steady(h, base, n) && h.clock >= old(h.clock) && h.tick >= old(h.tick)
        invariant Did(start, h.Now(), Looks(pollInterval), ds, 0)
        invariant ds == [] || Standing(false, AsConfig(), me, ds, Finished, running)
        decreases h.horizon - h.tick
      {
        ghost var before := h.Now();
        var go := GoesOn(h, base, n);
        DidLook(start, before, h.Now(), Looks(pollInterval), ds, 0, 1);
        if !go {
          return Finished, ds;
        }
        if h.Over() {
          return StillRunning, ds;
        }
        end, ds := Turn(h, base, n, ds, start);
        if !end.Finished? {
          DidLook(start, h.Now(), h.Now(), Looks(pollInterval), ds, 0, 1);
          return;
        }
      }
    }

    method CloseIt(h: Host, ghost base: nat, ghost n: nat)
      requires Steady(h, base, n) && h.sessions == 1
      modifies h`sessions, h`closes
      ensures Steady(h, base, n) && h.sessions == 0
    {
      Unfold(h, base, n);
      h.Close();
      Fold(h, base, n);
    }

    /** The connection: opened, polled until the stop or an error, and closed however that ends. It fails
        to open exactly when the connection or the LISTEN fails. */
    method Connected(h: Host, ghost base: nat, ghost n: nat) returns (end: SessionEnd, ghost v: Visit)
      requires Steady(h, base, n) && h.sessions == 0
      modifies this`running, h`tick, h`clock, h`state, h`steps, h`fired, h`receives, h`deeds, h`sinceLook, h`worst,
               h`sessions, h`connects, h`closes
      ensures Steady(h, base, n) && Did(old(h.Now()), h.Now(), Looks(pollInterval), v.deeds, 1) && h.tick >= old(h.tick)
      ensures v.at == old(h.tick) && v.from == old(h.clock) && v.until == h.clock && v.end == end
      ensures IsVisit(false, AsConfig(), me, v) && Tried(h.env, v) && h.connects <= old(h.connects) + 1
      ensures (end.Finished? ==> !running) && (end.StillRunning? ==> running && h.Over())
      ensures h.sessions == 0 || end.StillRunning?
    {
      ghost var at, from := h.tick, h.clock;
      DidNothing(h.Now(), Looks(pollInterval));
      DidLook(h.Now(), h.Now(), h.Now(), Looks(pollInterval), [], 0, 1);
      Unfold(h, base, n);
      var connected := h.Connect();
      Fold(h, base, n);
      if !connected {
        end, v := DatabaseError, Visit(at, from, h.clock, false, [], DatabaseError);
        VisitIs(false, AsConfig(), me, v);
        return;
      }
      var listens := h.env(h.tick).listens;
      ghost var ds: seq<Deed> := [];
      if listens {
        end, ds := PollLoop(h, base, n);
      } else {
        end := DatabaseError;
      }
      if !end.StillRunning? {
        CloseIt(h, base, n);
      }
      v := Visit(at, from, h.clock, listens, ds, end);
      VisitIs(false, AsConfig(), me, v);
    }

    /** The run between setting the flag and clearing it. */
    method Started(h: Host) returns (end: SessionEnd, ghost v: Visit)
      requires h.Valid() && h.sessions == 0 && h.worst <= SLICE && h.fleet(me) == AsConfig() && running
      modifies this`running, h`tick, h`clock, h`state, h`steps, h`fired, h`receives, h`deeds, h`sinceLook, h`worst,
               h`sessions, h`connects, h`closes
      ensures h.Valid() && h.worst <= SLICE && h.connects <= old(h.connects) + 1 && h.tick >= old(h.tick)
      ensures IsVisit(false, AsConfig(), me, v) && Tried(h.env, v) && v.at == old(h.tick) && v.end == end
      ensures Did(old(h.Now()), h.Now(), Looks(pollInterval), v.deeds, 1)
      ensures h.deeds == old(h.deeds) + v.deeds && |h.receives| == |old(h.receives)| + Polls(v.deeds)
      ensures h.tick <= old(h.tick) + 1 + (3 + Looks(pollInterval)) * (|h.receives| - |old(h.receives)|)
      ensures forall i | |old(h.receives)| <= i < |h.receives| - 1 :: h.receives[i].fired == old(h.fired)
      ensures forall i | |old(h.receives)| <= i < |h.receives| ::
        h.receives[i].sigterm == h.sigterm && h.receives[i].sigint == h.sigint
      ensures end.Finished? ==> h.fired > old(h.fired)
      ensures end.StillRunning? ==> running && h.fired == old(h.fired) && h.Over()
      ensures h.sessions == 0 || end.StillRunning?
    {
      AllButLastIs(h.receives, |h.receives|, h.fired, h.sigterm, h.sigint);
      Fold(h, h.fired, |h.receives|);
      end, v := Connected(h, h.fired, |h.receives|);
      Unfold(h, old(h.fired), |old(h.receives)|);
      AllButLastIs(h.receives, |old(h.receives)|, old(h.fired), h.sigterm, h.sigint);
      BusyVisit(false, AsConfig(), me, old(h.Now()), h.Now(), Looks(pollInterval), v);
    }

    /** In the main thread, sets the signal traps, and gives those that were there. */
    method Install(h: Host, inMainThread: bool, sigterm: nat, sigint: nat)
        returns (originalSigterm: nat, originalSigint: nat)
      requires h.Valid()
      modifies h`sigterm, h`sigint
      ensures h.Valid() && originalSigterm == old(h.sigterm) && originalSigint == old(h.sigint)
      ensures h.sigterm == (if inMainThread then sigterm else originalSigterm)
      ensures h.sigint == if inMainThread then sigint else originalSigint
    {
      originalSigterm, originalSigint := h.sigterm, h.sigint;
      if inMainThread {
        h.sigterm, h.sigint := sigterm, sigint;
      }
    }

    /** The consumer's run on its one connection. It sets the flag first, so that a stop before that is
        forgotten. Any error ends it; of its receives, only the last can start after the stop; all of
        them happen with its own signal traps, in the main thread; and it leaves no connection open, the
        flag cleared, and the signal traps as they were. It does nothing but polls and waits, so for each
        receive it takes a bounded number of steps. */
    method Start(h: Host, inMainThread: bool, stopProc: nat) returns (end: SessionEnd, ghost v: Visit)
      requires h.Valid() && h.sessions == 0 && h.worst <= SLICE && h.fleet(me) == AsConfig()
      modifies this`running, h
      ensures h.Valid() && h.worst <= SLICE && h.connects <= old(h.connects) + 1
      ensures IsVisit(false, AsConfig(), me, v) && Tried(h.env, v) && v.at == old(h.tick) && v.end == end
      ensures h.deeds == old(h.deeds) + v.deeds && |h.receives| == |old(h.receives)| + Polls(v.deeds)
      ensures EndedByItsDeeds(v.deeds, end)
      ensures end == DatabaseError <==> !v.connected || (v.deeds != [] && Breaks(v.deeds[|v.deeds| - 1]))
      ensures Did(old(h.Now()), h.Now(), Looks(pollInterval), v.deeds, 1) && h.tick >= old(h.tick)
      ensures h.tick <= old(h.tick) + 1 + (3 + Looks(pollInterval)) * (|h.receives| - |old(h.receives)|)
      ensures forall i | |old(h.receives)| <= i < |h.receives| - 1 :: h.receives[i].fired == old(h.fired)
      ensures inMainThread ==> forall i | |old(h.receives)| <= i < |h.receives| ::
        h.receives[i].sigterm == stopProc && h.receives[i].sigint == stopProc
      ensures end.Finished? ==> h.fired > old(h.fired)
      ensures end.StillRunning? ==> running && h.fired == old(h.fired) && h.Over()
      ensures !end.StillRunning? ==>
        !running && h.sessions == 0 && h.sigterm == old(h.sigterm) && h.sigint == old(h.sigint)
    {
      running := true;
      var originalTerm, originalInt := Install(h, inMainThread, stopProc, stopProc);
      end, v := Started(h);
      VisitEnds(false, AsConfig(), me, v);
      if end.StillRunning? {
        return;
      }
      running := false;
      var _, _ := Install(h, inMainThread, originalTerm, originalInt);
    }

    /** A stop that fires before the flag is set is lost: when no other follows, no stop ends the run,
        however long it is observed, and all of its receives start after that stop. Their number has no
        bound: a run that is observed longer makes more of them. */
    method StopThenStart(h: Host, inMainThread: bool, stopProc: nat) returns (end: SessionEnd)
      requires h.Valid() && h.sessions == 0 && h.worst <= SLICE && h.fleet(me) == AsConfig()
      requires h.stops(h.tick + 1) && forall t: nat :: h.tick + 1 < t ==> !h.stops(t)
      modifies this`running, h
      ensures h.fired == old(h.fired) + 1 && !end.Finished? && (end.StillRunning? ==> running && h.Over())
      ensures forall i | |old(h.receives)| <= i < |h.receives| - 1 :: h.receives[i].fired > old(h.fired)
      ensures h.tick <= old(h.tick) + 2 + (3 + Looks(pollInterval)) * (|h.receives| - |old(h.receives)|)
    {
      var stop := h.Look();
      if stop {
        Stop();
      }
      ghost var before := h.tick;
      ghost var v;
      end, v := Start(h, inMainThread, stopProc);
      NoMoreStops(h.stops, before, h.tick);
    }
  }
}
