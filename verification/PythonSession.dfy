/** The Python consumer's outer loops: sessions, reconnects, waits, and stopping. */
module PythonSessions {
  import opened Options
  import opened Engine
  import opened Protocol
  import opened Decisions
  import opened Transactions
  import opened Connections
  import opened Markers
  import opened Runs
  import opened Sessions
  import opened Hosts
  import PythonConsumers

  function Flat(visits: seq<Visit>): seq<Deed> {
    if visits == [] then [] else Flat(visits[..|visits| - 1]) + visits[|visits| - 1].deeds
  }

  /** A run: visit after visit, each but the last ended by a database error. The run itself ends as its
      last visit did, or by the stop (or with the observation) after a database error. Stated so that it
      is used only where a proof names it. */
  ghost predicate IsRun(env: nat -> Moment, c: Config, k: nat, wait: nat, visits: seq<Visit>, end: SessionEnd) {
    forall x: nat {:trigger Shown(x)} :: Shown(x) ==>
      && !end.DatabaseError? && AllVisits(env, c, k, wait, visits)
      && if visits == [] then end.Finished? || end.StillRunning?
         else
           var last := visits[|visits| - 1].end;
           end == last || ((end.Finished? || end.StillRunning?) && last.DatabaseError?)
  }

  /** Between two visits in a row there is a poll interval, after a database error. */
  predicate Reconnects(a: Visit, b: Visit, wait: nat) {
    a.end.DatabaseError? && b.from == a.until + wait
  }

  ghost predicate AllVisits(env: nat -> Moment, c: Config, k: nat, wait: nat, visits: seq<Visit>) {
    visits != [] ==>
      var n := |visits| - 1;
      && AllVisits(env, c, k, wait, visits[..n]) && IsVisit(true, c, k, visits[n]) && Tried(env, visits[n])
      && (n > 0 ==> Reconnects(visits[n - 1], visits[n], wait))
  }

  /** A run up to now: visits that all ended by a database error. */
  ghost predicate Retried(env: nat -> Moment, c: Config, k: nat, wait: nat, visits: seq<Visit>) {
    forall x: nat {:trigger Shown(x)} :: Shown(x) ==>
      AllVisits(env, c, k, wait, visits) && (visits != [] ==> visits[|visits| - 1].end.DatabaseError?)
  }

  lemma NothingTried(env: nat -> Moment, c: Config, k: nat, wait: nat)
    ensures Retried(env, c, k, wait, [])
  {
  }

  lemma AnotherVisit(env: nat -> Moment, c: Config, k: nat, wait: nat, visits: seq<Visit>, v: Visit)
    requires Retried(env, c, k, wait, visits) && IsVisit(true, c, k, v) && Tried(env, v)
    requires visits != [] ==> v.from == visits[|visits| - 1].until + wait
    ensures if v.end.DatabaseError? then Retried(env, c, k, wait, visits + [v])
            else IsRun(env, c, k, wait, visits + [v], v.end)
  {
    assert Shown(0);
    assert (visits + [v])[..|visits|] == visits;
  }

  lemma StoppedRun(env: nat -> Moment, c: Config, k: nat, wait: nat, visits: seq<Visit>, end: SessionEnd)
    requires Retried(env, c, k, wait, visits) && (end.Finished? || end.StillRunning?)
    ensures IsRun(env, c, k, wait, visits, end)
  {
    assert Shown(0);
  }

  /** No deed of visits that all ended by a database error is an overflow or an escaping error. */
  lemma {:induction false} RetriedDeeds(env: nat -> Moment, c: Config, k: nat, wait: nat, visits: seq<Visit>)
    requires AllVisits(env, c, k, wait, visits) && (visits != [] ==> visits[|visits| - 1].end.DatabaseError?)
    ensures forall d <- Flat(visits) :: !Overflows(d) && !LetsOut(d)
  {
    if visits != [] {
      var n := |visits| - 1;
      RetriedDeeds(env, c, k, wait, visits[..n]);
      VisitEnds(true, c, k, visits[n]);
    }
  }

  lemma {:induction false} VisitAt(env: nat -> Moment, c: Config, k: nat, wait: nat, visits: seq<Visit>, j: nat)
    requires AllVisits(env, c, k, wait, visits) && j < |visits|
    ensures IsVisit(true, c, k, visits[j])
    ensures j < |visits| - 1 ==> Reconnects(visits[j], visits[j + 1], wait)
    decreases |visits|
  {
    if j < |visits| - 1 {
      VisitAt(env, c, k, wait, visits[..|visits| - 1], j);
    }
  }

  lemma LastVisitDeeds(before: seq<Deed>, deeds: seq<Deed>, end: SessionEnd)
    requires (forall d <- before :: !Overflows(d) && !LetsOut(d)) && EndedByItsDeeds(deeds, end)
    ensures EndedByItsDeeds(before + deeds, end)
  {
    forall i | 0 <= i < |before| ensures !Overflows(before[i]) && !LetsOut(before[i]) {
      assert before[i] in before;
    }
  }

  /** How a run ends, read off its deeds. An overflow is its last deed, and then, and only then, it ends as
      TooLarge; the same of an escaping error. A visit is followed by another one only if it could not
      connect, or its last deed was a database error. */
  lemma RunEnds(env: nat -> Moment, c: Config, k: nat, wait: nat, visits: seq<Visit>, end: SessionEnd)
    requires IsRun(env, c, k, wait, visits, end)
    ensures EndedByItsDeeds(Flat(visits), end)
    ensures end in {TooLarge, HandlerError} ==> visits != [] && visits[|visits| - 1].deeds != []
    ensures forall j | 0 <= j < |visits| - 1 ::
      !visits[j].connected || (visits[j].deeds != [] && Breaks(visits[j].deeds[|visits[j].deeds| - 1]))
  {
    assert Shown(0);
    if visits != [] {
      var n := |visits| - 1;
      RetriedDeeds(env, c, k, wait, visits[..n]);
      VisitEnds(true, c, k, visits[n]);
      LastVisitDeeds(Flat(visits[..n]), visits[n].deeds, visits[n].end);
      forall j | 0 <= j < n ensures visits[j].end.DatabaseError? && IsVisit(true, c, k, visits[j]) {
        VisitAt(env, c, k, wait, visits, j);
      }
      forall j | 0 <= j < n
        ensures !visits[j].connected || (visits[j].deeds != [] && Breaks(visits[j].deeds[|visits[j].deeds| - 1]))
      {
        VisitEnds(true, c, k, visits[j]);
      }
    }
  }

  /** A window that is too large ends the run, whatever the sizes of the reconnect waits: reconnecting cannot
      change the batch. A failed receive ends only its visit: another one starts a poll interval later,
      unless the run was stopped (or its observation ended). */
  lemma RunMeets(env: nat -> Moment, c: Config, k: nat, wait: nat, visits: seq<Visit>, end: SessionEnd, j: nat, i: nat)
    requires IsRun(env, c, k, wait, visits, end) && j < |visits| && i < |visits[j].deeds|
    ensures MeetsOverflow(c, k, visits[j].deeds[i]) ==>
      j == |visits| - 1 && i == |visits[j].deeds| - 1 && end == TooLarge
    ensures MeetsFailure(c, visits[j].deeds[i]) ==>
      && i == |visits[j].deeds| - 1
      && if j < |visits| - 1 then visits[j + 1].from == visits[j].until + wait else end in {Finished, StillRunning}
  {
    assert Shown(0);
    VisitAt(env, c, k, wait, visits, j);
    VisitMeets(true, c, k, visits[j], i);
  }

  /** The steps of a run that are not those of its deeds. */
  function Overhead(looks: nat, visits: seq<Visit>): nat {
    |visits| * (2 + looks)
  }

  /** The worker did these visits, and a few looks on top. */
  ghost predicate Done(a: Tally, b: Tally, looks: nat, visits: seq<Visit>, more: nat) {
    Did(a, b, looks, Flat(visits), Overhead(looks, visits) + more)
  }

  lemma DoneLook(a: Tally, b: Tally, c: Tally, looks: nat, visits: seq<Visit>, more: nat, extra: nat)
    requires Done(a, b, looks, visits, more)
    requires c.deeds == b.deeds && c.receives == b.receives && b.tick <= c.tick <= b.tick + extra
    ensures Done(a, c, looks, visits, more + extra)
  {
    DidLook(a, b, c, looks, Flat(visits), Overhead(looks, visits) + more, extra);
  }

  lemma DoneNext(a: Tally, b: Tally, c: Tally, looks: nat, visits: seq<Visit>, v: Visit)
    requires Done(a, b, looks, visits, 1) && Did(b, c, looks, v.deeds, 1 + looks)
    ensures Done(a, c, looks, visits + [v], 0)
  {
    DidBoth(a, b, c, looks, Flat(visits), v.deeds, Overhead(looks, visits) + 1, 1 + looks);
    assert (visits + [v])[..|visits|] == visits;
    assert (|visits| + 1) * (2 + looks) == |visits| * (2 + looks) + 2 + looks;
  }

  /** A run cannot go on without polling or trying to connect. */
  lemma {:induction false} StepsPerVisit(env: nat -> Moment, c: Config, k: nat, wait: nat, visits: seq<Visit>,
                                           looks: nat)
    requires AllVisits(env, c, k, wait, visits)
    ensures Steps(looks, Flat(visits)) <= (3 + looks) * Polls(Flat(visits))
  {
    if visits != [] {
      var n := |visits| - 1;
      var init, last := Flat(visits[..n]), visits[n].deeds;
      StepsPerVisit(env, c, k, wait, visits[..n], looks);
      VisitIs(true, c, k, visits[n]);
      if visits[n].connected {
        StepsPerPoll(true, c, k, last, looks);
      }
      StepsJoin(looks, init, last);
      PollsJoin(init, last);
      assert (3 + looks) * (Polls(init) + Polls(last)) == (3 + looks) * Polls(init) + (3 + looks) * Polls(last);
    }
  }

  lemma BusyRun(env: nat -> Moment, c: Config, k: nat, wait: nat, a: Tally, b: Tally, looks: nat, visits: seq<Visit>,
                end: SessionEnd)
    requires IsRun(env, c, k, wait, visits, end) && Done(a, b, looks, visits, 1)
    ensures b.deeds == a.deeds + Flat(visits) && b.receives == a.receives + Polls(Flat(visits))
    ensures b.tick <= a.tick + 1 + |visits| * (2 + looks) + (3 + looks) * (b.receives - a.receives)
  {
    assert Shown(0);
    StepsPerVisit(env, c, k, wait, visits, looks);
    DidIs(a, b, looks, Flat(visits), Overhead(looks, visits) + 1);
  }

  class Runner {
    const consumer: PythonConsumers.Consumer
    const pollInterval: nat
    var running: bool

    constructor (consumer: PythonConsumers.Consumer, pollInterval: nat)
      ensures this.consumer == consumer && this.pollInterval == pollInterval && !running
    {
      this.consumer, this.pollInterval, running := consumer, pollInterval, false;
    }

    /** stop() from another thread, or the signal handler. */
    method Stop()
      modifies `running
      ensures !running
    {
      running := false;
    }

    /** The flag is set exactly as long as no stop has fired since it was set, when `base` had. */
    ghost predicate Flag(h: Host, base: nat)
      reads this`running, h`fired
    {
      base <= h.fired && (running <==> h.fired == base)
    }

    /** Reading the flag that stop() and the signal handlers clear. */
    method IsRunning(h: Host, ghost base: nat) returns (b: bool)
      requires h.Valid() && Flag(h, base)
      modifies this`running, h`tick, h`fired, h`sinceLook
      ensures h.Valid() && Flag(h, base) && b == running && (b ==> old(running))
      ensures h.tick == old(h.tick) + 1 && h.sinceLook == 0
    {
      var stop := h.Look();
      if stop {
        Stop();
      }
      b := running;
    }

    /** The LISTEN wait. It ends because a NOTIFY was buffered or the socket readable, by the stop, after
        a poll interval, or because the connection broke. A NOTIFY that is buffered ends it at once, and one that
        makes the socket readable at the next look. It never blocks longer than half a second without looking at
        the flag. */
    method WaitForNotifyOrStop(h: Host, ghost base: nat) returns (reason: WaitEnd)
      requires h.Valid() && Flag(h, base) && running && h.worst <= SLICE
      modifies this`running, h`tick, h`fired, h`sinceLook, h`clock, h`worst, h`deeds
      ensures h.Valid() && Flag(h, base) && h.tick >= old(h.tick) && h.worst <= SLICE <= 500
      ensures h.deeds == old(h.deeds) + [Waited(reason)]
      ensures reason.Notified? ==> running && Heard(h.env, old(h.tick), h.tick)
      ensures reason.Deadline? ==> running && h.clock == old(h.clock) + pollInterval
      ensures reason.ByStop? ==> !running
      ensures reason.ConnectionLost? ==> Broke(h.env, old(h.tick), h.tick)
      ensures h.env(old(h.tick)).breaks ==> reason == ConnectionLost
      ensures h.env(old(h.tick)).notified && !h.env(old(h.tick)).breaks ==>
        reason == Notified && h.clock == old(h.clock)
      ensures reason.Deadline? ==> Silent(h.env, old(h.tick), (h.tick - old(h.tick)) / 2)
      ensures old(h.clock) <= h.clock <= old(h.clock) + pollInterval
      ensures h.tick <= old(h.tick) + Looks(pollInterval)
    {
      reason := Listen(h, base);
      h.deeds := h.deeds + [Waited(reason)];
    }

    method Listen(h: Host, ghost base: nat) returns (reason: WaitEnd)
      requires h.Valid() && Flag(h, base) && running && h.worst <= SLICE
      modifies this`running, h`tick, h`fired, h`sinceLook, h`clock, h`worst
      ensures h.Valid() && Flag(h, base) && h.tick >= old(h.tick) && h.worst <= SLICE
      ensures reason.Notified? ==> running && Heard(h.env, old(h.tick), h.tick)
      ensures reason.Deadline? ==> running && h.clock == old(h.clock) + pollInterval
      ensures reason.ByStop? ==> !running
      ensures reason.ConnectionLost? ==> Broke(h.env, old(h.tick), h.tick)
      ensures h.env(old(h.tick)).breaks ==> reason == ConnectionLost
      ensures h.env(old(h.tick)).notified && !h.env(old(h.tick)).breaks ==>
        reason == Notified && h.clock == old(h.clock)
      ensures reason.Deadline? ==> Silent(h.env, old(h.tick), (h.tick - old(h.tick)) / 2)
      ensures old(h.clock) <= h.clock <= old(h.clock) + pollInterval
      ensures h.tick <= old(h.tick) + Looks(pollInterval)
    {
      if h.env(h.tick).breaks {
        return ConnectionLost;
      }
      if h.env(h.tick).notified {
        return Notified;
      }
      reason := InSlices(h, base);
    }

    /** The part of the wait that blocks. */
    method InSlices(h: Host, ghost base: nat) returns (reason: WaitEnd)
      requires h.Valid() && Flag(h, base) && running && h.worst <= SLICE
      modifies this`running, h`tick, h`fired, h`sinceLook, h`clock, h`worst
      ensures h.Valid() && Flag(h, base) && h.tick >= old(h.tick) && h.worst <= SLICE
      ensures reason.Notified? ==> running && Heard(h.env, old(h.tick), h.tick)
      ensures reason.Deadline? ==> running && h.clock == old(h.clock) + pollInterval
      ensures reason.ByStop? ==> !running
      ensures reason.ConnectionLost? ==> Broke(h.env, old(h.tick), h.tick)
      ensures reason.Deadline? ==> Silent(h.env, old(h.tick), (h.tick - old(h.tick)) / 2)
      ensures old(h.clock) <= h.clock <= old(h.clock) + pollInterval
      ensures h.tick <= old(h.tick) + Looks(pollInterval)
    {
      var deadline := h.clock + pollInterval;
      ghost var slices: nat := 0;
      SilentAtFirst(h.env, h.tick);
      while true
        invariant h.Valid() && Flag(h, base) && running && h.worst <= SLICE
        invariant h.tick == old(h.tick) + 2 * slices && slices <= pollInterval / SLICE + 1
        invariant h.clock == deadline || h.clock == old(h.clock) + slices * SLICE < deadline
        invariant Silent(h.env, old(h.tick), slices)
        decreases deadline - h.clock
      {
        var go := IsRunning(h, base);
        if !go {
          return ByStop;
        }
        var remaining := deadline - h.clock;
        if remaining <= 0 {
          return Deadline;
        }
        var readable := h.Select(if SLICE < remaining then SLICE else remaining);
        ghost var seen := h.tick;
        go := IsRunning(h, base);
        if !go {
          return ByStop;
        }
        if readable {
          if h.env(h.tick).breaks {
            return ConnectionLost;
          }
          assert h.env(seen).readable && seen <= h.tick;
          return Notified;
        }
        SilentOn(h.env, old(h.tick), slices);
        slices := slices + 1;
      }
    }

    /** The wait before a reconnect: a poll interval, unless stopped. */
    method SleepBeforeReconnect(h: Host, ghost base: nat)
      requires h.Valid() && Flag(h, base) && h.worst <= SLICE
      modifies this`running, h`tick, h`fired, h`sinceLook, h`clock, h`worst
      ensures h.Valid() && Flag(h, base) && h.worst <= SLICE && (running ==> old(running))
      ensures h.fired >= old(h.fired) && (running ==> h.clock == old(h.clock) + pollInterval)
      ensures old(h.tick) <= h.tick <= old(h.tick) + Looks(pollInterval)
    {
      var deadline := h.clock + pollInterval;
      ghost var slices: nat := 0;
      while true
        invariant h.Valid() && Flag(h, base) && h.worst <= SLICE && h.fired >= old(h.fired)
        invariant h.tick == old(h.tick) + slices && slices <= pollInterval / SLICE + 1 && (running ==> old(running))
        invariant h.clock == deadline || h.clock == old(h.clock) + slices * SLICE < deadline
        decreases deadline - h.clock
      {
        var go := IsRunning(h, base);
        if !go {
          return;
        }
        var remaining := deadline - h.clock;
        if remaining <= 0 {
          return;
        }
        h.Sleep(if SLICE < remaining then SLICE else remaining);
        slices := slices + 1;
      }
    }

    ghost function Cfg(): Config
      reads consumer
    {
      consumer.AsConfig()
    }

    /** Of the receives since the n-th, only the last may have started after a stop of this run, and all
        of them with the signal handlers as they are now. */
    ghost predicate Prompt(h: Host, base: nat, n: nat)
      reads h`receives, h`fired, h`sigterm, h`sigint
    {
      && n <= |h.receives| && AllButLast(h.receives, n, base, h.sigterm, h.sigint)
      && (|h.receives| > n ==> base <= h.receives[|h.receives| - 1].fired <= h.fired)
    }

    /** What a session keeps between two polls; stated so that it is used only where a proof names it. */
    ghost predicate Steady(h: Host, base: nat, n: nat)
      reads this, h, consumer
    {
      forall x: nat {:trigger Shown(x)} :: Shown(x) ==>
        (h.Valid() && h.worst <= SLICE && h.fleet(consumer.me) == Cfg()
         && Flag(h, base) && Prompt(h, base, n))
    }

    lemma Unfold(h: Host, base: nat, n: nat)
      requires Steady(h, base, n)
      ensures h.Valid() && h.worst <= SLICE && h.fleet(consumer.me) == Cfg() && Flag(h, base) && Prompt(h, base, n)
    {
      assert Shown(0);
    }

    lemma Fold(h: Host, base: nat, n: nat)
      requires h.Valid() && h.worst <= SLICE && h.fleet(consumer.me) == Cfg() && Flag(h, base) && Prompt(h, base, n)
      ensures Steady(h, base, n)
    {
    }

    /** A look at the flag, between two polls. */
    method GoesOn(h: Host, ghost base: nat, ghost n: nat) returns (b: bool)
      requires Steady(h, base, n)
      modifies this`running, h`tick, h`fired, h`sinceLook
      ensures Steady(h, base, n) && b == running && (b ==> old(running)) && h.tick == old(h.tick) + 1
    {
      Unfold(h, base, n);
      b := IsRunning(h, base);
      Fold(h, base, n);
    }

    /** A poll starts: a receive is counted, and a stop may fire. */
    method Begin(h: Host, ghost base: nat, ghost n: nat) returns (conn: Connection, e: Circumstances)
      requires Steady(h, base, n) && h.sessions == 1 && running
      modifies this`running, h`tick, h`clock, h`state, h`steps, h`fired, h`receives
      ensures Steady(h, base, n) && h.tick == old(h.tick) + 1 && h.clock >= old(h.clock)
      ensures |h.receives| == |old(h.receives)| + 1
      ensures fresh(conn) && conn.Valid() && conn.committed == h.state.q && conn.ops == []
    {
      Unfold(h, base, n);
      ghost var receives := h.receives;
      var stop;
      conn, e, stop := h.Block();
      AllButLastOn(receives, n, base, Sight(h.fired, h.sigterm, h.sigint));
      if stop {
        Stop();
      }
      Fold(h, base, n);
    }

    /** The poll is over. */
    method Finish(h: Host, ghost base: nat, ghost n: nat, e: Circumstances, q: Queue, end: Ending)
        returns (ghost d: Deed)
      requires Steady(h, base, n) && h.state.q.Valid()
      requires (q, end) == Transactions.Poll(Cfg(), h.state.q, consumer.me, e)
      modifies h`state, h`steps, h`deeds
      ensures Steady(h, base, n) && h.deeds == old(h.deeds) + [d]
      ensures Real(Cfg(), consumer.me, d) && d.Polled? && d.end == end
    {
      Unfold(h, base, n);
      d := Polled(h.state.q, e, end);
      RealIs(Cfg(), consumer.me, d);
      h.Done(consumer.me, e, q, end);
      Fold(h, base, n);
    }

    /** One poll on the open connection. */
    method Poll(h: Host, ghost base: nat, ghost n: nat) returns (end: Ending, ghost d: Deed)
      requires Steady(h, base, n) && h.sessions == 1 && running
      modifies this`running, h`tick, h`clock, h`state, h`steps, h`fired, h`receives, h`deeds
      ensures Steady(h, base, n) && h.tick == old(h.tick) + 1 && h.clock >= old(h.clock)
      ensures Did(old(h.Now()), h.Now(), Looks(pollInterval), [d], -2)
      ensures Real(Cfg(), consumer.me, d) && d.Polled? && d.end == end
    {
      var conn, e := Begin(h, base, n);
      end := consumer.PollOnce(conn, e);
      d := Finish(h, base, n, e, conn.committed, end);
      DidOne(old(h.Now()), h.Now(), Looks(pollInterval), d, -2);
    }

    /** A wait in the loop. */
    method WaitOn(h: Host, ghost base: nat, ghost n: nat) returns (reason: WaitEnd)
      requires Steady(h, base, n) && running
      modifies this`running, h`tick, h`fired, h`sinceLook, h`clock, h`worst, h`deeds
      ensures Steady(h, base, n) && h.clock >= old(h.clock) && h.tick >= old(h.tick)
      ensures Did(old(h.Now()), h.Now(), Looks(pollInterval), [Waited(reason)], 0)
      ensures running && !reason.ConnectionLost? ==> reason.Notified? || reason.Deadline?
    {
      Unfold(h, base, n);
      reason := WaitForNotifyOrStop(h, base);
      DidOne(old(h.Now()), h.Now(), Looks(pollInterval), Waited(reason), 0);
      Fold(h, base, n);
    }

    /** The body of the poll loop: a poll, and a wait unless the poll finished a batch. */
    method Turn(h: Host, ghost base: nat, ghost n: nat, ghost ds: seq<Deed>, ghost start: Tally)
        returns (end: SessionEnd, ghost now: seq<Deed>)
      requires Steady(h, base, n) && h.sessions == 1 && running
      requires Session(true, Cfg(), consumer.me, ds) && MayPoll(true, ds)
      requires Did(start, h.Now(), Looks(pollInterval), ds, 1)
      modifies this`running, h`tick, h`clock, h`state, h`steps, h`fired, h`receives, h`deeds, h`sinceLook, h`worst
      ensures Steady(h, base, n) && h.tick > old(h.tick) && h.clock >= old(h.clock)
      ensures Did(start, h.Now(), Looks(pollInterval), now, 0) && Standing(true, Cfg(), consumer.me, now, end, running)
    {
      ghost var before := h.Now();
      var polled;
      ghost var d;
      polled, d := Poll(h, base, n);
      now, end := ds + [d], PollVerdict(polled);
      DidBoth(start, before, h.Now(), Looks(pollInterval), ds, [d], 1, -2);
      PollReached(true, Cfg(), consumer.me, ds, d);
      if end.Finished? {
        end, now := GoOn(h, base, n, polled, now, start);
      } else {
        DidLook(start, h.Now(), h.Now(), Looks(pollInterval), now, -1, 1);
      }
    }

    /** After a poll that ended without an error. */
    method GoOn(h: Host, ghost base: nat, ghost n: nat, polled: Ending, ghost ds: seq<Deed>, ghost start: Tally)
        returns (end: SessionEnd, ghost now: seq<Deed>)
      requires Steady(h, base, n) && Session(true, Cfg(), consumer.me, ds) && PollVerdict(polled).Finished?
      requires ds != [] && ds[|ds| - 1].Polled? && ds[|ds| - 1].end == polled
      requires Did(start, h.Now(), Looks(pollInterval), ds, -1)
      modifies this`running, h`tick, h`clock, h`fired, h`deeds, h`sinceLook, h`worst
      ensures Steady(h, base, n) && h.tick > old(h.tick) && h.clock >= old(h.clock)
      ensures Did(start, h.Now(), Looks(pollInterval), now, 0) && Standing(true, Cfg(), consumer.me, now, end, running)
    {
      ghost var before := h.Now();
      var go := GoesOn(h, base, n);
      ghost var mid := h.Now();
      DidLook(start, before, mid, Looks(pollInterval), ds, -1, 1);
      if !go || polled.Processed? {
        return Finished, ds;
      }
      var reason := WaitOn(h, base, n);
      end, now := if reason.ConnectionLost? then DatabaseError else Finished, ds + [Waited(reason)];
      DidBoth(start, mid, h.Now(), Looks(pollInterval), ds, [Waited(reason)], 0, 0);
      WaitReached(true, Cfg(), consumer.me, ds, reason, running);
    }

    /** The poll loop of a session on its open connection. It ends by its last deed, or by the stop, or
        with the observation, and it does nothing but polls and waits: its steps are theirs. */
    method PollLoop(h: Host, ghost base: nat, ghost n: nat) returns (end: SessionEnd, ghost ds: seq<Deed>)
      requires Steady(h, base, n) && h.sessions == 1
      modifies this`running, h`tick, h`clock, h`state, h`steps, h`fired, h`receives, h`deeds, h`sinceLook, h`worst
      ensures Steady(h, base, n) && h.clock >= old(h.clock) && h.tick >= old(h.tick)
      ensures Did(old(h.Now()), h.Now(), Looks(pollInterval), ds, 1)
      ensures Session(true, Cfg(), consumer.me, ds) && EndsAs(ds, end)
      ensures (end.Finished? ==> !running) && (end.StillRunning? ==> running && h.Over())
    {
      ds := [];
      ghost var start := h.Now();
      DidNothing(start, Looks(pollInterval));
      while true
        invariant Steady(h, base, n) && h.clock >= old(h.clock) && h.tick >= old(h.tick)
        invariant Did(start, h.Now(), Looks(pollInterval), ds, 0)
        invariant ds == [] || Standing(true, Cfg(), consumer.me, ds, Finished, running)
        decreases h.horizon - h.tick
      {
        ghost var before := h.Now();
        var go := GoesOn(h, base, n);
        DidLook(start, before, h.Now(), Looks(pollInterval), ds, 0, 1);
        if !go {
          return Finished, ds;
        }
        if h.Over() {
          return StillRunning, ds;
        }
        end, ds := Turn(h, base, n, ds, start);
        if !end.Finished? {
          DidLook(start, h.Now(), h.Now(), Looks(pollInterval), ds, 0, 1);
          return;
        }
      }
    }

    method CloseIt(h: Host, ghost base: nat, ghost n: nat)
      requires Steady(h, base, n) && h.sessions == 1
      modifies h`sessions, h`closes
      ensures Steady(h, base, n) && h.sessions == 0
    {
      Unfold(h, base, n);
      h.Close();
      Fold(h, base, n);
    }

    /** One connection: opened, polled until the stop or an error, and closed however that ends. It fails
        to open exactly when the connection or the LISTEN fails. */
    method RunSession(h: Host, ghost base: nat, ghost n: nat) returns (end: SessionEnd, ghost v: Visit)
      requires Steady(h, base, n) && h.sessions == 0
      modifies this`running, h`tick, h`clock, h`state, h`steps, h`fired, h`receives, h`deeds, h`sinceLook, h`worst,
               h`sessions, h`connects, h`closes
      ensures Steady(h, base, n) && Did(old(h.Now()), h.Now(), Looks(pollInterval), v.deeds, 1) && h.tick >= old(h.tick)
      ensures v.at == old(h.tick) && v.from == old(h.clock) && v.until == h.clock && v.end == end
      ensures IsVisit(true, Cfg(), consumer.me, v) && Tried(h.env, v)
      ensures (end.Finished? ==> !running) && (end.StillRunning? ==> running && h.Over())
      ensures h.sessions == 0 || end.StillRunning?
    {
      ghost var at, from := h.tick, h.clock;
      DidNothing(h.Now(), Looks(pollInterval));
      DidLook(h.Now(), h.Now(), h.Now(), Looks(pollInterval), [], 0, 1);
      Unfold(h, base, n);
      var connected := h.Connect();
      Fold(h, base, n);
      if !connected {
        end, v := DatabaseError, Visit(at, from, h.clock, false, [], DatabaseError);
        VisitIs(true, Cfg(), consumer.me, v);
        return;
      }
      var listens := h.env(h.tick).listens;
      ghost var ds: seq<Deed> := [];
      if listens {
        end, ds := PollLoop(h, base, n);
      } else {
        end := DatabaseError;
      }
      if !end.StillRunning? {
        CloseIt(h, base, n);
      }
      v := Visit(at, from, h.clock, listens, ds, end);
      VisitIs(true, Cfg(), consumer.me, v);
    }

    /** What a run keeps between two visits: it is over, or the next one starts a poll interval after the
        database error that ended the last one. */
    ghost predicate Ready(h: Host, visits: seq<Visit>)
      reads this`running, h`clock, consumer
    {
      && Retried(h.env, Cfg(), consumer.me, pollInterval, visits)
      && (running && visits != [] ==> h.clock == visits[|visits| - 1].until + pollInterval)
    }

    method Reconnect(h: Host, ghost base: nat, ghost n: nat)
      requires Steady(h, base, n)
      modifies this`running, h`tick, h`fired, h`sinceLook, h`clock, h`worst
      ensures Steady(h, base, n) && (running ==> old(running) && h.clock == old(h.clock) + pollInterval)
      ensures old(h.tick) <= h.tick <= old(h.tick) + Looks(pollInterval)
    {
      Unfold(h, base, n);
      SleepBeforeReconnect(h, base);
      Fold(h, base, n);
    }

    /** One more visit, and the wait after a database error. */
    method NextSession(h: Host, ghost base: nat, ghost n: nat, ghost visits: seq<Visit>)
        returns (end: SessionEnd, ghost v: Visit)
      requires Steady(h, base, n) && h.sessions == 0 && running && Ready(h, visits)
      modifies this`running, h`tick, h`clock, h`state, h`steps, h`fired, h`receives, h`deeds, h`sinceLook, h`worst,
               h`sessions, h`connects, h`closes
      ensures Steady(h, base, n) && v.end == end && h.tick >= old(h.tick)
      ensures Did(old(h.Now()), h.Now(), Looks(pollInterval), v.deeds, 1 + Looks(pollInterval))
      ensures if end.DatabaseError? then Ready(h, visits + [v])
              else IsRun(h.env, Cfg(), consumer.me, pollInterval, visits + [v], end)
      ensures (end.Finished? ==> !running) && (end.StillRunning? ==> running && h.Over())
      ensures h.sessions == 0 || end.StillRunning?
    {
      end, v := RunSession(h, base, n);
      AnotherVisit(h.env, Cfg(), consumer.me, pollInterval, visits, v);
      ghost var mid := h.Now();
      if end.DatabaseError? {
        Reconnect(h, base, n);
      }
      DidLook(old(h.Now()), mid, h.Now(), Looks(pollInterval), v.deeds, 1, Looks(pollInterval));
    }

    /** The run up to now: nothing but the visits so far. */
    ghost predicate Underway(h: Host, base: nat, n: nat, start: Tally, visits: seq<Visit>)
      reads this, h, consumer
    {
      && Steady(h, base, n) && h.sessions == 0 && Ready(h, visits)
      && Done(start, h.Now(), Looks(pollInterval), visits, 0)
    }

    /** One turn of the loop: the look at the flag, and another visit. The loop goes on after a database
        error. */
    method Again(h: Host, ghost base: nat, ghost n: nat, ghost start: Tally, ghost visits: seq<Visit>)
        returns (end: SessionEnd, ghost now: seq<Visit>)
      requires Underway(h, base, n, start, visits)
      modifies this`running, h`tick, h`clock, h`state, h`steps, h`fired, h`receives, h`deeds, h`sinceLook, h`worst,
               h`sessions, h`connects, h`closes
      ensures Steady(h, base, n) && h.tick > old(h.tick)
      ensures end.DatabaseError? ==> Underway(h, base, n, start, now) && old(h.tick) < h.horizon
      ensures !end.DatabaseError? ==>
        && IsRun(h.env, Cfg(), consumer.me, pollInterval, now, end)
        && Done(start, h.Now(), Looks(pollInterval), now, 1)
      ensures (end.Finished? ==> !running) && (end.StillRunning? ==> running && h.Over())
      ensures h.sessions == 0 || end.StillRunning?
    {
      ghost var before := h.Now();
      var go := GoesOn(h, base, n);
      ghost var mid := h.Now();
      DoneLook(start, before, mid, Looks(pollInterval), visits, 0, 1);
      if !go || h.Over() {
        end, now := if go then StillRunning else Finished, visits;
        StoppedRun(h.env, Cfg(), consumer.me, pollInterval, visits, end);
        return;
      }
      ghost var v;
      end, v := NextSession(h, base, n, visits);
      now := visits + [v];
      DoneNext(start, mid, h.Now(), Looks(pollInterval), visits, v);
      DoneLook(start, h.Now(), h.Now(), Looks(pollInterval), now, 0, 1);
    }

    /** Visit after visit. */
    method Supervise(h: Host, ghost base: nat, ghost n: nat) returns (end: SessionEnd, ghost visits: seq<Visit>)
      requires Steady(h, base, n) && h.sessions == 0
      modifies this`running, h`tick, h`clock, h`state, h`steps, h`fired, h`receives, h`deeds, h`sinceLook, h`worst,
               h`sessions, h`connects, h`closes
      ensures Steady(h, base, n) && h.tick >= old(h.tick)
      ensures IsRun(h.env, Cfg(), consumer.me, pollInterval, visits, end)
      ensures Done(old(h.Now()), h.Now(), Looks(pollInterval), visits, 1)
      ensures (end.Finished? ==> !running) && (end.StillRunning? ==> running && h.Over())
      ensures h.sessions == 0 || end.StillRunning?
    {
      visits := [];
      ghost var start := h.Now();
      DidNothing(start, Looks(pollInterval));
      NothingTried(h.env, Cfg(), consumer.me, pollInterval);
      while true
        invariant Underway(h, base, n, start, visits) && h.tick >= old(h.tick)
        decreases h.horizon - h.tick
      {
        end, visits := Again(h, base, n, start, visits);
        if !end.DatabaseError? {
          return;
        }
      }
    }

    /** The run between setting the flag and clearing it. */
    method Started(h: Host) returns (end: SessionEnd, ghost visits: seq<Visit>)
      requires h.Valid() && h.sessions == 0 && h.worst <= SLICE && h.fleet(consumer.me) == Cfg() && running
      modifies this`running, h`tick, h`clock, h`state, h`steps, h`fired, h`receives, h`deeds, h`sinceLook, h`worst,
               h`sessions, h`connects, h`closes
      ensures h.Valid() && h.worst <= SLICE && h.tick >= old(h.tick)
      ensures IsRun(h.env, Cfg(), consumer.me, pollInterval, visits, end)
      ensures Done(old(h.Now()), h.Now(), Looks(pollInterval), visits, 1)
      ensures forall i | |old(h.receives)| <= i < |h.receives| - 1 :: h.receives[i].fired == old(h.fired)
      ensures forall i | |old(h.receives)| <= i < |h.receives| ::
        h.receives[i].sigterm == h.sigterm && h.receives[i].sigint == h.sigint
      ensures end.Finished? ==> h.fired > old(h.fired)
      ensures end.StillRunning? ==> running && h.fired == old(h.fired) && h.Over()
      ensures h.sessions == 0 || end.StillRunning?
    {
      AllButLastIs(h.receives, |h.receives|, h.fired, h.sigterm, h.sigint);
      Fold(h, h.fired, |h.receives|);
      end, visits := Supervise(h, h.fired, |h.receives|);
      Unfold(h, old(h.fired), |old(h.receives)|);
      AllButLastIs(h.receives, |old(h.receives)|, old(h.fired), h.sigterm, h.sigint);
    }

    /** In the main thread, sets the signal handlers, and gives those that were there. */
    method Install(h: Host, inMainThread: bool, sigterm: nat, sigint: nat)
        returns (originalSigterm: nat, originalSigint: nat)
      requires h.Valid()
      modifies h`sigterm, h`sigint
      ensures h.Valid() && originalSigterm == old(h.sigterm) && originalSigint == old(h.sigint)
      ensures h.sigterm == (if inMainThread then sigterm else originalSigterm)
      ensures h.sigint == if inMainThread then sigint else originalSigint
    {
      originalSigterm, originalSigint := h.sigterm, h.sigint;
      if inMainThread {
        h.sigterm, h.sigint := sigterm, sigint;
      }
    }

    /** The consumer's run. It sets the flag first, so that a stop before that is forgotten. It ends only
        by a stop that fires after that, an overflow or an escaping handler, and by these at once: they are
        its last deed, and no visit follows but after a database error. Of its receives, only the
        last can start after the stop; all of them happen with its own signal handlers, in the main
        thread; and it leaves no connection open, the flag cleared, and the signal handlers as they were.
        It does nothing but visits with a poll interval between two of them, so for each receive and each
        visit it takes a bounded number of steps. */
    method Start(h: Host, inMainThread: bool, stopHandler: nat)
        returns (end: SessionEnd, ghost visits: seq<Visit>)
      requires h.Valid() && h.sessions == 0 && h.worst <= SLICE && h.fleet(consumer.me) == consumer.AsConfig()
      modifies this`running, h
      ensures h.Valid() && h.worst <= SLICE && h.tick >= old(h.tick)
      ensures IsRun(h.env, Cfg(), consumer.me, pollInterval, visits, end)
      ensures Done(old(h.Now()), h.Now(), Looks(pollInterval), visits, 1)
      ensures h.deeds == old(h.deeds) + Flat(visits) && |h.receives| == |old(h.receives)| + Polls(Flat(visits))
      ensures EndedByItsDeeds(Flat(visits), end)
      ensures forall j | 0 <= j < |visits| - 1 ::
        !visits[j].connected || (visits[j].deeds != [] && Breaks(visits[j].deeds[|visits[j].deeds| - 1]))
      ensures h.tick <= old(h.tick) + 1 + |visits| * (2 + Looks(pollInterval))
                        + (3 + Looks(pollInterval)) * (|h.receives| - |old(h.receives)|)
      ensures forall i | |old(h.receives)| <= i < |h.receives| - 1 :: h.receives[i].fired == old(h.fired)
      ensures inMainThread ==> forall i | |old(h.receives)| <= i < |h.receives| ::
        h.receives[i].sigterm == stopHandler && h.receives[i].sigint == stopHandler
      ensures end.Finished? ==> h.fired > old(h.fired)
      ensures end.StillRunning? ==> running && h.fired == old(h.fired) && h.Over()
      ensures !end.StillRunning? ==>
        !running && h.sessions == 0 && h.sigterm == old(h.sigterm) && h.sigint == old(h.sigint)
    {
      running := true;
      var originalSigterm, originalSigint := Install(h, inMainThread, stopHandler, stopHandler);
      end, visits := Started(h);
      BusyRun(h.env, Cfg(), consumer.me, pollInterval, old(h.Now()), h.Now(), Looks(pollInterval), visits, end);
      RunEnds(h.env, Cfg(), consumer.me, pollInterval, visits, end);
      if end.StillRunning? {
        return;
      }
      running := false;
      var _, _ := Install(h, inMainThread, originalSigterm, originalSigint);
    }

    /** A stop that fires before the flag is set is lost: when no other follows, no stop ends the run,
        however long it is observed, and all of its receives start after that stop. Their number has no
        bound: unless it keeps failing to connect, a run that is observed longer makes more of them. */
    method StopThenStart(h: Host, inMainThread: bool, stopHandler: nat)
        returns (end: SessionEnd, ghost visits: seq<Visit>)
      requires h.Valid() && h.sessions == 0 && h.worst <= SLICE && h.fleet(consumer.me) == consumer.AsConfig()
      requires h.stops(h.tick + 1) && forall t: nat :: h.tick + 1 < t ==> !h.stops(t)
      modifies this`running, h
      ensures h.fired == old(h.fired) + 1 && !end.Finished? && (end.StillRunning? ==> running && h.Over())
      ensures forall i | |old(h.receives)| <= i < |h.receives| - 1 :: h.receives[i].fired > old(h.fired)
      ensures h.tick <= old(h.tick) + 2 + |visits| * (2 + Looks(pollInterval))
                        + (3 + Looks(pollInterval)) * (|h.receives| - |old(h.receives)|)
    {
      var stop := h.Look();
      if stop {
        Stop();
      }
      ghost var before := h.tick;
      end, visits := Start(h, inMainThread, stopHandler);
      NoMoreStops(h.stops, before, h.tick);
    }
  }
}
