/** What the Python and Ruby consumers run on: a clock, stop requests, signals, one database, and other
    workers of the group. Times are milliseconds. */
module Hosts {
  import opened Options
  import opened Engine
  import opened Protocol
  import opened Decisions
  import opened Transactions
  import opened Connections
  import opened Markers
  import opened Runs
  import opened Simulation
  import opened Sessions

  const SLICE: nat := 500

  /** The environment at one step: what the others did, whether a connection and a LISTEN succeed, the
      circumstances of a poll, whether the socket is readable, whether a NOTIFY is buffered, whether the
      connection breaks under a wait, and time. */
  datatype Moment = Moment(
    others: seq<Step>,
    connects: bool,
    listens: bool,
    poll: Circumstances,
    readable: bool,
    notified: bool,
    breaks: bool,
    elapsed: nat)

  lemma RunStepsLast(c: Fleet, s: State, init: seq<Step>, last: Step)
    requires s.q.Valid()
    ensures RunSteps(c, s, init + [last]) == StepState(c, RunSteps(c, s, init), last)
  {
    assert (init + [last])[..|init|] == init;
  }

  /** The database is what these steps make of an empty queue; stated so that it is used only where a
      proof names it. */
  ghost predicate Recorded(c: Fleet, coop: bool, maxRetries: nat, steps: seq<Step>, s: State) {
    forall x: nat {:trigger Shown(x)} :: Shown(x) ==>
      s == RunSteps(c, State(Engine.Empty(coop, maxRetries), {}, {}), steps)
  }

  lemma RecordedNext(c: Fleet, coop: bool, maxRetries: nat, steps: seq<Step>, s: State, step: Step)
    requires Recorded(c, coop, maxRetries, steps, s)
    ensures s.q.Valid() && Recorded(c, coop, maxRetries, steps + [step], StepState(c, s, step))
  {
    assert Shown(0);
    RunStepsLast(c, State(Engine.Empty(coop, maxRetries), {}, {}), steps, step);
  }

  lemma RecordedIsValid(c: Fleet, coop: bool, maxRetries: nat, steps: seq<Step>, s: State)
    requires Recorded(c, coop, maxRetries, steps, s)
    ensures s.q.Valid()
  {
    assert Shown(0);
  }

  /** How many stops fire up to a tick. */
  ghost function Stops(stops: nat -> bool, tick: nat): nat {
    (if tick == 0 then 0 else Stops(stops, tick - 1)) + if stops(tick) then 1 else 0
  }

  lemma {:induction false} NoMoreStops(stops: nat -> bool, from: nat, tick: nat)
    requires from <= tick && forall t | from < t <= tick :: !stops(t)
    ensures Stops(stops, tick) == Stops(stops, from)
  {
    if from < tick {
      NoMoreStops(stops, from, tick - 1);
    }
  }

  /** What a receive finds when it starts: how many stops have fired, and the signal handlers. */
  datatype Sight = Sight(fired: nat, sigterm: nat, sigint: nat)

  /** Of the receives since the n-th, all but the last started before any stop later than the first
      `base`, and all of them with these signal handlers; stated so that it is used only where a proof
      names it. */
  ghost predicate AllButLast(receives: seq<Sight>, n: nat, base: nat, sigterm: nat, sigint: nat) {
    forall x: nat {:trigger Shown(x)} :: Shown(x) ==>
      && (forall i | n <= i < |receives| - 1 :: receives[i].fired == base)
      && (forall i | n <= i < |receives| :: receives[i].sigterm == sigterm && receives[i].sigint == sigint)
  }

  lemma AllButLastIs(receives: seq<Sight>, n: nat, base: nat, sigterm: nat, sigint: nat)
    ensures AllButLast(receives, n, base, sigterm, sigint) <==>
      && (forall i | n <= i < |receives| - 1 :: receives[i].fired == base)
      && (forall i | n <= i < |receives| :: receives[i].sigterm == sigterm && receives[i].sigint == sigint)
  {
    assert Shown(0);
  }

  lemma AllButLastOn(receives: seq<Sight>, n: nat, base: nat, next: Sight)
    requires AllButLast(receives, n, base, next.sigterm, next.sigint)
    requires |receives| > n ==> receives[|receives| - 1].fired == base
    ensures AllButLast(receives + [next], n, base, next.sigterm, next.sigint)
  {
    AllButLastIs(receives, n, base, next.sigterm, next.sigint);
    AllButLastIs(receives + [next], n, base, next.sigterm, next.sigint);
  }

  /** The most looks at the stop flag that a wait of this length takes. */
  function Looks(time: nat): nat {
    2 * (time / SLICE) + 3
  }

  /** The visit found the connection and the LISTEN as the environment had them. */
  ghost predicate Tried(env: nat -> Moment, v: Visit) {
    v.connected <==> env(v.at).connects && env(v.at).listens
  }

  /** At some step from a to b a NOTIFY was buffered or the socket was readable. */
  ghost predicate Heard(env: nat -> Moment, a: nat, b: nat) {
    exists t :: a <= t <= b && (env(t).notified || env(t).readable)
  }

  /** The socket is readable at once at this step. */
  predicate Wakes(env: nat -> Moment, t: nat) {
    env(t).readable && env(t).elapsed == 0
  }

  /** At n steps, every other one after `from`, the socket was not; stated so that it is used only where a proof
      names it. */
  ghost predicate Silent(env: nat -> Moment, from: nat, n: nat) {
    forall x: nat {:trigger Shown(x)} :: Shown(x) ==> forall i: nat | i < n :: !Wakes(env, from + 2 * i + 1)
  }

  lemma SilentAtFirst(env: nat -> Moment, from: nat)
    ensures Silent(env, from, 0)
  {
  }

  lemma SilentOn(env: nat -> Moment, from: nat, n: nat)
    requires Silent(env, from, n) && !Wakes(env, from + 2 * n + 1)
    ensures Silent(env, from, n + 1)
  {
    assert Shown(0);
  }

  /** At some step from a to b the connection broke. */
  ghost predicate Broke(env: nat -> Moment, a: nat, b: nat) {
    exists t :: a <= t <= b && env(t).breaks
  }

  class Host {
    const fleet: Fleet
    const env: nat -> Moment
    /** The ticks at which somebody calls stop() or a signal arrives. */
    const stops: nat -> bool
    /** The tick at which the observation ends; a run may go on after it. */
    const horizon: nat
    const coop: bool
    const maxRetries: nat

    var tick: nat
    var clock: nat
    var state: State
    var sessions: nat
    var connects: nat
    var closes: nat
    var sigterm: nat
    var sigint: nat
    ghost var steps: seq<Step>
    ghost var deeds: seq<Deed>
    /** The stops that have fired so far, and what each receive found when it started. */
    ghost var fired: nat
    ghost var receives: seq<Sight>
    /** The longest time blocked between two looks at the stop flag inside a wait. */
    ghost var worst: nat
    ghost var sinceLook: nat

    constructor (fleet: Fleet, env: nat -> Moment, stops: nat -> bool, horizon: nat, coop: bool, maxRetries: nat,
                 past: seq<Step>)
      ensures Valid() && tick == clock == sessions == connects == closes == worst == 0
      ensures deeds == [] && receives == [] && fired == Stops(stops, 0)
      ensures this.fleet == fleet && this.env == env && this.stops == stops && this.horizon == horizon
    {
      this.fleet, this.env, this.stops, this.horizon := fleet, env, stops, horizon;
      this.coop, this.maxRetries := coop, maxRetries;
      state := RunSteps(fleet, State(Engine.Empty(coop, maxRetries), {}, {}), past);
      tick, clock, sessions, connects, closes, sigterm, sigint := 0, 0, 0, 0, 0, 0, 0;
      steps, deeds, fired, receives, worst, sinceLook := past, [], Stops(stops, 0), [], 0, 0;
    }

    ghost predicate Valid()
      reads this
    {
      && Recorded(fleet, coop, maxRetries, steps, state)
      && connects == closes + sessions && sessions <= 1 && fired == Stops(stops, tick)
    }

    ghost function Now(): Tally
      reads `tick, `deeds, `receives
    {
      Tally(tick, deeds, |receives|)
    }

    predicate Over()
      reads this
    {
      horizon <= tick
    }

    /** One look at the stop flag; a stop may fire just before it. */
    method Look() returns (stop: bool)
      requires Valid()
      modifies `tick, `fired, `sinceLook
      ensures Valid() && tick == old(tick) + 1 && stop == stops(tick) && sinceLook == 0
      ensures fired == old(fired) + if stop then 1 else 0
    {
      tick := tick + 1;
      stop := stops(tick);
      fired := fired + if stop then 1 else 0;
      sinceLook := 0;
    }

    method Connect() returns (ok: bool)
      requires Valid() && sessions == 0
      modifies `sessions, `connects
      ensures Valid() && ok == env(tick).connects
      ensures sessions == (if ok then 1 else 0) && connects == old(connects) + sessions
    {
      ok := env(tick).connects;
      if ok {
        sessions, connects := 1, connects + 1;
      }
    }

    method Close()
      requires Valid() && sessions == 1
      modifies `sessions, `closes
      ensures Valid() && sessions == 0
    {
      sessions, closes := 0, closes + 1;
    }

    method Other(step: Step)
      requires Valid()
      modifies `state, `steps
      ensures Valid() && old(state).q.Valid() && state == StepState(fleet, old(state), step)
    {
      RecordedNext(fleet, coop, maxRetries, steps, state, step);
      state := StepState(fleet, state, step);
      steps := steps + [step];
    }

    method Others(list: seq<Step>)
      requires Valid()
      modifies `state, `steps
      ensures Valid()
    {
      for i := 0 to |list|
        invariant Valid()
      {
        Other(list[i]);
      }
    }

    method Advance(elapsed: nat) returns (stop: bool)
      requires Valid()
      modifies `tick, `clock, `fired
      ensures Valid() && tick == old(tick) + 1 && clock == old(clock) + elapsed
      ensures fired == old(fired) + if stop then 1 else 0
    {
      tick, clock := tick + 1, clock + elapsed;
      stop := stops(tick);
      fired := fired + if stop then 1 else 0;
    }

    /** A poll starts on the open connection; the others have moved, and a stop may fire. */
    method Block() returns (conn: Connection, e: Circumstances, stop: bool)
      requires Valid() && sessions == 1
      modifies `tick, `clock, `state, `steps, `fired, `receives
      ensures Valid() && tick == old(tick) + 1 && clock >= old(clock)
      ensures fired == (old(fired) + if stop then 1 else 0)
      ensures receives == old(receives) + [Sight(fired, sigterm, sigint)]
      ensures fresh(conn) && conn.Valid() && conn.committed == state.q && conn.ops == []
    {
      var now := env(tick);
      Others(now.others);
      stop := Advance(now.elapsed);
      receives := receives + [Sight(fired, sigterm, sigint)];
      RecordedIsValid(fleet, coop, maxRetries, steps, state);
      conn := new Connection(state.q);
      e := now.poll;
    }

    /** The poll is over. */
    method Done(me: nat, e: Circumstances, q: Queue, end: Ending)
      requires Valid() && state.q.Valid() && (q, end) == Poll(fleet(me), state.q, me, e)
      modifies `state, `steps, `deeds
      ensures Valid() && state.q == q && deeds == old(deeds) + [Polled(old(state).q, e, end)]
    {
      deeds := deeds + [Polled(state.q, e, end)];
      Other(PollBy(me, e));
    }

    /** select on the connection's socket: it blocks for the timeout at most. */
    method Select(timeout: nat) returns (readable: bool)
      requires timeout <= SLICE && sinceLook == 0
      modifies `clock, `worst, `sinceLook
      ensures old(clock) <= clock <= old(clock) + timeout && worst == Max(old(worst), sinceLook) && sinceLook <= SLICE
      ensures (readable ==> env(tick).readable) && (Wakes(env, tick) ==> readable)
      ensures (!readable ==> clock == old(clock) + timeout)
    {
      readable := env(tick).readable && env(tick).elapsed <= timeout;
      var spent := if readable then env(tick).elapsed else timeout;
      clock, sinceLook := clock + spent, spent;
      worst := Max(worst, sinceLook);
    }

    /** time.sleep. */
    method Sleep(time: nat)
      requires time <= SLICE && sinceLook == 0
      modifies `clock, `worst, `sinceLook
      ensures clock == old(clock) + time && worst == Max(old(worst), time)
    {
      clock, sinceLook := clock + time, time;
      worst := Max(worst, sinceLook);
    }
  }

  function Max(a: nat, b: nat): nat {
    if a < b then b else a
  }
}
