/** The delivery protocol as a state machine: any number of non-transactional consumer loops
    (Go, TypeScript) sharing one group on the engine, interleaved call by call, with an
    environment that produces, ticks, requeues, fails calls, loses replies and kills workers. */
module Protocol {
  import opened Options
  import opened Engine

  datatype Policy = NackUnknown | AckUnknown

  /** `catchAll` is the "*" handler of the Python and Ruby consumers. */
  datatype Config = Config(handlers: set<string>, catchAll: bool, policy: Policy, ceiling: int) {
    predicate Knows(kind: string) {
      kind in handlers || catchAll
    }
  }

  type Fleet = nat -> Config

  /** How the environment answers one SQL call: as it should, with an error and no effect, or
      with an error after the effect took place. */
  datatype Fault = Fine | Refused | LostReply

  /** One delivery of a batch to one worker; rounds are numbered in the order they start. */
  datatype Round = Round(worker: nat, token: nat, window: nat)

  /** Message `id` was dealt with in round `round`. */
  datatype Mark = Mark(round: nat, id: nat)

  datatype Call = Call(round: nat, position: nat)

  /** Where a loop stands. `next` is the message it is at, `failed` the nackFailed flag. */
  datatype Phase =
    | Ready
    | Dispatching(round: nat, next: nat, failed: bool)
    | Nacking(round: nat, next: nat, failed: bool)
    | Waiting
    | Stopped
    | Overflowed
  {
    predicate InRound() {
      Dispatching? || Nacking?
    }
  }

  /** The queue, the local state of the loops, and what happened so far: rounds started, messages
      handled, skipped and routed (nacked with success) in them, events whose nack was answered with
      success but stored nothing, rounds whose ack finished a batch, handler calls. */
  datatype World = World(
    q: Queue,
    phases: map<nat, Phase>,
    rounds: seq<Round>,
    handled: set<Mark>,
    skipped: set<Mark>,
    routed: set<Mark>,
    dropped: set<nat>,
    acks: seq<nat>,
    calls: seq<Call>
  ) {
    function At(k: nat): Phase {
      if k in phases then phases[k] else Ready
    }

    function Go(k: nat, p: Phase): World {
      this.(phases := phases[k := p])
    }

    predicate HasRound(r: nat) {
      r < |rounds| && rounds[r].window < |q.windows|
    }

    function Messages(r: nat): seq<Event>
      requires HasRound(r)
    {
      q.windows[rounds[r].window]
    }

    predicate Settled(r: nat, id: nat) {
      Mark(r, id) in handled || Mark(r, id) in skipped || Mark(r, id) in routed
    }

    /** The worker's phase names a message of its round. */
    predicate AtMessage(k: nat) {
      At(k).InRound() && HasRound(At(k).round) && At(k).next < |Messages(At(k).round)|
    }
  }

  datatype Action =
    | Send(kind: string)
    | Tick
    | Requeue(id: nat)
    | SkipTokens(count: nat)
    | Receive(worker: nat, victim: Option<nat>, fault: Fault)
    | Dispatch(worker: nat, ok: bool)
    | Nack(worker: nat, fault: Fault)
    | Ack(worker: nat, fault: Fault)
    | Wake(worker: nat)
    | Cancel(worker: nat)
    | Crash(worker: nat)

  function Start(coop: bool, maxRetries: nat): World {
    World(Engine.Empty(coop, maxRetries), map[], [], {}, {}, {}, {}, [], [])
  }

  // ----- the environment -----

  function DoSend(q: Queue, kind: string): (r: Queue)
    requires q.Valid()
    ensures r.Valid()
  {
    q.(pending := q.pending + [Event(q.nextId, kind, 0)], nextId := q.nextId + 1)
  }

  /** Before the first event with a larger id. */
  function Insert(e: Event, events: seq<Event>): (r: seq<Event>)
    ensures multiset(r) == multiset(events) + multiset{e}
  {
    if events == [] || e.id <= events[0].id then [e] + events
    else
      assert events == [events[0]] + events[1..];
      [events[0]] + Insert(e, events[1..])
  }

  /** A batch is delivered in the order of the event ids. */
  function ById(events: seq<Event>): (r: seq<Event>)
    ensures multiset(r) == multiset(events)
  {
    if events == [] then []
    else
      assert events == [events[0]] + events[1..];
      Insert(events[0], ById(events[1..]))
  }

  function DoTick(q: Queue): (r: Queue)
    requires q.Valid()
    ensures r.Valid()
  {
    q.(windows := q.windows + [ById(q.pending)], pending := [])
  }

  /** pgque.maint_retry_events: a due event goes back to the event table under its own id. */
  function DoRequeue(q: Queue, id: nat): (r: Queue)
    requires q.Valid()
    ensures r.Valid()
  {
    if id !in q.retries then q
    else q.(pending := q.pending + [q.retries[id]], retries := q.retries - {id})
  }

  // ----- one worker -----

  function DoReceive(w: World, k: nat, ceiling: int, victim: Option<nat>, fault: Fault): (v: World)
    requires w.q.Valid()
    ensures v.q.Valid() && v.q.coop == w.q.coop
    ensures w.At(k) != Ready ==> v == w
    ensures v == w.(q := v.q, phases := v.phases, rounds := v.rounds)
    ensures w.At(k) == Ready ==> v.phases == w.phases[k := v.At(k)]
    ensures if v.At(k).InRound() && w.At(k) == Ready then |v.rounds| > |w.rounds| else v.rounds == w.rounds
  {
    if w.At(k) != Ready then w
    else if fault.Refused? then w.Go(k, Waiting)
    else
      ReceiveContract(w.q, k, ceiling, victim);
      var (q, d) := Engine.Receive(w.q, k, ceiling, victim);
      var u := w.(q := q);
      if fault.LostReply? || d.Nothing? || d.Rejected? then u.Go(k, Waiting)
      else if d.Overflow? then u.Go(k, Overflowed)
      else u.(rounds := u.rounds + [Round(k, d.token, d.window)]).Go(k, Dispatching(|u.rounds|, 0, false))
  }

  /** Handler lookup and handler call for one message; a panic counts as a failure. */
  function DoDispatch(c: Config, w: World, k: nat, ok: bool): World {
    if !(w.At(k).Dispatching? && w.AtMessage(k)) then w
    else
      var Dispatching(r, i, failed) := w.At(k);
      var m := w.Messages(r)[i];
      var u := if c.Knows(m.kind) then w.(calls := w.calls + [Call(r, i)]) else w;
      if c.Knows(m.kind) && ok then
        u.(handled := u.handled + {Mark(r, m.id)}).Go(k, Dispatching(r, i + 1, failed))
      else if !c.Knows(m.kind) && c.policy == AckUnknown then
        u.(skipped := u.skipped + {Mark(r, m.id)}).Go(k, Dispatching(r, i + 1, failed))
      else u.Go(k, Nacking(r, i, failed))
  }

  function DoNack(w: World, k: nat, fault: Fault): (v: World)
    requires w.q.Valid()
    ensures v.q.Valid()
  {
    if !(w.At(k).Nacking? && w.AtMessage(k)) then w
    else
      var Nacking(r, i, failed) := w.At(k);
      var id := w.Messages(r)[i].id;
      var (q, ok) := if fault.Refused? then (w.q, false) else Engine.Nack(w.q, w.rounds[r].token, id);
      if ok && fault.Fine? then
        var lost := if Drops(w.q, w.rounds[r].token, id) then {id} else {};
        w.(q := q, routed := w.routed + {Mark(r, id)}, dropped := w.dropped + lost)
          .Go(k, Dispatching(r, i + 1, failed))
      else w.(q := q).Go(k, Dispatching(r, i + 1, true))
  }

  predicate AtEnd(w: World, k: nat) {
    w.At(k).Dispatching? && w.HasRound(w.At(k).round) && w.At(k).next == |w.Messages(w.At(k).round)|
  }

  /** The end of a round: no ack after a failed nack. */
  function DoAck(w: World, k: nat, fault: Fault): (v: World)
    requires w.q.Valid()
    ensures v.q.Valid()
  {
    if !AtEnd(w, k) then w
    else
      var r := w.At(k).round;
      if w.At(k).failed || fault.Refused? then w.Go(k, Waiting)
      else
        var (q, n) := Engine.Ack(w.q, w.rounds[r].token);
        w.(q := q, acks := w.acks + if n == 1 then [r] else []).Go(k, if fault.Fine? then Ready else Waiting)
  }

  function Apply(c: Fleet, w: World, a: Action): (v: World)
    requires w.q.Valid()
    ensures v.q.Valid()
  {
    match a
    case Send(kind) => w.(q := DoSend(w.q, kind))
    case Tick => w.(q := DoTick(w.q))
    case Requeue(id) => w.(q := DoRequeue(w.q, id))
    case SkipTokens(n) => w.(q := w.q.(nextBatch := w.q.nextBatch + n))
    case Receive(k, victim, fault) => DoReceive(w, k, c(k).ceiling, victim, fault)
    case Dispatch(k, ok) => DoDispatch(c(k), w, k, ok)
    case Nack(k, fault) => DoNack(w, k, fault)
    case Ack(k, fault) => DoAck(w, k, fault)
    case Wake(k) => if w.At(k) == Waiting then w.Go(k, Ready) else w
    case Cancel(k) => if w.At(k) in {Ready, Waiting} then w.Go(k, Stopped) else w
    case Crash(k) => if w.At(k) in {Stopped, Overflowed} then w else w.Go(k, Ready)
  }

  function Run(c: Fleet, w: World, acts: seq<Action>): (v: World)
    requires w.q.Valid()
    ensures v.q.Valid()
    decreases |acts|
  {
    if acts == [] then w else Run(c, Apply(c, w, acts[0]), acts[1..])
  }
}
