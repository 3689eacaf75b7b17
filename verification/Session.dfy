/** What a Python or Ruby session does on its connection, poll by poll and wait by wait. */
module Sessions {
  import opened Options
  import opened Engine
  import opened Protocol
  import opened Decisions
  import opened Transactions
  import opened Markers
  import opened Runs
  import opened Backlog

  /** How a LISTEN wait ends. */
  datatype WaitEnd = Notified | ByStop | Deadline | ConnectionLost

  /** A poll of the queue `before`, or a wait. */
  datatype Deed = Polled(before: Queue, e: Circumstances, end: Ending) | Waited(reason: WaitEnd)

  /** How a session, or a whole run, ends. StillRunning: the observation ends, the run does not. */
  datatype SessionEnd = Finished | DatabaseError | TooLarge | HandlerError | StillRunning

  /** What may come next. After a finished batch an eager session (Python) polls again at once, the
      other kind (Ruby) waits; after any other ordinary poll both wait; an error ends the session. */
  predicate Follows(eager: bool, a: Deed, b: Deed) {
    match a
    case Polled(_, _, Processed) => if eager then b.Polled? else b.Waited?
    case Polled(_, _, Idle) => b.Waited?
    case Polled(_, _, _) => false
    case Waited(Notified) => b.Polled?
    case Waited(Deadline) => b.Polled?
    case Waited(_) => false
  }

  /** How a deed ends the session, if it does. */
  function Verdict(d: Deed): SessionEnd {
    match d
    case Polled(_, _, end) => PollVerdict(end)
    case Waited(reason) => if reason.ConnectionLost? then DatabaseError else Finished
  }

  function PollVerdict(end: Ending): SessionEnd {
    match end
    case Raised => DatabaseError
    case RaisedOverflow => TooLarge
    case RaisedEscape => HandlerError
    case _ => Finished
  }

  /** A poll ended as it must; stated so that it is used only where a proof names it. */
  ghost predicate Real(c: Config, k: nat, d: Deed) {
    forall x: nat {:trigger Shown(x)} :: Shown(x) ==>
      (d.Polled? ==> d.before.Valid() && d.end == Poll(c, d.before, k, d.e).1)
  }

  lemma RealIs(c: Config, k: nat, d: Deed)
    ensures Real(c, k, d) <==> (d.Polled? ==> d.before.Valid() && d.end == Poll(c, d.before, k, d.e).1)
  {
    assert Shown(0);
  }

  /** The deeds of one session. */
  ghost predicate Session(eager: bool, c: Config, k: nat, deeds: seq<Deed>) {
    deeds != [] ==>
      var n := |deeds| - 1;
      && Real(c, k, deeds[n])
      && Session(eager, c, k, deeds[..n])
      && if n == 0 then deeds[0].Polled? else Follows(eager, deeds[n - 1], deeds[n])
  }

  /** The next thing a session does is a poll. */
  predicate MayPoll(eager: bool, deeds: seq<Deed>) {
    deeds == [] ||
      match deeds[|deeds| - 1]
      case Polled(_, _, end) => eager && end.Processed?
      case Waited(reason) => reason.Notified? || reason.Deadline?
  }

  /** A session up to now: how its last deed ends it, and that it may poll again if it does not and no
      stop fired. */
  ghost predicate Standing(eager: bool, c: Config, k: nat, deeds: seq<Deed>, end: SessionEnd, running: bool) {
    && Session(eager, c, k, deeds) && deeds != [] && end == Verdict(deeds[|deeds| - 1])
    && (end.Finished? && running ==> MayPoll(eager, deeds))
  }

  lemma PollReached(eager: bool, c: Config, k: nat, deeds: seq<Deed>, d: Deed)
    requires Session(eager, c, k, deeds) && MayPoll(eager, deeds) && d.Polled? && Real(c, k, d)
    ensures Session(eager, c, k, deeds + [d])
    ensures !PollVerdict(d.end).Finished? || (eager && d.end.Processed?) ==>
      Standing(eager, c, k, deeds + [d], PollVerdict(d.end), true)
    ensures Standing(eager, c, k, deeds + [d], PollVerdict(d.end), false)
  {
    SessionOn(eager, c, k, deeds, d);
  }

  /** After a poll that ended without an error, unless an eager session goes on at once. */
  lemma WaitReached(eager: bool, c: Config, k: nat, deeds: seq<Deed>, reason: WaitEnd, running: bool)
    requires Session(eager, c, k, deeds) && deeds != [] && deeds[|deeds| - 1].Polled?
    requires PollVerdict(deeds[|deeds| - 1].end).Finished? && !(eager && deeds[|deeds| - 1].end.Processed?)
    requires running && !reason.ConnectionLost? ==> reason.Notified? || reason.Deadline?
    ensures Standing(eager, c, k, deeds + [Waited(reason)],
                    if reason.ConnectionLost? then DatabaseError else Finished, running)
  {
    WaitIsReal(c, k, reason);
    SessionOn(eager, c, k, deeds, Waited(reason));
  }

  lemma SessionOn(eager: bool, c: Config, k: nat, deeds: seq<Deed>, d: Deed)
    requires Session(eager, c, k, deeds) && Real(c, k, d)
    requires if deeds == [] then d.Polled? else Follows(eager, deeds[|deeds| - 1], d)
    ensures Session(eager, c, k, deeds + [d])
  {
    assert (deeds + [d])[..|deeds|] == deeds;
  }

  lemma WaitIsReal(c: Config, k: nat, reason: WaitEnd)
    ensures Real(c, k, Waited(reason))
  {
  }

  /** The session ended this way because of its last deed: an error of that deed, or the stop, or only
      the end of the observation. */
  predicate EndsAs(deeds: seq<Deed>, end: SessionEnd) {
    if deeds == [] then end in {Finished, StillRunning}
    else
      var v := Verdict(deeds[|deeds| - 1]);
      if v.Finished? then end in {Finished, StillRunning} else end == v
  }

  /** One attempt at a connection: the step and the time at which it starts and the time at which it is
      over, whether connection and LISTEN succeeded, and what was done on it. */
  datatype Visit = Visit(at: nat, from: nat, until: nat, connected: bool, deeds: seq<Deed>, end: SessionEnd)

  /** A visit that did not open is a database error at once; one that did is a session, ended by its
      last deed. Stated so that it is used only where a proof names it. */
  ghost predicate IsVisit(eager: bool, c: Config, k: nat, v: Visit) {
    forall x: nat {:trigger Shown(x)} :: Shown(x) ==>
      && v.from <= v.until
      && if v.connected then Session(eager, c, k, v.deeds) && EndsAs(v.deeds, v.end)
         else v.deeds == [] && v.end.DatabaseError?
  }

  lemma VisitIs(eager: bool, c: Config, k: nat, v: Visit)
    ensures IsVisit(eager, c, k, v) <==>
      && v.from <= v.until
      && if v.connected then Session(eager, c, k, v.deeds) && EndsAs(v.deeds, v.end)
         else v.deeds == [] && v.end.DatabaseError?
  {
    assert Shown(0);
  }

  // ----- the steps of a session -----

  function Polls(deeds: seq<Deed>): nat {
    if deeds == [] then 0
    else Polls(deeds[..|deeds| - 1]) + if deeds[|deeds| - 1].Polled? then 1 else 0
  }

  /** The most steps these deeds can take: for a poll the poll itself and the looks at the stop flag
      before and after it, for a wait its own looks. */
  function Steps(looks: nat, deeds: seq<Deed>): nat {
    if deeds == [] then 0
    else Steps(looks, deeds[..|deeds| - 1]) + if deeds[|deeds| - 1].Polled? then 3 else looks
  }

  lemma {:induction false} PollsJoin(a: seq<Deed>, b: seq<Deed>)
    ensures Polls(a + b) == Polls(a) + Polls(b)
  {
    if b == [] {
      assert a + b == a;
    } else {
      assert (a + b)[..|a + b| - 1] == a + b[..|b| - 1];
      PollsJoin(a, b[..|b| - 1]);
    }
  }

  lemma {:induction false} StepsJoin(looks: nat, a: seq<Deed>, b: seq<Deed>)
    ensures Steps(looks, a + b) == Steps(looks, a) + Steps(looks, b)
  {
    if b == [] {
      assert a + b == a;
    } else {
      assert (a + b)[..|a + b| - 1] == a + b[..|b| - 1];
      StepsJoin(looks, a, b[..|b| - 1]);
    }
  }

  /** How far a worker is: the steps taken, what it has done, how many receives. */
  datatype Tally = Tally(tick: nat, deeds: seq<Deed>, receives: nat)

  /** From one tally to the other it did these deeds, with a receive for each poll, and took no more
      steps than they need and a few on top. Stated so that it is used only where a proof names it. */
  ghost predicate Did(a: Tally, b: Tally, looks: nat, deeds: seq<Deed>, extra: int) {
    forall x: nat {:trigger Shown(x)} :: Shown(x) ==>
      && b.deeds == a.deeds + deeds && b.receives == a.receives + Polls(deeds)
      && a.tick <= b.tick <= a.tick + Steps(looks, deeds) + extra
  }

  lemma DidIs(a: Tally, b: Tally, looks: nat, deeds: seq<Deed>, extra: int)
    ensures Did(a, b, looks, deeds, extra) <==>
      && b.deeds == a.deeds + deeds && b.receives == a.receives + Polls(deeds)
      && a.tick <= b.tick <= a.tick + Steps(looks, deeds) + extra
  {
    assert Shown(0);
  }

  lemma DidNothing(a: Tally, looks: nat)
    ensures Did(a, a, looks, [], 0)
  {
  }

  lemma DidOne(a: Tally, b: Tally, looks: nat, d: Deed, extra: int)
    requires b.deeds == a.deeds + [d] && b.receives == a.receives + if d.Polled? then 1 else 0
    requires a.tick <= b.tick <= a.tick + (if d.Polled? then 3 else looks) + extra
    ensures Did(a, b, looks, [d], extra)
  {
    assert [d][..0] == [];
    assert Polls([d]) == if d.Polled? then 1 else 0;
    assert Steps(looks, [d]) == if d.Polled? then 3 else looks;
    DidIs(a, b, looks, [d], extra);
  }

  /** Looks at the stop flag are steps without a deed. */
  lemma DidLook(a: Tally, b: Tally, c: Tally, looks: nat, deeds: seq<Deed>, extra: int, more: nat)
    requires Did(a, b, looks, deeds, extra)
    requires c.deeds == b.deeds && c.receives == b.receives && b.tick <= c.tick <= b.tick + more
    ensures Did(a, c, looks, deeds, extra + more)
  {
    assert Shown(0);
  }

  lemma DidBoth(a: Tally, b: Tally, c: Tally, looks: nat, first: seq<Deed>, second: seq<Deed>, e: int, f: int)
    requires Did(a, b, looks, first, e) && Did(b, c, looks, second, f)
    ensures Did(a, c, looks, first + second, e + f)
  {
    DidIs(a, b, looks, first, e);
    DidIs(b, c, looks, second, f);
    PollsJoin(first, second);
    StepsJoin(looks, first, second);
    assert a.deeds + (first + second) == a.deeds + first + second;
    DidIs(a, c, looks, first + second, e + f);
  }

  /** A session cannot go on without polling: a wait follows a poll, so its steps are few for each poll. */
  lemma {:induction false} StepsPerPoll(eager: bool, c: Config, k: nat, deeds: seq<Deed>, looks: nat)
    requires Session(eager, c, k, deeds)
    ensures Steps(looks, deeds) <= (3 + looks) * Polls(deeds)
    ensures deeds != [] && deeds[|deeds| - 1].Polled? ==> Steps(looks, deeds) + looks <= (3 + looks) * Polls(deeds)
  {
    if deeds != [] {
      var n := |deeds| - 1;
      StepsPerPoll(eager, c, k, deeds[..n], looks);
      var before := Polls(deeds[..n]);
      assert (3 + looks) * (before + 1) == (3 + looks) * before + 3 + looks;
    }
  }

  lemma BusyVisit(eager: bool, c: Config, k: nat, a: Tally, b: Tally, looks: nat, v: Visit)
    requires IsVisit(eager, c, k, v) && Did(a, b, looks, v.deeds, 1)
    ensures b.deeds == a.deeds + v.deeds && b.receives == a.receives + Polls(v.deeds)
    ensures b.tick <= a.tick + 1 + (3 + looks) * (b.receives - a.receives)
  {
    DidIs(a, b, looks, v.deeds, 1);
    VisitIs(eager, c, k, v);
    if v.connected {
      StepsPerPoll(eager, c, k, v.deeds, looks);
    }
  }

  lemma {:induction false} SessionAt(eager: bool, c: Config, k: nat, deeds: seq<Deed>, i: nat)
    requires Session(eager, c, k, deeds) && i < |deeds|
    ensures Real(c, k, deeds[i])
    ensures if i == 0 then deeds[0].Polled? else Follows(eager, deeds[i - 1], deeds[i])
    decreases |deeds|
  {
    if i < |deeds| - 1 {
      SessionAt(eager, c, k, deeds[..|deeds| - 1], i);
    }
  }

  // ----- what ends what, read off the deeds -----

  /** A poll that ended with the overflow error. */
  predicate Overflows(d: Deed) {
    d.Polled? && d.end == RaisedOverflow
  }

  /** A poll that ended with an error that a handler let through. */
  predicate LetsOut(d: Deed) {
    d.Polled? && d.end == RaisedEscape
  }

  /** A poll that ended with a database error, or a wait under which the connection broke. */
  predicate Breaks(d: Deed) {
    d == Waited(ConnectionLost) || (d.Polled? && d.end == Raised)
  }

  /** An overflow, an escaping error or a database error is the last thing a session does. */
  lemma ErrorsComeLast(eager: bool, c: Config, k: nat, deeds: seq<Deed>, i: nat)
    requires Session(eager, c, k, deeds) && i < |deeds|
    requires Overflows(deeds[i]) || LetsOut(deeds[i]) || Breaks(deeds[i])
    ensures i == |deeds| - 1
  {
    if i < |deeds| - 1 {
      SessionAt(eager, c, k, deeds, i + 1);
    }
  }

  /** These deeds, and how it ended: an overflow is the last deed and ends it as TooLarge, and nothing else
      does; and the same of an escaping error and HandlerError. */
  ghost predicate EndedByItsDeeds(deeds: seq<Deed>, end: SessionEnd) {
    && (forall i | 0 <= i < |deeds| && Overflows(deeds[i]) :: i == |deeds| - 1 && end == TooLarge)
    && (end == TooLarge ==> deeds != [] && Overflows(deeds[|deeds| - 1]))
    && (forall i | 0 <= i < |deeds| && LetsOut(deeds[i]) :: i == |deeds| - 1 && end == HandlerError)
    && (end == HandlerError ==> deeds != [] && LetsOut(deeds[|deeds| - 1]))
  }

  /** How a visit ended, read off what it did. */
  lemma VisitEnds(eager: bool, c: Config, k: nat, v: Visit)
    requires IsVisit(eager, c, k, v)
    ensures EndedByItsDeeds(v.deeds, v.end)
    ensures v.end == DatabaseError <==> !v.connected || (v.deeds != [] && Breaks(v.deeds[|v.deeds| - 1]))
    ensures forall i | 0 <= i < |v.deeds| && Breaks(v.deeds[i]) :: i == |v.deeds| - 1
  {
    VisitIs(eager, c, k, v);
    forall i | 0 <= i < |v.deeds| && (Overflows(v.deeds[i]) || LetsOut(v.deeds[i]) || Breaks(v.deeds[i]))
      ensures i == |v.deeds| - 1
    {
      ErrorsComeLast(eager, c, k, v.deeds, i);
    }
  }

  /** The poll met this overflow, read off the queue it found. */
  ghost predicate MeetsOverflow(c: Config, k: nat, d: Deed) {
    d.Polled? && d.before.Valid() && d.e.receive.Runs? && ExceedsCeiling(d.before, k, c.ceiling, d.e.victim)
  }

  /** The receive of the poll failed, or was rejected. */
  predicate MeetsFailure(c: Config, d: Deed) {
    d.Polled? && (!d.e.receive.Runs? || c.ceiling < 1)
  }

  lemma DeedMeets(c: Config, k: nat, d: Deed)
    requires Real(c, k, d)
    ensures MeetsFailure(c, d) ==> Breaks(d)
    ensures d.Polled? ==> (Overflows(d) <==> MeetsOverflow(c, k, d))
  {
    RealIs(c, k, d);
    if d.Polled? {
      OverflowEndsThePoll(c, d.before, k, d.e);
      if MeetsFailure(c, d) {
        FailedReceiveEndsThePoll(c, d.before, k, d.e);
      }
    }
  }

  /** A window that is too large ends the visit for good; a failed receive ends it with a database error. */
  lemma VisitMeets(eager: bool, c: Config, k: nat, v: Visit, i: nat)
    requires IsVisit(eager, c, k, v) && i < |v.deeds|
    ensures MeetsOverflow(c, k, v.deeds[i]) ==> i == |v.deeds| - 1 && Overflows(v.deeds[i]) && v.end == TooLarge
    ensures MeetsFailure(c, v.deeds[i]) ==> i == |v.deeds| - 1 && Breaks(v.deeds[i]) && v.end == DatabaseError
  {
    VisitIs(eager, c, k, v);
    VisitEnds(eager, c, k, v);
    SessionAt(eager, c, k, v.deeds, i);
    DeedMeets(c, k, v.deeds[i]);
  }

  /** A Ruby session waits between any two polls. */
  lemma LazySessionWaits(c: Config, k: nat, deeds: seq<Deed>, i: nat)
    requires Session(false, c, k, deeds) && i + 1 < |deeds|
    ensures !(deeds[i].Polled? && deeds[i + 1].Polled?)
  {
    SessionAt(false, c, k, deeds, i + 1);
  }

  // ----- draining -----

  /** Nobody touches the queue between two polls in a row. */
  ghost predicate Undisturbed(c: Config, k: nat, deeds: seq<Deed>) {
    forall i, j | 0 <= i && j == i + 1 && j < |deeds| && deeds[i].Polled? && deeds[j].Polled? ::
      deeds[i].before.Valid() && deeds[j].before == Poll(c, deeds[i].before, k, deeds[i].e).0
  }

  ghost predicate AllCalm(deeds: seq<Deed>) {
    forall d <- deeds :: d.Polled? ==> Calm(d.e)
  }

  /** As long as it polls, the i-th deed of a session goes through the i-th window that was left. */
  lemma {:induction false} PollsInARow(eager: bool, c: Config, k: nat, deeds: seq<Deed>, i: nat)
    requires Session(eager, c, k, deeds) && Undisturbed(c, k, deeds) && AllCalm(deeds) && i < |deeds|
    requires deeds[0].Polled? && Admits(c, deeds[0].before, k)
    requires forall j | 0 <= j <= i :: deeds[j].Polled?
    ensures var q := deeds[0].before; var left := Left(q, k);
      && Admits(c, deeds[i].before, k)
      && Left(deeds[i].before, k) == (if i <= |left| then left[i..] else [])
      && deeds[i].end == if i < |left| && left[i] != [] then Processed else Idle
  {
    var left := Left(deeds[0].before, k);
    if i > 0 {
      PollsInARow(eager, c, k, deeds, i - 1);
      var d := deeds[i - 1];
      assert d in deeds;
      CalmPoll(c, d.before, k, d.e);
      assert deeds[i].before == Poll(c, d.before, k, d.e).0;
    } else {
      assert left[0..] == left;
    }
    SessionAt(eager, c, k, deeds, i);
    RealIs(c, k, deeds[i]);
    assert deeds[i] in deeds;
    CalmPoll(c, deeds[i].before, k, deeds[i].e);
  }

  /** The windows that are left when the session starts. */
  ghost predicate Starts(c: Config, k: nat, deeds: seq<Deed>, left: seq<seq<Event>>) {
    && Session(true, c, k, deeds) && Undisturbed(c, k, deeds) && AllCalm(deeds)
    && deeds != [] && deeds[0].Polled? && Admits(c, deeds[0].before, k) && left == Left(deeds[0].before, k)
  }

  /** While it polls, the next deed is a poll too exactly when the window just gone through has events. */
  lemma PollsOn(c: Config, k: nat, deeds: seq<Deed>, left: seq<seq<Event>>, n: nat)
    requires Starts(c, k, deeds, left) && n + 1 < |deeds| && forall i | 0 <= i <= n :: deeds[i].Polled?
    ensures deeds[n + 1].Polled? <==> n < |left| && left[n] != []
  {
    PollsInARow(true, c, k, deeds, n);
    SessionAt(true, c, k, deeds, n + 1);
  }

  lemma {:induction false} AllPolled(c: Config, k: nat, deeds: seq<Deed>, left: seq<seq<Event>>, n: nat)
    requires Starts(c, k, deeds, left) && n < |deeds| && n <= |left| && forall i | 0 <= i < n :: left[i] != []
    ensures forall i | 0 <= i <= n :: deeds[i].Polled?
  {
    if n > 0 {
      AllPolled(c, k, deeds, left, n - 1);
      PollsOn(c, k, deeds, left, n - 1);
    }
  }

  /** A Python session drains a backlog of N windows by N polls without a wait, and waits after the next
      poll, if and only if no window of the backlog is empty. */
  lemma SessionDrainsInARow(c: Config, k: nat, deeds: seq<Deed>, left: seq<seq<Event>>)
    requires Starts(c, k, deeds, left) && |deeds| > |left|
    ensures (forall i | 0 <= i <= |left| :: deeds[i].Polled?) <==> (forall w <- left :: w != [])
    ensures (forall w <- left :: w != []) && |deeds| > |left| + 1 ==> deeds[|left| + 1].Waited?
  {
    if forall w <- left :: w != [] {
      forall i | 0 <= i < |left| ensures left[i] != [] {
        assert left[i] in left;
      }
      AllPolled(c, k, deeds, left, |left|);
      if |deeds| > |left| + 1 {
        PollsOn(c, k, deeds, left, |left|);
      }
    } else {
      var j :| 0 <= j < |left| && left[j] == [];
      if forall i | 0 <= i <= j :: deeds[i].Polled? {
        PollsOn(c, k, deeds, left, j);
      }
    }
  }

  lemma {:induction false} PollsAreDeeds(deeds: seq<Deed>)
    ensures Polls(deeds) <= |deeds|
  {
    if deeds != [] {
      PollsAreDeeds(deeds[..|deeds| - 1]);
    }
  }

  lemma ManyPolls(c: Config, k: nat, deeds: seq<Deed>, looks: nat, steps: nat, n: nat)
    requires Session(true, c, k, deeds) && steps <= 1 + Steps(looks, deeds) && steps > 1 + n * (3 + looks)
    ensures Polls(deeds) > n && |deeds| > n
  {
    StepsPerPoll(true, c, k, deeds, looks);
    PollsAreDeeds(deeds);
    if Polls(deeds) <= n {
      Monotone(Polls(deeds), n, 3 + looks);
    }
  }

  /** Such a session has the polls for that whenever it went on long enough: so many steps that each
      window of the backlog could have taken the most steps a poll and a wait can need. */
  lemma LongSessionDrains(c: Config, k: nat, deeds: seq<Deed>, left: seq<seq<Event>>, looks: nat, steps: nat)
    requires Starts(c, k, deeds, left) && steps <= 1 + Steps(looks, deeds) && steps > 1 + |left| * (3 + looks)
    ensures Polls(deeds) > |left| && |deeds| > |left|
    ensures (forall i | 0 <= i <= |left| :: deeds[i].Polled?) <==> (forall w <- left :: w != [])
  {
    ManyPolls(c, k, deeds, looks, steps, |left|);
    SessionDrainsInARow(c, k, deeds, left);
  }
}
