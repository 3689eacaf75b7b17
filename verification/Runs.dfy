/** Runs of the protocol, taken apart and put together. */
module Runs {
  import opened Options
  import opened Engine
  import opened Protocol
  import opened Safety
  import opened Conservation
  import opened Guarantees
  import opened Markers

  /** The actions of everybody but worker k. */
  function Without(k: nat, acts: seq<Action>): (r: seq<Action>)
    ensures forall a <- r :: !By(k, a)
  {
    if acts == [] then []
    else (if By(k, acts[0]) then [] else [acts[0]]) + Without(k, acts[1..])
  }

  lemma {:induction false} RunOthers(c: Fleet, w: World, acts: seq<Action>, k: nat)
    requires w.q.Valid() && forall a <- acts :: !By(k, a)
    ensures Run(c, w, acts).At(k) == w.At(k)
    decreases |acts|
  {
    if acts != [] {
      assert !By(k, acts[0]);
      ApplyOthers(c, w, acts[0], k);
      RunOthers(c, Apply(c, w, acts[0]), acts[1..], k);
    }
  }

  lemma {:induction false} RunAppend(c: Fleet, w: World, a: seq<Action>, b: seq<Action>)
    requires w.q.Valid()
    ensures Run(c, w, a + b) == Run(c, Run(c, w, a), b)
    decreases |a|
  {
    if a == [] {
      assert a + b == b;
    } else {
      assert (a + b)[1..] == a[1..] + b;
      RunAppend(c, Apply(c, w, a[0]), a[1..], b);
    }
  }

  lemma RunOne(c: Fleet, w: World, a: Action)
    requires w.q.Valid()
    ensures Run(c, w, [a]) == Apply(c, w, a)
  {
    assert Run(c, Apply(c, w, a), []) == Apply(c, w, a);
  }

  /** A receive that gets a batch starts a round on it. */
  lemma BatchStarts(w: World, k: nat, ceiling: int, victim: Option<nat>)
    requires w.q.Valid() && w.At(k) == Ready && Engine.Receive(w.q, k, ceiling, victim).1.Batch?
    ensures var (q, d) := Engine.Receive(w.q, k, ceiling, victim);
      DoReceive(w, k, ceiling, victim, Fine) ==
        w.(q := q, rounds := w.rounds + [Round(k, d.token, d.window)]).Go(k, Dispatching(|w.rounds|, 0, false))
  {
  }

  /** Rounds keep their worker, token and messages. */
  ghost predicate KeepsRounds(w: World, v: World) {
    forall r: nat :: w.HasRound(r) ==> v.HasRound(r) && v.rounds[r] == w.rounds[r] && v.Messages(r) == w.Messages(r)
  }

  // ----- worlds with their history -----

  /** The world is what these actions make of an empty queue. */
  ghost predicate Ran(c: Fleet, coop: bool, maxRetries: nat, trace: seq<Action>, w: World) {
    forall x: nat {:trigger Shown(x)} :: Shown(x) ==> w == Run(c, Start(coop, maxRetries), trace)
  }

  lemma RanIsRun(c: Fleet, coop: bool, maxRetries: nat, trace: seq<Action>, w: World)
    ensures Ran(c, coop, maxRetries, trace, w) <==> w == Run(c, Start(coop, maxRetries), trace)
  {
    assert Shown(0);
  }

  lemma RanOn(c: Fleet, coop: bool, maxRetries: nat, trace: seq<Action>, w: World, acts: seq<Action>)
    requires Ran(c, coop, maxRetries, trace, w)
    ensures Inv(w) && Ran(c, coop, maxRetries, trace + acts, Run(c, w, acts)) && KeepsRounds(w, Run(c, w, acts))
  {
    var start := Start(coop, maxRetries);
    RanIsRun(c, coop, maxRetries, trace, w);
    RanIsRun(c, coop, maxRetries, trace + acts, Run(c, w, acts));
    StartIsOk(coop, maxRetries);
    RunKeeps(c, start, trace);
    RunAppend(c, start, trace, acts);
    RunKeeps(c, w, acts);
  }

  lemma RanOne(c: Fleet, coop: bool, maxRetries: nat, trace: seq<Action>, w: World, a: Action)
    requires Ran(c, coop, maxRetries, trace, w)
    ensures w.q.Valid() && Ran(c, coop, maxRetries, trace + [a], Apply(c, w, a)) && KeepsRounds(w, Apply(c, w, a))
  {
    RanOn(c, coop, maxRetries, trace, w, [a]);
    RunOne(c, w, a);
  }
}
