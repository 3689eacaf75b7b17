/** Events keep their identity: whatever happens to an event, it is the one that was sent under its id. */
module Payloads {
  import opened Options
  import opened Engine
  import opened Protocol

  function SentBy(a: Action): seq<string> {
    if a.Send? then [a.kind] else []
  }

  /** The kinds sent so far; the id of an event is its position here. */
  function Sent(acts: seq<Action>): seq<string> {
    if acts == [] then []
    else Sent(acts[..|acts| - 1]) + SentBy(acts[|acts| - 1])
  }

  predicate Genuine(e: Event, kinds: seq<string>) {
    e.id < |kinds| && e.kind == kinds[e.id]
  }

  /** Every event of the queue is one that was sent, under its own id and with its own kind. */
  ghost predicate AllGenuine(q: Queue, kinds: seq<string>) {
    && q.nextId == |kinds|
    && (forall e <- q.pending :: Genuine(e, kinds))
    && (forall k, i | 0 <= k < |q.windows| && 0 <= i < |q.windows[k]| :: Genuine(q.windows[k][i], kinds))
    && (forall id <- q.retries :: q.retries[id].id == id && Genuine(q.retries[id], kinds))
    && (forall id <- q.dead :: q.dead[id].id == id && Genuine(q.dead[id], kinds))
  }

  lemma SendIsGenuine(q: Queue, kinds: seq<string>, kind: string)
    requires q.Valid() && AllGenuine(q, kinds)
    ensures AllGenuine(DoSend(q, kind), kinds + [kind])
  {
  }

  lemma TickIsGenuine(q: Queue, kinds: seq<string>)
    requires q.Valid() && AllGenuine(q, kinds)
    ensures AllGenuine(DoTick(q), kinds)
  {
    var batch := ById(q.pending);
    forall i | 0 <= i < |batch| ensures Genuine(batch[i], kinds) {
      assert batch[i] in multiset(batch);
      assert batch[i] in q.pending;
    }
  }

  lemma RequeueIsGenuine(q: Queue, kinds: seq<string>, id: nat)
    requires q.Valid() && AllGenuine(q, kinds)
    ensures AllGenuine(DoRequeue(q, id), kinds)
  {
  }

  lemma NackIsGenuine(q: Queue, kinds: seq<string>, b: nat, id: nat)
    requires q.Valid() && AllGenuine(q, kinds)
    ensures AllGenuine(Engine.Nack(q, b, id).0, kinds)
  {
  }

  lemma OtherIsGenuine(q: Queue, r: Queue, kinds: seq<string>)
    requires AllGenuine(q, kinds) && r == q.(held := r.held, cursor := r.cursor, nextBatch := r.nextBatch)
    ensures AllGenuine(r, kinds)
  {
  }

  lemma ReceiveIsGenuine(w: World, kinds: seq<string>, k: nat, ceiling: int, victim: Option<nat>, fault: Fault)
    requires w.q.Valid() && AllGenuine(w.q, kinds)
    ensures AllGenuine(DoReceive(w, k, ceiling, victim, fault).q, kinds)
  {
    ReceiveContract(w.q, k, ceiling, victim);
    OtherIsGenuine(w.q, Engine.Receive(w.q, k, ceiling, victim).0, kinds);
  }

  lemma NackStepIsGenuine(w: World, kinds: seq<string>, k: nat, fault: Fault)
    requires w.q.Valid() && AllGenuine(w.q, kinds)
    ensures AllGenuine(DoNack(w, k, fault).q, kinds)
  {
    if w.At(k).Nacking? && w.AtMessage(k) {
      NackIsGenuine(w.q, kinds, w.rounds[w.At(k).round].token, w.Messages(w.At(k).round)[w.At(k).next].id);
    }
  }

  lemma AckStepIsGenuine(w: World, kinds: seq<string>, k: nat, fault: Fault)
    requires w.q.Valid() && AllGenuine(w.q, kinds)
    ensures AllGenuine(DoAck(w, k, fault).q, kinds)
  {
    OtherIsGenuine(w.q, DoAck(w, k, fault).q, kinds);
  }

  lemma StepIsGenuine(c: Fleet, w: World, kinds: seq<string>, a: Action)
    requires w.q.Valid() && AllGenuine(w.q, kinds)
    ensures AllGenuine(Apply(c, w, a).q, kinds + SentBy(a))
  {
    assert kinds + [] == kinds;
    match a
    case Send(kind) => SendIsGenuine(w.q, kinds, kind);
    case Tick => TickIsGenuine(w.q, kinds);
    case Requeue(id) => RequeueIsGenuine(w.q, kinds, id);
    case Receive(k, victim, fault) => ReceiveIsGenuine(w, kinds, k, c(k).ceiling, victim, fault);
    case Nack(k, fault) => NackStepIsGenuine(w, kinds, k, fault);
    case Ack(k, fault) => AckStepIsGenuine(w, kinds, k, fault);
    case _ => OtherIsGenuine(w.q, Apply(c, w, a).q, kinds);
  }

  lemma {:induction false} RunIsGenuine(c: Fleet, w: World, kinds: seq<string>, acts: seq<Action>)
    requires w.q.Valid() && AllGenuine(w.q, kinds)
    ensures AllGenuine(Run(c, w, acts).q, kinds + Sent(acts))
    decreases |acts|
  {
    if acts == [] {
      assert kinds + [] == kinds;
    } else {
      var first := SentBy(acts[0]);
      StepIsGenuine(c, w, kinds, acts[0]);
      RunIsGenuine(c, Apply(c, w, acts[0]), kinds + first, acts[1..]);
      SentFirst(acts);
      Regroup(kinds, first, Sent(acts[1..]));
    }
  }

  lemma Regroup(a: seq<string>, b: seq<string>, c: seq<string>)
    ensures a + b + c == a + (b + c)
  {
  }

  lemma {:induction false} SentFirst(acts: seq<Action>)
    requires acts != []
    ensures Sent(acts) == SentBy(acts[0]) + Sent(acts[1..])
  {
    if |acts| > 1 {
      SentFirst(acts[..|acts| - 1]);
      assert acts[..|acts| - 1][1..] == acts[1..][..|acts| - 2];
    } else {
      assert acts[..0] == [] && acts[1..] == [];
    }
  }

  /** In every run, each event in the unticked events, in a window, in the retry or the dead letter table
      has the kind that was sent under its id, and every id given out was sent. */
  lemma EventsKeepTheirKind(c: Fleet, coop: bool, maxRetries: nat, acts: seq<Action>)
    ensures AllGenuine(Run(c, Start(coop, maxRetries), acts).q, Sent(acts))
  {
    RunIsGenuine(c, Start(coop, maxRetries), [], acts);
    assert [] + Sent(acts) == Sent(acts);
  }
}
