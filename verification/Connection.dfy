/** A database connection with at most one transaction block, as the Python and Ruby loops use it. */
module Connections {
  import opened Options
  import opened Engine
  import opened Protocol
  import opened Decisions
  import opened Transactions

  class Connection {
    var committed: Queue
    var tx: Tx
    ghost var ops: seq<Op>

    constructor (q: Queue)
      requires q.Valid()
      ensures Valid() && committed == q && ops == []
    {
      committed, tx, ops := q, Tx(q, false), [];
    }

    ghost predicate Valid()
      reads this
    {
      committed.Valid() && tx.staged.Valid()
    }

    method Begin()
      requires Valid()
      modifies `tx
      ensures Valid() && tx == Tx(committed, false)
    {
      tx := Tx(committed, false);
    }

    /** A receive that raises, for whatever reason, aborts the transaction; only the one that overflows
        has drawn a batch id. */
    method Receive(k: nat, ceiling: int, victim: Option<nat>, fate: Fate) returns (r: Received)
      requires Valid() && tx == Tx(committed, false)
      modifies `tx, `ops
      ensures Valid() && committed.nextBatch <= tx.staged.nextBatch && ops == old(ops) + [Deliver(r)]
      ensures Opens(committed, k, ceiling, victim, fate, tx, r)
      ensures (tx.aborted <==> !r.Got?) && (!r.Got? ==> tx.staged == committed.(nextBatch := tx.staged.nextBatch))
    {
      var (q, d) := Engine.Receive(committed, k, ceiling, victim);
      ReceiveContract(committed, k, ceiling, victim);
      if !fate.Runs? || d.Rejected? {
        tx := tx.(aborted := true);
        r := Failed;
      } else {
        tx := Tx(q, d.Overflow?);
        match d
        case Overflow => r := TooBig;
        case Batch(b, _, events) => r := Got(Stamped(b, events));
        case Nothing => r := Got([]);
      }
      OpensIs(committed, k, ceiling, victim, fate, tx, r);
      ops := ops + [Deliver(r)];
    }

    /** The flag is false when the call raises. */
    method Nack(b: nat, m: Msg, fate: Fate, ghost position: nat) returns (ok: bool)
      requires tx.staged.Valid()
      modifies `tx, `ops
      ensures (tx, ok) == TxNack(old(tx), b, m.id, fate)
      ensures ops == old(ops) + [TryNack(position, ok)]
    {
      var (t, flag) := TxNack(tx, b, m.id, fate);
      tx, ok := t, flag;
      ops := ops + [TryNack(position, ok)];
    }

    method Run(position: nat)
      modifies `ops
      ensures ops == old(ops) + [CallHandler(position)]
    {
      ops := ops + [CallHandler(position)];
    }

    /** The row count, or None when the call raises. */
    method Ack(b: nat, fate: Fate) returns (n: Option<nat>)
      requires Valid()
      modifies `tx, `ops
      ensures Valid() && ops == old(ops) + [TryAck(n.Some?)]
      ensures n.None? <==> old(tx).aborted || !fate.Runs?
      ensures if n.None? then tx == old(tx).(aborted := true)
              else !tx.aborted && (tx.staged, n.value) == Engine.Ack(old(tx).staged, b)
    {
      if tx.aborted || !fate.Runs? {
        tx, n := tx.(aborted := true), None;
      } else {
        var (q, count) := Engine.Ack(tx.staged, b);
        tx, n := Tx(q, false), Some(count);
      }
      ops := ops + [TryAck(n.Some?)];
    }

    /** Leaving the block normally. The staged queue is published as a whole, or nothing of it is but the
        drawn batch id: nothing when the transaction was aborted, although the commit then raises no
        error, or when the commit broke. False when the COMMIT raises. */
    method Commit(fate: CommitFate) returns (ok: bool)
      requires Valid() && committed.nextBatch <= tx.staged.nextBatch
      modifies `committed
      ensures Valid() && ok == fate.Answered?
      ensures !tx.aborted && !fate.Broken? ==> committed == tx.staged
      ensures tx.aborted || fate.Broken? ==> committed == old(committed).(nextBatch := tx.staged.nextBatch)
    {
      BurnKeepsWork(committed, tx.staged.nextBatch);
      committed := Transactions.Commit(committed, tx, fate);
      ok := fate.Answered?;
    }

    /** Leaving the block by an exception: nothing is published but the drawn batch id. */
    method Rollback()
      requires Valid() && committed.nextBatch <= tx.staged.nextBatch
      modifies `committed
      ensures Valid() && committed == old(committed).(nextBatch := tx.staged.nextBatch)
    {
      BurnKeepsWork(committed, tx.staged.nextBatch);
      committed := Transactions.Rollback(committed, tx.staged);
    }
  }
}
