# Verified model of PgQue's consumers

PgQue hands each consumer group the events between two ticks of a queue as one batch. A client
receives a batch, runs a handler per message, nacks what failed, and acks the batch only when every
nack it needed succeeded; otherwise the batch comes back. This loop exists in Go, TypeScript, Python
and Ruby, and it carries the project's promise: at-least-once delivery, nothing lost silently. The
project here models the engine as one consumer group sees it, the four loops on top of it, and four
smaller pieces of the clients and the benchmark tooling, and proves what they are for.

Check it with `dafny verify dfyconfig.toml`.

## How it is built

- `Engine.dfy` is the queue of one group: tick windows, the cursor, the live batch tokens (one per
  normal consumer, one per cooperative member), the retry and dead letter tables; ack, nack, receive,
  takeover, as in `sql/pgque.sql`.
- `Protocol.dfy` interleaves any number of Go and TypeScript loops on that queue, call by call, with
  an environment that sends, ticks, requeues, refuses calls, loses replies after the effect, steals
  batches and kills workers. `Safety.dfy` and `Conservation.dfy` hold the invariants of a step,
  `Guarantees.dfy`, `Order.dfy` and `RetryBudget.dfy` what follows for every run.
- `Payload.dfy` follows the kind of every event. `Duplicates.dfy` says when a nack can drop an event (see below) and when none can; `Loss.dfy` is the run
  that loses one. `FleetLoss.dfy` says the same of transactional and of mixed fleets.
- `Decisions.dfy` holds the decisions every client makes: what is done for each message, when the batch is
  acked, when the loop waits. All four loops are proved to carry out exactly this plan, with the replies
  they got.
- `Backend.dfy` is the only access the Go and TypeScript loops (`GoConsumer.dfy`,
  `TypeScriptConsumer.dfy`) have to the world. Each of its methods is one protocol step, allowed only
  where the protocol allows it and recorded with its reply, so verifying a loop against it shows that
  every call of the loop is a step of the protocol, and everything proved of the protocol holds of the
  loop. Nothing else takes a step there, so a loop cannot let the time until its cancellation pass
  without making its calls. `Undisturbed.dfy` shows that a pass nobody disturbs has the effect of a poll.
- `Transactions.dfy` gives the meaning of one Python or Ruby poll, which is a single database
  transaction; `Connection.dfy`, `PythonConsumer.dfy` and `RubyConsumer.dfy` are the loops, proved to
  compute it; `Simulation.dfy` maps every run of such pollers to a run of the protocol, so the
  guarantees carry over, and `Mixed.dfy` does so for fleets of both kinds, also when siblings nack and
  ack in the middle of a poll.
- `Session.dfy` says what a session may do, poll by poll and wait by wait, and how many steps that may take; `PythonSession.dfy` and
  `RubyConsumers.Consumer.Start` are the outer loops (connections, waits, stop, signals) on the
  environment of `Host.dfy`. `Backlog.dfy` is the drain of a backlog.
- `Runs.dfy` takes runs apart and puts them together. Some facts there and elsewhere are stated under
  the marker `Shown`, which is always true: the verifier then uses them only in the few proofs that
  name the marker.
- `ArrayLiteral.dfy`, `ErrorTree.dfy`, `OverflowText.dfy`, `Accounting.dfy` and `Labels.dfy` are the
  Ruby array literal, the Go error trees, the overflow classifier of all clients, the benchmark's
  accounting and the charts' label placement.

The environment is quantified over: handler results, faults, the moments of stops, elapsed times,
which stale sibling (if any) a cooperative receive steals from, and what other workers do in between.

## What came out

- An event can be lost. A nack inserts its retry row for every copy of the event in the batch
  (`sql/pgque.sql:2371-2387`), and a unique violation on the key of the retry table (`sql/pgque.sql:237`)
  undoes the insert and is swallowed, while the nack answers success. So when a batch holds an event twice
  and the table has no row for it, the nack stores nothing, and the ack after it ends the event's last
  trace. A batch comes to hold an event twice when the event is nacked, the round is not acked, the event
  is requeued, the round comes back, the event is nacked again and requeued again before the next tick.
  `Losses.EventIsLost` is that run, for Go and TypeScript loops, and `FleetLosses.PollsLoseAnEvent` for
  Python and Ruby polls. Conservation therefore holds in every run exactly when the queue's retry limit is
  at most one (`Losses.ConservationHoldsExactly`, `FleetLosses.PollersConserveExactly`,
  `FleetLosses.MixedFleetsConserveExactly`); the default limit is 5 (`sql/pgque.sql:5418`). Under any limit
  it holds in the runs in which no event is requeued while it is among the events of the next tick
  (`Duplicates.GuardedRunsLoseNothing`), and in every run for each event that no such nack dropped
  (`Guarantees.EveryEventIsAccountedFor`).
- An empty tick window in a backlog reads as an empty queue. All four loops then wait although more
  windows are ready, so a worker that is alone in its group drains a backlog of N windows in a row exactly
  when none of them is empty (`Sessions.SessionDrainsInARow` for Python, `UndisturbedPasses.LoopDrainsInARow`
  for Go and TypeScript); the comment at `clients/python/pgque/consumer.py:212-217` promises it for every
  backlog. `Backlog.EmptyWindowStopsTheDrain` is the smallest case that fails.
- The Ruby loop waits between any two polls, also after a batch it finished
  (`Sessions.LazySessionWaits`); the other three go on at once.
- A stop that fires before `start` sets its flag is lost: `start` overwrites it (`clients/python/pgque/consumer.py:135`,
  `clients/ruby/lib/pgque/consumer.rb:68`), and without another stop the run never ends by one
  (`PythonSessions.Runner.StopThenStart`, `RubyConsumers.Consumer.StopThenStart`). A stop that fires after
  that is followed by at most one receive.
- Inside a Python or Ruby poll the ack can never be stale, because the receive of the same transaction
  holds the row lock (`Transactions.AckInPollIsNeverStale`); the warning branches at
  `clients/python/pgque/consumer.py:393-398` and `clients/ruby/lib/pgque/consumer.rb:159-163` are unreachable. In Go and TypeScript they are
  reachable, and a stale ack is harmless (`Guarantees.StaleWorkerTouchesNothing`).
- Batch ids are never 0, so the test at `clients/go/consumer.go:189` never skips an ack or a wait.
- The parity rule holds between clients with equal handler tables, except for the `"*"` handler that only
  Python and Ruby have: it makes no difference exactly when the batch has no kind outside the table
  (`Decisions.CatchAllParity`).
- One nack that fails on the server undoes every nack of its poll, including those that had succeeded
  (`Transactions.SqlErrorUndoesEverything`).
- `wrapReceiveError` looks for an overflow before it looks for a cancellation, so a cancellation never
  hides an overflow (`ErrorTrees.OverflowMeaning`).
- An error of the server can be taken for another one. `clients/go/errors.go:212-230` looks for a missing
  queue first, anywhere in the message, and the server quotes names in its messages, so a missing
  subscription (`sql/pgque.sql:5768`) is reported as a missing queue exactly when the queue's or the
  consumer's name holds one of the queue texts (`ErrorTrees.SubscriberText`). A missing queue and a missing
  batch are always reported as such (`ErrorTrees.ServerTextsMatch`).
- The clients recognise the same overflows but for one kind of error: when it has no primary message,
  Python reads the whole text instead (`OverflowTexts.ClientsDiffer`).
- For a log without notices the header of `benchmark/tooling/parse_events_consumed.py:20-21` promises a
  single row with total 0; the code writes no row (`Accounting.WriteCsv`).
- The label pass says it drops labels that are pushed out of the frame. Pushing only ever lowers a label;
  one dropped above the peak was above it from the start (`Labels.PlaceInlineLabels`).

## Model

| member | source | states |
|---|---|---|
| Engine.AckContract | sql/pgque.sql:5884-5934 | an ack counts 1 exactly for a live token and then finishes that token's window alone; afterwards a second ack counts 0 and a nack raises; a stale ack changes nothing |
| Engine.FinishEndsOneWindow | sql/pgque.sql:5884-5934 | finishing a batch finishes its own window and no other |
| Engine.Nack | sql/pgque.sql:5407-5457 | it succeeds exactly for a message of a live batch; then the event is in the retry or dead letter table, unless the nack drops it: its retries are not used up, it has no retry row and its window holds it more than once; both tables only grow, and neither cursor nor batches move; a failed nack changes nothing |
| Engine.NackRoutes | sql/pgque.sql:5407-5457 | the event goes to the dead letter table when its retries are used up, else to the retry table with one more counted, and nowhere when the nack drops it; a row that is there already is kept |
| Engine.NackStores | sql/pgque.sql:2371-2391 | after a nack that is answered with success the event is in a table if and only if the nack did not drop it or it was a dead letter already |
| Engine.TakeoverKeepsWork | sql/pgque.sql:6253-6285 | a takeover loses no window and adds none, and keeps one owner per window |
| Engine.GrantKeepsWork | sql/pgque.sql:5657-5882 | allocating the next window leaves every window with events unfinished |
| Engine.ClaimKeepsWork | sql/pgque.sql:6170-6390 | whichever way a batch is claimed, work is neither gained nor lost and no live token changes meaning |
| Engine.ReceiveContract | sql/pgque.sql:5342-5387 | a delivered batch is the whole window of a live token of the caller, nonempty and within the ceiling; an overflow or rejection leaves the queue as it was but for a drawn batch id |
| Engine.ReceiveAnswers | sql/pgque.sql:5342-5387 | read off the queue alone: a receive is rejected exactly for a ceiling below 1, overflows exactly when the window that falls to the caller (its own batch, else the stale sibling's, else the one at the cursor) has more events than the ceiling, gives nothing exactly when there is no such window or it is empty, and else gives that whole window |
| Engine.ReceiveLeaves | sql/pgque.sql:5366-5371 | a rejected receive changes nothing, an overflowing one draws a batch id unless the batch is the caller's own, and a batch is the caller's own, unchanged, or comes under a fresh token |
| Engine.UnackedBatchReturns | clients/go/pgque.go:181-183 | receiving again without an ack returns the same batch under the same token and changes nothing |
| Engine.TakeoverFencesTheVictim | clients/python/pgque/client.py:440-443 | a takeover delivers the victim's window under a fresh token; with the old token every ack returns 0 and every nack fails, both without effect |
| Safety.ApplyGrows | clients/go/consumer.go:108-218 | no step takes back a finished window, a round, a handled, skipped or routed message, or revives a token |
| Safety.FinishOk | clients/go/consumer.go:189-217 | an ack that finishes a window comes from a round that settled all of its messages, and is the only one for that window |
| Safety.ApplyOk | clients/go/consumer.go:108-218 | every step of every worker and of the environment keeps the invariant of rounds, phases and acks |
| Conservation.NackConserves | sql/pgque.sql:5407-5457 | a nack, answered or with its reply lost, keeps every event accounted for, or drops it |
| Conservation.FinishSafe | clients/go/consumer.go:189-217 | finishing a window loses none of its events: each was served, is in a table or later window, or was dropped by a nack |
| Conservation.EnvironmentConserves | sql/pgque.sql:826-869 | sends, ticks and the return of due retries keep every event accounted for |
| Conservation.ApplyInv | clients/go/consumer.go:108-218 | conservation, up to events that a nack dropped, is kept by every step |
| Guarantees.NoSilentLoss | clients/go/consumer.go:99-107 | in every run, a finished window was finished by exactly one ack, and that very round handled, skipped (ack-unknown) or routed each of its messages |
| Guarantees.EveryEventIsAccountedFor | clients/go/pgque.go:181-183 | in every run, every event ever sent that no nack dropped was served, or is in the retry table, the dead letter table, the unticked events or an unfinished window |
| Duplicates.GuardedRunsLoseNothing | sql/pgque.sql:826-869 | every event is accounted for in every run in which no event is requeued while it is among the events of the next tick |
| Duplicates.LimitedRunsLoseNothing | sql/pgque.sql:5407-5457 | with a retry limit of at most one every event is accounted for in every run |
| Losses.EventIsLost | sql/pgque.sql:2371-2391 | for every higher limit, on a normal and on a cooperative consumer, there is a run of one worker after which the event was never served and is nowhere |
| Losses.ConservationHoldsExactly | sql/pgque.sql:5418 | every event is accounted for in all runs of all fleets if and only if the retry limit is at most one |
| Guarantees.OneOwnerOneAck | clients/typescript/src/client.ts:381-387 | in every run, for any number of workers, one live owner per window, at most one effective ack per window, and no acked window is live again |
| Guarantees.FencedForever | clients/go/consumer.go:189-213 | a round whose token died, or that lost a nack, finishes nothing in any continuation |
| Guarantees.StaleWorkerTouchesNothing | clients/go/pgque.go:185-190 | a worker with a dead token: its nack fails and spoils the round, its ack returns 0, and neither touches the queue |
| Guarantees.OverflowTouchesNothing | clients/go/consumer.go:134-137 | an overflowing receive starts no round and leaves the queue as it was but for a drawn batch id |
| Guarantees.OverflowIsFinal | clients/typescript/src/consumer.ts:92-93 | after an overflow no action of that loop changes anything, whatever the others do |
| Guarantees.ReceivePhases | clients/go/consumer.go:130-145 | a receive ends its loop exactly when it is answered and the window that falls to it is above the ceiling, starts a round exactly when it is answered with a window that has events and is not, and otherwise leaves the loop waiting |
| Guarantees.CrashThenReceive | clients/go/pgque.go:181-183 | a worker killed in the middle of a round that still holds its batch gets all of it again, under the same token |
| Guarantees.LostReceive | clients/go/consumer.go:130-145 | a receive whose reply is lost has its effect on the queue but starts no round; a refused one has no effect |
| Guarantees.LostNack | clients/go/consumer.go:168-187 | a nack whose reply is lost has its effect on the queue but counts as failed; a refused one has no effect and counts as failed |
| Guarantees.LostAck | clients/go/consumer.go:189-217 | an ack whose reply is lost finishes its batch as an answered one does, but the loop waits; a refused one leaves the batch |
| Payloads.EventsKeepTheirKind | sql/pgque.sql:826-869 | in every run each event, wherever it is, has the kind that was sent under its id |
| Duplicates.BatchesInIdOrder | sql/pgque.sql:399-440 | in every run each batch is in the order of the event ids |
| RetryBudgets.RetriesAreBounded | clients/python/pgque/client.py:503-508 | in every run of either kind no event is retried more than the queue's limit, and a dead letter has used up exactly that many |
| Order.FinishedIsAPrefix | clients/go/pgque.go:181-190 | for a normal consumer the finished windows are exactly those before the cursor |
| Order.HandlersFollowTheCursor | clients/go/consumer.go:157-187 | one loop: handler calls are ordered by window, round and position, and a handler only runs for the window at the cursor, all earlier ones being finished |
| Order.NoMessageIsSkipped | clients/typescript/src/consumer.ts:106-133 | whatever failed on the way, a worker at the end of a round has called the handler of every message that has one |
| Decisions.PlansAgree | clients/README.md:14-23 | two clients do the same for a batch, the same handler calls and nacks in order and the same ack, whatever the handlers, nacks and acks answer, if and only if they treat every kind of the batch alike |
| Decisions.PlanHas | clients/go/consumer.go:158-187 | up to the first escape a handler is called exactly for the messages of known kind, and a nack is tried exactly for those whose handler failed or that are unknown under the nack policy |
| Decisions.PlanInOrder | clients/go/consumer.go:158-187 | the messages are dealt with in batch order, each at most once, its handler before its nack |
| Decisions.AckRule | clients/python/pgque/consumer.py:383-393 | an ack is tried if and only if no handler escaped and no nack of the round failed |
| Decisions.CatchAllParity | clients/python/pgque/consumer.py:332 | a "*" handler makes no difference if and only if the batch has no kind outside the shared table |
| Decisions.RunWaits | clients/typescript/src/consumer.ts:92-160 | a run of passes without overflow waits nowhere if and only if every pass finished a batch |
| Decisions.LongRun | clients/go/consumer.go:108-218 | a run has more than n passes whenever it has more calls than n passes can make |
| Backends.NoHotLoop | clients/go/consumer_internal_test.go:373-379 | of the receives that start within any time T there are at most as many as acks answered in it, plus T / pollInterval, plus one |
| Backends.Backend.Receive | clients/go/pgque.go:158-180 | one protocol receive after any interference, allowed only when the loop has rested since the last one; it overflows exactly when the window that falls to the loop in the queue it finds is too large, fails exactly when the call does or the ceiling is below 1; every message of the batch carries the same token, which is not 0 |
| Backends.Backend.Nack | clients/go/pgque.go:254-273 | one protocol nack of the message just failed, recorded with its reply; a failed call is remembered in the round |
| Backends.Backend.Ack | clients/go/pgque.go:191-198 | one protocol ack, recorded with its reply, only at the end of a round without failed nacks; ready again exactly when it was answered |
| Backends.Backend.Wait | clients/go/consumer.go:139-145 | a wait lasts a poll interval unless cancelled, and every unfinished outcome needs one before the next receive |
| GoConsumers.Consumer.Handle | clients/go/consumer.go:73-75 | registers a kind and keeps the others |
| GoConsumers.FailuresAreNacked | clients/go/consumer.go:158-187 | a handler that returns an error or panics is nacked, one that returns is not, and an unknown kind is nacked exactly under the nack policy |
| GoConsumers.Consumer.HandleMessage | clients/go/consumer.go:158-187 | the loop body does what the decision for the message says, and the flag is set exactly by a nack that was needed and failed |
| GoConsumers.Consumer.DispatchBatch | clients/go/consumer.go:156-187 | one pass carries out the plan of the whole batch in order, ends with the id every message carries, and clears the flag exactly when the ack is due |
| GoConsumers.Consumer.FinishRound | clients/go/consumer.go:189-217 | the ack is tried exactly without failed nacks, and a wait follows exactly when the batch was not acked |
| GoConsumers.Consumer.Pass | clients/go/consumer.go:115-217 | one pass does exactly what its plan says: receive, dispatch, ack and wait; left undisturbed it has the effect of a poll in which nothing fails, and goes on at once exactly when that poll finishes a batch |
| GoConsumers.Consumer.Start | clients/go/consumer.go:108-218 | the run does what the plans of its passes say and nothing else; it returns exactly by an overflow or by cancellation, and by the latter not before it made as many calls as steps passed; undisturbed and alone in its group it goes through its backlog one window a pass |
| TypeScriptConsumers.RejectionsAreNacked | clients/typescript/src/consumer.ts:106-133 | a handler that rejects is nacked, one that resolves is not, and an unknown kind is nacked exactly under the nack policy |
| TypeScriptConsumers.Consumer.HandleMessage | clients/typescript/src/consumer.ts:106-133 | the loop body does what the decision for the message says, and the flag is set exactly by a nack that was needed and failed |
| TypeScriptConsumers.Consumer.DispatchBatch | clients/typescript/src/consumer.ts:104-133 | one pass carries out the plan of the whole batch in order, and clears the flag exactly when the ack is due |
| TypeScriptConsumers.Consumer.FinishRound | clients/typescript/src/consumer.ts:135-160 | the ack is tried exactly without failed nacks, and a sleep follows exactly when the batch was not acked |
| TypeScriptConsumers.Consumer.Pass | clients/typescript/src/consumer.ts:83-161 | one pass does exactly what its plan says; left undisturbed it has the effect of a poll in which nothing fails, and goes on at once exactly when that poll finishes a batch |
| TypeScriptConsumers.Consumer.Start | clients/typescript/src/consumer.ts:81-163 | the run does what the plans of its passes say and nothing else; it returns exactly by an overflow or by the abort, and by the latter not before it made as many calls as steps passed; undisturbed and alone in its group it goes through its backlog one window a pass |
| UndisturbedPasses.NoNackFails | clients/go/consumer.go:158-187 | when nobody interferes and no call fails, no nack of a round fails |
| UndisturbedPasses.FinishingPass | clients/go/consumer.go:156-217 | an undisturbed pass over a batch changes the queue as a poll does that finishes it |
| UndisturbedPasses.LoopDrainsInARow | clients/go/consumer.go:202-218 | such a run goes through a backlog of N windows without a wait if and only if none of them is empty, and waits after the next receive |
| UndisturbedPasses.LongRunDrains | clients/go/consumer.go:108-218 | such a run has the passes for that as soon as it has more calls than the windows of the backlog can take: for each the receive, the ack, the wait, and two calls for each message up to the ceiling |
| Transactions.DispatchedNext | clients/python/pgque/consumer.py:331-381 | the forward loop over a batch follows the specification of the dispatch turn by turn |
| Transactions.ReachedEnd | clients/python/pgque/consumer.py:331-387 | a loop that went through the batch, or stopped at an escaping error, has computed the dispatch and done its plan, and the ack is due exactly when no nack failed and nothing escaped |
| Transactions.DispatchedMeaning | clients/python/pgque/consumer.py:329-381 | after the loop: the flag is set exactly by nacks that did not run, the transaction is aborted exactly by a nack that failed on the server, else the staged queue is the received one plus the nacks that ran |
| Transactions.RoutedThenAcked | clients/python/pgque/client.py:503-511 | nacks leave the batch live; the ack after them finishes its window |
| Transactions.PollIsAtomic | clients/python/pgque/consumer.py:289-400 | a poll leaves exactly one of three queues: everything applied and the batch finished, the nacks that ran applied and the batch live, or the queue as it was; which one, and how the poll ends, is decided by conditions on the calls |
| Transactions.SqlErrorUndoesEverything | clients/python/pgque/consumer.py:365-387 | a swallowed server error in any required nack undoes every effect of the poll |
| Transactions.AckInPollIsNeverStale | clients/python/pgque/consumer.py:389-398 | the ack of a poll always finds its batch |
| Transactions.OverflowEndsThePoll | clients/python/pgque/consumer.py:164-169 | a poll ends with the overflow error exactly when its receive runs and the window that falls to it has more events than the ceiling, and then leaves the queue as it was and tries nothing else |
| Transactions.FailedReceiveEndsThePoll | clients/python/pgque/consumer.py:291-308 | a receive that fails or is rejected ends the poll with a database error; the queue stays as it was and nothing else is tried |
| Transactions.EmptyPoll | clients/python/pgque/consumer.py:312-315 | an empty receive ends the poll Idle exactly when the commit is answered, and with a database error otherwise |
| Transactions.PollEndings | clients/ruby/lib/pgque/consumer.rb:134-165 | how every poll ends, read off the queue and the circumstances: failed receive, overflow, nothing to receive, escape, failed nack, failed ack, commit |
| Simulation.MimicDispatch | clients/go/consumer.go:156-187 | the dispatch of a transactional poll is matched step by step by a protocol round with the same routed and served messages |
| Simulation.CommittedPollIsARound | clients/python/pgque/consumer.py:289-400 | a poll that commits what it did to a batch has the effect of one protocol round: receive, the same dispatch, and an ack or none |
| Simulation.MimicPoll | clients/ruby/lib/pgque/consumer.rb:134-165 | from any protocol state, whatever a poll does to the queue is done by protocol actions of the same worker |
| Simulation.RunsAreTracked | clients/python/pgque/consumer.py:141-183 | every run of any number of transactional workers is matched by a run of the protocol with the same queue |
| Simulation.TransactionalFleetLosesNothing | clients/python/pgque/consumer.py:296-303 | no event that no nack dropped is lost by any fleet of Python and Ruby workers, whatever fails |
| Simulation.TransactionalFleetKeepsOwners | clients/python/pgque/client.py:440-443 | such a fleet keeps one live owner per window and, on a normal consumer, a finished prefix |
| MixedFleets.SiblingsInsideAPoll | sql/pgque.sql:5407-5457 | however the nacks and acks of sibling workers, stale ones included, fall between the steps of a poll, the poll leaves the queue, and ends, as if all of them had come before it |
| MixedFleets.PollsInAMixedFleet | clients/README.md:14-23 | among Go and TypeScript workers in any phase, also when they nack and ack between its steps, a poll changes the queue as its meaning says and leaves the others where their own actions brought them |
| MixedFleets.MixedFleetLosesNothing | clients/README.md:14-23 | in every run of a fleet of both kinds no event is lost that no nack dropped, and every window has one live owner and at most one effective ack |
| FleetLosses.PollersLoseNothing | clients/python/pgque/consumer.py:296-303 | a fleet of Python and Ruby workers loses nothing when no event is requeued while it is among the events of the next tick, or when the retry limit is at most one |
| FleetLosses.PollsLoseAnEvent | sql/pgque.sql:2371-2391 | for every higher limit one such worker, polling in transactions, loses an event |
| FleetLosses.PollersConserveExactly | sql/pgque.sql:5418 | no fleet of Python and Ruby workers loses an event in any run if and only if the retry limit is at most one |
| FleetLosses.MixedFleetsLoseNothing | clients/README.md:14-23 | a mixed fleet loses nothing under the same conditions |
| FleetLosses.MixedFleetsConserveExactly | clients/README.md:14-23 | no mixed fleet loses an event in any run if and only if the retry limit is at most one |
| Connections.Connection.Receive | clients/python/pgque/client.py:267-276 | a receive inside a transaction stages its effect and gives the loop the batch; one that raises aborts the transaction and has no effect but, on an overflow, a drawn batch id |
| Connections.Connection.Ack | clients/python/pgque/client.py:293-308 | an ack inside a transaction raises exactly when the transaction is aborted or the call fails, and otherwise stages the finish and returns the row count |
| Connections.Connection.Commit | clients/python/pgque/consumer.py:306 | leaving the block publishes the whole staged queue, or, when the transaction was aborted or the commit broke, nothing but the drawn batch id; an aborted transaction is left without an error |
| PythonConsumers.Consumer.On | clients/python/pgque/consumer.py:105-120 | registers a handler, or the default one for "*" |
| PythonConsumers.Consumer.HandleMessage | clients/python/pgque/consumer.py:332-381 | the loop body is one turn of the specification, does what the decision for the message says, and sets the flag exactly when a nack failed |
| PythonConsumers.Consumer.DispatchBatch | clients/python/pgque/consumer.py:329-381 | the loop computes the specified dispatch, carries out the plan of the batch, and leaves the ack due exactly when no nack failed and nothing escaped |
| PythonConsumers.Consumer.FinishBlock | clients/python/pgque/consumer.py:383-400 | the ack is tried exactly when no nack failed; commit or rollback as specified |
| PythonConsumers.Consumer.PollOnce | clients/python/pgque/consumer.py:289-400 | one poll computes the specified poll: the committed queue, how it ended, and every handler call and nack in order; it ends with a database error when its receive fails, and with the overflow error exactly when the window that falls to it is too large |
| Hosts.Host.Select | clients/python/pgque/consumer.py:273-278 | no wait blocks longer than a slice between two looks at the stop flag |
| PythonSessions.Runner.WaitForNotifyOrStop | clients/python/pgque/consumer.py:244-287 | the LISTEN wait ends because a NOTIFY was buffered or the socket readable, because of a stop, after exactly a poll interval, or because the connection broke, in slices of at most 0.5 s; a buffered NOTIFY ends it at once, and a readable socket at the next look |
| PythonSessions.Runner.SleepBeforeReconnect | clients/python/pgque/consumer.py:229-238 | the wait before a reconnect lasts a poll interval unless stopped, in slices of at most 0.5 s |
| PythonSessions.Runner.PollLoop | clients/python/pgque/consumer.py:205-227 | the session polls, polls again at once after a finished batch, waits after every other ordinary poll, and ends by an error of its last poll or wait, or by the stop; it receives once a poll, and takes no more steps than its polls and waits need |
| PythonSessions.Runner.RunSession | clients/python/pgque/consumer.py:187-227 | a visit opens exactly when the connection and the LISTEN succeed, and is a database error at once otherwise; one that ends, by the stop or an error in a poll or wait, leaves its connection closed |
| PythonSessions.Runner.Supervise | clients/python/pgque/consumer.py:156-177 | the run is a row of visits, one connection at a time, each but the last ended by a database error and followed by exactly a poll interval before the next attempt |
| PythonSessions.Runner.Start | clients/python/pgque/consumer.py:122-185 | the run is such a row of visits, and cannot go on without polling or trying to connect; a poll that overflows, or ends by an escaping error, is the last thing it does and decides how it ends, and nothing else ends it so; only a failed connect, a failed poll or a lost connection is followed by another visit; all of its receives but the last start before any stop that fires after the flag is set, and, in the main thread, with its own signal handlers installed; however it ends every connection is closed, the flag cleared and the signal handlers restored |
| PythonSessions.RunEnds | clients/python/pgque/consumer.py:164-177 | an overflow is the last deed of the whole run, which then, and only then, ends as too large; the same of an escaping error; a visit is followed by another only if it could not connect or its last deed was a database error |
| PythonSessions.RunMeets | clients/python/pgque/consumer.py:164-169 | a window that is too large, met by any poll, ends the run: no visit and no poll follows; a failed receive ends its visit alone, and another visit starts a poll interval later unless the run was stopped |
| PythonSessions.Runner.StopThenStart | clients/python/pgque/consumer.py:135 | a stop before the flag is set does not end the run, however long it is observed; all of its receives start after that stop, and unless it keeps failing to connect their number grows with the time it is observed |
| Sessions.SessionDrainsInARow | clients/python/pgque/consumer.py:205-227 | an undisturbed session drains a backlog of N windows by N polls without a wait, and waits after the next, if and only if no window is empty |
| Sessions.LongSessionDrains | clients/python/pgque/consumer.py:205-227 | an undisturbed session has the polls for that as soon as it went on for more steps than the windows of the backlog can take, a poll and a wait each |
| Sessions.StepsPerPoll | clients/python/pgque/consumer.py:205-287 | a session of either kind cannot go on without polling: it takes a bounded number of steps for each poll |
| Sessions.ErrorsComeLast | clients/python/pgque/consumer.py:164-169 | a poll that ends with an overflow, an escaping error or a database error, or a wait that loses the connection, is the last thing a session does |
| Sessions.VisitEnds | clients/ruby/lib/pgque/consumer.rb:89-123 | a visit ends too large, by a handler's error or by a database error exactly as its last deed says, or by a database error because it could not connect |
| Sessions.VisitMeets | clients/ruby/lib/pgque/consumer.rb:89-123 | a window that is too large ends the visit, and so a Ruby run, with the overflow error; a failed receive ends it with a database error |
| Sessions.LazySessionWaits | clients/ruby/lib/pgque/consumer.rb:98-102 | a Ruby session waits between any two polls |
| RubyConsumers.Consumer.HandleMessage | clients/ruby/lib/pgque/consumer.rb:171-215 | the block body is one turn of the specification, does what the decision for the message says, and sets nack_failed exactly when a nack failed |
| RubyConsumers.Consumer.DispatchBatch | clients/ruby/lib/pgque/consumer.rb:169-218 | the loop computes the specified dispatch and carries out the plan of the batch |
| RubyConsumers.Consumer.PollOnce | clients/ruby/lib/pgque/consumer.rb:134-165 | one poll computes the same specified poll as the Python one, with the same endings |
| RubyConsumers.Consumer.WaitForNotifyOrStop | clients/ruby/lib/pgque/consumer.rb:220-243 | the wait ends because a NOTIFY was buffered or arrived, because of a stop, after exactly a poll interval, or because the connection broke, in slices of at most 0.5 s; a buffered NOTIFY ends it at once, and one that arrives at the next look |
| RubyConsumers.Consumer.PollLoop | clients/ruby/lib/pgque/consumer.rb:98-102 | the loop polls, waits after every ordinary poll, and ends by an error of its last poll or wait, or by the stop; it receives once a poll, and takes no more steps than its polls and waits need |
| RubyConsumers.Consumer.Start | clients/ruby/lib/pgque/consumer.rb:67-123 | one connection at most, which opens exactly when the connection and the LISTEN succeed and is closed in every case; an overflow, an escaping error or a database error is the last thing the run does and decides how it ends; it takes a bounded number of steps for each receive; all receives but the last start before any stop that fires after the flag is set, and, in the main thread, with its own signal traps; flag and traps are restored |
| RubyConsumers.Consumer.StopThenStart | clients/ruby/lib/pgque/consumer.rb:68 | a stop before the flag is set does not end the run, however long it is observed; all of its receives start after that stop, and their number grows with the time it is observed |
| Backlog.CalmPoll | clients/python/pgque/consumer.py:289-400 | without failures a poll of a worker alone in its group, on a normal or a cooperative consumer, goes through the next window that is left, and reports a batch exactly when that window has events |
| Backlog.DrainsInARow | clients/python/pgque/consumer.py:211-218 | N windows take N steps that go on at once, and then one that does not, if and only if no window is empty |
| Backlog.EmptyWindowStopsTheDrain | clients/python/pgque/consumer.py:211-218 | a poll over an empty window reports an empty queue although the next window is ready |
| ArrayLiterals.TwoPassesAreOne | clients/ruby/lib/pgque/client.rb:218 | the two substitution passes escape every quote and backslash exactly once |
| ArrayLiterals.ArrayRoundTrip | clients/ruby/lib/pgque/client.rb:216-222 | for every list of strings the array input grammar reads the literal back as exactly that list, no element NULL |
| ArrayLiterals.PrinterIsInjective | clients/ruby/lib/pgque/client.rb:216-222 | different lists print differently |
| ErrorTrees.IsSearchesTheTree | clients/go/errors.go:108 | errors.Is is true exactly when some node of the tree matches |
| ErrorTrees.AsFindsTheFirst | clients/go/errors.go:67-106 | errors.As gives the first node of the kind, parents before children |
| ErrorTrees.WrapSQLErrorMeaning | clients/go/errors.go:160-184 | for every tree nothing that matched before is lost; a cancelled call gets no sentinel, one without a PgError ErrConnection, one with a PgError the sentinel of its message, if any; and an SQLError with this operation and SQLSTATE is found exactly with a PgError and no cancellation |
| ErrorTrees.ClassifyMeans | clients/go/errors.go:205-230 | a message is a missing queue exactly when one of the five queue texts stands in it, in any case; else a missing consumer or batch exactly when one of theirs does; and nothing exactly when none stands in it |
| ErrorTrees.ClassifyIgnoresCase | clients/go/errors.go:208-211 | messages that differ in case are classified alike |
| ErrorTrees.BatchText | sql/pgque.sql:5424 | "batch not found: " with any text behind it is a missing batch exactly when that text names no queue and no consumer |
| ErrorTrees.SubscriberText | sql/pgque.sql:5768-5770 | "Not subscriber to queue: " with names behind it is a missing consumer exactly when the names hold no queue text, and a missing queue otherwise |
| ErrorTrees.ServerTextsMatch | sql/pgque.sql:5146 | the server's texts for a missing queue, batch and subscription, wrapped, match their own sentinel and nothing else, for every name and id, under that condition |
| ErrorTrees.WrappedTextTells | clients/go/errors.go:160-184 | the text of a wrapped error names the operation and quotes the original in full |
| ErrorTrees.WrapSQLErrorKeeps | clients/go/errors.go:160-184 | every node of the original tree is a node of the wrapped one |
| ErrorTrees.AtMostOneSentinel | clients/go/errors.go:143-184 | a driver error, wrapped, matches at most one sentinel, and ErrConnection exactly with neither PgError nor cancellation |
| ErrorTrees.WrapConnectErrorMeaning | clients/go/errors.go:193-203 | a wrapped connect error always matches ErrConnection, gives an SQLError exactly with a PgError, and keeps everything else |
| ErrorTrees.WrapConnectErrorKeeps | clients/go/errors.go:193-203 | every node of the original tree is a node of the wrapped one |
| ErrorTrees.OverflowMeaning | clients/go/errors.go:113-140 | of an overflow both typed errors and the original are found, also under a cancellation |
| ErrorTrees.WrapReceiveErrorKeeps | clients/go/errors.go:113-140 | every node of the original tree, the original itself included, is a node of the wrapped one |
| ErrorTrees.LoopEndsOnItsOwnOverflow | clients/go/consumer.go:134-137 | the Go loop ends on a driver error exactly when the server raised the overflow of that very operation and ceiling |
| OverflowTexts.DecimalReadsBack | clients/go/errors.go:127 | printed decimals read back as the number |
| OverflowTexts.IntegerIsInjective | clients/go/errors.go:127 | no two integers print alike |
| OverflowTexts.ServerOverflowInFull | sql/pgque.sql:5366-5371 | the server's overflow error in full, for one call of each operation |
| OverflowTexts.CallsByName | clients/typescript/src/client.ts:642-654 | each client recognises the overflow of its two calls under its own names for them |
| OverflowTexts.ClientsAgree | clients/typescript/src/client.ts:642-654 | each client takes an error, as it sees it, for the overflow of a call exactly when it is the one the server raises for that operation and ceiling |
| OverflowTexts.ClientsDiffer | clients/python/pgque/client.py:54-60 | the clients differ exactly on an error without a primary message whose whole text is the overflow message |
| OverflowTexts.MessagesAreDistinct | sql/pgque.sql:5366-5371 | no two calls share an overflow message |
| OverflowTexts.OverflowIsUnambiguous | clients/python/pgque/client.py:53-68 | one server message is the overflow of at most one operation and ceiling, whichever clients are asked, and the server's own text is always recognised |
| Accounting.StartMeans | benchmark/tooling/parse_events_consumed.py:70-73 | a bucket holds the seconds from its start up to the next start |
| Accounting.NoticeInBucket | benchmark/tooling/parse_events_consumed.py:66-75 | in the log's own time, bucket i holds the notices from i to i + 1 widths after the start, and the first also all before the start |
| Accounting.Bucket | benchmark/tooling/parse_events_consumed.py:66-75 | the histogram has exactly the buckets with notices, each with exactly its events |
| Accounting.FillRows | benchmark/tooling/parse_events_consumed.py:127-137 | the stepping loop gives one row for each of 0, w, 2w, ... up to the last bucket |
| Accounting.WriteCsv | benchmark/tooling/parse_events_consumed.py:95-137 | the CSV has every bucket up to the last one with a notice, each with exactly its events |
| Accounting.RowsCountTheLog | benchmark/tooling/parse_events_consumed.py:127-137 | the first i rows hold exactly the events consumed before second i * w |
| Accounting.CsvSumsToTheLog | benchmark/tooling/parse_events_consumed.py:127-139 | the CSV sums to all events of the log |
| Accounting.DeriveBacklog | benchmark/subconsumer-scaling/run.py:79-96 | each row has the events up to it and the messages that remain, never below zero |
| Accounting.LoadCompletionCurve | benchmark/subconsumer-scaling/completion_latency.py:28-41 | the curve has one entry per consumed event, numbered from 1, at the second of its row |
| Accounting.CurveCountsTheRows | benchmark/subconsumer-scaling/completion_latency.py:28-41 | the entries up to a row's second are exactly the events of the rows up to it |
| Accounting.ViewsAgree | benchmark/subconsumer-scaling/run.py:79-96 | at every row the backlog is what the curve has not reached and what the log had not consumed; it never grows, and ends at the messages never consumed |
| Labels.DownFits | benchmark/gifs/r4_gif_v17_solarized.py:364-373 | after the pass no label is above its value and neighbours are a gap apart |
| Labels.DownIsOptimal | benchmark/gifs/r4_gif_v17_solarized.py:364-373 | the result is the one placement that fits and that no fitting placement in that order exceeds anywhere |
| Labels.DownIsAMinimum | benchmark/gifs/r4_gif_v17_solarized.py:364-373 | each label is at the least of y[j] - (i - j) * gap over the labels j up to it |
| Labels.DownKeeps | benchmark/gifs/r4_gif_v17_solarized.py:364-373 | labels in descending order stay at their values exactly when every two are a gap apart |
| Labels.SortIsStable | benchmark/gifs/r4_gif_v17_solarized.py:365 | sorting is stable: labels with the same key keep their order |
| Labels.PushDown | benchmark/gifs/r4_gif_v17_solarized.py:366-373 | the loop stores exactly that placement |
| Labels.PlaceInlineLabels | benchmark/gifs/r4_gif_v17_solarized.py:358-382 | the labels go from the highest to the lowest and all stay at their values exactly when every two are a gap apart; the drawn ones are a run of them; what is dropped below is a suffix, what is dropped above was above the peak already |
| Labels.UpIsOptimal | benchmark/subconsumer-scaling/backlog_race.py:90-92 | the upward pass gives the lowest placement with no label below its value and neighbours a gap apart |
| Labels.LabelLines | benchmark/subconsumer-scaling/backlog_race.py:79-92 | the labels are put in ascending order and pushed up in place, and all stay at their heights exactly when every two are 6 apart |
| Labels.ClipSeries | benchmark/subconsumer-scaling/backlog_race.py:65-76 | the series is cut behind its last point up to now and held there until now |

## Left out

- Engine.Receive: which sibling is stale enough to be robbed (the dead interval and the heartbeats) is a free choice of the environment, and an empty window is claimed and finished in one step.
- Engine.Nack: the retry delay is not modelled; a retried event may return at any later time, and replay of dead letters is not modelled. When a batch holds an event more than once the nack looks at the first of its copies; the SQL leaves open at which.
- RetryBudgets.RetriesAreBounded: the queue's limit is not changed during a run.
- Transactions.Poll: sends, ticks and due retries happen between polls, not inside one.
- MixedFleets.SiblingsInsideAPoll: a sibling that nacks an event the poll itself nacks waits for the poll's row, and is not among the effects inside it.
- Transactions.PollIsAtomic: the drawn batch id is not undone by a rollback, so "the queue as it was" is up to that counter.
- Backends.Backend.Wait: a cancellation during a wait is seen at its end, as part of the same step.
- GoConsumers.Consumer.Start: the early return for a backend without the cooperative calls is not modelled.
- PythonSessions.Runner.Start: a stop or a signal may come at any step of the run, and takes effect there; elapsed time inside a step is a free choice. A run is observed up to a horizon, which is arbitrary.
- PythonSessions.Runner.WaitForNotifyOrStop: a broken connection raises a database error; a select that fails for another reason is not modelled.
- ArrayLiterals.Parse: nested arrays, dimension decorations and the encoding of characters are not modelled.
- ErrorTrees.As: errors of other packages with an As method of their own, and hand-built errors with nil fields, are not modelled; errors are compared by structure.
- ErrorTrees.ToLower: letters outside ASCII matter only where their lower case is in ASCII.
- OverflowTexts.TypeScriptOverflow: ceilings are integers; numbers that JavaScript prints with an exponent or a fraction are not modelled.
- Accounting.WriteCsv: bucket widths below 1 are not modelled, nor the rates and averages of the summary file.
- Labels.PlaceInlineLabels: the same proposal is not listed twice; positions are reals, not floating point.
- Labels.LabelLines: the label heights are given; a run without points, on which the source fails, is not modelled.
- Subscribing, removing members, custom ticks, ticker maintenance, table rotation and snapshots in the SQL engine.
- The typed errors other than overflow in the TypeScript, Python and Ruby clients, whose fragment lists differ from Go's.
- Drivers, pools, sockets, threads and the LISTEN/NOTIFY transport: their results are choices of the environment.
- JSON encoding of payloads, log messages and nack reason texts.
- Drawing, colours, GIF encoding and the other chart arithmetic.
