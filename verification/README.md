# pgferry in Dafny

A model of the transaction-mode core of pgferry, a PostgreSQL proxy and connection pooler written in Rust,
and proofs about it: that what the pooler relays to a client is what a connection of the client's own would
have answered, that every connection that goes back to the pool is neutral, that every cycle is answered once
and no client message is ever sent twice, and what the failover loop, the pool, the row codec, the count
adjustment and the scatter merge compute.

`dafny verify dfyconfig.toml` covers the whole project (Dafny 4.11).

## How the model is built

- **Server and connection** (`Protocol`, `Connection`). An abstract backend speaks the frontend/backend
  protocol (sections 55.2.2, 55.2.3, 55.2.6 and 55.7 of the PostgreSQL 16 documentation): simple and extended
  cycles, skip-until-Sync after an error, COPY in both protocols, ParameterStatus, `DISCARD ALL`, cancel. What
  it makes of each message is an `Outcome` that travels with the message, and every result holds for all
  outcomes. A connection is the backend, the messages written but not flushed, the answers not yet read, the
  status and parameters the client library caches, and everything ever written to it. `Owed` counts the
  ReadyForQuery messages still to come.
- **Session** (`Session`). The locals of `pump` are a record; each arm of its `select!` is a function from
  record to record: the frontend arm, the backend arm, upstream loss, cancel and shutdown. Beside the session
  runs an observer: the client's phase, what it was told and in which cycle, and the session's traffic.
  `Dedicated` replays that traffic on one server of the session's own: the reference that transparency is
  stated against.
- **Invariants** (`Shapes`, `Phases`, `Leases`, `Mirror`, `Accounting`, together in `Clients`), then a **world**
  of any number of sessions and scatter legs and one idle stack under any interleaving (`World`, `Runs`), where
  each connection is (`Places`, `Custody`), the log of everything written to any connection (`Cleanups`, `Wires`),
  the statements about whole runs (`Theorems`), and what the code does not guarantee, with the exact condition
  (`Limits`).
- **The code's own form** (`Upstream`, `PumpLoop`, `IdleStack`, `Routing`, `Rows`, `Counts`, `Scatter`).
  Classes and loops as the source has them, proved against the functions the theorems are about and against
  the invariants.
- **The pool under concurrency** (`PoolSteps`): checkout, checkin, cancellation, probe, connect and sweep
  interleaved step by step.

There are three kinds of runs. A **run** (`World.IsRun`) asks nothing of clients, hooks or servers; connections
break, cancel requests and shutdown signals arrive as they please. That no connection is in two places, that no
client message is written twice, what else is written where, and when the shutdown signal ends a session, holds in
every run. In a **fair run** (`World.IsFairRun`) each client waits for the answers it needs before it sends on
(`Session.MaySend`): any Query, any batch with Flushes, COPY in either direction started by Query or by Execute;
and a scatter leg leaves nothing on its connection that its dirty flag does not tell of. That idle connections are
clean and that sessions look dedicated holds in every fair run; `Limits` shows what happens otherwise. In an
**orderly run** (`World.IsOrderlyRun`) hooks also reply or scatter on simple cycles only and scatter only while no
connection is leased, batches are refused before any of it went upstream, and a loss or a failed write meets
`Phases.LossInStep`. One ReadyForQuery per cycle holds in every orderly run. `Limits` shows that the condition on
losses and failed writes is exactly the one under which the code keeps in step; the one on refusals is sufficient,
and `RefusedBatchExactly` says exactly when the client's next cycle goes wrong. `Connection.SanitizeExact` and all
of `PoolSteps`, `Routing`, `Rows`, `Counts` and `Scatter` do without any of these premises.

## What the code does not guarantee

- A client that sends on without waiting gets a connection parked with an answer unread, and `sanitize` can
  succeed on such a connection (`PipelinedQueryIsParkedUnread`, `PipelinedQuerySurvivesSanitize`): exactly when
  more ReadyForQuery messages were owed than the hygiene flags admit (`SanitizeExact`), and in the fast check-in
  exactly when the connection was not between cycles and idle (`DetachExactly`).
- A scatter leg whose query leaves a transaction open is parked in it, unless it reported a parameter
  (`LegParkedCleanExactly`).
- A scatter by a session that still holds a connection, as after a refused batch, runs a leg on that connection and
  does not raise its dirty flag: parameters the leg changed are parked with the connection, exactly when the flag
  was not up already and they are off the baseline (`OwnLegParkedCleanExactly`, `OwnLegLeaks`). The session itself
  goes on as on a connection of its own exactly when the leg changed nothing of its state and swallowed none of its
  answers (`OwnLegUnnoticedExactly`).
- A loss behind Sync of an extended cycle leaves the client waiting for a ReadyForQuery nobody sends
  (`LossBehindSyncStrands`).
- A loss in the middle of a COPY leaves the session marked as copying; at rest and without a connection, it is
  then not ended by the shutdown signal (`LossInCopyOutlivesShutdown`, `ShutdownByPhase`).
- A Flush keeps the session from being ended by the shutdown signal until a ReadyForQuery is read, even when its
  answers have been relayed (`AwaitingMeans`, `ShutdownEndsExactly`).
- After a denial, or a duplicate statement name, in the middle of a batch, the client's next Query gets its answer
  exactly when the server has rejected nothing of the batch, and no stale answer ahead of it exactly when nothing of
  the batch is unanswered or unread (`RefusedBatchExactly`, `RefusedSessionGoesWrong`).
- A Parse of a registered name is answered at once, ahead of answers to earlier messages that the client has
  not been relayed yet; of an orderly session's local answers it is the only one that can overtake
  (`LocalAnswerOvertakesExactly`, `OnlyKnownParseOvertakes`, `KnownParseOvertakes`).
- A named Parse that the server rejects stays registered (`RejectedParseStaysRegistered`), and an attach fails
  whenever the server rejects any of the registered statements (`Upstream.Link.Prepare`).
- A detached Close of a portal drops the registered statement of that name (`PortalCloseDropsStatement`); a Close
  forwarded upstream leaves the registry entry, so that a new Parse is answered without a statement behind it
  (`ClosedStatementIsStillAnswered`).
- A scatter refused inside a transaction reports the session as idle (`ScatterInStepExactly`).
- With a failure threshold of three or more, the attach loop can give up while an alive endpoint works
  (`ThreeFailuresExhaustTheLoop`, `AttachExactly`).
- A value of 2^31 bytes or more does not survive a row edit (`RewriteRoundTrip`).
- Dropped rows of a cycle that failed are taken off the next tag if that belongs to a cycle of Bind and Execute,
  which does not reset the tracker (`PendingExactly`, `FailedCycleSpoilsTheNext`).
- The cycle report keeps the server's own tag, not the adjusted one (`ReportKeepsServerTag`).
- A concatenated scatter does not follow the order of the request's legs: the session's own leg comes first, the
  others as they complete (`ConcatMerges`).
- The gauge of active leases is off as soon as a lease is dropped without a call, which a scatter does in
  exactly the cases of `DroppedExactly` and for the legs it aborts (`ActiveExactlyWhenNoneLeaked`).

## Model

| member | source | states |
|---|---|---|
| `Connection.SanitizeExact` | crates/pgferry/src/pool.rs:595-676 | for every connection with a true parameter cache, whatever answers are unread, batch messages buffered, COPY or transaction open: when the clean-up succeeds, the connection is neutral if and only if no more ReadyForQuery were owed than the hygiene flags announce |
| `Connection.SanitizeSucceedsExactly` | crates/pgferry/src/pool.rs:595-676 | with no more owed than announced, the clean-up succeeds if and only if the open cycle could be ended, left the server ready behind everything buffered and without an error, an idle status is true, and `DISCARD ALL` is carried out |
| `Connection.QuiesceSucceedsExactly` | crates/pgferry/src/pool.rs:595-660 | with no more owed than announced, ending the open cycle succeeds if and only if a ReadyForQuery was owed or no COPY runs on, behind everything buffered, after the abort messages |
| `Connection.CommandSucceedsExactly` | crates/pgferry/src/pool.rs:661-692 | with nothing owed, a command of the proxy's own succeeds if and only if the server is ready, has reported no error and carries it out |
| `Connection.QuiesceLaw` | crates/pgferry/src/pool.rs:644-660 | settling or closing the open cycle leaves nothing owed if no more was owed than the hygiene flags announce, and an out-of-step connection otherwise |
| `Connection.SettleLaw` | crates/pgferry/src/pool.rs:595-618 | CopyFail, cancel and drain, with Sync only if no ReadyForQuery comes by itself, end up with nothing owed if at most one was owed, and out of step otherwise |
| `Connection.CloseCycleLaw` | crates/pgferry/src/pool.rs:622-626 | Sync and drain leave nothing owed if nothing was owed before, and an out-of-step connection otherwise |
| `Connection.DrainLaw` | crates/pgferry/src/pool.rs:628-642 | draining fails if and only if no ReadyForQuery is unread; otherwise it takes exactly one, learns the parameters on the way, and changes nothing else |
| `Connection.InStepCommand` | crates/pgferry/src/pool.rs:661-692 | a command of the proxy's own that succeeds with nothing owed leaves the connection at a boundary with a true cache, and `DISCARD ALL` neutral |
| `Connection.OutOfStepCommand` | PLAN.md:462-464 | once an answer too many is owed, no command of the proxy's own repairs the connection |
| `Connection.DiscardOutsideTransaction` | crates/pgferry/src/pool.rs:661-672 | when the clean-up succeeds with no more owed than announced, `DISCARD ALL` met a server outside any transaction |
| `Phases.FrontendCycle` | crates/pgferry/src/session.rs:962-1449 | every client message, simple, extended or COPY data, keeps the pump's flags, the lease and the client's phase in agreement, if refusals and failed writes come in step |
| `Phases.BackendCycle` | crates/pgferry/src/session.rs:1509-1735 | every upstream message does, and a connection that is released is at a boundary and idle |
| `Phases.LostCycle` | crates/pgferry/src/session.rs:1463-1507 | an upstream loss does |
| `Phases.CancelCycle` | crates/pgferry/src/session.rs:1725-1736 | a cancel request does, also when it stops a COPY that was offered or is in progress |
| `Phases.OwedIsKnown` | crates/pgferry/src/pool.rs:120-148 | in every phase, the hygiene flags announce at least the answers the leased connection owes |
| `Leases.FrontendLease` | crates/pgferry/src/session.rs:1312-1399 | a clean flag on a lease means that the connection still has baseline parameters and no named statement, and a dirty one that its statements are among the registered ones |
| `Leases.ForwardedParseIsNew` | crates/pgferry/src/session.rs:1268-1310 | a named Parse that is forwarded meets a connection that does not hold the name |
| `Leases.DetachIsClean` | crates/pgferry/src/pool.rs:339-398 | the fast check-in parks only clean connections: undirtied ones as they are, the others after `DISCARD ALL` |
| `Leases.DetachExactly` | crates/pgferry/src/pool.rs:339-398 | a fast check-in that succeeds parks a clean connection if and only if, dirty, it owed no ReadyForQuery, or, undirtied, it was idle between two cycles |
| `Leases.ProbeIsAnswered` | crates/pgferry/src/pool.rs:573-583 | the probe of a parked connection is answered and changes nothing |
| `Leases.CheckinIsClean` | crates/pgferry/src/pool.rs:434-476 | the full check-in parks only clean connections |
| `Mirror.MessageMirror` | crates/pgferry/src/session.rs:1339-1399 | a client message keeps the leased connection in the state of the dedicated one |
| `Mirror.ResponseMirror` | crates/pgferry/src/session.rs:1509-1718 | relaying a response, or detaching at ReadyForQuery, keeps it |
| `Mirror.LossMirror` | crates/pgferry/src/session.rs:825-866 | after a loss the session mirrors a dedicated connection that starts from its registry and overrides |
| `Mirror.LegMirror` | crates/pgferry/src/scatter.rs:248-268 | a scatter leg on the session's connection that does no harm keeps it; one that breaks the connection restarts it |
| `Mirror.CancelMirror` | crates/pgferry/src/session.rs:1725-1736 | a cancel request stops the COPY of the lease and of the dedicated connection alike |
| `Mirror.AttachMirrors` | crates/pgferry/src/session.rs:670-763 | replaying startup parameters, overrides and statements onto any clean connection puts it in the dedicated connection's state |
| `Mirror.UpsetsExactly` | crates/pgferry/src/session.rs:1339-1342 | recording at Parse time agrees with what the server holds if and only if the message is none of the upsetting ones: a rejected named Parse, a forwarded Close of a listed statement, SQL that deallocates one |
| `Clients.MessageSafe` | crates/pgferry/src/session.rs:962-1449 | for a client that waits, every message, however refused, scattered or lost, leaves a lease that fits the client's phase, owes no more than the flags announce and mirrors the dedicated connection, if a leg on the lease reports nothing that the dirty flag does not tell of |
| `Clients.InvIsSafe` | crates/pgferry/src/session.rs:894-1764 | a session in step with its client is sound |
| `World.LegConnOk` | crates/pgferry/src/scatter.rs:417-528 | a scatter leg leaves its connection between cycles, with nothing on it that its dirty mark does not tell |
| `Leases.LegLease` | crates/pgferry/src/scatter.rs:485-528 | a leg on a connection with nothing in store leaves on it only what the dirty flag tells of, if the flag was up or nothing was reported |
| `World.StepSafe` | crates/pgferry/src/session.rs:894-1764 | every fair event of every session, of the scatter legs, also on a session's own connection, and of the pool keeps idle connections clean and sessions sound |
| `World.RunSafe` | crates/pgferry/src/session.rs:894-1764 | hence it holds in every state of every fair run |
| `Custody.StepPlace` | crates/pgferry/src/session.rs:894-1764 | every event, fair or not, keeps every connection in one place: parked, leased to one session, lent to one leg, or gone |
| `Runs.StepInv` | crates/pgferry/src/session.rs:894-1764 | every orderly event keeps all invariants of all sessions as well |
| `Runs.RunInv` | crates/pgferry/src/session.rs:894-1764 | hence they hold in every state of every orderly run |
| `Wires.StepLog` | crates/pgferry/src/session.rs:404-446 | every event keeps the log of all writes, failed clean-ups, probes and scatter legs included, true to every connection and sound, and every registered statement in it as a Parse its own session sent |
| `Cleanups.SanitizeWrites` | crates/pgferry/src/pool.rs:595-676 | what a clean-up writes, also when it fails, is commands, Sync and CopyFail, and on success the connection received just that |
| `Theorems.IdleConnectionsAreClean` | crates/pgferry/src/pool.rs:339-476 | in every state of every fair run, losses, refusals, cancels and scatter legs included, an idle connection has no named statement, no transaction, nothing buffered, unread or owed, and baseline values in every untracked parameter |
| `Theorems.HeldByOneSession` | crates/pgferry/src/session.rs:618-773 | in every state of every run, whatever clients do, a leased connection is leased to one session only, lent to no scatter leg and not parked |
| `Theorems.SharedLooksDedicated` | crates/pgferry/src/session.rs:379-447 | in every fair run, as long as its registry is not upset and no scatter leg has disturbed its connection, what a session was relayed is a prefix of what a dedicated connection would have answered to its traffic, and its lease is in that connection's state |
| `Theorems.UndisturbedSinceOpening` | crates/pgferry/src/session.rs:1097-1202 | a session has both marks as long as none of its events since it was opened upset its registry or was a scatter leg that disturbed its connection |
| `Theorems.ForwardedRunsAsDedicated` | crates/pgferry/src/session.rs:1312-1399 | then also the connection a message is written to, newly attached or not, is in the dedicated connection's state at that moment |
| `Theorems.ListedExactlyUntilUpset` | crates/pgferry/src/session.rs:388-402 | over any stretch of a fair run, the registry lists the dedicated connection's statements throughout if and only if no event of the stretch is an upsetting one |
| `Theorems.CyclesAnsweredOnce` | crates/pgferry/src/session.rs:1519-1526 | in every orderly run, each finished cycle has one ReadyForQuery and it is the last response of its cycle; the current cycle has one if and only if the client is at rest |
| `Theorems.WaitingEnds` | crates/pgferry/src/session.rs:1382-1389 | every orderly run with a waiting client can be continued, by reading alone what the upstream has already sent, to a state in which the client no longer waits or its draining session is over |
| `Theorems.PinnedRun` | crates/pgferry/src/session.rs:871-890 | between two states with no ReadyForQuery(Idle) and no loss in between, a session keeps its connection and its dirty mark |
| `Theorems.DetachedExactlyWhenIdle` | crates/pgferry/src/session.rs:1700-1718 | in every orderly run, a session without a connection is idle, and an idle session at rest has none |
| `Theorems.ShutdownLeavesNothingUnanswered` | crates/pgferry/src/session.rs:1737-1749 | in every fair run, a session that the shutdown signal ends at once is owed no ReadyForQuery; in an orderly one it is at rest or has its Sync yet to send |
| `Theorems.ShutdownEndsExactly` | crates/pgferry/src/session.rs:1737-1749 | in every run, the signal ends a session at once if and only if it has not forwarded a Query, Sync or Flush without reading a ReadyForQuery or losing its connection since, and no COPY began after the last ReadyForQuery it read |
| `Theorems.AwaitingMeans` | crates/pgferry/src/session.rs:1382-1389 | in every run, the awaiting flag is up if and only if a Query, Sync or Flush was forwarded, and no ReadyForQuery read and no loss noticed since |
| `Theorems.ShutdownByPhase` | crates/pgferry/src/session.rs:1737-1749 | in every orderly run: a session at rest is ended if and only if no COPY began after the last ReadyForQuery it read, and if not, its connection was lost after that COPY began; one with a Query, a Sync or COPY data in flight never is |
| `Theorems.CopyFlagMeans` | crates/pgferry/src/session.rs:1519-1548 | in every run, the copy flag is up if and only if a COPY began after the last ReadyForQuery read |
| `Theorems.DrainingEndsAtNextReady` | crates/pgferry/src/session.rs:1694-1698 | over any stretch of a run, a session that drains and is still there has read no ReadyForQuery from upstream, and drains still |
| `Theorems.NoDoubleParse` | crates/pgferry/src/session.rs:1268-1310 | in every fair run, across all sessions, a forwarded named Parse never meets a connection that holds the name |
| `Theorems.AttachRestores` | crates/pgferry/src/session.rs:670-763 | in every fair run, a message that makes its session attach is written to a connection with exactly the registered statements, each parsed by that session before, the overrides, the startup parameters, and defaults elsewhere |
| `Theorems.NeverResent` | crates/pgferry/src/session.rs:1400-1449 | in every run, whatever clients do, over everything written to any connection: each client message is written at most once, to one connection, in the order sent; all else is a replay of statements the same session had parsed before, a scatter leg's query, or a command, Sync or CopyFail of the proxy's own |
| `Theorems.LogIsOnTheWires` | crates/pgferry/src/session.rs:1382-1399 | in every run, what each connection has received is exactly its lines of the log |
| `Theorems.WrittenWasSent` | crates/pgferry/src/session.rs:1312-1399 | a client message in the log was sent by the client of its session in that run and written as the hook let it pass |
| `Limits.LossInStepExactly` | crates/pgferry/src/session.rs:825-866 | a loss leaves client and pump in step if and only if `LossInStep` |
| `Limits.FaultInStepExactly` | crates/pgferry/src/session.rs:1400-1449 | for every message that is forwarded, a failed write leaves client and pump in step if and only if `FaultInStep` |
| `Limits.LossInCopyOutlivesShutdown` | crates/pgferry/src/session.rs:840-866 | after a loss in COPY, a session at rest without a connection is not ended by the shutdown signal |
| `Limits.CopyBegins` | crates/pgferry/src/session.rs:1540-1544 | a new session gets there with one Query |
| `Limits.LossBehindSyncStrands` | crates/pgferry/src/session.rs:840-866 | a loss after Sync of an extended cycle is answered by an error only, and the client waits on |
| `Limits.RefusedBatchExactly` | crates/pgferry/src/session.rs:962-1010 | for every batch refused part-way and a Query after it: the Query is owed its ReadyForQuery if and only if the server rejected nothing of the batch, and is skipped otherwise; and its answer comes alone if and only if nothing of the batch was left unanswered or unread |
| `Limits.RefusedSessionGoesWrong` | crates/pgferry/src/session.rs:1061-1096 | a new session of one Parse and one denied Parse gets there: its next Query is lost if the first Parse is rejected, and answered behind a stale ParseComplete if not |
| `Limits.PortalCloseDropsStatement` | crates/pgferry/src/session.rs:1022-1037 | a detached Close of a portal unregisters the statement of that name, which the dedicated connection keeps |
| `Limits.ClosedStatementIsStillAnswered` | crates/pgferry/src/session.rs:1268-1310 | a forwarded Close drops the statement on the server while the next Parse of it is answered locally |
| `Limits.RejectedParseStaysRegistered` | crates/pgferry/src/session.rs:1339-1342 | a forwarded named Parse is registered and replayed from then on; the dedicated connection has the statement if and only if its server took the Parse |
| `Limits.LocalAnswerOvertakesExactly` | crates/pgferry/src/session.rs:1268-1310 | a local answer comes in its turn if and only if the connection has nothing left to say about earlier messages |
| `Limits.OnlyKnownParseOvertakes` | crates/pgferry/src/session.rs:962-1310 | of what an orderly session answers itself, only the Parse of a registered name can meet a connection that has |
| `Limits.KnownParseOvertakes` | crates/pgferry/src/session.rs:1268-1310 | and it does, behind a new Parse that is still buffered |
| `Limits.PipelinedQueryIsParkedUnread` | crates/pgferry/src/session.rs:1700-1718 | a new session that sends two Querys without waiting has its connection parked, as it is, with the second answer unread |
| `Limits.PipelinedQuerySurvivesSanitize` | crates/pgferry/src/pool.rs:644-676 | the same inside a transaction: the clean-up at session end succeeds and the connection it parks is not neutral |
| `Limits.ScatterInStepExactly` | crates/pgferry/src/session.rs:1097-1202 | a scatter at rest leaves client and pump in step if and only if the session is outside a transaction |
| `Limits.LegParkedCleanExactly` | crates/pgferry/src/scatter.rs:379-386 | a leg's connection that is parked is clean if and only if its query left no transaction open or reported a parameter |
| `Limits.OwnLegParkedCleanExactly` | crates/pgferry/src/scatter.rs:248-302 | a connection on which a scatter ran a leg of its own session is parked clean at the next detach if and only if it was dirty before or all parameters reported up to the leg's end are at the baseline |
| `Limits.OwnLegLeaks` | crates/pgferry/src/session.rs:1707-1716 | a new session of one Parse, one denied Parse, a scatter whose leg changes a parameter and one more Query parks it changed |
| `Limits.OwnLegUnnoticedExactly` | crates/pgferry/src/scatter.rs:248-268 | after such a leg the connection is where a dedicated one would be if and only if the leg swallowed no answer and changed neither transaction status, nor a statement, nor a parameter that counts |
| `Upstream.Link.DrainUntilReady` | crates/pgferry/src/pool.rs:628-642 | the reading loop ends as `Drain` says, for every stream of answers |
| `Upstream.Link.SettleDown` | crates/pgferry/src/pool.rs:595-618 | equals `Settle` |
| `Upstream.Link.SanitizeForPool` | crates/pgferry/src/pool.rs:644-676 | equals `Sanitize`, and on success is neutral if and only if no more was owed than announced |
| `Upstream.Link.SetParameter` | crates/pgferry/src/pool.rs:679-692 | succeeds if and only if the server takes the value, and then exactly this parameter changed, on the server and in the cache |
| `Upstream.Link.SetDiffering` | crates/pgferry/src/session.rs:693-720 | the SET loop, in any order of the map, succeeds if and only if the server takes every parameter that differs; it then has set exactly those, and reports a change if and only if there is one |
| `Upstream.Link.Replay` | crates/pgferry/src/session.rs:404-446 | succeeds if and only if there is nothing to replay or the server takes every Parse and the Sync; the server then holds exactly the registry, and nothing else changed |
| `Upstream.Link.Prepare` | crates/pgferry/src/session.rs:670-763 | the three replays succeed if and only if each of their SETs, Parses and the Sync does, give the state `Prepared`, and write nothing else even when they fail |
| `PumpLoop.Locals.HandleFrontend` | crates/pgferry/src/session.rs:962-1449 | the session stays sound for any message of a client that waits, a scatter on the lease included if its leg reports nothing that the dirty flag does not tell of, and in step with its client if the message can be answered in step; a session that ends leaves a lease that `checkin` can clean |
| `PumpLoop.Locals.HandleBackend` | crates/pgferry/src/session.rs:1509-1718 | a connection is given back only idle, between two cycles, and undirtied only if it is clean; the session stays sound and in step |
| `PumpLoop.Locals.HandleUpstreamLost` | crates/pgferry/src/session.rs:1463-1507 | the session stays sound, and stays in step if and only if the loss met `LossInStep` |
| `PumpLoop.Locals.HandleCancel` | crates/pgferry/src/session.rs:1725-1736 | the request reaches the lease and nothing else of the pump; the session stays sound and in step |
| `PumpLoop.Locals.HandleShutdown` | crates/pgferry/src/session.rs:1737-1749 | a session that ends at once is owed no ReadyForQuery; one that drains stays sound and in step |
| `PumpLoop.Locals.Serve` | crates/pgferry/src/session.rs:894-1764 | the select loop over any events of a client that waits, with the same premise on scatter legs: every connection given back is fit to be parked, the lease at the end can be cleaned, and client and pump are in step throughout if every refusal and loss could be answered |
| `PoolSteps.ConnectionCap` | crates/pgferry/src/pool.rs:90-91 | in every interleaving, idle plus held, connecting, probed and returning connections never exceed the configured size, although idle ones hold no permit |
| `PoolSteps.RunInv` | crates/pgferry/src/pool.rs:271-567 | in every interleaving, connections made or attempted equal those idle, held, evicted, dropped and discarded, and none is in two places |
| `PoolSteps.ActiveExactlyWhenNoneLeaked` | crates/pgferry/src/pool.rs:150-164 | the active gauge equals the live leases if and only if no lease was dropped without a call |
| `IdleStack.Stack.Checkout` | crates/pgferry/src/pool.rs:271-310 | the most recently parked usable connection, or none if there is none; everything above it is closed and counted as evicted or dropped by its age, everything below is untouched |
| `IdleStack.Stack.Sweep` | crates/pgferry/src/pool.rs:531-553 | the entries within both limits, in order, and the others counted |
| `IdleStack.KeptExactly` | crates/pgferry/src/pool.rs:531-553 | an entry survives a sweep if and only if it was there and is within both limits |
| `IdleStack.AlwaysSorted` | crates/pgferry/src/pool.rs:244-246 | after any history of parking, checkouts and sweeps the stack is ordered by idle time |
| `IdleStack.TimeoutsAtBottom` | crates/pgferry/src/pool.rs:531-553 | hence the entries idle for too long are a bottom segment |
| `Routing.EndpointGroup.ReportFailure` | crates/pgferry/src/routing.rs:109-129 | counts up to the threshold and then marks dead, keeping alive counts below the threshold |
| `Routing.EndpointGroup.SelectFirstAlive` | crates/pgferry/src/routing.rs:142-147 | the first alive endpoint in configured order |
| `Routing.AliveExactly` | crates/pgferry/src/routing.rs:98-137 | after any reports about any endpoints, one is alive if and only if it failed fewer than `threshold` times since its last success or last failed `reviveAfter` ago |
| `Routing.EnsureAttached` | crates/pgferry/src/session.rs:618-773 | the retry loop's outcome and the health it leaves, and that a chosen endpoint is one that works |
| `Routing.AttachExactly` | crates/pgferry/src/session.rs:618-770 | from any health, the loop succeeds if and only if a choosable endpoint works and the failures left to the alive ones in front of it are fewer than the attempts |
| `Routing.DefaultThresholdSuffices` | crates/pgferry/src/routing.rs:22-23 | with the default threshold the loop always reaches a working alive endpoint |
| `Routing.ThreeFailuresExhaustTheLoop` | crates/pgferry/src/routing.rs:84-88 | with a threshold of three it may not |
| `Rows.Parse` | crates/pgferry/src/intercept.rs:343-371 | succeeds if and only if the bytes hold the declared columns, with every slot inside the data and standing for its column |
| `Rows.DataRowMut.Apply` | crates/pgferry/src/intercept.rs:432-462 | an untouched row keeps its bytes; an edited one becomes the wire form of its values, with the same field count |
| `Rows.PrefixRoundTrip` | crates/pgferry/src/intercept.rs:446-457 | a length survives the 32-bit prefix if and only if it is a signed 32-bit number |
| `Rows.EncodedRoundTrip` | crates/pgferry/src/intercept.rs:343-463 | parsing undoes encoding if and only if every value is shorter than 2^31 bytes |
| `Rows.RewriteRoundTrip` | crates/pgferry/src/intercept.rs:405-463 | for every row that parses and every sequence of edits, re-parsing gives each column its last edit or its original value, if and only if no surviving edit is 2^31 bytes or longer |
| `Rows.EditRow` | crates/pgferry/src/session.rs:1575-1605 | the row path of the pump: a row that parses is rewritten, one that does not is passed on as it came |
| `Counts.AdjustedTag` | crates/pgferry/src/session.rs:1837-1848 | only the trailing count changes, by saturating subtraction; a tag without one is returned as it is |
| `Counts.ShownCountExactly` | crates/pgferry/src/session.rs:1614-1625 | the tag the client sees counts the rows it saw of the statement if and only if the server's number is their count plus the pending drops, or none was kept and the subtraction stops at zero |
| `Counts.HonestCountExactly` | crates/pgferry/src/session.rs:1614-1625 | for an honest server tag, the shown count is right if and only if the pending drops are this statement's, or no row was kept and they are more |
| `Counts.PendingExactly` | crates/pgferry/src/session.rs:513-525 | they are this statement's if and only if no row was dropped between the beginning of the statement and the last reset of the tracker, whichever came first |
| `Counts.FailedCycleSpoilsTheNext` | crates/pgferry/src/session.rs:1055-1062 | one dropped row and an error lower the tag of the next cycle of Bind and Execute |
| `Counts.HonestRelay` | crates/pgferry/src/session.rs:1575-1625 | over every session of tracked cycles and every choice of drops, honest tags stay honest |
| `Counts.UnadjustedExactly` | crates/pgferry/src/session.rs:1614-1621 | without adjustment a tag stays honest if and only if nothing of its statement was dropped |
| `Counts.RelayCycles` | crates/pgferry/src/session.rs:483-540 | all cycles of a session through one tracker: the client is shown every kept row and no dropped one, with the tags as specified, and each tracked cycle gets one report of its own rows |
| `Counts.TagsAddUp` | crates/pgferry/src/session.rs:1561-1625 | over any session, an honest server's counts add up to the rows kept and dropped, short of rows no tag counts |
| `Counts.ReportKeepsServerTag` | crates/pgferry/src/session.rs:1566-1568 | for every tracked cycle of any number of statements, the report names the server's last tag, and the server's counts add up to its kept and dropped rows, short of rows no tag counts |
| `Scatter.RunQueryCollect` | crates/pgferry/src/scatter.rs:485-528 | a leg's messages, row count, last error and dirty mark up to the end of its cycle |
| `Scatter.Partition` | crates/pgferry/src/scatter.rs:204-219 | the session's own leg is the first on its endpoint, all others are pooled, in order |
| `Scatter.ExecuteScatter` | crates/pgferry/src/scatter.rs:149-392 | output, result and returned connections of a request, for every completion order |
| `ScatterLaws.SucceedsExactly` | crates/pgferry/src/scatter.rs:161-293 | a request succeeds if and only if its endpoints are known, no leg fails and a sum meets numbers only, whatever the completion order; otherwise nothing has been sent |
| `ScatterLaws.ConcatMerges` | crates/pgferry/src/scatter.rs:311-340 | each leg's rows stand together and in order, the first description is sent where it stood among the rows and no other is, and the tag and the result count the rows sent |
| `ScatterLaws.ConcatKeepsRows` | crates/pgferry/src/scatter.rs:295-333 | every row is sent as often as all legs together returned it |
| `ScatterLaws.SumMerges` | crates/pgferry/src/scatter.rs:341-378 | whatever the order, one row is sent, which reads back as the sum over all legs if and only if that is a signed 128-bit number |
| `ScatterLaws.SumFits` | crates/pgferry/src/scatter.rs:342-356 | up to 2^63 rows of 64-bit values never overflow, at any prefix |
| `ScatterLaws.DroppedExactly` | crates/pgferry/src/scatter.rs:243-358 | connections of legs that completed are dropped without a check-in if and only if no pooled leg failed and the session's connection broke, or a sum met a value that is no number |

## Left out

- Session mode, where a session keeps its connection: only the transaction-mode detach is modelled.
- TLS, authentication, startup negotiation, cancel-key routing, configuration and telemetry: no shared state of the kind above.
- `RwSplit`, `ShardSet::shard_for` and round-robin selection: one-line choices, and the hash and the jitter are environment.
- Several endpoints: a world has the pool of one; which endpoint a session attaches to is in `Routing`.
- Timeouts: an answer that is owed is assumed to arrive within the drain timeout; a timeout is an unsuccessful clean-up, after which the connection is closed.
- Hooks other than `on_query` and `on_row`: `on_backend` may rewrite the response stream at will, so nothing can be said about it.
- Server state that the protocol does not show (SQL-level PREPARE, temporary tables, LISTEN, advisory locks): only `DISCARD ALL` resets it, and an undirtied detach does not run it.
- A connection closed because its attach, or a scatter leg's parameter sync, failed: what was written to it is not in the log of `Wires`; `Upstream.Link.Prepare` says what that can be.
- World.RunSafe: runs are fair. Each client waits for its answers, as `MaySend` says, see `PipelinedQueryIsParkedUnread`; a client that asks for COPY by Execute sends Flush or Sync next. A leg leaves nothing that its dirty flag does not tell of, see `LegParkedCleanExactly` and `OwnLegParkedCleanExactly`. A leg that never gets its ReadyForQuery ends with its connection.
- Runs.RunInv: runs are orderly; `Limits` gives the exact conditions for losses, failed writes and scatters, and for what goes wrong after a late refusal.
- Theorems.SharedLooksDedicated: about relayed messages; `LocalAnswerOvertakesExactly` says when a local answer comes before them. A scatter's own answers are not compared. ParameterStatus updates are assumed to reach the client library's cache, the traffic's outcomes are the same on both servers, and a loss starts a new dedicated connection from the registry and the overrides. The two tracked startup parameters are compared by the session's own values.
- PoolSteps.RunInv: the wait queue's order is not modelled, so nothing is said about fairness or deadlock; the scatter holds permits while it waits for others.
- IdleStack.Stack.Checkout: one clock reading, and no other caller between two pops; callers are interleaved in `PoolSteps`, without ages.
- Routing.AttachExactly: one clock reading per attempt, no other session reporting meanwhile, and no dead endpoint reviving while the loop runs.
- Rows.Parse: a negative field count is not modelled; the source aborts on it when it reserves space.
- Rows.DataRowMut.SetText: values are bytes; that a string is valid UTF-8 is a matter of Rust's types.
- Scatter.ExecuteScatter: rows of a sum are assumed to have a first column, without which the source aborts; trimming knows ASCII white space only; a client that goes away during the merge is not modelled; arithmetic wraps as in a release build.
- Counts.HonestRelay: for sessions of at most 2^64 - 1 messages, the range of the source's counters, and for cycles that Query or Parse start; `PendingExactly` covers the others.
- Counts.RelayCycles: a report made when the upstream is lost is not modelled.
