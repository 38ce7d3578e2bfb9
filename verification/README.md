# Verification of the order path, the audit trail and the cross-venue matcher

This project models the parts of the bot whose mistakes cost money or evidence, and proves what they keep
over whole runs. Check it with `dafny verify dfyconfig.toml`. Source paths are relative to the repository
root; money, prices, contracts and token balances are reals, clock readings are integers.

**The risk gate and its protocol.** `Orders` has the rows of `orders_fired`. `GateSpec` states each gate operation as
a function on a value; `RiskGateObject.RiskGate` is the mutable gate, proved equal to those functions. `Admissions`
proves the answer of a check against a reference that looks at the gate's whole memory and names the first full cap.
`OrderProtocol` is a state machine of wakes (check, record and put in flight in one step), executions at an unknown
later moment, reports, failures, settlements, and position polls stamped, read and applied at three separate moments.
The exchange's true signed positions are part of its state; `ProtocolLaws` proves that they are what was executed, and
that orders and polls may end in every way. `Exposure` proves that the gate never under-counts, and the bound that
follows: open contracts plus everything still in flight stay within the dispatches allowed in flight times the cap
(not the cap alone), plus the counts of dispatches that ended in an exception. `ExposureWitnesses` proves that bound
tight for every number of dispatches and every cap, and that without reconciliation there is none. `RestoredPositions`
says what a restarted gate believes to be open before its first poll, summed over the stored rows, and carries the
bound over a restart. `Ledgers` proves that the three ledgers agree. `RollingWindow` and `WarmStarts` prove the
attempt, notional and cooldown caps over runs that may crash and restart, up to the attempts of earlier lives that
left no row; the restarts there read a table that has one row for each attempt that left one.

**The executor.** `Executor` models one wake from the price guard to the end of its dispatch, and proves that
shadow wakes can be deleted from any run without a trace. `ExecutorProtocol` proves that the executor,
interleaved with the exchange and the polls, is a run of `OrderProtocol`, so the exposure bound holds of the
orders it really posts. `FireLaws` says what becomes of every wake and every answer in terms of the wake, the readings
and the exchange's answer alone: how many contracts are asked for, which of six ways a wake ends, what the trail and the
gate are told, and that nothing is committed on a shard that is not allowed. `PriceGrid` is the snapping of wire prices.

`OrderLog` and `ExecutorTrail` join the executor, the trail and the gate: over any number of lives, each ended by a
crash after which the gate is rebuilt from whatever rows the telemetry managed to write, the table a restart reads is
the one `RollingWindow` and `WarmStarts` suppose, so their theorems hold of the executor itself.

**The audit trail.** `TelemetryStore` has the tables, the transactions and the row-by-row retry; `TelemetryQueue`
the bounded queue, the draining and the shutdown; `AuditTrail` what `orders_fired` ends up saying about each
order over all interleavings. `Retention` is the pruning.

**The wake channel.** `PollerQueue` is the sending side's queue, `Framing` the wire format and the executor's read
loop, `TokenBuckets` the client-side rate limiter.

**The matcher.** `TokenIndex` proves the inverted index against a full scan, `TokenWeights` the weights and the
overlap, `Thresholds` the numeric comparison against the settlement values each claim pays on, `Matcher` the gate
and the whole match. `Fees` compares the ways of charging a fill.

Some results are exact conditions, because the plain claim is false of the code:

- Rows behind the shutdown sentinel are written exactly when the rows ahead of it do not fill whole batches
  (`TelemetryQueue.TelemetryDB.RunWriter`).
- The bucket's clamp at zero hides a debt exactly when one withdrawal costs more than the capacity
  (`TokenBuckets.ClampHidesDebt`).
- The level comparison is wrong only on different levels so large that its relative tolerance spans them, and then
  exactly when the comparators are the same or the claims are (`Thresholds.ComparisonIsRight`); that begins at 10^9
  ticks (`Thresholds.LargeLevelsBlur`).
- The plain cap, without the dispatch factor, holds of every run from nothing open exactly when at most one dispatch
  may be in flight (`ExposureWitnesses.CapHoldsExactlyWhen`).
- An attempt leaves a row for the next start to read exactly when a lawful job about its order is written before the
  crash (`ExecutorTrail.StoredExactlyWhen`). A refusal by the order guard charges an attempt and writes none; an order
  sent at a snapped price of 0 or 1 has only unlawful ones; a job may be dropped on a full queue or still be queued at
  the crash. With none of these every attempt leaves a row (`ExecutorTrail.WholeLifeStoresAll`).
- Snapping twice is snapping once on the whole price axis exactly when the (at most two) cent points that prices
  outside the grid reach inside it are points of the ranges that hold them (`PriceGrid.IdempotentExactlyWhen`).
- Snapping is monotone over the whole axis exactly when prices just outside the grid round away from it on the
  cent grid used there (`PriceGrid.MonotoneExactlyWhen`).
- A refusal's row, and any row of an order really sent, reaches the table exactly when the wire price keeps clear
  of both ends of its grid: within half a step of 0 or 1 it snaps to 0 or 1, which the table turns away
  (`PriceGrid.StaysTradeableExactlyWhen`, `Executor.RefusalReachesTheTrail`, `Executor.SentOrderReachesTheTrail`). On
  the default one-cent grid that is above 0.005 and below 0.995 (`PriceGrid.ClearOnCents`). The refusal of an
  untradeable wire price writes no row at all (`Executor.RealWakesAreAccountedFor`).
- The comment at src/kalshi_bot/crossvenue/fees.py:117-121 says that charging at the volume-weighted average
  price understates the fee. It overstates it (`Fees.AveragePriceOverstates`, `Fees.AveragePriceExample`); the code,
  which accumulates the basis instead, is as modelled.

## Model

| member | source | states |
|---|---|---|
| `GateSpec.StrikesShareTheirEvent` | src/kalshi_bot/execution/risk.py:70-97 | Every strike of an event maps back to that event, and a ticker with no dash maps to itself. |
| `GateSpec.DropOldFillsKeepsWindows` | src/kalshi_bot/execution/risk.py:577-582 | Pruning removes a prefix, and only fills older than the floor. |
| `RiskGateObject.RiskGate.constructor` | src/kalshi_bot/execution/risk.py:257-290 | A new gate holds nothing. |
| `RiskGateObject.RiskGate.FromAuditTrail` | src/kalshi_bot/execution/risk.py:292-351 | The warm-started gate is the fold of the selected rows, in order, with unparseable columns counting zero; `RestoredPositions` says what its positions are. |
| `RiskGateObject.RiskGate.PruneOld` | src/kalshi_bot/execution/risk.py:577-582 | Exactly the leading attempts and fills older than 24 hours go; nothing else changes. |
| `RiskGateObject.RiskGate.Check` | src/kalshi_bot/execution/risk.py:353-472 | The answer and the pruned state of the decision function: early refusals leave the gate untouched, later ones prune first, and the first failing cap is the reason. |
| `Admissions.AnswerIsFirstFull` | src/kalshi_bot/execution/risk.py:353-472 | Over the attempts, fills and positions of the last hour or day, pruned or not, the gate admits exactly when every one of the twelve caps has room, the shard allowlist included, and otherwise names the first that has none. |
| `RiskGateObject.RiskGate.RecordAttempt` | src/kalshi_bot/execution/risk.py:474-491 | One attempt appended, the cooldown stamped, a non-empty group remembered; the rest unchanged. |
| `RiskGateObject.RiskGate.RecordFill` | src/kalshi_bot/execution/risk.py:493-503 | A positive fill is appended under the ticker's known group; any other fill changes nothing. |
| `RiskGateObject.RiskGate.ReconcileOpenPositions` | src/kalshi_bot/execution/risk.py:505-536 | The three baselines are rebuilt from the poll by ticker, event and known group, stamped with the poll's start. |
| `RiskGateObject.RiskGate.EndDispatch` | src/kalshi_bot/execution/risk.py:542-544 | One dispatch fewer in flight, never below zero. |
| `RestoredPositions.RestoredPosition` | src/kalshi_bot/execution/risk.py:292-351 | Before any poll, the position a rebuilt gate computes for a ticker, event or group is the sum, over the selected rows of that scope and the last 24 hours, of their positive parseable fill counts. |
| `RestoredPositions.RestoredFromTable` | src/kalshi_bot/execution/risk.py:311-351 | At any later moment it is that sum over the whole table, rejected rows aside, whatever was selected. |
| `RestoredPositions.RestoredGroup` | src/kalshi_bot/execution/risk.py:345-346 | A rebuilt gate knows each ticker under the group of the newest row that states one. |
| `RestoredPositions.RestartNeverUnderCounts` | src/kalshi_bot/execution/risk.py:292-351 | When the rows read account for what is open, nothing open is missing from what the rebuilt gate computes after any run, and the exposure bound holds of it. |
| `OrderProtocol.SnapshotIsTrue` | src/kalshi_bot/execution/risk.py:505-536 | The sizes a poll lists add up to the true open contracts of any ticker, event or group. |
| `OrderProtocol.BaselineIsListed` | src/kalshi_bot/execution/risk.py:505-575 | A reconciled baseline is, per capped scope, the total of what the poll listed there (groups: if known). |
| `ProtocolLaws.BookIsWhatWasExecuted` | src/kalshi_bot/execution/risk.py:505-536 | After any run the book holds on every ticker exactly what was executed there since it last settled, signed by side. |
| `ProtocolLaws.OpenIsSize` | src/kalshi_bot/execution/risk.py:505-536 | The open contracts of a ticker are the size of its position, whichever its side. |
| `ProtocolLaws.AnyFillMayBeReported` | src/kalshi_bot/ipc/executor_server.py:435-456 | From any moment an order in flight may fill to any part of its count, reported at any later time; then the book, the recorded fill and the in-flight count are exactly that. |
| `ProtocolLaws.AnyDispatchMayFail` | src/kalshi_bot/ipc/executor_server.py:435-456 | A dispatch may fail before or after any fill, or with none; the gate then records no fill. |
| `ProtocolLaws.AnyPollTellsTheTruth` | src/kalshi_bot/execution/risk.py:505-575 | A poll may be made at any moment, and one that nothing interrupts leaves each capped scope's baseline equal to its open contracts. |
| `ProtocolLaws.TimeNeverRunsBack` | src/kalshi_bot/ipc/executor_server.py:375-456 | In every run no step reads an earlier time than any step before it did. |
| `Exposure.NeverUnderCounted` | src/kalshi_bot/execution/risk.py:493-575 | After any run, true open contracts of a scope are at most baseline plus fills since its stamp plus executed-but-unrecorded fills; with fresh fills, at most the position the gate computes plus the unrecorded. |
| `Exposure.ExposureBounded` | src/kalshi_bot/execution/risk.py:353-583 | After any run with fresh fills, open contracts plus counts of unexecuted orders are at most the larger of the starting exposure and dispatches-in-flight times cap, plus the counts of dispatches that failed without being known to have filled nothing. |
| `Exposure.ReconcilingBoundsExposure` | src/kalshi_bot/execution/risk.py:505-550 | The same bound when at every check the last reconciliation is at most 24 hours old. |
| `ExposureWitnesses.ExposureFromNothing` | src/kalshi_bot/execution/risk.py:353-583 | From nothing open, with failed dispatches filling nothing: within dispatches-in-flight times the cap, and within the cap itself when one may be in flight. |
| `ExposureWitnesses.BoundIsTight` | src/kalshi_bot/execution/risk.py:353-472 | For every number of dispatches allowed in flight and every ticker cap, when no other cap stands in the way, a run with fresh fills and no failed dispatch that opens exactly dispatches times cap. |
| `ExposureWitnesses.CapHoldsExactlyWhen` | src/kalshi_bot/execution/risk.py:353-472 | Every run from nothing open, with fresh fills and failed dispatches filling nothing, keeps the exposure of the ticker within the cap alone if and only if at most one dispatch may be in flight. |
| `ExposureWitnesses.TheCapAloneIsExceeded` | src/kalshi_bot/execution/risk.py:450-456 | For instance, two dispatches under a cap of 5 can end with 10 contracts open. |
| `ExposureWitnesses.StaleFillsAreForgotten` | src/kalshi_bot/execution/risk.py:546-550 | Without reconciliation no bound holds: for every k there is a run, without a poll or a failure and with less than one order a day, that opens k caps. |
| `Ledgers.LedgersAgree` | src/kalshi_bot/execution/risk.py:505-575 | After any run the event position is the sum of its tickers' positions; the group position is too when groups are fixed and known. |
| `RollingWindow.WindowsWithinCaps` | src/kalshi_bot/execution/risk.py:403-447 | In any run, restarts included, every closed window of at most 24 hours (one hour) whose last attempt of a scope was admitted holds no more attempts and no more notional than the caps, plus those of its attempts that were made before the last restart and left no row. Each restart reads one row for each attempt that left one. |
| `RollingWindow.CooldownsHold` | src/kalshi_bot/execution/risk.py:396-401 | Every admitted attempt is at least the cooldown after every earlier one on its ticker and direction with no restart between; and after those before a restart that left a row, when the cooldown is at most 24 hours. |
| `WarmStarts.WarmStartNoMorePermissive` | src/kalshi_bot/execution/risk.py:292-351 | Whatever a warm-started gate lets through on the cooldown, attempt and notional caps at any later moment, the crashed gate would have let through then, however often that gate had itself crashed and been rebuilt, given that every attempt since its last rebuild left a row and the rows read then are still stored. |
| `WarmStarts.RejectedRowsChangeNothing` | src/kalshi_bot/execution/risk.py:311-322 | A rejected row anywhere in the table changes no warm start. |
| `Executor.ExecutorServer.Handle` | src/kalshi_bot/ipc/executor_server.py:291-434 | The whole new state of one wake up to its post: guard, snap, size, kill switch, gate, record, pending row, body. |
| `Executor.ExecutorServer.Finish` | src/kalshi_bot/ipc/executor_server.py:435-460 | The whole new state once the post ended: resolution row, fill recorded when answered, dispatch ended whatever was raised. |
| `Executor.ExecutorServer.RecordRejected` | src/kalshi_bot/ipc/executor_server.py:462-501 | Exactly one rejected row is handed to telemetry. |
| `Executor.ExecutorServer.Dispatch` | src/kalshi_bot/execution/order_dispatcher.py:285-352 | A refusal by the order guard writes and sends nothing; otherwise a real fire writes its pending row before its body goes out, and a shadow fire does neither. |
| `FireLaws.StakeIsFractionalKelly` | src/kalshi_bot/execution/position_sizing.py:62-103 | A count above the fixed one is staked if and only if its cost is within the position ceiling and within the fraction of what Kelly stakes on the edge at those odds; never less than the fixed count. |
| `FireLaws.AsksForEnough` | src/kalshi_bot/ipc/executor_server.py:325-341 | A real wake asks for at least the fixed count, or for every whole contract resting; with a positive fixed count it asks for nothing exactly when less than one contract rests. |
| `FireLaws.RealWakeOutcome` | src/kalshi_bot/ipc/executor_server.py:300-434 | A real wake leaves no trace, a thin-book, kill-switch or gate row with that text, an order on the wire with its pending row, or a stop by the order guard, each if and only if its own conditions on the wake, the readings and the gate's answer hold; the count is the most that the stake and the resting size allow. |
| `FireLaws.ShadowWakeOutcome` | src/kalshi_bot/ipc/executor_server.py:300-434 | A shadow wake is in the air at the fixed count, or stopped, and never touches gate, table or wire. |
| `FireLaws.EveryShardIsAllowed` | src/kalshi_bot/execution/risk.py:382 | In every run of an executor with a gate, each body newly on the wire and each wake that changes the gate is for an allowed shard. |
| `FireLaws.GroupsAreRemembered` | src/kalshi_bot/execution/risk.py:474-491 | After any run a ticker is known under the group of the last wake let through that stated one; nothing else makes the gate forget it. |
| `FireLaws.AnswerOutcome` | src/kalshi_bot/ipc/executor_server.py:435-460 | However a post ends its fire is over and measured once; a real one hands over one resolution that tells the outcome, ends one dispatch and adds a fill exactly for a stated count above zero. |
| `FireLaws.FilledExactlyWhenRecorded` | src/kalshi_bot/execution/order_dispatcher.py:116-136 | The resolved row says filled if and only if the gate recorded a fill, of the same count and ticker. |
| `FireLaws.EveryDispatchIsMeasured` | src/kalshi_bot/ipc/executor_server.py:405-460 | In every run the fires measured and those still in the air are the dispatches begun, each once. |
| `Executor.ShadowErasure` | src/kalshi_bot/ipc/executor_server.py:291-460 | Deleting all shadow wakes from any run leaves a possible run with the same gate, `orders_fired` jobs, posted bodies, real fires in the air and real latency rows. |
| `Executor.RealWakesAreAccountedFor` | src/kalshi_bot/ipc/executor_server.py:300-403 | A real wake leaves no trace exactly when its wire price is untradeable; otherwise it leaves one rejected row and charges nothing, or is sent with a matching pending row of at most the resting size, or is stopped by the order guard. |
| `Executor.RefusalReachesTheTrail` | src/kalshi_bot/ipc/executor_server.py:462-501 | With an unused order id and a positive count, the database takes a refusal's row if and only if its wire price keeps clear of both ends: over half a step above zero, and below the middle of the last step before one (or on it, when that step rounds down). On any ranges. |
| `Executor.SentOrderReachesTheTrail` | src/kalshi_bot/execution/order_dispatcher.py:311-400 | The same condition decides whether an order really sent has any row at all: pending, resolution or both. |
| `Executor.PendingRowsComeFirst` | src/kalshi_bot/execution/order_dispatcher.py:352-399 | In every run the pending row of an order goes to telemetry before its resolution does. |
| `Executor.InFlightIsExact` | src/kalshi_bot/ipc/executor_server.py:405-456 | In every run the gate's in-flight count is the number of real fires suspended at their post. |
| `ExecutorProtocol.ExecutorFollowsProtocol` | src/kalshi_bot/ipc/executor_server.py:375-456 | Any interleaving of executor, exchange and polls is a legal run of the order protocol with the same gate, and the bodies on the wire are, in order, distinct orders it admitted. |
| `ExecutorProtocol.ExecutorExposureBounded` | src/kalshi_bot/ipc/executor_server.py:375-456 | The exposure bound, of the orders the executor really posts. |
| `OrderLog.TrailIsReadBack` | src/kalshi_bot/execution/risk.py:311-322 | When every row of the table is a refusal or records the attempt logged under its order id, what the warm-start query returns is a selection from a table with one row for each attempt that left one, in order. |
| `ExecutorTrail.EveryOrderlyRunIsOne` | src/kalshi_bot/ipc/executor_server.py:291-460 | A life may be any run of the executor in which no clock reading is earlier than one before it and no order id is used twice, and no other. |
| `ExecutorTrail.RestartReadsTheTrail` | src/kalshi_bot/execution/risk.py:292-351 | Whatever of the jobs an executor handed over was written before its crash, in whatever order, the restart that follows is one that the gate's sessions allow: its rows mirror the attempts that left one. |
| `ExecutorTrail.StoredExactlyWhen` | src/kalshi_bot/execution/order_dispatcher.py:285-400 | An attempt of a life has a row at its end if and only if a lawful job about its order was written. |
| `ExecutorTrail.WholeLifeStoresAll` | src/kalshi_bot/ipc/executor_server.py:375-456 | With no refusal by the order guard, prices clear of both ends of the grid and nothing handed over lost, every attempt of a life leaves a row. |
| `ExecutorTrail.AnyInterleavingMakesALife` | src/kalshi_bot/telemetry/db.py:453-641 | Any interleaving of the telemetry queue, its writer and blocked producers that is offered the executor's jobs makes such a life; drained and with nothing dropped, nothing handed over is lost. |
| `ExecutorTrail.ExecutorIsASession` | src/kalshi_bot/ipc/executor_server.py:375-456 | Over any number of crashes and restarts, what the executor asks of its gate is a legal run of the gate's sessions with the same gate, with no hypothesis about the stored rows left. |
| `ExecutorTrail.ExecutorStaysWithinCaps` | src/kalshi_bot/ipc/executor_server.py:375-456 | The rolling-window caps, of the executor itself; with no attempt on top when every earlier life stored all of its own. |
| `ExecutorTrail.ExecutorKeepsCooldowns` | src/kalshi_bot/ipc/executor_server.py:375-456 | The cooldowns, of the executor itself. |
| `ExecutorTrail.ExecutorWarmStart` | src/kalshi_bot/execution/risk.py:292-351 | After a life that stored all of its attempts, the gate rebuilt from the rows read is no more permissive than the gate that crashed, whatever was lost in the lives before. |
| `ExecutorTrail.ExecutorRestoresPositions` | src/kalshi_bot/execution/risk.py:347-350 | Over any number of lives, the gate rebuilt after one computes, until its first poll, exactly the fills of the last 24 hours that the stored rows of that life's orders state. |
| `PriceGrid.SnapIsNearest` | src/kalshi_bot/ipc/executor_server.py:74-88 | A price in a range goes to a multiple of the first such range's step that no other multiple is nearer than, within half a step, inside the range. |
| `PriceGrid.SnapIsIdempotent` | src/kalshi_bot/ipc/executor_server.py:74-88 | On contiguous ranges bounded by multiples of their steps, snapping twice is snapping once: for every price in a range, shared boundaries included, and for every other price under the condition of the next row. |
| `PriceGrid.IdempotentExactlyWhen` | src/kalshi_bot/ipc/executor_server.py:74-88 | On such ranges snapping is idempotent on the whole price axis if and only if the cent point above a start that is more than half a cent past a cent, and the one below an end less than half a cent past one, are points of the ranges that hold them, if any do. |
| `PriceGrid.MonotoneExactlyWhen` | src/kalshi_bot/ipc/executor_server.py:74-88 | On such ranges snapping is monotone over the whole price axis if and only if the grid's start is at most half a cent past a cent and its end on a cent or at least half a cent past one. |
| `PriceGrid.SnapsToZero` | src/kalshi_bot/ipc/executor_server.py:74-88 | A positive price snaps to zero exactly when it is within half a step of it. |
| `PriceGrid.SnapsToOne` | src/kalshi_bot/ipc/executor_server.py:74-88 | A price in a range that ends at one snaps to one if and only if it is within half a step of it, or exactly half a step away and one is an even number of steps. |
| `PriceGrid.StaysTradeableExactlyWhen` | src/kalshi_bot/ipc/executor_server.py:74-88 | On any ranges, a price strictly between 0 and 1 snaps to a price strictly between 0 and 1 if and only if it keeps clear of both ends of the step it is rounded by. |
| `PriceGrid.ClearOfBothEnds` | src/kalshi_bot/ipc/executor_server.py:74-88 | Where whole steps make one, that is more than half a step from zero and more than half a step from one (or exactly half, when one is an odd number of steps). |
| `PriceGrid.ClearOnCents` | src/kalshi_bot/ipc/executor_server.py:74-88 | On the default one-cent grid: above 0.005 and below 0.995. |
| `TelemetryStore.BatchingIsInvisible` | src/kalshi_bot/telemetry/db.py:561-575 | However the rows are cut into batches, the final tables are those of writing them one at a time. |
| `TelemetryStore.WritesKeepConsistency` | src/kalshi_bot/telemetry/db.py:586-641 | One row per client order id, lawful, with its correlation present, after any writes. |
| `TelemetryStore.WritesKeepTheRest` | src/kalshi_bot/telemetry/db.py:615-641 | After any writes history has gained exactly the lawful history rows, in order; each fill id has its first lawful row and each process its last heartbeat. |
| `TelemetryStore.CorrelationsAreThoseWritten` | src/kalshi_bot/telemetry/db.py:586-641 | A correlation is on record if and only if it was, or some row that was written brought it. |
| `TelemetryStore.Connection.Write` | src/kalshi_bot/telemetry/db.py:561-575 | A batch commits whole, or is rolled back and retried row by row; either way the tables are those of writing row by row all rows that no failure outside them strikes in the retry, and the rows dropped are those struck and those that fail on their own. |
| `TelemetryStore.StruckRowsLeaveNoTrace` | src/kalshi_bot/telemetry/db.py:577-584 | Rows struck by an outside failure in the retry leave the tables as if never offered. |
| `TelemetryStore.Connection.WriteRow` | src/kalshi_bot/telemetry/db.py:577-584 | A row is written and committed, or dropped without a trace, by its own failure or an outside one. |
| `TelemetryQueue.TelemetryDB.Enqueue` | src/kalshi_bot/telemetry/db.py:453-487 | Before the writer starts a row is refused; then it joins the end of a queue that never exceeds its bound, waits for room, or is counted as dropped, by the per-table rule. |
| `TelemetryQueue.TelemetryDB.Close` | src/kalshi_bot/telemetry/db.py:440-451 | Every queued row is written, in order, before the writer stops, a full queue included; closing again changes nothing. |
| `TelemetryQueue.TelemetryDB.DrainBatch` | src/kalshi_bot/telemetry/db.py:538-559 | The leading rows up to the batch size, in order; a sentinel met inside a batch goes back to the end. |
| `TelemetryQueue.TelemetryDB.RunWriter` | src/kalshi_bot/telemetry/db.py:520-559 | The loop terminates and writes every row ahead of the sentinel, in order; rows behind it exactly when those ahead do not fill whole batches. |
| `AuditTrail.OrderDispatcher.BeforePost` | src/kalshi_bot/execution/order_dispatcher.py:311-352 | A real dispatch's pending row is enqueued if there is room and never waits, as the interleaving model's move says; a shadow's is not written. |
| `AuditTrail.OrderDispatcher.AfterPost` | src/kalshi_bot/execution/order_dispatcher.py:354-400 | However the post ended, a resolution that tells the outcome column by column is enqueued, or waits on a full queue, as the interleaving model's move says. |
| `AuditTrail.OfferRow` | src/kalshi_bot/telemetry/db.py:453-487 | Offering any row moves the telemetry object exactly as it moves the interleaving model. |
| `AuditTrail.WakeProducer` | src/kalshi_bot/telemetry/db.py:472-487 | A blocked producer's row enters once there is room, or is dropped and counted, as the model's moves say. |
| `AuditTrail.DrainToHand` | src/kalshi_bot/telemetry/db.py:538-559 | Draining a batch is the model's drain. |
| `AuditTrail.WriteHand` | src/kalshi_bot/telemetry/db.py:561-575 | Writing a batch is the model's write, and the rows lost are those that fail on their own. |
| `AuditTrail.WritesDecideFate` | src/kalshi_bot/telemetry/db.py:586-641 | Any rows in any order leave each order its last lawful resolution, dated by its first row, or else its first row. |
| `AuditTrail.RowsAreConserved` | src/kalshi_bot/telemetry/db.py:453-505 | Rows offered are enqueued, dropped and counted, or still waiting; rows leave in the order they entered; the queue never exceeds its bound. |
| `AuditTrail.DrainedTrail` | src/kalshi_bot/telemetry/db.py:453-641 | Once drained, over all interleavings of dispatches, drops and batches, each order's row is its fate. |
| `AuditTrail.WrittenWasOffered` | src/kalshi_bot/telemetry/db.py:453-641 | Over any interleaving a row written was offered; drained, with nobody waiting and nothing dropped, every row offered is written. |
| `AuditTrail.DispatchedOrderIsItsResolution` | src/kalshi_bot/execution/order_dispatcher.py:311-400 | An order alone under its id ends as exactly its enqueued resolution, whether or not its pending row survived. |
| `AuditTrail.DrainedRowTellsTheOutcome` | src/kalshi_bot/execution/order_dispatcher.py:116-136 | Of such an order the drained row tells how a post of it ended in that run: filled iff the answer stated a count above zero, with that count; canceled iff not above zero under fill-or-kill or immediate-or-cancel; accepted iff so under good-till-canceled; submitted iff no count could be read; error iff the post raised. Every other column is the pending row's. |
| `AuditTrail.DispatchesAreConserved` | src/kalshi_bot/execution/order_dispatcher.py:352-400 | In every run the dispatches begun are those resolved, once each, and those still posted. |
| `AuditTrail.DroppedExactlyWhen` | src/kalshi_bot/telemetry/db.py:453-487 | A row is dropped if and only if a wait times out, or the 10,000 places are taken and it is a pending row or of a droppable table; a producer waits if and only if they are taken and it is a refusal, a resolution or a fill. |
| `AuditTrail.ResolvedStaysResolved` | src/kalshi_bot/telemetry/db.py:586-614 | A resolved row never returns to pending, and no row loses its first date. |
| `Retention.OldestExpired` | src/kalshi_bot/telemetry/retention.py:110-123 | One statement selects at most a chunk of expired rows, none younger than an expired row left behind. |
| `Retention.DeleteOlderThan` | src/kalshi_bot/telemetry/retention.py:110-123 | The loop ends with exactly the rows at or past the cutoff, whatever the chunk size, and counts the rows removed. |
| `Retention.DeleteOrphans` | src/kalshi_bot/telemetry/retention.py:126-147 | The loop ends with exactly the referenced correlations, whatever the chunk size, and counts the rows removed. |
| `Retention.Database.Prune` | src/kalshi_bot/telemetry/retention.py:82-107 | The orders stay; each table keeps what its cutoff spares; a correlation is kept iff some row, of the orders or any table, still refers to it; counts are rows removed; foreign keys stay intact. |
| `Retention.PeriodsKept` | src/kalshi_bot/telemetry/retention.py:46-51 | Latencies and decisions of up to 30 days, prices and index values of up to 14, are kept unaltered, and no others. |
| `TokenBuckets.TokenBucket.Acquire` | src/kalshi_bot/transport/rate_limit.py:63-84 | The new balance and clock, and the seconds asked for, of one withdrawal. |
| `TokenBuckets.ClampHidesDebt` | src/kalshi_bot/transport/rate_limit.py:71-83 | The clamp swallows part of a cost exactly when the cost exceeds the capacity, given full-length sleeps; the balance stays between zero and the capacity. |
| `TokenBuckets.NothingElseIsLost` | src/kalshi_bot/transport/rate_limit.py:63-90 | Over any grants that are slept for and cost at most the capacity, the balance left and the tokens granted are exactly what there was and was earned, less what overflowed the capacity. |
| `TokenBuckets.SleepsForTheDeficit` | src/kalshi_bot/transport/rate_limit.py:74-81 | A withdrawal sleeps if and only if the refilled balance does not cover it, for exactly as long as the rest takes to earn. |
| `TokenBuckets.RateBound` | src/kalshi_bot/transport/rate_limit.py:63-90 | Between any two grants, both included, at most the capacity plus what the rate earns between them is handed out. |
| `PollerQueue.IPCPollerClient.SendWake` | src/kalshi_bot/ipc/poller_client.py:82-115 | A wake is queued or counted in the right drop counter; shadows need the queue below their limit. |
| `PollerQueue.IPCPollerClient.TakeNext` | src/kalshi_bot/ipc/poller_client.py:164-168 | The oldest queued wake is taken. |
| `PollerQueue.RealWakesWaitBehindFewShadows` | src/kalshi_bot/ipc/poller_client.py:80-105 | In every reachable state each queued shadow sits below the shadow limit, so at most that many are ahead of any wake. |
| `PollerQueue.DroppedExactlyWhen` | src/kalshi_bot/ipc/poller_client.py:82-115 | In every reachable state a real wake is dropped if and only if the queue holds its whole bound, a shadow if and only if it is at the shadow limit or the bound; one counter moves, and any other wake joins the end. |
| `PollerQueue.BackoffDoubles` | src/kalshi_bot/ipc/poller_client.py:130-146 | The base of the next wait is one second doubled for each failure in a row, at most thirty, and starts over with a connection. |
| `PollerQueue.EverySendableWakeIsWritten` | src/kalshi_bot/ipc/poller_client.py:130-168 | Over all connections the wakes written are those taken that could be encoded, in order. |
| `PollerQueue.WakesAreConserved` | src/kalshi_bot/ipc/poller_client.py:82-146 | Wakes sent are accepted or in one of two drop counters; accepted ones are taken in order or still queued; the backoff stays within its limits. |
| `PollerQueue.DeliveryIsInOrder` | src/kalshi_bot/ipc/poller_client.py:130-168 | Across reconnections, wakes written and wakes delivered are in-order selections of the accepted ones, none twice. |
| `Framing.RoundTrip` | src/kalshi_bot/ipc/protocol.py:209-248 | Any list of bodies of at most 64 KiB comes back exactly, ending in a clean close. |
| `Framing.FrameSpellsItsLength` | src/kalshi_bot/ipc/protocol.py:209-218 | A frame is four bytes that spell the body's length, most significant first, and then the body. |
| `Framing.FrameIsReadAsSpelled` | src/kalshi_bot/ipc/protocol.py:233-248 | Any stream is read as oversized, incomplete or a frame exactly as the length its first four bytes spell says. |
| `Framing.Truncation` | src/kalshi_bot/ipc/protocol.py:233-248 | A stream cut anywhere yields the frames wholly before the cut, unaltered, then an incomplete read. |
| `Framing.WholeFramesAreAll` | src/kalshi_bot/ipc/protocol.py:233-248 | Those frames fit before the cut and the next one does not. |
| `Framing.OversizedFrameCloses` | src/kalshi_bot/ipc/protocol.py:244-248 | A frame over 64 KiB stops the reading after every frame before it and before anything behind it. |
| `Framing.HandleConnection` | src/kalshi_bot/ipc/executor_server.py:212-285 | One acknowledgement per complete frame, in order: accepted with the message's own correlation iff its body decodes, and fired in order; refused otherwise. |
| `Framing.MessagesSurviveTheWire` | src/kalshi_bot/ipc/protocol.py:209-230 | With an invertible codec, exactly the messages written are fired, in order. |
| `TokenIndex.BuildIndex` | src/kalshi_bot/crossvenue/matching.py:311-327 | The index holds exactly the tokens within the document ceiling, each with all its markets in order, and the rest are counted as dropped. |
| `TokenIndex.Discriminates` | src/kalshi_bot/crossvenue/matching.py:325-326 | A token is indexed if and only if one market has it, or at most eight in a hundred. |
| `TokenIndex.Candidates` | src/kalshi_bot/crossvenue/matching.py:329-358 | The answer is the top k of a scan of every market, by summed weight of the seeds that point at it and then by id. |
| `TokenIndex.TopIsUnique` | src/kalshi_bot/crossvenue/matching.py:329-358 | For distinct ids that scan has only one answer. |
| `TokenIndex.RankingIgnoresOrder` | src/kalshi_bot/crossvenue/matching.py:346-358 | The ranking does not depend on the order a set or dictionary is iterated in. |
| `TokenIndex.SeedsAreHeaviest` | src/kalshi_bot/crossvenue/matching.py:346-348 | No token outside the at most six seeds outranks one of them. |
| `TokenIndex.SeedsIgnoreOrder` | src/kalshi_bot/crossvenue/matching.py:346-348 | The seeds depend only on which tokens a market has. |
| `TokenWeights.InverseDocumentFrequency` | src/kalshi_bot/crossvenue/text.py:537-562 | Every token seen, and no other, is weighted by the number of documents that contain it. |
| `TokenWeights.RarerIsHeavier` | src/kalshi_bot/crossvenue/text.py:537-562 | With an increasing logarithm the rarer of two tokens weighs at least as much, and no weight is negative. |
| `TokenWeights.WeighsNothingExactlyWhen` | src/kalshi_bot/crossvenue/text.py:537-562 | With a strictly increasing logarithm that is zero at one, a token weighs nothing if and only if at most one document is without it. |
| `TokenWeights.OverlapInUnit` | src/kalshi_bot/crossvenue/text.py:565-594 | The overlap is between 0 and 1, in the fallback too. |
| `TokenWeights.SameWordingScoresOne` | src/kalshi_bot/crossvenue/text.py:565-594 | Two markets with the same token set score 1. |
| `TokenWeights.OddTokenCosts` | src/kalshi_bot/crossvenue/text.py:565-594 | A token of positive weight on one side only keeps the score below 1. |
| `TokenWeights.EqualWeightsArePlain` | src/kalshi_bot/crossvenue/text.py:580-594 | When all words weigh the same, nothing included, the overlap is the number of shared words over the number of words of either. |
| `TokenWeights.UnweightedWordsCountOne` | src/kalshi_bot/crossvenue/text.py:565-594 | A word without a weight counts as one of weight one. |
| `TokenWeights.NothingInCommon` | src/kalshi_bot/crossvenue/text.py:565-594 | Markets without a shared word, or without any, score 0. |
| `Thresholds.ComparisonIsRight` | src/kalshi_bot/crossvenue/text.py:371-426 | On any whole-tick levels under directional or equal comparators the verdict is right if and only if the tolerance does not blur the levels, or the claims are written apart and are apart. |
| `Thresholds.ComparisonIsSetEquality` | src/kalshi_bot/crossvenue/text.py:371-426 | Below 10^9 ticks the verdict is true exactly when both claims are YES on the same settlement ticks. |
| `Thresholds.LargeLevelsBlur` | src/kalshi_bot/crossvenue/text.py:412-413 | At 10^9 ticks two different claims are called the same. |
| `Thresholds.EitherOrder` | src/kalshi_bot/crossvenue/text.py:371-426 | The verdict does not depend on which market is put first, for any levels and any tick. |
| `Thresholds.ExactLevels` | src/kalshi_bot/crossvenue/text.py:406-409 | Two exact levels of up to five million, on ticks or not, are one claim if and only if within half a tick. |
| `Thresholds.NearLevels` | src/kalshi_bot/crossvenue/text.py:412-426 | A gap counts as one tick within a hundredth of a tick, and levels of at most one as the same within 10^-9, on ticks or not. |
| `Thresholds.MissingLevels` | src/kalshi_bot/crossvenue/text.py:396-397 | A missing level is the same claim as a missing one and as no other. |
| `Matcher.GateIsSettlesAlike` | src/kalshi_bot/crossvenue/matching.py:563-745 | The gate finds no blocker exactly when outcome set, level, timing and source all agree. |
| `Matcher.ReasonsAreGiven` | src/kalshi_bot/crossvenue/matching.py:563-745 | Each of the nine reasons against a pair is given if and only if it holds of the two markets. |
| `Matcher.AlignmentIsLabelled` | src/kalshi_bot/crossvenue/matching.py:448-477 | The other venue's first outcome is aligned with Kalshi's YES if and only if it is the affirmative of two proposition labels, or else the only one that names Kalshi's team; the second likewise; neither when none or both are named. |
| `Matcher.RecordedPairsSayTruly` | src/kalshi_bot/crossvenue/matching.py:360-445 | A pair is recorded iff it scores enough, and its confidence, blockers and aligned outcome each hold if and only if their meaning does; rejected for want of an alignment exactly when neither outcome is Kalshi's YES. |
| `Matcher.IdenticalMeansUnblocked` | src/kalshi_bot/crossvenue/matching.py:360-445 | A pair is IDENTICAL exactly when it has no blockers, and exactly when it scores enough, is aligned, carries no one-sided qualifier and passes the gate. |
| `Matcher.IdenticalPaysAlike` | src/kalshi_bot/crossvenue/matching.py:625-676 | An IDENTICAL pair of whole-tick level markets below 10^9 ticks is YES on exactly the same settlement ticks, on the outcome the labels name. |
| `Matcher.IdenticalHedges` | src/kalshi_bot/crossvenue/matching.py:448-676 | For a yes-or-no market of an IDENTICAL level pair, at every settlement tick Kalshi's YES pays exactly when the aligned outcome does, and so exactly one of Kalshi's YES and the other outcome. |
| `Matcher.TimingCredit` | src/kalshi_bot/crossvenue/matching.py:532-560 | Full, partial, neutral or no timing credit, each if and only if the starts or expiries known say so. |
| `Matcher.LabelCredit` | src/kalshi_bot/crossvenue/matching.py:480-513 | Full label credit iff a team is named or all label words stand in the other question; none iff no word does. |
| `Matcher.SignalsAlone` | src/kalshi_bot/crossvenue/matching.py:376-394 | What each of the three signals is worth alone. |
| `Matcher.ScoreInUnit` | src/kalshi_bot/crossvenue/matching.py:376-394 | The blended score is between 0 and 1. |
| `Matcher.SortPairsSorts` | src/kalshi_bot/crossvenue/matching.py:302-309 | The sorted pairs are the same pairs, strongest confidence first and then the higher score. |
| `Matcher.MatchAll` | src/kalshi_bot/crossvenue/matching.py:248-309 | The pairs returned are, sorted, the recorded evaluations of each market with every candidate a full scan ranks first, weighted by rarity over both venues; each is of one market of either side, and its outcome, confidence and blockers are what the two markets' labels, levels, times and sources say; there are as many as candidates that score enough, and an empty side returns none. |
| `Matcher.EveryCandidateIsEvaluated` | src/kalshi_bot/crossvenue/matching.py:282-290 | No candidate found is skipped: its pair is among those gathered whenever it scores enough to be recorded. |
| `Matcher.EveryPairIsRecordedOnce` | src/kalshi_bot/crossvenue/matching.py:282-290 | There are exactly as many pairs as candidates that score enough. |
| `Fees.FeeIsMonotone` | src/kalshi_bot/crossvenue/fees.py:114-134 | A larger basis never costs less, and no fee is negative, under either rounding. |
| `Fees.FeeIsRoundedCharge` | src/kalshi_bot/crossvenue/fees.py:114-134 | The fee is the rate times the basis, raised by less than a cent to whole cents, or moved by at most half a unit of the fifth decimal to five decimals. |
| `Fees.AverageBasisIsLarger` | src/kalshi_bot/crossvenue/fees.py:114-147 | The accumulated basis is at most the basis at the volume-weighted average price. |
| `Fees.AveragePriceOverstates` | src/kalshi_bot/crossvenue/fees.py:114-147 | So is the fee, for any fill over any levels. |
| `Fees.AveragePriceExample` | src/kalshi_bot/crossvenue/fees.py:114-147 | A fill charged $1.26 on its basis and $3.50 at its average price. |
| `Fees.RoundingOnceIsCheaper` | src/kalshi_bot/crossvenue/fees.py:114-134 | One ceiling to the cent costs at most the sum of per-level ceilings, which exceeds it by under a cent a level. |

## Left out

- ExposureBounded: counts a dispatch that ended in an exception at its whole count, because the gate records no fill for it; and assumes every fill newer than the last reconciliation is younger than 24 hours, as `StaleFillsAreForgotten` shows it must (`ReconcilingBoundsExposure` has a condition that can be read off the gate).
- ExecutorFollowsProtocol: assumes an order fills only before its response, as a fill-or-kill or immediate-or-cancel order does; a good-till-canceled order that rests and fills later is outside the exposure claims.
- LedgersAgree: for groups, assumes each ticker's group is fixed and known, because the code does not keep the group ledger in step otherwise.
- WindowsWithinCaps: promises nothing of attempts made before a restart that left no row beyond adding them to the caps, because no gate rebuilt from rows can know of them: an attempt charged and then refused by the order guard (`Forbidden`), one sent at a snapped price of 0 or 1 (`SentOrderReachesTheTrail`), and one whose rows were all dropped on a full queue or not yet written at the crash. `ExecutorTrail` proves that its restarts, with one row for each attempt that did leave one, are those the executor makes.
- CooldownsHold: for the same reason says nothing across a restart of an attempt that left no row, nor of cooldowns over 24 hours.
- WarmStartNoMorePermissive: for the same reason takes every attempt since the last rebuild to have left a row, stamped no earlier than it, and the rows read then to be still stored; `ExecutorWarmStart` derives both for a life in which nothing was hindered or lost. Position caps right after a restart rest on the stored fills of the last 24 hours (`RestoredPosition`): what was filled earlier, or whose resolution was not yet written, is missing until the first poll.
- ExecutorIsASession: starts with the first process ever, on a database without orders, and with a gate configured; order ids are never handed out twice.
- RunWriter: assumes no producer runs after the sentinel, so the slot a sentinel is put back into is free, and that the row-by-row retry meets no failure outside its rows; `Connection.Write` says which rows are lost when it does.
- WriteHand: assumes the same of the retry, and so do the audit-trail results over all interleavings.
- DeliveryIsInOrder: says nothing of wakes written to a connection that then breaks; they may or may not have been delivered.
- HandleConnection: leaves out when acknowledgements are flushed, the `wake_recv` latency rows and the tracking of open connections and tasks.
- MatchAll: leaves out the evidence texts and the statistics, and takes as given tokens, lowered labels, source tokens and whether two labels name one team. Candidate limits below zero are not modelled.
- IdenticalPaysAlike: covers directional and equal comparators; two levels whose wording states no comparison also pass the gate when the numbers agree.
- Refusal and error texts, client order ids and order columns that only copy the answer are single opaque values.
- Floating-point rounding and four-decimal price formatting: reals throughout.
- SQLite itself, its pragmas, locks, write-ahead log and the schema migrations: tables are maps with unique keys, statements succeed or fail, rollback restores the saved value. Rows of one table and their correlation timestamps are reduced to what the properties use.
- asyncio and threads: everything between two awaits, and every queue operation, is one atomic step; clock readings never go backwards.
- HTTP, WebSocket, signing, TLS, sockets, file locks, logging, heartbeats and configuration loading; the kill switch is an input, the balance a reading, `log` an arbitrary function.
- Maker fees (the same function with another rate), the paired read and write limiters, order cancellation and amendment.
- Wire normalization, tokenizing, number, date and team-name parsing.
