# A verified model of the django-q2 cluster

django-q2 is a multi-process task queue for Django. A broker holds signed packages under leases; in every
cluster a pusher leases them and puts them on a task queue, workers run them and put the results on a result
queue, and a monitor saves the results and acknowledges the packages. A sentinel guards these processes,
runs the scheduler and stops the cluster. This project models that machinery in Dafny and proves what it
promises, over every input, every interleaving and every run. `dafny verify dfyconfig.toml` checks it all.

## How it is laid out

**Delivery.** `Ledger` is the delivery protocol with the processes forgotten: rows under a lease, and one
token for each grant of a row to a cluster. `LedgerLaws`, `AttemptBound`, `AttemptLimit`, `AttemptHighest`
and `Numbering` prove its laws over whole runs. `Pipeline` is the system itself (any number of clusters with
candidate lists, queues, pools and monitors, any process dying at any step); each of its steps is proved to
be a step of the protocol, so every execution keeps the laws (`Pipeline`, `PipelineLaws`). `LostMonitors`
builds the executions in which attempt_count passes every bound. `Lease` holds the three brokers as classes,
the race of their compare-and-set loops with rivals, and one abstract lease queue that the `dequeue` of ORM
and of Mongo both refine. `Processes` holds the loops of a pusher and a worker. `Bags` weighs multisets;
`TaskTable` is the Task table with the get and the write of a row as two statements; `Options` holds the
option type and `Arithmetic` two facts about division and sets.

**Saving results.** `SaveTask` is the monitor's loop and `save_task` as methods on the table; `SaveLimit`
lets several monitors interleave between the pruning, the get and the write; `RowHistory` follows one row
through any interleaving and says exactly when an update is lost. `Collate` is `save_cached` for iterables
and other groups, `Chain` the chain step, sync and async.

**Supervision.** `Sweep` is the loop that removes elements from the list it iterates; `Supervision` uses it
for the guard's worker check, the drain loop of `stop` and the cluster statistics. `Timer` is the countdown
shared by worker and guard, `Shutdown` the stop procedure, `Counter` the queue with its own size counter,
`Affinity` the spreading of workers over processors.

**Schedules.** `Calendar` has dates, ordinals, `add_months` and `add_years`; `NextRun` is `calculate_next_run`
for any zone offset function; `Orbits` is iteration of a step with catch-up and skipping; `Scheduler` is the
pass over the schedule table.

## Premises

- A package has one broker row, and its uuid is identified with that row's key. Time is an integer clock that
  never goes back, shared by all clusters; each ORM statement, each transaction and each lock-protected
  section is one step. Which rows a SELECT yields, and in which order, is left open.
- A save may be swallowed by the handler at `django_q/monitor.py:167`; the protocol has a flag for it, and a
  swallowed save reaches no attempt count. Results that are cached, or not kept, never reach MAX_ATTEMPTS.
- Several facts the documentation leaves loose are settled the way the code has them. A monitor finds the
  Task row with one statement, tests and increments in Python, and writes with another, so when two clusters
  hold results of one package (RETRY was exceeded) one save can overwrite the other, a success included;
  attempt_count is at most the number of saved results always, and is that number exactly when no save was
  overtaken (`RowHistory`, `AttemptBound`). Model.save, an UPDATE that falls back to an INSERT, is one step.
  A monitor can die between saving the last attempt and acknowledging it, and each such death allows one
  attempt more. Without such deaths MAX_ATTEMPTS plus the deliveries in flight bounds attempt_count
  (`AttemptLimit`, with the exact condition); with them nothing does (`LostMonitors`). `queue_size` of the
  ORM counts a row at the very instant its lease ends although `dequeue` will not take it yet. A schedule
  that raises rolls the whole pass back; tasks already enqueued in that pass go with it when the broker
  writes in the same transaction, as the ORM broker does on the database of the schedules, and stay
  otherwise. A synchronous chain saves its rows in reverse order, and none if a link raises. An asynchronous
  link that is delivered twice has the rest of its chain enqueued twice. A worker killed inside its publish
  section keeps its timer's lock, and the guard waits for it for good.
- The clock of a scheduler pass stands still. CRON is an oracle that returns a later time or raises. The
  recurring types go forward only if no two zone offsets lie 24 hours apart; a zone that skips a day is shown
  to stall a daily schedule, and the skipping loop with it.
- A worker writes the busy timer in one step. A worker that the guard has replaced does nothing more. During
  `stop`, the monitor leaves only by its STOP, and the guard no longer replaces anyone.
- Iterables: cache entries do not expire, one monitor saves, and sub-tasks carry no chain. They are collated
  exactly when no sub-task is saved twice; `IterableCollates` and `AsyncIterCollates` start from that.

## Model

| member | source | states |
|---|---|---|
| LedgerLaws.LocksGrow | django_q/brokers/orm.py:65-84 | for as long as a row exists no step makes its lock smaller, so a lock value never comes back |
| LedgerLaws.SoleHolder | django_q/brokers/orm.py:73-81 | each grant's token occurs once among all deliveries, wherever they are |
| LedgerLaws.StepOnePlace | django_q/pusher.py:53-83 | every step keeps each delivery in exactly one place: none is duplicated and none disappears |
| LedgerLaws.StepSpaced | django_q/brokers/orm.py:27-28 | every step keeps successive grants of a row RETRY apart |
| LedgerLaws.RemovalIsEntitled | django_q/monitor.py:160-165 | a row leaves the broker only in a step that acknowledges an entitling result or rejects an undecodable payload |
| LedgerLaws.StepNoneDropped | django_q/monitor.py:44-53 | every step keeps the rule that a package without a row has an entitling monitored result or a rejected payload |
| LedgerLaws.MonitoringDecidesRow | django_q/monitor.py:50-53 | the step that monitors a result takes its row out of the broker if it is a success or the package has ack_failure, and leaves it as it was otherwise; no other row changes |
| LedgerLaws.StepFinishedLeft | django_q/monitor.py:50-53 | every step keeps the rule that what was monitored as a success, with ack_failure or at MAX_ATTEMPTS is not in the broker |
| LedgerLaws.StepOnlyKeptSaved | django_q/monitor.py:44-48 | every step keeps the rule that the Task table holds no cached package and no success that is not to be saved |
| LedgerLaws.LookTells | django_q/monitor.py:131-133 | a result for the table, unless something raises: the monitor goes on with the row as it is |
| LedgerLaws.WriteTells | django_q/monitor.py:134-165 | over the row it found, the save leaves a row that succeeded alone and otherwise leaves this result, counted one more; it owes the acknowledgement exactly at MAX_ATTEMPTS or more |
| LedgerLaws.SwallowedTells | django_q/monitor.py:167-168 | a save that raises, before the get or at the write, and a result not for the table leave the table as it is |
| LedgerLaws.RejectionTakesRow | django_q/pusher.py:58-63 | only an undecodable payload is rejected, and its row goes and no other |
| LedgerLaws.StampTells | django_q/pusher.py:67-83 | the attempt stamped is one more than the count read, and 1 when none is read |
| LedgerLaws.GrantedAgainAfterRetry | django_q/brokers/orm.py:27-84 | nothing is forgotten: in every run a package in the broker can be granted again if and only if RETRY has run out since each of its grants, whatever became of those deliveries |
| LedgerLaws.RunInv | django_q/pusher.py:45-88 | all delivery laws together hold in every state of every run |
| AttemptBound.StepCounts | django_q/monitor.py:131-140 | every step keeps attempt_count, in the row and as any monitor has found it, at or below the number of saved results |
| AttemptBound.StepExact | django_q/monitor.py:131-140 | while a package keeps failing, attempt_count is the number of its saved results if and only if no save wrote over a row that was no longer the one its monitor had found |
| AttemptBound.StepBounded | django_q/monitor.py:160-165 | while the row is in the broker, no count is past MAX_ATTEMPTS - 1 by more than the saves that still owe an acknowledgement |
| AttemptBound.StepOwedExactly | django_q/monitor.py:160-165 | for a failing package none of whose saves was overtaken, it is past by exactly that number |
| AttemptBound.StepAfterExit | django_q/brokers/orm.py:89-93 | once the row has gone it stays gone, and no count can pass what it is plus the results still to be saved |
| AttemptBound.AttemptsAfterExit | django_q/monitor.py:131-165 | for all time after the row has left, attempt_count is at most MAX_ATTEMPTS - 1 plus the owed saves plus the deliveries in flight when it left |
| AttemptLimit.ExcessIsOwed | django_q/monitor.py:160-165 | while the row is there, attempt_count is past MAX_ATTEMPTS - 1 by at most the owed saves, held or lost; failing and with no save overtaken, by exactly those, and it keeps to the held ones if and only if no monitor died owing one |
| AttemptLimit.BothOweForOne | django_q/monitor.py:131-165 | two monitors that found the row at one below the maximum count one attempt and both owe for it: without the premise the equality fails |
| AttemptLimit.PlainBoundNow | django_q/monitor.py:160-165 | MAX_ATTEMPTS - 1 plus the live deliveries bounds attempt_count if the lost owed saves are no more than the live deliveries that owe none; failing and with no save overtaken, only then |
| AttemptLimit.PlainBoundAfterExit | django_q/monitor.py:131-165 | if no monitor died owing an acknowledgement, MAX_ATTEMPTS - 1 plus the deliveries live when the row left bounds attempt_count for all later time |
| AttemptHighest.HighestCount | django_q/monitor.py:131-140 | once the row has gone, some continuation brings a failing package to its count plus the deliveries still to be saved, and none brings it higher |
| AttemptHighest.PlainBoundForGood | django_q/monitor.py:131-165 | every continuation keeps to the plain bound if and only if the lost owed saves are no more than the live deliveries that can add none |
| AttemptBound.NoOverlap | django_q/brokers/orm.py:65-84 | if every delivery is handled within RETRY, a live delivery is the latest of its package and the only live one |
| Numbering.TableCountsEarlier | django_q/pusher.py:67-83 | under that premise the attempt_count a pusher reads is the number of earlier deliveries |
| Numbering.GrantFindsNone | django_q/brokers/orm.py:65-84 | under that premise a grant finds no delivery of its row under way |
| Numbering.StepFew | django_q/monitor.py:160-165 | under that premise no step grants more than MAX_ATTEMPTS deliveries |
| Numbering.NoneOvertakenInTime | django_q/monitor.py:131-140 | under that premise no save is overtaken: what a monitor found is still there when it writes |
| Numbering.StampedInOrder | django_q/pusher.py:67-83 | an always-failing package is stamped 1, 2, 3 and so on, each save leaves the count stamped, and deliveries and attempt_count stop at MAX_ATTEMPTS |
| Pipeline.MeansCasWon | django_q/brokers/orm.py:73-81 | a compare-and-set that succeeds, however stale the SELECT it started from, is one atomic grant of an expired lease |
| Pipeline.MeansCasLost | django_q/brokers/orm.py:82-83 | one that fails changes nothing but the cluster's own candidate list |
| Pipeline.MeansReject | django_q/pusher.py:58-63 | an undecodable payload is failed: the row goes and the delivery is rejected |
| Pipeline.MeansPush | django_q/pusher.py:67-83 | handing a task over stamps the one delivery and changes nothing else of the protocol's state |
| Pipeline.MeansTake | django_q/worker.py:60-63 | a worker taking a task loses and duplicates nothing |
| Pipeline.MeansPublish | django_q/worker.py:125-134 | publishing finishes the one delivery, even though worker and result queue both change |
| Pipeline.MeansLook | django_q/monitor.py:131-133 | the get of the row is one step of the protocol, which leaves the monitor with the row as it was |
| Pipeline.MeansWrite | django_q/monitor.py:134-158 | the save or create after it is the next one, whichever branch it takes and whatever was written in between |
| Pipeline.MeansAck | django_q/monitor.py:50-53 | the monitor's last step closes the delivery and takes the row out exactly for a success or ack_failure |
| Pipeline.MeansDie | django_q/cluster.py:213-259 | a killed process loses exactly the deliveries it held |
| Pipeline.PipelineRefinesLedger | django_q/cluster.py:279-293 | every execution of any number of clusters is a run of the delivery protocol |
| Pipeline.DeliveredInOnePlace | django_q/pusher.py:53-83 | in every execution each delivery is in exactly one hand, queue, pool slot, monitor, or the bags of monitored, rejected and lost |
| Pipeline.NoPackageDropped | django_q/monitor.py:44-53 | whichever processes die, a package stays in the broker until a monitored result entitles its removal or its payload was rejected |
| Pipeline.FinishedLeavesBroker | django_q/monitor.py:50-53 | in every execution, once a success of a package is monitored, or a failure with ack_failure, or one saved at MAX_ATTEMPTS, the package is not in the broker |
| Pipeline.RejectedLeavesBroker | django_q/pusher.py:58-63 | in every execution a package whose payload was rejected is not in the broker |
| Pipeline.SelectableAfterRetry | django_q/brokers/orm.py:65-70 | in every execution the filter of dequeue holds of a row that was granted if and only if RETRY has passed since each of its grants |
| Pipeline.GrantsApart | django_q/brokers/orm.py:58-84 | no two clusters hold one lease: two grants of a row lie more than RETRY apart |
| PipelineLaws.AttemptsInOrder | django_q/pusher.py:67-83 | the numbering law, about the queues and processes of any execution in which deliveries are handled within RETRY |
| PipelineLaws.AttemptsCountSaves | django_q/monitor.py:131-140 | in any execution attempt_count is at most the saved results, and for a failing package equal to them if and only if they were saved in turn |
| PipelineLaws.InTimeIsInTurn | django_q/monitor.py:131-140 | in an execution in which deliveries are handled within RETRY, results are saved in turn |
| PipelineLaws.AttemptsBounded | django_q/monitor.py:131-165 | the attempt bound with its term for owed saves, about any package of any execution whatever its timing |
| PipelineLaws.AttemptsKeepToLimit | django_q/monitor.py:131-165 | the plain bound, about any execution in which no monitor died between saving at the maximum and acknowledging |
| PipelineLaws.AttemptsKeepToHeld | django_q/monitor.py:160-165 | at any moment of an execution attempt_count keeps to the saves held unacknowledged if no monitor died holding one; failing and saved in turn, only then |
| LostMonitors.AttemptsWithoutBound | django_q/monitor.py:131-165 | when monitors die there, no bound holds: for every MAX_ATTEMPTS and every n there is an execution that saves n attempts with the package still in the broker |
| Lease.Orm.Enqueue | django_q/brokers/orm.py:58-63 | a new row that can be leased at once; no other row changes |
| Lease.Orm.Select | django_q/brokers/orm.py:66-70 | only expired rows of this queue with the lock seen, none twice, all of them when fewer than BULK |
| Lease.Orm.Grab | django_q/brokers/orm.py:71-84 | the update loop, with rivals acting before each UPDATE, leaves the table and the task list the race defines |
| Lease.Orm.Dequeue | django_q/brokers/orm.py:65-84 | returns, in the order of the SELECT and with their payloads, exactly the selected rows nobody touched before their own UPDATE; without rivals all of them, leased until RETRY after it with every other row unchanged; with rivals, a history of one abstract lease queue |
| Lease.RaceRefines | django_q/brokers/orm.py:71-84 | whatever the SELECT saw and the rivals do before each UPDATE, the update loop is a history of that queue with the strict boundary |
| Lease.RaceTells | django_q/brokers/orm.py:71-84 | what the update loop wins: the candidates untouched at their own UPDATE, in order; all of them, and no other row changed, when nobody else acts |
| Lease.OrmSizesAddUp | django_q/brokers/orm.py:30-42 | queue_size and lock_size add up to the rows of the queue, and queue_size exceeds what dequeue can take by the rows whose lease ends at this instant |
| Lease.RivalPushesOn | django_q/brokers/orm.py:65-81 | a rival whose clock does not go back between its SELECT and its UPDATE pushes the lock strictly forward |
| Lease.LockOnlyGrows | django_q/brokers/orm.py:73-81 | whatever any number of such rivals do, a row's lock only grows |
| Lease.TakenIsTaken | django_q/brokers/orm.py:74-78 | no ABA: once a rival has leased the row, the compare-and-set fails whatever was done after |
| Lease.WonIffUntouched | django_q/brokers/orm.py:73-84 | dequeue returns exactly the candidates that nobody had touched at their own UPDATE |
| Lease.Mongo.Enqueue | django_q/brokers/mongo.py:58-62 | the document starts as if its lease had begun RETRY ago |
| Lease.Mongo.Dequeue | django_q/brokers/mongo.py:64-71 | finds a document exactly when one is due at its first clock reading, and is then one lease of the abstract queue at its second, with the lax boundary |
| Lease.BoundaryTells | django_q/brokers/mongo.py:13-14 | one operation tells the strict queue from the lax one if and only if it leases at the boundary instant |
| Lease.KindsAgree | django_q/brokers/mongo.py:58-71 | over any history without such a lease, both queues grant the same leases at the same times |
| Lease.DequeuesDiffer | django_q/brokers/mongo.py:38-42 | holding the same leases, the two dequeues can take the same packages if and only if no lease ends at that instant; the two queue sizes agree regardless |
| Lease.Redis.Dequeue | django_q/brokers/redis_broker.py:21-24 | pops the head, or nothing from an empty list |
| Lease.RedisDeliversOnce | django_q/brokers/redis_broker.py:18-24 | over any pushes and pops the deliveries are a prefix of the pushes: each package at most once, in order |
| Processes.Pusher.Push | django_q/pusher.py:53-83 | one turn puts one job on the task queue for each decodable row, in order, with its receipt, this cluster and the attempt to come, and fails exactly the others |
| Processes.HandedIsHanded | django_q/pusher.py:53-83 | the job of the i-th decodable row stands at position i, stamped one past the count in the table, or 1 without one |
| Processes.EveryRowHandled | django_q/pusher.py:56-83 | every leased row is accounted for once: handed over or failed, never both and never neither |
| Processes.Worker.Turn | django_q/worker.py:61-145 | one task gives one report, a success exactly if it returned, and the timer value tells whether and why the worker leaves: 0 after a timeout, else -2 at RECYCLE or by the memory check |
| Processes.Worker.Work | django_q/worker.py:60-146 | the whole loop: the i-th new report is of the i-th task of the queue, a success exactly if that task returned, with its value or its error; where it stops, what the timer shows and what is left of the queue |
| Processes.ShiftTells | django_q/worker.py:60-146 | the function behind the loop does so for every queue, count and memory check |
| Processes.ShiftIsDone | django_q/worker.py:60-146 | what that function leaves, by the list of tasks done: the reports, the count, the timer and the rest of the queue |
| Processes.WorksFromTheFront | django_q/worker.py:60-146 | a worker reports the tasks at the front, each once and in order, leaves only after the last, and never passes RECYCLE |
| Processes.TurnIsFourSteps | django_q/worker.py:91-145 | a turn of the loop is four enabled steps of the timer protocol with the same outcome; while the task runs the timer shows its own timeout, or else the worker's, and three seconds |
| Processes.LoopIsRun | django_q/worker.py:53-146 | for every queue the whole loop is a run of the timer protocol that ends with the same timer, count and exit |
| SaveTask.Monitor.FindOldest | django_q/models.py:172-189 | last() of the successes is an oldest one |
| SaveTask.Monitor.Prune | django_q/monitor.py:119-128 | the pruning transaction deletes the oldest success under the same limit, exactly when the limit is reached |
| SaveTask.Monitor.Save | django_q/monitor.py:77-168 | the whole new table, and the row acknowledged exactly when the count reached MAX_ATTEMPTS |
| SaveTask.Monitor.Handle | django_q/monitor.py:44-53 | the row leaves exactly for a success, ack_failure or MAX_ATTEMPTS |
| SaveTask.Monitor.Run | django_q/monitor.py:44-74 | every result before STOP is saved and acknowledged, in order, and none after; the STOP is taken |
| SaveTask.PruneTells | django_q/monitor.py:105-128 | for a success with SAVE_LIMIT or more under its limit one oldest of them is deleted, and nothing in any other case; a package without a group is limited over all |
| SaveTask.SaveTells | django_q/monitor.py:84-165 | which of the five outcomes a save has: none for a success not to be saved, a new row, a stop at another name, a success left alone, a failure replaced and counted; and in each whether MAX_ATTEMPTS is reached |
| SaveTask.RunAcknowledges | django_q/monitor.py:44-53 | a run takes no rows out but those of its results, and out of those each with a success or ack_failure |
| SaveTask.LeavesAfterMax | django_q/monitor.py:160-165 | a task that keeps failing, among the results of others: its row counts its results, and it stays in the broker exactly as long as they are fewer than MAX_ATTEMPTS, for ever if that is 0 |
| SaveTask.SuccessIsFinal | django_q/monitor.py:131-140 | neither transaction touches a success that is there before and after |
| SaveTask.FailuresAreNeverPruned | django_q/models.py:186-189 | pruning leaves every failed row as it is |
| SaveTask.RedeliveryReplaces | django_q/monitor.py:119-158 | a redelivered result replaces its own success exactly when that is the pruning's victim |
| SaveLimit.PruningMakesRoom | django_q/monitor.py:119-128 | after pruning for a success, its limit has room for one more, and no more was deleted than needed |
| SaveLimit.StepWithinLimit | django_q/monitor.py:119-158 | every step of every monitor, pruning, get and write apart, keeps the overshoot bound |
| SaveLimit.OvershootIsBounded | django_q/monitor.py:119-158 | in every interleaving of M monitors, successes stored plus monitors about to store one are at most SAVE_LIMIT + M - 1 |
| SaveLimit.OvershootHappens | django_q/monitor.py:119-158 | the bound is reached for every SAVE_LIMIT and every M: some interleaving leaves SAVE_LIMIT + M - 1 successes |
| SaveLimit.SuccessMovesWindow | django_q/monitor.py:119-158 | one more success moves the window of kept successes on by one |
| SaveLimit.TheLastAreKept | django_q/models.py:172-176 | one monitor, distinct successes in stopped order: the Success table is exactly the last SAVE_LIMIT of them |
| RowHistory.StepKeepsSuccess | django_q/monitor.py:131-140 | a step changes a success, other than by pruning it, if and only if it is the write of a monitor that had found the row before |
| RowHistory.SuccessStays | django_q/monitor.py:131-140 | a success that no monitor holds as it was before keeps result, stop time and attempt_count for as long as its row exists, under any interleaving |
| RowHistory.SafeIffNoneHoldsOld | django_q/monitor.py:131-140 | a success survives every continuation if and only if no monitor holds the row as it was before |
| RowHistory.LostUpdate | django_q/monitor.py:131-140 | the lost update: a failure found before is saved over a success, and after three results the count says two |
| RowHistory.AloneSuccessIsSafe | django_q/monitor.py:131-140 | under one monitor a success is safe at every moment |
| RowHistory.StepKeepsFailure | django_q/models.py:202-204 | no step of any monitor deletes a failed row, and only a save of its own task changes it |
| RowHistory.CountsStores | django_q/monitor.py:131-158 | over any run attempt_count is at most the number of results stored, and equal to it if and only if none was stored between the get and the write of another |
| RowHistory.AloneCountsExactly | django_q/monitor.py:131-158 | under one monitor attempt_count is the number of results stored |
| Collate.Cache.SaveCached | django_q/monitor.py:171-227 | the new cache and the packages handed to save_task, raising and recursive branches included |
| Collate.Cache.Collect | django_q/monitor.py:187-190 | raises if and only if an entry is missing, and otherwise yields the results in list order |
| Collate.NotTheLast | django_q/monitor.py:205-225 | before the last sub-task the list grows by one key with a live entry, and nothing else changes |
| Collate.TheLast | django_q/monitor.py:183-204 | the last one leaves one combined result in place of every key of the iterable |
| Collate.ForeignStep | django_q/monitor.py:171-227 | saving any other package, collating another iterable included, does not touch this one |
| Collate.IterableCollates | django_q/monitor.py:171-225 | over any sequence of saves: a live entry per finished sub-task in completion order, and from the N-th on exactly one combined result and no other key |
| Collate.GroupKeepsAll | django_q/monitor.py:176-225 | a cached group that is no iterable, over any saves among any others: every save is listed in order, none is collated, and each key has the result saved last under it |
| Collate.Client.AsyncIter | django_q/tasks.py:447-472 | as many packages are queued as there are arguments, the i-th with the i-th argument, an id of its own, the returned group, the count and the cached flag; the original arguments are stored |
| Collate.FinishedAreIterable | django_q/tasks.py:446-472 | finished sub-tasks of one call, none twice, are at most as many as queued, and if as many, all of them |
| Collate.AsyncIterCollates | django_q/tasks.py:447-472 | from the call to the result: exactly one combined result under the returned id, with one element for each argument, which is the result of the run that got that argument |
| Collate.CollatesIffNoneTwice | django_q/monitor.py:171-225 | N >= 2 and every sub-task saved, in any order: one combined result with the N results and no other key is left if and only if no sub-task was saved twice; otherwise the group list stays |
| Collate.OneSubTask | django_q/monitor.py:183-204 | an iterable of one sub-task collates at its first save, and further saves of it do no harm |
| Chain.Site.AsyncChain | django_q/tasks.py:475-497 | a synchronous chain, exceptions included, equals a recursion on its remaining length |
| Chain.Site.SaveToTable | django_q/monitor.py:82-102 | an exception of the nested chain leaves through the finally before anything is saved |
| Chain.Site.SaveToCache | django_q/monitor.py:205-225 | an exception of the nested chain is swallowed, with the key listed but its entry not written |
| Chain.CachedChain | django_q/monitor.py:205-225 | a cached synchronous chain: nested signals, list in chain order, entries for all but the raising link and the one before it |
| Chain.TableChain | django_q/monitor.py:82-102 | an uncached synchronous chain: nested signals, rows in reverse order, none at all if a link raises |
| Chain.SyncSignalsBalance | django_q/monitor.py:86-102 | whatever a link does, pre and post signals are balanced and each link that ran was enqueued once, in order and in one group |
| Chain.RanUpToStop | django_q/monitor.py:84-103 | the links a synchronous chain enqueues are the first ones, up to one that raises or, in the table, is not kept, or to the end |
| Chain.CachedChainComplete | django_q/tasks.py:765-782 | a cached synchronous chain ends with its list in chain order and every key present if and only if no link raises |
| Chain.Progress.Save | django_q/monitor.py:86-102 | saving a link's result enqueues exactly the next one, in the same group, between its two signals |
| Chain.Progress.RunDry | django_q/tasks.py:475-497 | each link delivered once: the queue runs dry with flat signals around the links up to the first success not kept, all in the chain's group |
| Chain.FlatBalances | django_q/monitor.py:86-102 | those signals are balanced, each pair closed before the next opens, and the links enqueued are the chain in order |
| Chain.Progress.DeliverAll | django_q/monitor.py:82-102 | any deliveries of queued links, in any order and repeated where a receipt was lost, leave the queue and log that Played defines |
| Chain.LogOfChain | django_q/monitor.py:86-102 | however a chain is delivered, its signals are balanced, its links are in one group, and the log names each job put on the broker |
| Chain.EnqueuedOnceAndExtra | django_q/monitor.py:82-102 | a chain worked off to the end: each link it gets to was enqueued once, and once more for every extra delivery of a link before it |
| Chain.OneExtraDoublesTheRest | django_q/monitor.py:82-102 | with one extra delivery, of link i, the links after i are enqueued exactly twice and the others once |
| Sweep.PassLeaves | django_q/cluster.py:318-326 | a loop that removes what it stands on leaves the list in which the element after each removed one was skipped |
| Sweep.OnePass | django_q/cluster.py:318-326 | one pass keeps size (when refilling), order and every live element, and leaves at most half of the due ones, rounded down |
| Sweep.PassesHalve | django_q/cluster.py:316-326 | with nothing new due, j passes leave at most the due count halved j times |
| Sweep.AllGone | django_q/cluster.py:316-326 | floor(log2 n) + 1 passes replace or remove every due element |
| Sweep.PassesKeep | django_q/cluster.py:316-326 | whatever becomes due in whichever pass, the size is kept and an element never due is never dropped |
| Sweep.BlockHalves | django_q/cluster.py:318-326 | the bound is reached: a block of due workers is halved exactly by each pass |
| Supervision.Sentinel.constructor | django_q/cluster.py:279-293 | a pool of pool_size distinct workers, a monitor and a pusher |
| Supervision.Sentinel.Reincarnate | django_q/cluster.py:213-277 | exactly the one process is replaced by a new one, and counted |
| Supervision.Sentinel.CheckWorkers | django_q/cluster.py:318-326 | the guard's loop is one refilling pass; each removal is one reincarnation |
| Supervision.Sentinel.Guard | django_q/cluster.py:316-332 | pool size kept, live workers kept, at most half of the due ones left, monitor and pusher alive again, reincarnations counted exactly |
| Supervision.Sentinel.GuardFor | django_q/cluster.py:315-332 | the guard's loop replaces every due worker within floor(log2 n) + 1 turns, and monitor and pusher in the first |
| Supervision.Sentinel.Drain | django_q/cluster.py:360-365 | stop's loop is one removing pass after another until the pool is empty |
| Supervision.DrainEnds | django_q/cluster.py:360-365 | once all workers are dead the pool is empty within floor(log2 n) + 1 passes |
| Supervision.StatCache.SetStat | django_q/brokers/__init__.py:98-116 | keys stay distinct; a new key first clears the expired ones and goes to the end |
| Supervision.StatCache.GetStats | django_q/brokers/__init__.py:128-147 | reports the live keys it meets, all of them exactly under the condition of OneCallReportsAll, and leaves what a removing pass leaves |
| Supervision.CallsConverge | django_q/brokers/__init__.py:136-147 | repeated calls never drop a live key, and after floor(log2 n) + 1 the list and the report are exactly the live keys |
| Supervision.ListedAfterIffBefore | django_q/brokers/__init__.py:136-146 | a call writes back the list it read: a live cluster is listed after it if and only if it was listed when the call began |
| Supervision.OneCallReportsAll | django_q/brokers/__init__.py:136-147 | one call reports every live cluster if and only if each live key stands behind an even number of expired ones since the live key before it |
| Timer.FindsZero | django_q/cluster.py:318-326 | the timer shows 0 at the n-th visit if and only if timeout + 3 is at most n whole cycles, exactly |
| Timer.NoTimeout | django_q/worker.py:54-58 | a worker without a timeout is never counted down |
| Timer.StepInv | django_q/worker.py:91-145 | every step of worker, guard and death keeps the countdown exact and the lock exclusive |
| Timer.PublishExcludesGuard | django_q/worker.py:125-145 | in every run publishing and checking exclude each other, every task but the current one is published once, and RECYCLE is never passed |
| Timer.CutOffExactly | django_q/cluster.py:318-326 | a running worker is replaced if and only if timeout + 3 is exactly the cycles counted, and never before timeout + 3 seconds have passed |
| Timer.PublishingEndsCountdown | django_q/worker.py:125-145 | a worker that entered its publish section is not replaced for that countdown |
| Timer.DeadIsReplaced | django_q/cluster.py:318-323 | a worker that has died is replaced by the next check of it, whatever its timer shows |
| Timer.GoneDoesNothing | django_q/worker.py:60-145 | after its pill, its death, a timed-out, last or too heavy task, or its replacement a worker takes no further step |
| Timer.GuardBlockedIffDiedPublishing | django_q/cluster.py:318-326 | the guard can come to hold the lock and check a worker again if and only if that worker did not die inside its publish section |
| Shutdown.StepInv | django_q/cluster.py:343-381 | every step of stop, worker, pusher and monitor keeps the pill, queue and result laws |
| Shutdown.NobodyWaitsForever | django_q/cluster.py:353-358 | there are always at least as many pills, sent or to be sent, as live workers, so a waiting worker has something to take |
| Shutdown.PillTakenLast | django_q/pusher.py:87-88 | from the moment any worker takes a pill, every task ever pushed has been taken and none is pushed any more |
| Shutdown.OnePillEach | django_q/cluster.py:353-355 | every pill serves one worker: those taken and those in the queue are those sent |
| Shutdown.AllHandedOver | django_q/pusher.py:53-88 | unless it dies, the pusher hands over all it has leased, in order, before it goes |
| Shutdown.LeavesExactlyBy | django_q/worker.py:60-145 | a worker leaves by death, a pill or its last result, and only so |
| Shutdown.MonitoredBeforeClosing | django_q/cluster.py:366-370 | results are monitored in order, and the monitor leaves only with all of them monitored and every worker gone |
| Shutdown.StopEnds | django_q/cluster.py:343-381 | once the pusher is gone, stop takes at most a bounded number of further steps |
| Shutdown.RestsOnlyWhenDone | django_q/cluster.py:343-381 | unless something dies, it comes to rest only with the monitor gone and every result monitored |
| Counter.StepInv | django_q/queues.py:28-31 | the counter's lock makes its read and write one update: at most one process inside, and what it read still holds |
| Counter.CountsTheQueue | django_q/queues.py:68-83 | in every interleaving counter plus uncounted puts less uncounted gets is the queue's length; qsize and empty are exact when nothing is pending |
| Counter.DeadDoNothing | django_q/queues.py:68-83 | a process that has died counts nothing any more, so what it owes the counter stays owed |
| Counter.CanBeNegative | django_q/queues.py:68-83 | the error bound is reached: a run in which qsize is -1 |
| Affinity.Deal | django_q/cluster.py:410-414 | the inner loop deals the next n processors in rotation |
| Affinity.SetCpuAffinity | django_q/cluster.py:403-415 | the k-th assignment of all is processor k modulo the count; no assignment when n is 0 or covers all processors |
| Affinity.DealtDistinct | django_q/cluster.py:408-414 | each worker gets n different processors |
| Affinity.LoadsDiffer | django_q/cluster.py:408-415 | after any number of workers the loads of two processors differ by at most one |
| Calendar.OrdinalRoundTrip | django_q/utils.py:43-45 | a valid date is recovered from its day number |
| Calendar.FromOrdinalRoundTrip | django_q/utils.py:43-45 | a day number in range is recovered from its date, which is valid |
| Calendar.AddMonthsLands | django_q/utils.py:24-29 | the result is a valid date exactly the given number of months on, its day clamped to the month; it fails exactly outside years 1 to 9999 |
| Calendar.AddYearsIsTwelveMonths | django_q/utils.py:35-45 | adding n years by the March-1 shift equals adding 12 n months by clamping, for every date and n, failures included |
| Calendar.AddMonthsComposes | django_q/utils.py:24-29 | adding m months and then n equals adding m + n if and only if the first step's clamping does not show in the second |
| Calendar.OneMonthStep | django_q/models.py:363-364 | one month on is 28 to 31 days on |
| Calendar.IterateClamps | django_q/models.py:363-370 | stepping month by month advances the month by one each time while the day never increases |
| Calendar.IterateIsJump | django_q/utils.py:24-29 | k single months equal one jump of k if and only if no month on the way is shorter than the day the jump lands on |
| NextRun.KeepsWallClock | django_q/models.py:372-388 | a corrected run keeps local wall-clock time if and only if the offset at the corrected instant is that at the uncorrected one |
| NextRun.GapMovesWallClock | django_q/models.py:372-388 | a run due in the hour skipped by daylight saving comes an hour early on the local clock |
| NextRun.ClockTypes | django_q/models.py:353-356 | MINUTES adds max(1, minutes) minutes and HOURLY one hour, without correction |
| NextRun.DayTypes | django_q/models.py:357-388 | DAILY, WEEKLY and BIWEEKLY add 1, 7 and 14 days, less what the zone's offset gains between the two instants |
| NextRun.CalendarTypes | django_q/models.py:363-388 | MONTHLY, BIMONTHLY, QUARTERLY and YEARLY go to the date 1, 2, 3 or 12 months on in UTC, the day clamped to that month, at the same time of day; all but YEARLY less what the offset gains; none beyond year 9999 |
| NextRun.AddIsPositive | django_q/models.py:352-370 | every step is at least a minute, and a day for all but the minute and hour types |
| NextRun.GoesForward | django_q/models.py:342-388 | a next run lies later if and only if the offset did not jump ahead by the whole step |
| NextRun.StepperGoesForward | django_q/scheduler.py:77-81 | with no offset swing of a day, every recurring type makes strict progress, so the skipping loop ends |
| NextRun.SkippedDayNeverPasses | django_q/scheduler.py:77-81 | in a zone that skips a day, a daily schedule stuck before it never passes now: the loop would not end |
| NextRun.PeriodicOnLocalClock | django_q/models.py:372-388 | daily, weekly and biweekly runs: the k-th is k periods on by the local clock |
| NextRun.SameLocalTime | django_q/models.py:372-388 | monthly kinds keep the local time of day along a whole orbit |
| Orbits.Skip | django_q/scheduler.py:77-81 | the loop ends at the first point of the orbit after now, at least one step on; with catch-up at the next point |
| Orbits.FirstBeyondUnique | django_q/scheduler.py:77-81 | that point is determined by the orbit and now |
| Orbits.CatchUpFiresAll | django_q/scheduler.py:76-83 | catch-up passes fire every orbit point before now once each, in order, and stop at the first one not before now |
| Orbits.SkipIsCatchUp | django_q/scheduler.py:76-83 | skipping and catching up end at the same run if and only if now is not itself a run |
| Scheduler.Table.Pass | django_q/scheduler.py:33-140 | a pass processes exactly the due rows, one task each for the run intended, or is rolled back, with its tasks if the broker enqueues in the same transaction |
| Scheduler.DueTells | django_q/scheduler.py:30-46 | the rows a pass runs: a run before now, a count other than 0, and this cluster's name, or none for the default cluster |
| Scheduler.PassTells | django_q/scheduler.py:38-137 | row by row: a pass is committed exactly if none of these rows raises, each then has its task and its new row and the others are unchanged; else nothing changes |
| Scheduler.RowsRun | django_q/scheduler.py:54-137 | what becomes of one of them: raising, deletion of a ONCE row with a negative count, 0 for any other ONCE row, and else the next run with the count less one, or -1 if negative |
| Scheduler.Table.Loop | django_q/scheduler.py:39-137 | the loop over the due rows in any order, rolling back when one raises |
| Scheduler.Table.ProcessRow | django_q/scheduler.py:54-137 | one row: the new next_run and repeats, the ONCE cases, and when it raises |
| Scheduler.Table.PassAll | django_q/scheduler.py:33-140 | pass after pass by any clusters: the records of the calls link the tables and account for every task in the queue |
| Scheduler.CommittedIsVisit | django_q/scheduler.py:33-140 | a committed pass over the table is, for each row, one committed visit |
| Scheduler.RolledBackIsVisit | django_q/scheduler.py:33-140 | a rolled-back pass is, for each row, an uncommitted visit; it leaves a task if and only if the pass had reached the row and the broker enqueues outside the transaction |
| Scheduler.SeriesIsVisits | django_q/scheduler.py:33-140 | over any series of passes, a row, its tasks and those that outlived a rolled-back pass are those of its visits |
| Scheduler.CreatedAndLeft | django_q/scheduler.py:85-91 | over any series of passes, created tasks plus repeats are the initial count plus the tasks that outlived a rolled-back pass; with a broker in the transaction there are none |
| Scheduler.EndlessAndNever | django_q/scheduler.py:85-91 | over any series of passes a negative count never ends the schedule and is -1 after the first committed run; with repeats 0 no task is created |
| Scheduler.OnceInSeries | django_q/scheduler.py:130-138 | over any series of passes a ONCE schedule creates at most one task but for those that outlived a rolled-back pass, and is then deleted if its count was negative and at 0 otherwise |
| Scheduler.RunLands | django_q/scheduler.py:76-83 | a committed run moves next_run on: to the next point with catch-up, else to the first point of the orbit after now |
| Orbits.SkipLands | django_q/scheduler.py:77-81 | the skipping loop lands on the first point of the orbit after now |
| Scheduler.PassesCatchUp | django_q/scheduler.py:76-83 | with catch-up on, repeated passes create one task for each orbit point before now, for that instant and in order, as long as repeats last, and end at the same next_run |
| Scheduler.RepeatsCountDown | django_q/scheduler.py:85-91 | over any visits, tasks created plus repeats is the initial count, but for tasks of rolled-back passes; it stops at 0 |
| Scheduler.NegativeIsForever | django_q/scheduler.py:85-91 | a negative count never ends the schedule and is -1 from the first committed run on |
| Scheduler.ZeroNeverFires | django_q/scheduler.py:41-41 | a schedule with repeats 0 never creates a task |
| Scheduler.OnceIsOnce | django_q/scheduler.py:130-138 | a ONCE schedule creates at most one task in a committed pass, and is then deleted if its count was negative and at 0 otherwise |

## Left out

- SQS and IronMQ, which wrap remote clients, and the Redis broker's statistics methods.
- Signing and pickling: a payload decodes or it does not. Django's transactions and caches are atomic steps; cache expiry is left out, except that statistics may be gone at any call.
- Process spawning, SIGALRM, multiprocessing's feeder threads (a put is one step), psutil beyond the memory check as an oracle, process titles, logging, hooks, signals other than the chain ones.
- The final wait of `stop` is bounded by the timeout at `django_q/cluster.py:376`; the model's monitor may take as long as it needs.
- `Shutdown` removes dead workers one at a time; how the real loop skips some is in `Supervision`, and the two are not composed.
- `result`, `fetch` and the other polling lookups, `AsyncTask`, and the bookkeeping of the `Iter` and `Chain` classes: only easy members.
- `Sentinel.status`, admin, management commands, configuration parsing, the terminal monitor, humanhash, migrations.
- croniter: CRON's next run is an oracle.
- Pipeline.NoPackageDropped: a package whose row left on MAX_ATTEMPTS or ack_failure counts as finished though it failed, as in the source.
- Timer.GuardBlockedIffDiedPublishing: one worker and its lock; that the guard then checks no other worker either follows from its loop and is not modelled.
- Timer.CutOffExactly: the two writes by which a worker starts its countdown are one step; a guard visit between them is not modelled.
- Timer.StepInv: timer values are real numbers; the 32-bit rounding of the shared float is left out, and is exact for the usual cycles.
- RowHistory.CountsStores: starts before the row exists and stops when it is pruned; a row created again counts from one again, as in the source.
- SaveLimit.OvershootIsBounded: leaves out SAVE_LIMIT_PER "group", where a package without a group is limited over all rows.
- SaveLimit.TheLastAreKept: of successes with equal stop times the database may pick either as oldest; the model takes the smaller id, and the theorem needs distinct times.
- Lease.Orm.Grab: rivals act between two updates, not inside one.
- Supervision.CallsConverge: no set_stat falls between the read and the write of the key list; Supervision.ListedAfterIffBefore says what becomes of one that does.
- Supervision.Sentinel.Guard: a worker that dies during a pass is due in the next one; the pass has one due set.
- Collate.IterableCollates: a combined result carries the success flag of the last sub-task only, as in the source; that all succeeded is not claimed.
- Collate.Client.AsyncIter: that an argument which is no tuple is wrapped in one is left out.
- Chain.Progress.RunDry: other work on the broker is left out, as it does not touch a chain's jobs; so it is for Chain.Progress.DeliverAll.
- Scheduler.Table.Pass: rows are locked for the whole pass and enqueueing does not raise; a broker is inside the pass's transaction or outside it, and nothing else of a rolled-back pass, such as signals, is modelled; argument parsing is one flag per row.
- NextRun.KeepsWallClock: month lengths are taken from the UTC date, as in the source, so near midnight a monthly step can differ from one on local dates.
