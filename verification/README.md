# A verified model of the job queue

The repository is a distributed job queue: a store of jobs in Postgres, workers that lease jobs for a limited time and
report what came of them, a reaper that recovers jobs whose lease ran out, a service with counters, and a live event
stream per job. This project models the parts in which the parties only meet in the database, and proves what holds of
every run of them.

`dafny verify dfyconfig.toml` checks everything.

## How it is organised

| file | what it holds |
|---|---|
| `Status.dfy` | statuses, the documented transition table, and the status changes the store makes |
| `Backoff.dfy` | the two implementations of the retry delay, jitter, and total delays |
| `Model.dfy` | requests, validation and defaults |
| `Lifecycle.dfy` | what each statement of the store does to one job: row, attempt rows, dead-letter entry |
| `Invariants.dfy` | what holds of one job after every legal history |
| `Protocol.dfy` | leases and releases over a whole history, spacing of attempts |
| `Record.dfy` | what the tables say of a job, column by column, told from what happened to it |
| `Mirror.dfy` | how the dead-letter table and the attempt rows mirror the job, and exactly which actions spoil that |
| `Tables.dfy` | the whole store as a state, its statements as events, and the projection to single jobs |
| `Safety.dfy` | runs of the whole store; runs and histories realise each other |
| `Store.dfy` | class `PgStore`: every operation, statement by statement, proved against `Tables.Apply` |
| `Leasing.dfy` | concurrent lease transactions with row locks; draining the queues |
| `Serializing.dfy` | an interleaving of lease transactions as one run of atomic statements |
| `Races.dfy` | concurrent submissions |
| `Sessions.dfy` | operations of several statements, among other sessions, as runs |
| `Reaper.dfy` | sweeps, repeated sweeps, and the maintenance task's gauges |
| `Execution.dfy` | workers executing one job in real time, and the margin that keeps its handlers apart |
| `Service.dfy` | class `QueueService`: validation, store call and counters |
| `Worker.dfy` | class `WorkerRuntime`: the run loop with its permits; execution of one leased job |
| `Stream.dfy` | class `JobEventStream`: the polling loop of the event stream |

Three layers carry the argument. A `History` is a sequence of timed actions on one job, each *enabled* in the state it
meets; a `Run` is a sequence of timed events on all tables. `Safety.RunProjects` shows that a run, seen from one job, is
a history, so that everything proved of histories (`Invariants`, `Protocol`, `Mirror`) holds of every job in every run;
`Safety.HistoriesAreRealised` shows that every history is that of some run, so that what a history shows to be possible
is possible. The classes are proved to perform exactly these events: each method of `PgStore` writes the tables statement
by statement, and its contract equates the new contents with `Tables.Apply` of the old. Where an operation is several
statements, a parameter `others` says what other sessions make of the tables in between, and another which statement
fails; if what the others do is what runs of the store do, the whole operation is, too (`Sessions`). `Races`, `Leasing` and `Execution` add what is finer than a statement: the look-ups of a submission, open
transactions with row locks, and the steps of a worker's task.

Row updates are defined once, in `Lifecycle`, and what they have to achieve is said elsewhere without them. `Record` tells
every column of a job from its history alone: the request it was created for, its leases, its releases, its redrives;
`Record.TablesAreRecords` carries that to every run. The methods of `PgStore` state the columns they write, and the columns
by which they choose rows, next to the event they perform.

A sweep and a redrive are not one transaction: a sweep is three updates and a closing statement, a redrive an update and
a delete, anything may commit in between, and the last statement may fail or never be sent. Histories and runs allow
that. The counters `closing` and `deleting` record what is under way; a statement that fails is no longer under way.

## Where the code and its documentation differ

- `crates/core/src/status.rs:3-6` says that every status change of the store is an edge of `can_transition_to`. It is,
  exactly unless the action dead-letters the job or redrives it (`Invariants.TableKeptExactly`); each of the three edges
  outside the table, processing to dead-lettered, failed to queued and dead-lettered to queued, is one the store takes
  (`Invariants.StoreEdgesExactly`, `Status.StoreEdgesAgainstTable`).
- `crates/core/src/status.rs:59` says that a terminal status never changes again. Completed and cancelled never do
  (`Invariants.FinishedForGood`); a terminal status that is not purged is left exactly when an operator retries the job
  (`Invariants.TerminalLeftExactly`).
- `README.md:107` and the comment of the migration order the leasing query by priority and due time; the code breaks ties
  by age (`Tables.LeaseOrder`). `ARCHITECTURE.md:79` has the row lock last for one statement; it lasts until the
  transaction ends, which is what `Leasing` models.
- `README.md:33` promises that two workers never run a job at once. That is so of leases
  (`Protocol.OneReleaseBetweenLeases`, `Leasing.LocksAreDisjoint`). Of handlers it is so exactly if every worker renews
  its lease before that first runs out, and its lags, from renewal to start, from timeout to stop and from stop to
  report, fit together into the 30 s by which a renewal outlasts the timeout (`Execution.MarginIsExact`). The protocol
  recognises a holder by worker and not by attempt, so a renewal or a report that comes after its lease was swept is taken
  for the same worker's next lease of that job (`Execution.LateRenewalsCollide`, `Execution.LateReportOverlaps`).
- `crates/storage/src/lib.rs:368-376` and `crates/storage/src/lib.rs:636-716` commit statement by statement, so the
  dead-letter table and the attempt rows need not mirror the jobs. `Mirror.IndexBreaksExactly` and
  `Mirror.RowsBreakExactly` say which actions spoil a mirror, and no others do: a late delete of an earlier redrive on a
  job dead-lettered again, a dead-lettering that meets a stale entry with another error, a delete that fails with its
  entry left behind, a sweep's late closing statement on a job leased again or cancelled while processing, a completion
  while the row of a swept attempt is still open, and a closing statement that fails with a row left open. Runs without
  these are exact wherever no sweep or redrive is under way (`Safety.UnspoiltRunsAreExact`), in particular runs whose
  sweeps and redrives are undisturbed (`Safety.SerialRunsAreExact`). `Safety.MirrorsBreakInRuns` has runs that end with
  nothing under way and a mirror wrong. A lost or stale entry may be put right by a later redrive, an open row by a
  later report; a success recorded on a wrong row, or on none, never is.
- `crates/storage/src/lib.rs:236` treats a unique violation as a lost race whose winner can be read. Of submissions with a
  key, those fail whose second look-up finds the key free, because the winner has been purged or because it was the
  generated identifier that clashed; no others do (`Races.FailureNeedsPurge`, `Races.PurgedWinnerFailsLoser`,
  `Races.ClashingIdFails`).
- `crates/queue/src/lib.rs:208-217` completes a job without counting it, so the counters fall short of the tables by what
  goes past them, and by nothing else (`Service.CountersMirrorTables`).
- The two delay formulas agree exactly when the ceiling is not below the base (`Backoff.DelaysAgree`). The table's own
  checks do not demand that; validation does (`Model.Normalized`), and no statement changes either column.

## Assumptions

- Each statement or transaction has one timestamp, and timestamps never decrease from one committed change to the next,
  except that a lease transaction keeps the time at which it picked its row (`Leasing`).
- An identifier the database generates may clash with a stored one but is never one that was used and purged.
- Clocks, generated identifiers, rows skipped because locked, results of handlers, failures of statements and what other
  sessions do between the statements of an operation are parameters of the methods that depend on them.
- The tables a submission inserts into still hold its queue: the program never deletes queues.

## Model

| member | source | states |
|---|---|---|
| `Status.StoreEdgesAgainstTable` | crates/core/src/status.rs:84-107 | of the store's status changes exactly three are not edges of the documented table; two of these are two-step walks in it |
| `Status.TableExactly` | crates/core/src/status.rs:59-107 | the documented table is the store's status changes but for those three, and seven edges the store never takes; in the table the terminal statuses are exactly those with no way on, and a status may be leased or cancelled exactly if it has an edge there |
| `Status.NoWalkLeavesTerminal` | crates/core/src/status.rs:59-64 | no walk in the documented table leaves a terminal status, so a redrive of a dead-lettered job is outside the table altogether |
| `Backoff.DelaysAgree` | crates/core/src/backoff.rs:42-58 | for 32-bit parameters and any attempt, the worker's clamped delay, rounded up to whole seconds, equals the reaper's SQL delay if and only if base <= max |
| `Backoff.ReportedIsCeiling` | crates/storage/src/lib.rs:574-579 | the whole seconds written for a reported failure are the policy's delay rounded up |
| `Backoff.DelayBounds` | crates/storage/src/lib.rs:639-641 | every retry delay lies between the base and the ceiling |
| `Backoff.TotalDelayClosedForm` | crates/core/src/backoff.rs:52-58 | while the ceiling is not reached, the sum of the first k delays is base * (2^k - 1) |
| `Backoff.JitterBounds` | crates/core/src/backoff.rs:60-74 | for every policy of any base, factor and ceiling with jitter in [0, 1], every attempt and random number: jitter moves the delay by at most its fraction, never below zero or above the ceiling, and not at all when it is zero |
| `Backoff.JitterExact` | crates/core/src/backoff.rs:60-74 | the random numbers 0, 1/2 and 1 give the delay less its fraction, the delay, and the delay plus its fraction up to the ceiling; a higher number never gives a shorter delay |
| `Backoff.DelaysGrow` | crates/core/src/backoff.rs:51-58 | the first delay is the base, each further one the factor times the one before, all cut off at the ceiling, and from attempt 33 on they stay the same |
| `Model.Normalized` | crates/core/src/model.rs:119-190 | succeeds exactly on acceptable requests; the row is within all limits, keeps every in-range choice, and is scheduled if and only if its time is still to come |
| `Invariants.InvariantHolds` | crates/storage/src/lib.rs:326-719 | after every history: lock columns are set together exactly while processing, completed_at exactly when completed, a leaseable job has attempts left although leasing never checks, failed and dead-lettered jobs have used all, and only issued identifiers have a row, attempt rows or an entry |
| `Invariants.AttemptHistory` | crates/storage/src/lib.rs:446-453 | a job redriven r times has exactly r * max_attempts + attempts attempt rows, and row i carries the number of its place in its round |
| `Invariants.RoundNumberIsRemainder` | crates/storage/src/lib.rs:355-361 | that number is the remainder of the row's index by max_attempts, plus one |
| `Invariants.StatusStep` | crates/storage/src/lib.rs:326-719 | each action changes the status along a store edge or not at all; only a purge of a completed or cancelled job removes a row |
| `Invariants.TableKeptExactly` | crates/core/src/status.rs:84-107 | an action keeps the status or moves it along a documented edge if and only if it neither dead-letters the job (attempts used up, flag set) nor redrives it |
| `Invariants.TerminalLeftExactly` | crates/core/src/status.rs:59-64 | a job in a terminal status that is not purged changes status if and only if it is redriven |
| `Invariants.StoreEdgesExactly` | crates/storage/src/lib.rs:326-719 | the status changes listed for the store are exactly those some history takes, the three outside the table among them |
| `Invariants.FinishedForGood` | crates/core/src/status.rs:59-64 | in every continuation a completed or cancelled row keeps every column until it is purged for good |
| `Invariants.GoneForGood` | crates/storage/src/lib.rs:388-397 | an id once issued stays issued, and a purged job never comes back |
| `Invariants.IdentityIsFixed` | crates/storage/src/lib.rs:184-258 | what was submitted (queue, type, payload, key, limits, backoff) is what every later row carries |
| `Invariants.RemainingDecreases` | crates/storage/src/lib.rs:532-592 | 2 * (attempts left) plus one while processing falls with every status change other than a redrive |
| `Invariants.BoundedLife` | crates/storage/src/lib.rs:401-719 | between redrives a job changes status at most 2 * max_attempts times, however steps interleave |
| `Protocol.LeasesAlternate` | crates/storage/src/lib.rs:401-719 | on every history leases alternate with releases, each action may follow only what the protocol allows, and the row agrees with the last logged action, holder and expiry |
| `Protocol.OneReleaseBetweenLeases` | crates/storage/src/lib.rs:500-719 | between two consecutive leases there is exactly one release, by the recorded holder or by a sweep strictly after the last expiry written, then at most one redrive |
| `Protocol.OneResultPerLease` | crates/storage/src/lib.rs:461-530 | an accepted result directly follows a lease of the same worker; a completion is the last thing that ever happens to a job |
| `Protocol.LeasesRemembered` | crates/storage/src/lib.rs:410-428 | the row's attempt counter is the number of leases of this life, neighbouring leases are a full backoff apart, and run_at is no earlier than that; `Record.DueTold` says what it is exactly |
| `Protocol.CumulativeBackoff` | crates/storage/src/lib.rs:574-591 | within one life, lease k comes no earlier than the sum of the first k delays after the first, failures and sweeps mixed freely, and base * (2^k - 1) seconds while the ceiling is not reached |
| `Record.OrderCarried` | crates/storage/src/lib.rs:205-224 | on every history a stored row carries queue, type, payload, priority, key, attempt limit, timeout, backoff and flag of the request of its one creation, and its time |
| `Record.DueTold` | crates/storage/src/lib.rs:574-691 | on every history: a queued or scheduled row is due at the moment asked for, or at its last redrive if there was one; a retrying row is due exactly min(max, base * 2^(k-1)) seconds after its last release, by a report or by a sweep, where k is the number of leases of this life |
| `Record.RetriedExactlyWhenDue` | crates/storage/src/lib.rs:409-428 | a retrying job can be leased at a moment if and only if that delay since its last release is over |
| `Record.NeverLeasedEarly` | crates/storage/src/lib.rs:409-428 | no lease in the job's log is before the moment asked for at its creation |
| `Record.TouchTold` | crates/storage/src/lib.rs:326-719 | updated_at is the time of the last statement that wrote the row |
| `Record.ResultTold` | crates/storage/src/lib.rs:461-485 | on every history a completed row carries the result of the one completion in its log, which is the last entry, that moment as completed_at and updated_at, and no error; any other row has neither result nor completion time |
| `Record.ErrorTold` | crates/storage/src/lib.rs:555-700 | last_error is none on a completed row, else the error of the last failure reported since creation or redrive, else "lease expired" if the job was swept since, else none |
| `Record.LockTold` | crates/storage/src/lib.rs:409-418 | the lock columns of a processing row are worker and time of its last lease, and the expiry last written |
| `Record.ReleasedAsTold` | crates/storage/src/lib.rs:532-703 | a release leaves the job retrying if this life has had fewer leases than the request allows attempts, else dead-lettered if the request asks for that, else failed |
| `Record.PurgedExactlyWhenOld` | crates/storage/src/lib.rs:388-397 | a purge removes the job if and only if the last action of its log completed or cancelled it, before the cutoff |
| `Record.RowsTold` | crates/storage/src/lib.rs:446-716 | the attempt rows of a stored job are those of its leases, worker and start included; each is succeeded, errored, timed out or timed out with "lease expired" by the first completion, failure, reported timeout or closing statement of a sweep after it, with that time and error, and running if there was none |
| `Record.EntryTold` | crates/storage/src/lib.rs:534-560 | on every history there is a dead-letter entry exactly if the job was buried since one was last deleted; it carries the request, the full attempt count, and time and error of the first such burial |
| `Record.TablesAreRecords` | crates/storage/src/lib.rs:184-719 | in every run of the store the tables are, job by job, the record of what happened: request, due time, touch, result, error, attempt rows and entry |
| `Mirror.CalmHistoriesAreExact` | crates/storage/src/lib.rs:632-719 | if nothing reaches the job inside a sweep or redrive and no last statement fails: an entry exists exactly for a dead-lettered job and agrees with it; all rows but the newest are closed in failure; the newest runs exactly while the job is processing or was cancelled then, and succeeded exactly if the job completed |
| `Mirror.NoConflictWhenCalm` | crates/storage/src/lib.rs:535-549 | under the same condition the insert into the dead-letter table never meets an existing entry |
| `Mirror.EntriesFaithful` | crates/storage/src/lib.rs:534-560 | in every history an entry carries its stored job's queue, type, payload, creation time and full attempt count; only its last error can be stale |
| `Mirror.IndexedThroughout` | crates/storage/src/lib.rs:355-376 | the index is true at every moment of a history if and only if no action of the history is one of the three that spoil it |
| `Mirror.IndexAtRest` | crates/storage/src/lib.rs:355-376 | with no redrive under way, an index that is true is exact, and conversely |
| `Mirror.OpenRowsBreakExactly` | crates/storage/src/lib.rs:705-716 | from a state where every open row other than the live one will yet be closed by a sweep, an action spoils that if and only if it is the failure of the last closing statement pending while there is such a row |
| `Mirror.OpenRowsThroughout` | crates/storage/src/lib.rs:705-716 | open rows are accounted for at every moment of a history if and only if no failed closing statement strands one |
| `Mirror.CompletionMarksOpenRows` | crates/storage/src/lib.rs:487-495 | a completion marks exactly the open rows as succeeded, whichever attempts they belong to |
| `Mirror.RowsBreakExactly` | crates/storage/src/lib.rs:487-716 | from a state where the attempt rows are true of the job or will yet be made so, an action spoils that if and only if it is a late closing statement on a job processing or cancelled while processing, a completion while an earlier row is open, or a closing statement that fails and strands an open row |
| `Mirror.RowsTrueThroughout` | crates/storage/src/lib.rs:487-716 | the rows are true at every moment of a history if and only if no action of the history is one of these three |
| `Mirror.RowsAtRest` | crates/storage/src/lib.rs:705-716 | with no sweep under way, rows that are true mirror the job exactly, and conversely |
| `Mirror.UnspoiltHistoriesAreExact` | crates/storage/src/lib.rs:355-719 | wherever in a history without spoiling actions no sweep or redrive is under way, both mirrors are exact |
| `Mirror.IndexBreaksExactly` | crates/storage/src/lib.rs:355-376 | from a state where every dead-lettered job has an agreeing entry and every other entry will yet be deleted, an action spoils that if and only if it is a late delete of an earlier redrive on a job dead-lettered again, a dead-lettering that finds a stale entry with another error than the one it brings, or the failure of the last delete pending with an entry that is not a dead-lettered job's |
| `Mirror.EntryStrandedExactly` | crates/storage/src/lib.rs:368-376 | from a state where every entry is a dead-lettered job's or will yet be deleted, only the last of these failures spoils that |
| `Mirror.EntriesAccountedThroughout` | crates/storage/src/lib.rs:355-376 | entries are accounted for at every moment of a history if and only if no failed delete strands one |
| `Mirror.LiveRowBreaksExactly` | crates/storage/src/lib.rs:705-716 | an action closes the live row of a job that is processing, or was cancelled then, if and only if it is a sweep's late closing statement on such a job |
| `Mirror.SuccessRecordedExactly` | crates/storage/src/lib.rs:487-495 | from a state where exactly the newest row of a completed job says succeeded, an action spoils that if and only if it is a completion that finds the live row closed or an earlier row open |
| `Mirror.LateDeleteLosesEntry` | crates/storage/src/lib.rs:355-376 | a history after which a dead-lettered job has no entry and nothing is half done |
| `Mirror.LateCloseLosesSuccess` | crates/storage/src/lib.rs:632-719 | a history after which a completed job has two rows, both timed out |
| `Mirror.LateCloseAddsSuccess` | crates/storage/src/lib.rs:487-495 | a history after which a completed job has two rows, both succeeded, one of them of the swept attempt |
| `Mirror.LateCloseEndsCancelled` | crates/storage/src/lib.rs:326-333 | a history after which the open row of a job cancelled while processing is timed out |
| `Mirror.FailedDeleteOrphansEntry` | crates/storage/src/lib.rs:368-376 | a history in which a delete fails and an entry outlives its purged job |
| `Mirror.FailedCloseLeavesRowOpen` | crates/storage/src/lib.rs:705-716 | a history in which a closing statement fails and the row of a dead-lettered job stays open |
| `Tables.Projection` | crates/storage/src/lib.rs:184-719 | each statement of the store is, for every job, one enabled action with exactly the effect of that action |
| `Safety.RunProjects` | crates/storage/src/lib.rs:184-719 | every run of the store is, job by job, a legal history that ends in the job's rows |
| `Safety.HistoriesAreRealised` | crates/storage/src/lib.rs:184-719 | conversely every legal history of a job is, up to moments at which nothing happens to it, what some run of the store does to it |
| `Safety.JobsInvariantHolds` | crates/storage/src/lib.rs:184-719 | in every reachable state of the store the invariant holds of every job |
| `Safety.TablesConsistent` | crates/storage/migrations/0001_init.sql:12-45 | in every reachable state each job's queue exists and no two jobs of a queue share an idempotency key |
| `Safety.Conservation` | crates/storage/src/lib.rs:388-397 | in every run the jobs created are those stored and those purged, never both, none created twice, and the numbers add up |
| `Safety.OnlyFinishedPurged` | crates/storage/src/lib.rs:388-397 | a purged job's last protocol action was its completion or its cancellation |
| `Safety.SerialRunsAreExact` | crates/storage/src/lib.rs:355-719 | in every run whose sweeps and redrives are undisturbed, the dead-letter table holds exactly the dead-lettered jobs, each entry agreeing, and the attempt table mirrors every job |
| `Safety.UnspoiltRunsAreExact` | crates/storage/src/lib.rs:355-719 | in every run none of whose events spoils a mirror of a job, both tables mirror the jobs exactly whenever no sweep or redrive is under way |
| `Safety.MirrorsBreakInRuns` | crates/storage/src/lib.rs:355-719 | runs of the store, with nothing under way at the end, that lose an entry, lose a success, record a success twice, time out the row of a cancelled job, leave an entry without its job, and leave a row open |
| `Safety.EntriesAccounted` | crates/storage/src/lib.rs:355-376 | in any run an entry has throughout belonged to a dead-lettered job or to one whose redrive is under way if and only if no failed delete has stranded it |
| `Store.FirstExists` | crates/storage/src/lib.rs:417-427 | a non-empty set of rows has a first one in the leasing order |
| `Store.OldestExist` | crates/storage/src/lib.rs:644-649 | any set of rows has a batch of the oldest expiries of the size asked for |
| `Store.CountsAddUp` | crates/storage/src/lib.rs:147-180 | the eight counts of the statistics sum to the queue's jobs, and queued + scheduled + retrying to those waiting |
| `Store.UpdatesPartition` | crates/storage/src/lib.rs:632-703 | the three updates of a sweep act on disjoint sets of jobs, told apart by the state in which the sweep began |
| `Store.SweepLeftAlone` | crates/storage/src/lib.rs:632-719 | a sweep that no other session and no failure disturbs is the whole sweep, and returns each job once |
| `Store.FailedByColumn` | crates/storage/src/lib.rs:532-606 | an accepted failure writes status, due time, error and released lock of that row, closes exactly its open attempt rows as timed out or errored with the error, and adds an entry exactly if it dead-letters a job without one; nothing else |
| `Store.CompletedByColumn` | crates/storage/src/lib.rs:461-495 | an accepted completion writes the result and the completion time, clears error and lock, and closes exactly the open attempt rows as succeeded; nothing else |
| `Store.SweptByColumn` | crates/storage/src/lib.rs:635-703 | an update of a sweep releases exactly its rows, with the error they had or "lease expired", and adds entries only for rows of the dead-lettering kind; nothing else |
| `Store.PgStore.constructor` | crates/storage/migrations/0001_init.sql:5-94 | a new store is empty |
| `Store.PgStore.EnsureQueue` | crates/storage/src/lib.rs:96-110 | the queue exists afterwards, open if it is new and with its flag kept if it existed before; the flag returned is that |
| `Store.PgStore.SetQueuePaused` | crates/storage/src/lib.rs:133-145 | the flag of an existing queue is set; an unknown queue is an error and changes nothing |
| `Store.PgStore.ListQueues` | crates/storage/src/lib.rs:123-131 | every queue once |
| `Store.PgStore.CountByStatus` | crates/storage/src/lib.rs:153-159 | one row for each status that occurs in the queue, with the number of its jobs |
| `Store.PgStore.QueueStats` | crates/storage/src/lib.rs:147-180 | the statistics of an existing queue hold the exact number of its jobs in each status; an unknown queue is an error |
| `Store.PgStore.SelectByKey` | crates/storage/src/lib.rs:188-202 | finds a job with the queue and key if and only if there is one |
| `Store.PgStore.InsertJob` | crates/storage/src/lib.rs:205-237 | inserts a row exactly if neither the primary key nor the idempotency index objects; every column of the row is that of the request, run_at included |
| `Store.PgStore.Submit` | crates/storage/src/lib.rs:184-258 | with any other sessions between its four statements: returns the job found under the key by either look-up, else creates the row, whose every column is that of the request, and fails exactly on an id clash without a key or when the key is free again at the second look-up |
| `Store.PgStore.CancelJob` | crates/storage/src/lib.rs:326-353 | cancels exactly the cancellable jobs, clearing the lock, and otherwise says why not |
| `Store.PgStore.RetryJob` | crates/storage/src/lib.rs:355-386 | re-queues exactly failed and dead-lettered jobs, then deletes the entry after whatever other sessions did, or fails with the entry kept and no delete pending; otherwise changes nothing and says why |
| `Store.PgStore.DeleteEntry` | crates/storage/src/lib.rs:369-375 | the second statement of a redrive deletes the job's dead-letter entry and nothing else |
| `Store.PgStore.PurgeFinished` | crates/storage/src/lib.rs:388-397 | removes exactly the finished jobs last touched before the cutoff, with their attempt rows, and returns their number |
| `Store.PgStore.LeaseNext` | crates/storage/src/lib.rs:401-459 | leases a due, unlocked, waiting row of the unpaused served queues such that no other has a higher priority, none of equal priority is due earlier, and none tied on both is older; writes lock, expiry and count of that row and inserts its attempt row; or returns none exactly if there is no such row |
| `Store.PgStore.CompleteJob` | crates/storage/src/lib.rs:461-498 | if the worker holds the lease, the row returned and stored is completed with the result reported, and exactly its running attempt rows are closed as succeeded; otherwise changes nothing and says why |
| `Store.PgStore.FailJob` | crates/storage/src/lib.rs:500-609 | the failing transaction (`Store.FailedByColumn`) if the worker holds the lease, then the row as other sessions have left it when it is read again, or not found; otherwise nothing changes and the reason is returned |
| `Store.PgStore.FailTransaction` | crates/storage/src/lib.rs:507-606 | if and only if the worker holds the lease, the job is retried min(max, base * 2^(attempts-1)) seconds later if it has attempts left, else dead-lettered or failed by its flag, with the error reported and no lock |
| `Store.PgStore.RenewLease` | crates/storage/src/lib.rs:611-630 | moves the expiry to that many seconds from now if the worker holds the lease; otherwise changes nothing and fails |
| `Store.PgStore.SelectExpired` | crates/storage/src/lib.rs:644-649 | picks as many as there are, up to the limit, of the unlocked processing rows of one kind whose lease has expired, none picked expiring later than one left |
| `Store.PgStore.UpdateExpired` | crates/storage/src/lib.rs:635-703 | one update of a sweep: recovers exactly the oldest expired unlocked rows of its kind, up to the limit |
| `Store.PgStore.CloseAttempts` | crates/storage/src/lib.rs:705-716 | closes exactly the running rows of the recovered jobs, as timed out, with the error they had or "lease expired"; nothing at all if none was recovered |
| `Store.PgStore.RecoverNext` | crates/storage/src/lib.rs:635-703 | the next update of a sweep with its ids appended, and other sessions after it; nothing once a statement has failed |
| `Store.PgStore.RecoverExpiredLeases` | crates/storage/src/lib.rs:632-719 | three updates in order and the closing statement, each on the tables as other sessions left them; a failing statement leaves the earlier ones committed and no closing pending; the ids returned are exactly those picked; a negative limit is an error |
| `Sessions.SubmitIsRun` | crates/storage/src/lib.rs:184-258 | a submission among other sessions whose doings are those of runs is itself what a run does |
| `Sessions.RetryIsRun` | crates/storage/src/lib.rs:355-386 | so is a redrive, its delete failing or not |
| `Sessions.FailIsRun` | crates/storage/src/lib.rs:500-609 | so is a reported failure up to the second reading of the row |
| `Sessions.SweepIsRun` | crates/storage/src/lib.rs:632-719 | so is a sweep with any of its statements failing; a job picked by two of its updates counts as closed twice |
| `Leasing.LocksAreDisjoint` | crates/storage/src/lib.rs:407-457 | in every interleaving of open lease transactions with other statements, locked rows are pairwise different and stay eligible |
| `Leasing.InterleavingsSerialize` | crates/storage/src/lib.rs:407-457 | what any interleaving commits on a job is a legal history of atomic actions that ends in the job's rows |
| `Serializing.InterleavingsAreRuns` | crates/storage/src/lib.rs:407-457 | any interleaving of lease transactions with other statements leaves, once none is open, the queues and of every job the rows that one run of atomic statements leaves, each committed lease standing where its row was picked and rollbacks left out |
| `Serializing.OneLeasePerCommit` | crates/storage/src/lib.rs:438-458 | that run has exactly one lease for each committed transaction |
| `Serializing.SerialRuns` | crates/storage/src/lib.rs:407-457 | the same at every moment, with any choice of the open transactions counted as committed |
| `Leasing.PickIsOneLease` | crates/storage/src/lib.rs:417-428 | counting open transactions as committed, a pick is one atomic lease of an eligible job such that none has a higher priority, none of equal priority is due earlier, and none tied on both is older; it changes no other |
| `Leasing.CommitAndRollback` | crates/storage/src/lib.rs:438-458 | a commit changes nothing that was not already counted; a rollback changes no table and gives the row back as it was |
| `Leasing.DrainingSorts` | crates/storage/src/lib.rs:417-444 | repeated leasing at one moment returns exactly the due waiting jobs of the open queues served, each once; no later one has a higher priority, or an equal one and an earlier due time, or both equal and is older |
| `Leasing.DrainingEnds` | crates/storage/src/lib.rs:438-444 | repeated leasing at one moment ends, from any state |
| `Races.RaceIsRun` | crates/storage/src/lib.rs:184-258 | any interleaving of submissions with anything else is a run of the store |
| `Races.IdempotentSubmission` | crates/storage/src/lib.rs:188-255 | while nothing is purged: submissions with one key fail only by a clash of the generated identifier, all others return the same job, exactly one reports it created, and the table holds one job with that key |
| `Races.FailureNeedsPurge` | crates/storage/src/lib.rs:231-256 | in every race, purges and clashing identifiers included: a submission with a key fails if and only if its second look-up runs while its key is free, one without a key if and only if its identifier clashes; and a failure takes such a clash or a purge, since it tried to insert, of a job with that key |
| `Races.PurgedWinnerFailsLoser` | crates/storage/src/lib.rs:236-255 | a race in which the winner is cancelled and purged and the loser's submission fails |
| `Races.ClashingIdFails` | crates/storage/src/lib.rs:231-256 | a race without purges in which a submission with a free key fails, since its identifier is that of another job |
| `Reaper.SweepTakesBatches` | crates/storage/src/lib.rs:632-719 | of each kind a sweep takes a batch of the oldest expired leases, and the rest of that kind stays due |
| `Reaper.SweepTakesOldest` | crates/storage/src/lib.rs:644-649 | of two jobs on expired leases of one kind, of which a sweep recovers one and leaves the other, the recovered one's lease had not expired later |
| `Reaper.SweepReturnsChanged` | crates/storage/src/lib.rs:632-719 | the ids returned by a sweep are exactly the jobs whose row it changed |
| `Reaper.SweepsConverge` | crates/queue/src/maintenance.rs:37-64 | while no further lease runs out, whatever else happens between the sweeps and between the updates of one, k updates of a kind with batch size L leave at most all but k * L of its expired leases, and exactly so many if nothing comes between |
| `Reaper.SweepsFreeAll` | crates/queue/src/maintenance.rs:37-64 | after k sweeps, disturbed or not, no job sits on an expired lease if k * L covers the largest kind; and only if, where nothing comes between |
| `Reaper.LongLeasesAreNeverDue` | crates/storage/src/lib.rs:409-630 | any event may come between the statements of sweeps, so long as a lease it grants or renews runs beyond the period: it adds no expired lease |
| `Reaper.SweepIsRound` | crates/storage/src/lib.rs:632-719 | a whole sweep is one update of each kind and a closing statement, which adds nothing due |
| `Reaper.Maintenance.RefreshDepths` | crates/queue/src/maintenance.rs:78-92 | with other sessions before each query and any of the queries failing: the gauge of a queue found is the number of its waiting jobs at the moment of its query, all others keep their value |
| `Reaper.Maintenance.Sweep` | crates/queue/src/maintenance.rs:55-93 | a sweep among other sessions, failing or not, then the gauges of the queues listed, or none if the listing fails |
| `Execution.TimelineIsHistory` | crates/worker/src/runtime.rs:133-174 | a job with any number of tasks beside it goes through a legal history |
| `Execution.HandlersExclude` | crates/worker/src/runtime.rs:139-162 | in every run that renews in time and keeps the margin, with any workers, crashes, cancellations, sweeps and redrives, no two handlers of a job run at once |
| `Execution.MarginIsExact` | crates/worker/src/runtime.rs:139-162 | for any non-negative lags: handlers of a job exclude each other in all runs that keep to them if and only if renewals come before the first lease runs out and the other lags sum to at most the 30 s margin |
| `Execution.HandlersOverlap` | crates/storage/src/lib.rs:500-630 | for all lags that do not fit, a run that keeps to them and ends with two handlers of one job running |
| `Execution.LateRenewalsCollide` | crates/storage/src/lib.rs:611-630 | in particular by a renewal later than its lease, all other lags being zero or not |
| `Execution.ReportsAreAccepted` | crates/worker/src/runtime.rs:160-173 | in such a run a report finds the lease held unless the job was cancelled or is gone |
| `Execution.EveryTaskHasItsLease` | crates/worker/src/runtime.rs:79-91 | each task stems from the lease of its worker and time at its place in the job's log |
| `Execution.LeasesInOrder` | crates/worker/src/runtime.rs:79-91 | different tasks stem from different leases, in the order in which they were spawned |
| `Execution.EveryLeaseHasItsTask` | crates/worker/src/runtime.rs:83-91 | every lease in the log has spawned a task |
| `Execution.NoExecutionLosesItsJob` | crates/worker/src/runtime.rs:113-121 | whatever becomes of a task, its lease is still in force and the job can be swept exactly after the expiry, or it was released by the same worker's report, a sweep after expiry, or a cancellation |
| `Execution.LateReportOverlaps` | crates/storage/src/lib.rs:523-530 | a run that keeps to no lags within the margin, in which a late report is followed by a second running handler of the job |
| `Service.QueueService.Submit` | crates/queue/src/lib.rs:46-57 | an unacceptable request changes nothing; an acceptable one reaches the store as normalised, among other sessions, and is counted exactly if it created a job |
| `Service.QueueService.ReportOutcome` | crates/queue/src/lib.rs:149-175 | the store sees the one matching report; duration, completion and timeout are counted as the code does; the row returned is the one read last |
| `Service.QueueService.RecordFailure` | crates/queue/src/lib.rs:177-206 | a failure is counted even if the store refuses it; a retry or a dead letter exactly if the row read again after the commit says so |
| `Service.FoundAsLeft` | crates/queue/src/lib.rs:192-204 | if nobody touches the job in between, that is exactly if it was given a retry, or had used up its attempts and asked for dead-lettering |
| `Service.CountersMirrorTables` | crates/queue/src/lib.rs:46-217 | in every run: submissions counted per queue and jobs created past the service together are its jobs stored and purged, completions counted and those made past the counters its completed jobs stored and purged; so the counters are exact if and only if nothing went past them |
| `Service.FatesCounted` | crates/queue/src/lib.rs:177-206 | where no re-read of a failed row is overtaken, the counters of failures, retries and dead letters are the numbers of failures reported, of retries these gave and of jobs these dead-lettered |
| `Service.FailuresCounted` | crates/queue/src/lib.rs:177-187 | in every run the counter of failures is the number of failures reported, accepted or not |
| `Service.ReportsCounted` | crates/queue/src/lib.rs:149-175 | in every run durations were observed once for each report, and the counter of timeouts is the number of timeouts reported |
| `Service.QueueService.CompleteJob` | crates/queue/src/lib.rs:208-217 | completes the job if the worker holds the lease, and counts nothing |
| `Worker.PermitsConserved` | crates/worker/src/runtime.rs:66-121 | at every point of every run of the loop, free permits, the one in the loop's hand and those of running tasks are exactly the configured concurrency |
| `Worker.ConcurrencyBounded` | crates/worker/src/runtime.rs:66-121 | running tasks never exceed the concurrency, and a stopped worker has all its permits back |
| `Worker.NeverStuck` | crates/worker/src/runtime.rs:69-111 | with a positive concurrency, a loop that has not stopped always has something other than the signal to wait for |
| `Worker.TaskFate` | crates/worker/src/runtime.rs:83-121 | every lease hit spawned one task, and the tasks that have not ended are exactly those running or abandoned |
| `Worker.GracefulDrain` | crates/worker/src/runtime.rs:113-121 | a worker that stops before its grace period is over has seen every task end |
| `Worker.LeaseAfterSignal` | crates/worker/src/runtime.rs:71-77 | a run in which a job is leased after shutdown was signalled |
| `Worker.WorkerRuntime.constructor` | crates/worker/src/runtime.rs:66-67 | the worker starts with all permits free and no tasks |
| `Worker.WorkerRuntime.Await` | crates/worker/src/runtime.rs:69-107 | while the loop waits, ending tasks give their permits back, up to the next input meant for the loop |
| `Worker.WorkerRuntime.Ask` | crates/worker/src/runtime.rs:79-110 | a hit turns the permit into a task, a miss or an error gives it back and pauses |
| `Worker.WorkerRuntime.Drain` | crates/worker/src/runtime.rs:113-121 | joins the tasks left, or abandons them when the grace period is over, giving all permits back |
| `Worker.WorkerRuntime.Run` | crates/worker/src/runtime.rs:69-121 | for every script of inputs the nested loop ends where the automaton `Worker.Played` does, at the same place and with the same permits and tasks |
| `Worker.ExecuteJob` | crates/worker/src/runtime.rs:133-174 | without the lease nothing happens; with it the lease is made to last timeout + 30 s and, after whatever other sessions did meanwhile, exactly one report is made; if the job is still held, the row ends completed with the result returned if a handler for its type exists and returned, and otherwise retrying, dead-lettered or failed with the handler's message, "execution timed out" or the no-handler text as its last error, and its attempt rows accordingly; if not, nothing changes; the worker does not hold the job afterwards |
| `Worker.ReportEndsAsHandled` | crates/worker/src/runtime.rs:147-163 | the report made for a handler that returned, raised, timed out or does not exist does just that to the tables, if the worker holds the job |
| `Worker.CompletesExactlyIfReturned` | crates/worker/src/runtime.rs:147-163 | so the job is completed if and only if the handler exists and returned, retried if and only if it did not and there are attempts left, and has no error exactly if completed |
| `Worker.TaskCallsSeen` | crates/worker/src/runtime.rs:139-163 | a task's calls of the store, seen from its job, are the actions `Execution` has it do |
| `Stream.StreamShape` | crates/api/src/sse.rs:52-96 | neighbouring events never report the same status, and exactly the last event closes the stream |
| `Stream.DestutterDiffers` | crates/api/src/sse.rs:66-72 | neighbours in a destuttered sequence differ in status and all come from the polls |
| `Stream.DestutterShows` | crates/api/src/sse.rs:66-72 | every polled status is shown by some event |
| `Stream.Made` | crates/api/src/sse.rs:57-94 | the polls that count are a prefix that ends with the first closing poll, or all of them |
| `Stream.JobEventStream.constructor` | crates/api/src/sse.rs:43-50 | a new stream has sent nothing and is open |
| `Stream.JobEventStream.Look` | crates/api/src/sse.rs:62-94 | one poll adds to what was sent exactly the item it returns, if any |
| `Stream.JobEventStream.Next` | crates/api/src/sse.rs:52-96 | yields nothing exactly when the stream is done, and otherwise the next of the events due |
| `Stream.JobEventStream.Collect` | crates/api/src/sse.rs:52-96 | for every infinite sequence of polls, the events sent are the destuttering of the polls cut at the first terminal status, error or 1200 polls, then a timeout event if none closed the stream |
| `Stream.WatchedStatusesAreLinked` | crates/api/src/sse.rs:64-86 | if the polls look at one job in the course of a run, each status sent is reachable from the one before it by status changes of the store |
| `Stream.StreamTold` | crates/api/src/sse.rs:52-96 | for every infinite sequence of polls: at most 1200 are made, up to the first that finds no job or a terminal status; there is one event for each poll at which the status changed, in order, with the status, attempts and error of that poll, or "job not found"; and "stream closed" after them exactly if no poll ended it |

## Left out

- The HTTP interface, error-to-status mapping, correlation ids, `metadata`, configuration, signal handling, and
  registration and rendering of metrics.
- Worker registration, heartbeats and pruning: they feed a gauge and never influence leasing or recovery.
- The `max_concurrency` column of queues: stored and never consulted.
- Listing and filtering of jobs, attempts and dead letters.
- Postgres itself: SQL, connection pools, network errors and the deadlock of transactions. A statement or transaction
  that fails is one that did not happen.
- Overflow of timestamps and 64-bit intervals. Retry delays are exact integers: the floating-point values in question
  are integers below 2^31 times a power of two up to 2^32.
- `maintenance.rs` `run` itself, the ticking loop: `Reaper.Rounds` stands for any number of sweeps one after the other.
- Encoding an event as JSON is taken never to fail, so the stream's "encode error" event does not occur.
- Store.PgStore.CompleteJob: as in the other operations that find no row, the job's status named in the error is that of
  the same moment; the source reads it in a statement of its own.
- Store.PgStore.RecoverExpiredLeases: the same locked rows are skipped by all its updates.
- Leasing.InterleavingsSerialize: job by job; `Serializing` has one run for all jobs, in which the attempt rows of
  different jobs may stand in another order.
- Races.IdempotentSubmission: holds while nothing is purged; `Races.FailureNeedsPurge` says what a purge can do.
- Sessions.SweepIsRun: the other sessions leave a sweep its own closing, and a redrive its own delete; the counters of what
  is under way do not say whose it is.
- Reaper.Maintenance.RefreshDepths: a queue's flag and its counts are read at one moment.
- Reaper.SweepsConverge: with rows locked by others a sweep may take fewer.
- Execution.HandlersExclude: one job at a time; a task that dies releases nothing in the store, which is what recovery is
  for.
- Worker.WorkerRuntime.Run: answers of the store to lease attempts are inputs of the script.
