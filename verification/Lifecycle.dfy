/** What the store's statements do to one job: its row, its attempt rows and its dead-letter entry.
    `Tables` proves that a run of the whole store, seen from one job, is a history of these actions. */
module Lifecycle {
  import opened Basics
  import opened Status
  import opened Backoff
  import opened Model

  datatype Job = Job(
    queue: string,
    jobType: string,
    payload: Json,
    status: JobStatus,
    priority: int,
    idempotencyKey: Option<string>,
    maxAttempts: int,
    attempts: nat,
    runAt: Time,
    timeoutSecs: int,
    backoffBaseSecs: int,
    backoffMaxSecs: int,
    deadLetter: bool,
    lockedBy: Option<WorkerId>,
    lockedAt: Option<Time>,
    leaseExpiresAt: Option<Time>,
    lastError: Option<string>,
    result: Option<Json>,
    createdAt: Time,
    updatedAt: Time,
    completedAt: Option<Time>)

  datatype AttemptStatus = Running | Succeeded | Errored | TimedOut

  datatype AttemptRow = AttemptRow(
    jobId: JobId,
    attempt: int,
    worker: WorkerId,
    startedAt: Time,
    finishedAt: Option<Time>,
    status: AttemptStatus,
    error: Option<string>)

  datatype DeadLetter = DeadLetter(
    queue: string,
    jobType: string,
    payload: Json,
    attempts: int,
    lastError: Option<string>,
    deadLetteredAt: Time,
    originalCreatedAt: Time)

  const LEASE_EXPIRED: string := "lease expired"

  // ---- row updates ---------------------------------------------------------

  function NewRow(n: NormalizedJob, at: Time): Job {
    Job(n.queue, n.jobType, n.payload, n.status, n.priority, n.idempotencyKey, n.maxAttempts, 0, n.runAt,
        n.timeoutSecs, n.backoffBaseSecs, n.backoffMaxSecs, n.deadLetter, None, None, None, None, None, at, at, None)
  }

  function Unlocked(j: Job, status: JobStatus, at: Time): Job {
    j.(status := status, lockedBy := None, lockedAt := None, leaseExpiresAt := None, updatedAt := at)
  }

  function LeasedRow(j: Job, worker: WorkerId, secs: int, at: Time): Job {
    j.(status := Processing, lockedBy := Some(worker), lockedAt := Some(at),
       leaseExpiresAt := Some(at + secs * SECOND), attempts := j.attempts + 1, updatedAt := at)
  }

  function RenewedRow(j: Job, secs: int, at: Time): Job {
    j.(leaseExpiresAt := Some(at + secs * SECOND), updatedAt := at)
  }

  function CompletedRow(j: Job, result: Option<Json>, at: Time): Job {
    Unlocked(j, Completed, at).(result := result, completedAt := Some(at), lastError := None)
  }

  predicate Exhausted(j: Job) {
    j.attempts >= j.maxAttempts
  }

  function FailedRow(j: Job, error: string, at: Time): Job {
    var failed := j.(lastError := Some(error));
    if !Exhausted(j) then
      Unlocked(failed, Retrying, at).(
        runAt := at + ReportedDelay(j.backoffBaseSecs, j.backoffMaxSecs, j.attempts) * SECOND)
    else
      Unlocked(failed, if j.deadLetter then DeadLettered else JobStatus.Failed, at)
  }

  function SweptRow(j: Job, at: Time): Job {
    var swept := j.(lastError := Some(GetOr(j.lastError, LEASE_EXPIRED)));
    if !Exhausted(j) then
      Unlocked(swept, Retrying, at).(
        runAt := at + SweptDelay(j.backoffBaseSecs, j.backoffMaxSecs, j.attempts) * SECOND)
    else
      Unlocked(swept, if j.deadLetter then DeadLettered else JobStatus.Failed, at)
  }

  function CancelledRow(j: Job, at: Time): Job {
    Unlocked(j, Cancelled, at)
  }

  function RetriedRow(j: Job, at: Time): Job {
    Unlocked(j, Queued, at).(runAt := at, attempts := 0, lastError := None)
  }

  // ---- attempt rows and dead letters ---------------------------------------

  datatype Closure = OnComplete | OnFail(error: string, timedOut: bool) | OnSweep

  function CloseRow(r: AttemptRow, how: Closure, at: Time): AttemptRow {
    if !r.status.Running? then r else
    match how
    case OnComplete => r.(status := Succeeded, finishedAt := Some(at))
    case OnFail(error, timedOut) =>
      r.(status := if timedOut then TimedOut else Errored, finishedAt := Some(at), error := Some(error))
    case OnSweep =>
      r.(status := TimedOut, finishedAt := Some(at), error := Some(GetOr(r.error, LEASE_EXPIRED)))
  }

  function CloseAll(rows: seq<AttemptRow>, how: Closure, at: Time): seq<AttemptRow> {
    seq(|rows|, i requires 0 <= i < |rows| => CloseRow(rows[i], how, at))
  }

  /** The entry written for a job that is being dead-lettered. */
  function EntryFor(j: Job, error: string, at: Time): DeadLetter {
    DeadLetter(j.queue, j.jobType, j.payload, j.attempts, Some(error), at, j.createdAt)
  }

  /** INSERT ... ON CONFLICT (id) DO NOTHING. */
  function InsertDead(existing: Option<DeadLetter>, entry: DeadLetter): Option<DeadLetter> {
    if existing.Some? then existing else Some(entry)
  }

  // ---- one job -------------------------------------------------------------

  /** `minted`: the id has been issued. `closing`: sweeps under way that have recovered this job and have yet to run
      their final statement, the one that closes attempt rows. `deleting`: retry calls under way that have re-queued the
      job and have yet to run their second statement, the one that deletes its dead-letter entry. If that statement
      fails, or the process stops before it, it is never run. */
  datatype View = View(
    id: JobId,
    minted: bool,
    job: Option<Job>,
    rows: seq<AttemptRow>,
    dead: Option<DeadLetter>,
    closing: nat,
    deleting: nat)
  {
    predicate Is(status: JobStatus) {
      job.Some? && job.value.status == status
    }

    predicate HeldBy(worker: WorkerId) {
      Is(Processing) && job.value.lockedBy == Some(worker)
    }
  }

  datatype Action =
    | Pass
    | Create(n: NormalizedJob)
    | Lease(worker: WorkerId, secs: int)
    | Renew(worker: WorkerId, secs: int)
    | Complete(worker: WorkerId, result: Option<Json>)
    | Fail(worker: WorkerId, error: string, timedOut: bool)
    | Sweep
    | CloseSwept
    | CloseFails
    | Cancel
    | Retry
    | DropDead
    | DeleteFails
    | Purge(cutoff: Time)

  predicate Enabled(v: View, at: Time, a: Action) {
    match a
    case Pass => true
    case Create(n) => !v.minted && WellFormed(n)
    case Lease(_, _) => v.job.Some? && v.job.value.status.IsLeaseable() && v.job.value.runAt <= at
    case Renew(w, _) => v.HeldBy(w)
    case Complete(w, _) => v.HeldBy(w)
    case Fail(w, _, _) => v.HeldBy(w)
    case Sweep =>
      v.Is(Processing) && v.job.value.leaseExpiresAt.Some? && v.job.value.leaseExpiresAt.value < at
    case CloseSwept => v.closing > 0
    case CloseFails => v.closing > 0
    case Cancel => v.job.Some? && v.job.value.status.IsCancellable()
    case Retry => v.Is(JobStatus.Failed) || v.Is(DeadLettered)
    case DropDead => v.deleting > 0
    case DeleteFails => v.deleting > 0
    case Purge(cutoff) => (v.Is(Completed) || v.Is(Cancelled)) && v.job.value.updatedAt < cutoff
  }

  /** The action moves the job to the dead-letter table: its attempts are used up, and it asked for that. */
  predicate DeadLetters(v: View, a: Action) {
    (a.Fail? || a.Sweep?) && v.job.Some? && Exhausted(v.job.value) && v.job.value.deadLetter
  }

  /** The error an entry gets that is written by a failure or a sweep. */
  function ErrorWritten(v: View, a: Action): string
    requires (a.Fail? || a.Sweep?) && v.job.Some?
  {
    if a.Fail? then a.error else GetOr(v.job.value.lastError, LEASE_EXPIRED)
  }

  function Effect(v: View, at: Time, a: Action): (v': View)
    requires Enabled(v, at, a)
    ensures v'.id == v.id
  {
    match a
    case Pass => v
    case Create(n) => v.(minted := true, job := Some(NewRow(n, at)))
    case Lease(w, secs) =>
      var j := LeasedRow(v.job.value, w, secs, at);
      v.(job := Some(j), rows := v.rows + [AttemptRow(v.id, j.attempts, w, at, None, Running, None)])
    case Renew(_, secs) => v.(job := Some(RenewedRow(v.job.value, secs, at)))
    case Complete(_, result) =>
      v.(job := Some(CompletedRow(v.job.value, result, at)), rows := CloseAll(v.rows, OnComplete, at))
    case Fail(_, error, timedOut) =>
      var j := v.job.value;
      v.(job := Some(FailedRow(j, error, at)),
         rows := CloseAll(v.rows, OnFail(error, timedOut), at),
         dead := if Exhausted(j) && j.deadLetter then InsertDead(v.dead, EntryFor(j, error, at)) else v.dead)
    case Sweep =>
      var j := v.job.value;
      v.(job := Some(SweptRow(j, at)),
         dead := if Exhausted(j) && j.deadLetter
                 then InsertDead(v.dead, EntryFor(j, GetOr(j.lastError, LEASE_EXPIRED), at)) else v.dead,
         closing := v.closing + 1)
    case CloseSwept => v.(rows := CloseAll(v.rows, OnSweep, at), closing := v.closing - 1)
    case CloseFails => v.(closing := v.closing - 1)
    case Cancel => v.(job := Some(CancelledRow(v.job.value, at)))
    case Retry => v.(job := Some(RetriedRow(v.job.value, at)), deleting := v.deleting + 1)
    case DropDead => v.(dead := None, deleting := v.deleting - 1)
    case DeleteFails => v.(deleting := v.deleting - 1)
    case Purge(_) => v.(job := None, rows := [])
  }

  // ---- histories -----------------------------------------------------------

  datatype History = Empty | Then(past: History, at: Time, act: Action)

  predicate Legal(id: JobId, h: History)
    decreases h, 0
  {
    match h
    case Empty => true
    case Then(past, at, a) => Legal(id, past) && (past.Then? ==> past.at <= at) && Enabled(After(id, past), at, a)
  }

  /** The job after a legal history. */
  function After(id: JobId, h: History): (v: View)
    requires Legal(id, h)
    ensures v.id == id
    decreases h, 1
  {
    match h
    case Empty => View(id, false, None, [], None, 0, 0)
    case Then(past, at, a) => Effect(After(id, past), at, a)
  }
}
