/** The store as an object: each operation updates the tables statement by statement, and is proved to be the event (or
    the sequence of events) of `Tables` that it stands for. */
module Store {
  import opened Basics
  import opened Status
  import opened Backoff
  import opened Model
  import opened Lifecycle
  import opened Tables

  // ---- ORDER BY ... LIMIT always has an answer -----------------------------

  lemma {:induction false} FirstExists(jobs: map<JobId, Job>, rows: set<JobId>)
    requires rows <= jobs.Keys && rows != {}
    ensures exists id :: IsFirst(jobs, rows, id)
  {
    var x :| x in rows;
    var rest := rows - {x};
    if rest == {} {
      assert rows == {x};
      assert IsFirst(jobs, rows, x);
    } else {
      FirstExists(jobs, rest);
      var y :| IsFirst(jobs, rest, y);
      assert IsFirst(jobs, rows, if LeaseOrder(jobs[x], jobs[y]) then x else y);
    }
  }

  lemma {:induction false} OldestOneExists(jobs: map<JobId, Job>, rows: set<JobId>) returns (x: JobId)
    requires rows <= jobs.Keys && rows != {}
    ensures x in rows && forall o | o in rows :: ExpiryOf(jobs[x]) <= ExpiryOf(jobs[o])
  {
    x :| x in rows;
    if rows != {x} {
      var y := OldestOneExists(jobs, rows - {x});
      if ExpiryOf(jobs[y]) < ExpiryOf(jobs[x]) {
        x := y;
      }
    }
  }

  lemma OldestAndMore(jobs: map<JobId, Job>, rows: set<JobId>, limit: nat, x: JobId, ids: set<JobId>)
    requires rows <= jobs.Keys && limit > 0 && x in rows
    requires forall o | o in rows :: ExpiryOf(jobs[x]) <= ExpiryOf(jobs[o])
    requires AreOldest(jobs, rows - {x}, limit - 1, ids)
    ensures AreOldest(jobs, rows, limit, ids + {x})
  {
    assert |rows - {x}| == |rows| - 1;
    assert |ids + {x}| == |ids| + 1;
    assert rows - (ids + {x}) == rows - {x} - ids;
  }

  lemma {:induction false} OldestExist(jobs: map<JobId, Job>, rows: set<JobId>, limit: nat)
    requires rows <= jobs.Keys
    ensures exists ids :: ids <= rows && AreOldest(jobs, rows, limit, ids)
    decreases limit
  {
    if limit == 0 || rows == {} {
      assert AreOldest(jobs, rows, limit, {});
    } else {
      var x := OldestOneExists(jobs, rows);
      OldestExist(jobs, rows - {x}, limit - 1);
      var ids :| ids <= rows - {x} && AreOldest(jobs, rows - {x}, limit - 1, ids);
      OldestAndMore(jobs, rows, limit, x, ids);
    }
  }

  predicate Distinct<T(==)>(list: seq<T>) {
    forall i, k :: 0 <= i < k < |list| ==> list[i] != list[k]
  }

  /** The rows of a result set, in whatever order they come. */
  method Listed<T(==)>(ids: set<T>) returns (list: seq<T>)
    ensures SetOf(list) == ids && Distinct(list) && multiset(list) == multiset(ids)
  {
    list := [];
    var rest := ids;
    while rest != {}
      invariant rest <= ids
      invariant SetOf(list) == ids - rest && Distinct(list) && multiset(list) == multiset(ids - rest)
      decreases rest
    {
      var id :| id in rest;
      assert id !in SetOf(list);
      assert SetOf(list + [id]) == SetOf(list) + {id};
      assert ids - (rest - {id}) == ids - rest + {id};
      list := list + [id];
      rest := rest - {id};
    }
  }

  // ---- results -------------------------------------------------------------

  datatype Submission = Submission(id: JobId, job: Job, created: bool)

  datatype QueueStats = QueueCounts(
    paused: bool,
    queued: nat,
    scheduled: nat,
    processing: nat,
    completed: nat,
    failed: nat,
    retrying: nat,
    cancelled: nat,
    deadLettered: nat)

  function InStatus(s: State, queue: string, status: JobStatus): set<JobId> {
    set id | id in s.jobs && s.jobs[id].queue == queue && s.jobs[id].status == status
  }

  function InQueue(s: State, queue: string): set<JobId> {
    set id | id in s.jobs && s.jobs[id].queue == queue
  }

  /** Jobs waiting to be leased. */
  function Waiting(s: State, queue: string): set<JobId> {
    set id | id in s.jobs && s.jobs[id].queue == queue && s.jobs[id].status.IsLeaseable()
  }

  function CountOf(t: QueueStats, status: JobStatus): nat {
    match status
    case Queued => t.queued
    case Scheduled => t.scheduled
    case Processing => t.processing
    case Completed => t.completed
    case Failed => t.failed
    case Retrying => t.retrying
    case Cancelled => t.cancelled
    case DeadLettered => t.deadLettered
  }

  /** One count was set, the others kept. */
  ghost predicate CountSet(before: QueueStats, after: QueueStats, status: JobStatus, count: nat) {
    && after.paused == before.paused
    && forall other :: CountOf(after, other) == if other == status then count else CountOf(before, other)
  }

  /** The counts are those of the queue's jobs. */
  ghost predicate CountsQueue(t: QueueStats, s: State, queue: string) {
    forall status :: CountOf(t, status) == |InStatus(s, queue, status)|
  }

  lemma CountsFields(t: QueueStats, s: State, queue: string)
    requires CountsQueue(t, s, queue)
    ensures && t.queued == |InStatus(s, queue, Queued)| && t.scheduled == |InStatus(s, queue, Scheduled)|
            && t.processing == |InStatus(s, queue, Processing)| && t.completed == |InStatus(s, queue, Completed)|
            && t.failed == |InStatus(s, queue, JobStatus.Failed)| && t.retrying == |InStatus(s, queue, Retrying)|
            && t.cancelled == |InStatus(s, queue, Cancelled)| && t.deadLettered == |InStatus(s, queue, DeadLettered)|
  {
    assert CountOf(t, Queued) == t.queued && CountOf(t, Scheduled) == t.scheduled && CountOf(t, Retrying) == t.retrying;
    assert CountOf(t, Processing) == t.processing && CountOf(t, Completed) == t.completed;
    assert CountOf(t, JobStatus.Failed) == t.failed && CountOf(t, Cancelled) == t.cancelled;
    assert CountOf(t, DeadLettered) == t.deadLettered;
  }

  /** The statuses in an order that puts the waiting ones first. */
  function Rank(status: JobStatus): nat {
    match status
    case Queued => 0
    case Scheduled => 1
    case Retrying => 2
    case Processing => 3
    case Completed => 4
    case Failed => 5
    case Cancelled => 6
    case DeadLettered => 7
  }

  function Below(s: State, queue: string, n: nat): set<JobId> {
    set id | id in s.jobs && s.jobs[id].queue == queue && Rank(s.jobs[id].status) < n
  }

  lemma DisjointSizes<T>(a: set<T>, b: set<T>, whole: set<T>)
    requires a !! b && whole == a + b
    ensures |whole| == |a| + |b|
  {
  }

  lemma RankTellsApart(a: JobStatus, b: JobStatus)
    ensures Rank(a) == Rank(b) <==> a == b
  {
  }

  lemma BelowNext(s: State, queue: string, status: JobStatus, n: nat)
    requires Rank(status) == n
    ensures Below(s, queue, n) !! InStatus(s, queue, status)
    ensures Below(s, queue, n + 1) == Below(s, queue, n) + InStatus(s, queue, status)
  {
    forall id | id in s.jobs ensures Rank(s.jobs[id].status) == n <==> s.jobs[id].status == status {
      RankTellsApart(s.jobs[id].status, status);
    }
  }

  lemma AddStatus(s: State, queue: string, status: JobStatus, n: nat)
    requires Rank(status) == n
    ensures |Below(s, queue, n + 1)| == |Below(s, queue, n)| + |InStatus(s, queue, status)|
  {
    BelowNext(s, queue, status, n);
    DisjointSizes(Below(s, queue, n), InStatus(s, queue, status), Below(s, queue, n + 1));
  }

  lemma WaitingCount(s: State, queue: string)
    ensures |Below(s, queue, 3)| == |Waiting(s, queue)|
    ensures |Below(s, queue, 3)|
         == |InStatus(s, queue, Queued)| + |InStatus(s, queue, Scheduled)| + |InStatus(s, queue, Retrying)|
  {
    AddStatus(s, queue, Queued, 0);
    AddStatus(s, queue, Scheduled, 1);
    AddStatus(s, queue, Retrying, 2);
    assert Below(s, queue, 0) == {};
    assert Below(s, queue, 3) == Waiting(s, queue);
  }

  lemma RestCount(s: State, queue: string)
    ensures |InQueue(s, queue)| == |Below(s, queue, 3)|
            + |InStatus(s, queue, Processing)| + |InStatus(s, queue, Completed)|
            + |InStatus(s, queue, JobStatus.Failed)| + |InStatus(s, queue, Cancelled)|
            + |InStatus(s, queue, DeadLettered)|
  {
    AddStatus(s, queue, Processing, 3);
    AddStatus(s, queue, Completed, 4);
    AddStatus(s, queue, JobStatus.Failed, 5);
    AddStatus(s, queue, Cancelled, 6);
    AddStatus(s, queue, DeadLettered, 7);
    assert Below(s, queue, 8) == InQueue(s, queue);
  }

  /** The waiting jobs of a queue are counted by three of the columns, and all its jobs by the eight together. */
  lemma CountsAddUp(t: QueueStats, s: State, queue: string)
    requires CountsQueue(t, s, queue)
    ensures t.queued + t.scheduled + t.retrying == |Waiting(s, queue)|
    ensures t.queued + t.scheduled + t.processing + t.completed + t.failed + t.retrying + t.cancelled + t.deadLettered
            == |InQueue(s, queue)|
  {
    WaitingCount(s, queue);
    RestCount(s, queue);
    assert CountOf(t, Queued) == t.queued && CountOf(t, Scheduled) == t.scheduled && CountOf(t, Retrying) == t.retrying;
    assert CountOf(t, Processing) == t.processing && CountOf(t, Completed) == t.completed;
    assert CountOf(t, JobStatus.Failed) == t.failed && CountOf(t, Cancelled) == t.cancelled;
    assert CountOf(t, DeadLettered) == t.deadLettered;
  }

  /** The jobs recovered from kind `kind` by a sweep that started in `s`. */
  function Part(s: State, recovered: seq<JobId>, kind: SweepKind): set<JobId> {
    set id | id in recovered && id in s.jobs && InKind(s.jobs[id], kind)
  }

  /** Each statement of a sweep commits by itself, at its own time. */
  datatype SweepTimes = SweepTimes(retry: Time, bury: Time, fail: Time, close: Time) {
    function Of(kind: SweepKind): Time {
      match kind
      case ToRetry => retry
      case ToDeadLetter => bury
      case ToFailed => fail
    }
  }

  /** The three updates of a sweep, one after the other. */
  ghost predicate UpdatesTo(s: State, at: SweepTimes, limit: nat, skipped: set<JobId>,
                            a: set<JobId>, b: set<JobId>, c: set<JobId>, s3: State)
  {
    Picks(s, at.retry, ToRetry, limit, skipped, a) && (
      var s1 := Swept(s, at.retry, ToRetry, a);
      Picks(s1, at.bury, ToDeadLetter, limit, skipped, b) && (
        var s2 := Swept(s1, at.bury, ToDeadLetter, b);
        Picks(s2, at.fail, ToFailed, limit, skipped, c)
        && s3 == Swept(s2, at.fail, ToFailed, c)))
  }

  function AfterUpdates(s: State, at: SweepTimes, a: set<JobId>, b: set<JobId>, c: set<JobId>): State
    requires a + b + c <= s.jobs.Keys
  {
    Swept(Swept(Swept(s, at.retry, ToRetry, a), at.bury, ToDeadLetter, b), at.fail, ToFailed, c)
  }

  /** A whole sweep: the updates, and the closing of the recovered jobs' attempt rows. */
  ghost predicate SweepsTo(s: State, at: SweepTimes, limit: nat, skipped: set<JobId>,
                           recovered: seq<JobId>, s': State)
  {
    var a, b, c := Part(s, recovered, ToRetry), Part(s, recovered, ToDeadLetter), Part(s, recovered, ToFailed);
    var s3 := AfterUpdates(s, at, a, b, c);
    && SetOf(recovered) == a + b + c
    && UpdatesTo(s, at, limit, skipped, a, b, c, s3)
    && multiset(SetOf(recovered)) <= s3.closing
    && s' == Closed(s3, at.close, SetOf(recovered))
  }

  /** A row updated by one statement of a sweep is not expired for the next; the others are untouched. */
  lemma SweptNoLongerExpired(s: State, at: Time, kind: SweepKind, ids: set<JobId>, later: Time, next: SweepKind)
    requires ids <= s.jobs.Keys
    ensures forall id | id in Expired(Swept(s, at, kind, ids), later, next) ::
              id !in ids && Swept(s, at, kind, ids).jobs[id] == s.jobs[id]
  {
  }

  /** The rows of each update were expired for it. */
  ghost predicate UpdatesExpired(s: State, at: SweepTimes, a: set<JobId>, b: set<JobId>, c: set<JobId>, s3: State)
  {
    a <= Expired(s, at.retry, ToRetry) && (
      var s1 := Swept(s, at.retry, ToRetry, a);
      b <= Expired(s1, at.bury, ToDeadLetter) && (
        var s2 := Swept(s1, at.bury, ToDeadLetter, b);
        c <= Expired(s2, at.fail, ToFailed) && s3 == Swept(s2, at.fail, ToFailed, c)))
  }

  /** The three updates act on disjoint sets of jobs, told apart by the state in which the sweep began. */
  lemma UpdatesPartition(s: State, at: SweepTimes, a: set<JobId>, b: set<JobId>, c: set<JobId>, s3: State)
    requires UpdatesExpired(s, at, a, b, c, s3)
    ensures a !! b !! c
    ensures forall id | id in a :: id in s.jobs && InKind(s.jobs[id], ToRetry)
    ensures forall id | id in b :: id in s.jobs && InKind(s.jobs[id], ToDeadLetter)
    ensures forall id | id in c :: id in s.jobs && InKind(s.jobs[id], ToFailed)
    ensures s3.closing == s.closing + multiset(a + b + c)
  {
    var s1 := Swept(s, at.retry, ToRetry, a);
    var s2 := Swept(s1, at.bury, ToDeadLetter, b);
    SweptNoLongerExpired(s, at.retry, ToRetry, a, at.bury, ToDeadLetter);
    SweptNoLongerExpired(s, at.retry, ToRetry, a, at.fail, ToFailed);
    SweptNoLongerExpired(s1, at.bury, ToDeadLetter, b, at.fail, ToFailed);
    forall id | id in c ensures id !in a && s2.jobs[id] == s.jobs[id] {
      assert id in Expired(s2, at.fail, ToFailed) && id !in b;
      assert id in Expired(s1, at.fail, ToFailed);
    }
  }

  lemma PartsOf(s: State, recovered: seq<JobId>, a: set<JobId>, b: set<JobId>, c: set<JobId>)
    requires SetOf(recovered) == a + b + c
    requires forall id | id in a :: id in s.jobs && InKind(s.jobs[id], ToRetry)
    requires forall id | id in b :: id in s.jobs && InKind(s.jobs[id], ToDeadLetter)
    requires forall id | id in c :: id in s.jobs && InKind(s.jobs[id], ToFailed)
    ensures Part(s, recovered, ToRetry) == a
    ensures Part(s, recovered, ToDeadLetter) == b
    ensures Part(s, recovered, ToFailed) == c
  {
    forall id ensures id in recovered <==> id in a + b + c {
      assert id in SetOf(recovered) <==> id in a + b + c;
    }
  }

  lemma SweepCompletes(s: State, at: SweepTimes, limit: nat, skipped: set<JobId>,
                       a: set<JobId>, b: set<JobId>, c: set<JobId>, s3: State, recovered: seq<JobId>)
    requires UpdatesTo(s, at, limit, skipped, a, b, c, s3)
    requires SetOf(recovered) == a + b + c
    ensures SweepsTo(s, at, limit, skipped, recovered, Closed(s3, at.close, SetOf(recovered)))
  {
    UpdatesPartition(s, at, a, b, c, s3);
    PartsOf(s, recovered, a, b, c);
  }

  // ---- rows, column by column ----------------------------------------------

  /** The row as it is inserted. */
  predicate IsInserted(j: Job, n: NormalizedJob, now: Time) {
    && j.queue == n.queue && j.jobType == n.jobType && j.payload == n.payload && j.status == n.status
    && j.priority == n.priority && j.idempotencyKey == n.idempotencyKey
    && j.maxAttempts == n.maxAttempts && j.attempts == 0 && j.runAt == n.runAt && j.timeoutSecs == n.timeoutSecs
    && j.backoffBaseSecs == n.backoffBaseSecs && j.backoffMaxSecs == n.backoffMaxSecs && j.deadLetter == n.deadLetter
    && j.lockedBy == None && j.lockedAt == None && j.leaseExpiresAt == None
    && j.lastError == None && j.result == None && j.completedAt == None
    && j.createdAt == now && j.updatedAt == now
  }

  /** The job may be leased by a worker that serves `serves`: it waits in an open queue, is due and not locked. */
  predicate MayLease(jobs: map<JobId, Job>, queues: map<string, bool>, serves: seq<string>, skipped: set<JobId>,
                     now: Time, id: JobId)
  {
    && id in jobs && id !in skipped
    && jobs[id].queue in serves && jobs[id].queue in queues && !queues[jobs[id].queue]
    && jobs[id].status in {Queued, Scheduled, Retrying}
    && jobs[id].runAt <= now
  }

  /** The job sits on an expired lease of the kind, and is not locked. */
  predicate MaySweep(jobs: map<JobId, Job>, kind: SweepKind, skipped: set<JobId>, now: Time, id: JobId) {
    && id in jobs && id !in skipped
    && jobs[id].status == Processing && jobs[id].leaseExpiresAt.Some? && jobs[id].leaseExpiresAt.value < now
    && match kind
       case ToRetry => jobs[id].attempts < jobs[id].maxAttempts
       case ToDeadLetter => jobs[id].attempts >= jobs[id].maxAttempts && jobs[id].deadLetter
       case ToFailed => jobs[id].attempts >= jobs[id].maxAttempts && !jobs[id].deadLetter
  }

  /** The worker holds the lease. */
  predicate HoldsLease(jobs: map<JobId, Job>, id: JobId, worker: WorkerId) {
    id in jobs && jobs[id].status == Processing && jobs[id].lockedBy == Some(worker)
  }

  /** Exactly the open rows of the jobs `ids` were closed, with that status, that time and that error, or, if there is
      none, the one they had. */
  predicate ClosedRows(before: seq<AttemptRow>, after: seq<AttemptRow>, ids: set<JobId>, status: AttemptStatus,
                       error: Option<string>, now: Time)
  {
    && |after| == |before|
    && forall k :: 0 <= k < |before| ==>
         after[k] == if before[k].jobId in ids && before[k].status == Running then
                       before[k].(status := status, finishedAt := Some(now),
                                  error := if error.Some? then error else before[k].error)
                     else before[k]
  }

  lemma ClosedRowsHold(rows: seq<AttemptRow>, ids: set<JobId>, error: string, timedOut: bool, now: Time)
    ensures ClosedRows(rows, CloseRunning(rows, ids, OnComplete, now), ids, Succeeded, None, now)
    ensures ClosedRows(rows, CloseRunning(rows, ids, OnFail(error, timedOut), now), ids,
                       if timedOut then TimedOut else Errored, Some(error), now)
  {
  }

  /** The same for a sweep, whose error does not replace another. */
  predicate SweptRows(before: seq<AttemptRow>, after: seq<AttemptRow>, ids: set<JobId>, now: Time) {
    && |after| == |before|
    && forall k :: 0 <= k < |before| ==>
         after[k] == if before[k].jobId in ids && before[k].status == Running then
                       before[k].(status := TimedOut, finishedAt := Some(now),
                                  error := if before[k].error.Some? then before[k].error else Some("lease expired"))
                     else before[k]
  }

  /** The row of a job released at `now` with `error`: delayed, dead-lettered or failed. */
  predicate IsReleased(before: Job, after: Job, error: string, now: Time) {
    && after == before.(status := after.status, runAt := after.runAt, lastError := Some(error), lockedBy := None,
                        lockedAt := None, leaseExpiresAt := None, updatedAt := now)
    && if before.attempts < before.maxAttempts then
         after.status == Retrying && IsDelayed(before, after, now)
       else
         after.status == (if before.deadLetter then DeadLettered else JobStatus.Failed) && after.runAt == before.runAt
  }

  /** For parameters in range the delay is the exponential backoff of the attempts made. */
  predicate IsDelayed(before: Job, after: Job, now: Time) {
    1 <= before.backoffBaseSecs <= before.backoffMaxSecs < INT32_LIMIT && before.attempts >= 1 ==>
      var secs := before.backoffBaseSecs * Pow2(before.attempts - 1);
      after.runAt == now + (if secs <= before.backoffMaxSecs then secs else before.backoffMaxSecs) * 1_000_000
  }

  lemma FailedIsReleased(j: Job, error: string, now: Time)
    ensures IsReleased(j, FailedRow(j, error, now), error, now)
  {
    if 1 <= j.backoffBaseSecs <= j.backoffMaxSecs < INT32_LIMIT {
      DelaysAgree(j.backoffBaseSecs, j.backoffMaxSecs, j.attempts);
    }
  }

  lemma SweptIsReleased(j: Job, now: Time)
    ensures IsReleased(j, SweptRow(j, now), SweepError(j), now)
  {
  }

  /** The error a sweep writes. */
  function SweepError(j: Job): string {
    if j.lastError.Some? then j.lastError.value else "lease expired"
  }

  /** The entry of a job buried at `now` with `error`. */
  predicate IsBuried(e: DeadLetter, j: Job, error: string, now: Time) {
    && e.queue == j.queue && e.jobType == j.jobType && e.payload == j.payload && e.attempts == j.attempts
    && e.lastError == Some(error) && e.deadLetteredAt == now && e.originalCreatedAt == j.createdAt
  }

  lemma OldestByColumn(jobs: map<JobId, Job>, kind: SweepKind, skipped: set<JobId>, now: Time, rows: set<JobId>,
                       limit: nat, ids: set<JobId>)
    requires forall id :: id in rows <==> MaySweep(jobs, kind, skipped, now, id)
    requires rows <= jobs.Keys && AreOldest(jobs, rows, limit, ids)
    ensures forall id | id in ids :: MaySweep(jobs, kind, skipped, now, id)
    ensures forall id, o {:trigger id in ids, MaySweep(jobs, kind, skipped, now, o)}
              | id in ids && MaySweep(jobs, kind, skipped, now, id) && MaySweep(jobs, kind, skipped, now, o)
                && o !in ids ::
              jobs[id].leaseExpiresAt.value <= jobs[o].leaseExpiresAt.value
  {
    forall id, o {:trigger id in ids, MaySweep(jobs, kind, skipped, now, o)}
      | id in ids && MaySweep(jobs, kind, skipped, now, o) && o !in ids
      ensures jobs[id].leaseExpiresAt.value <= jobs[o].leaseExpiresAt.value
    {
      assert o in rows - ids;
      assert ExpiryOf(jobs[id]) <= ExpiryOf(jobs[o]);
    }
  }

  /** A failure reported by the holder of the lease. */
  lemma FailedByColumn(s: State, now: Time, id: JobId, worker: WorkerId, error: string, timedOut: bool)
    requires HoldsLease(s.jobs, id, worker)
    ensures var s' := Apply(s, now, Event.FailJob(id, worker, error, timedOut));
            && id in s'.jobs && s'.jobs == s.jobs[id := s'.jobs[id]] && IsReleased(s.jobs[id], s'.jobs[id], error, now)
            && ClosedRows(s.attempts, s'.attempts, {id}, if timedOut then TimedOut else Errored, Some(error), now)
            && s'.queues == s.queues
            && if s'.jobs[id].status == DeadLettered && id !in s.dead then
                 id in s'.dead && s'.dead == s.dead[id := s'.dead[id]] && IsBuried(s'.dead[id], s.jobs[id], error, now)
               else s'.dead == s.dead
  {
    FailedIsReleased(s.jobs[id], error, now);
    ClosedRowsHold(s.attempts, {id}, error, timedOut, now);
  }

  /** A completion reported by the holder of the lease. */
  lemma CompletedByColumn(s: State, now: Time, id: JobId, worker: WorkerId, result: Option<Json>)
    requires HoldsLease(s.jobs, id, worker)
    ensures var s' := Apply(s, now, Event.CompleteJob(id, worker, result));
            && s'.jobs == s.jobs[id := s.jobs[id].(status := Completed, result := result, completedAt := Some(now),
                                                   lastError := None, lockedBy := None, lockedAt := None,
                                                   leaseExpiresAt := None, updatedAt := now)]
            && ClosedRows(s.attempts, s'.attempts, {id}, Succeeded, None, now)
            && s'.queues == s.queues && s'.dead == s.dead
  {
    ClosedRowsHold(s.attempts, {id}, "", false, now);
  }

  /** One update of a sweep on the rows `ids`. */
  lemma SweptByColumn(s: State, now: Time, kind: SweepKind, ids: set<JobId>)
    requires ids <= s.jobs.Keys
    ensures var s' := Swept(s, now, kind, ids);
            && s'.jobs.Keys == s.jobs.Keys && s'.attempts == s.attempts && s'.queues == s.queues
            && (forall id | id in s.jobs ::
                  if id in ids then IsReleased(s.jobs[id], s'.jobs[id], SweepError(s.jobs[id]), now)
                  else s'.jobs[id] == s.jobs[id])
            && (forall id | id in s.dead :: id in s'.dead && s'.dead[id] == s.dead[id])
            && (forall id | id in s'.dead && id !in s.dead ::
                  id in ids && kind.ToDeadLetter? && IsBuried(s'.dead[id], s.jobs[id], SweepError(s.jobs[id]), now))
            && (kind.ToDeadLetter? ==> ids <= s'.dead.Keys)
  {
    var s' := Swept(s, now, kind, ids);
    forall id | id in ids ensures IsReleased(s.jobs[id], s'.jobs[id], SweepError(s.jobs[id]), now) {
      SweptIsReleased(s.jobs[id], now);
    }
  }

  // ---- other sessions ------------------------------------------------------

  /** `others(k)(s)` is what other sessions make of the tables `s` between the statement `k` of an operation and the
      next. */
  type Others = nat -> State -> State

  /** Nobody else does anything. */
  const NOBODY: Others := (k: nat) => (s: State) => s

  /** A submission found the job that has its key. */
  predicate Finds(s: State, n: NormalizedJob, r: Result<Submission, QueueError>) {
    && r.Ok? && !r.value.created
    && r.value.id in s.jobs && r.value.job == s.jobs[r.value.id]
    && r.value.job.queue == n.queue && n.idempotencyKey.Some? && r.value.job.idempotencyKey == n.idempotencyKey
  }

  /** The tables as the submission's INSERT finds them. */
  function AtInsert(s: State, now: Time, n: NormalizedJob, others: Others): State {
    others(1)(others(0)(Apply(s, now, EnsureQueue(n.queue))))
  }

  /** A whole submission among other sessions: ensure the queue, look up the key, insert, and look up the key again if
      the insert met a unique violation. */
  predicate SubmitsTo(s: State, now: Time, n: NormalizedJob, newId: JobId, others: Others,
                      s': State, r: Result<Submission, QueueError>)
    requires WellFormed(n)
    requires var t := AtInsert(s, now, n, others); n.queue in t.queues && (newId in t.minted ==> newId in t.jobs)
  {
    var looked := others(0)(Apply(s, now, EnsureQueue(n.queue)));
    var t := AtInsert(s, now, n, others);
    if KeyTaken(looked, n.queue, n.idempotencyKey) then s' == looked && Finds(looked, n, r)
    else if newId !in t.jobs && !KeyTaken(t, n.queue, n.idempotencyKey) then
      s' == Apply(t, now, Insert(newId, n)) && r == Ok(Submission(newId, NewRow(n, now), true))
    else if n.idempotencyKey.None? then s' == t && r.Err? && r.error.Storage?
    else
      && s' == others(2)(t)
      && if KeyTaken(s', n.queue, n.idempotencyKey) then Finds(s', n, r) else r.Err? && r.error.Storage?
  }

  /** The updates a sweep has made, what each picked, and the tables as the next statement found them. */
  datatype Sweeping = Began(s: State) | Updated(past: Sweeping, ids: set<JobId>, s: State) {
    function First(): State {
      if Began? then s else past.First()
    }

    function Steps(): nat {
      if Began? then 0 else past.Steps() + 1
    }

    function Picked(): multiset<JobId> {
      if Began? then multiset{} else past.Picked() + multiset(ids)
    }

    /** The updates in their order, each at its time, with other sessions after each. */
    ghost predicate Goes(at: SweepTimes, limit: nat, skipped: set<JobId>, others: Others) {
      Updated? ==>
        && past.Goes(at, limit, skipped, others)
        && var kind, now := KindAt(past.Steps()), at.Of(KindAt(past.Steps()));
           && Picks(past.s, now, kind, limit, skipped, ids)
           && s == others(past.Steps())(Swept(past.s, now, kind, ids))
    }
  }

  /** The order of the updates. */
  function KindAt(k: nat): SweepKind {
    if k == 0 then ToRetry else if k == 1 then ToDeadLetter else ToFailed
  }

  /** The outcome of a sweep whose statement `failing`, if that is one of the four, fails; those before it have
      committed, and the closing statement is given up. It is not run either if nothing was recovered. */
  predicate SweepEnds(at: SweepTimes, failing: nat, w: Sweeping, s': State, r: Result<seq<JobId>, QueueError>) {
    && w.Steps() == Min(failing, 3)
    && if failing < 3 || (failing == 3 && w.Picked() != multiset{}) then
         r.Err? && r.error.Storage? && s' == GivenUp(w.s, w.Picked())
       else
         r.Ok? && multiset(r.value) == w.Picked() && s' == ClosedAll(w.s, at.close, r.value)
  }

  lemma CountedTwice<T>(list: seq<T>, i: nat, k: nat)
    requires i < k < |list| && list[i] == list[k]
    ensures multiset(list)[list[i]] >= 2
  {
    assert list == list[..i] + [list[i]] + list[i + 1..k] + [list[k]] + list[k + 1..];
  }

  lemma ListedOnce<T>(list: seq<T>, ids: set<T>)
    requires multiset(list) == multiset(ids)
    ensures Distinct(list) && SetOf(list) == ids
  {
    forall i, k | 0 <= i < k < |list| ensures list[i] != list[k] {
      if list[i] == list[k] {
        CountedTwice(list, i, k);
      }
    }
    forall x ensures x in SetOf(list) <==> x in ids {
      assert x in list <==> x in multiset(list);
    }
  }

  lemma UnitedOnce(a: set<JobId>, b: set<JobId>, c: set<JobId>)
    requires a !! b !! c
    ensures multiset(a) + multiset(b) + multiset(c) == multiset(a + b + c)
  {
  }

  lemma ClosedOnce(s: State, at: Time, recovered: seq<JobId>, ids: set<JobId>)
    requires multiset(recovered) == multiset(ids)
    ensures Distinct(recovered) && SetOf(recovered) == ids
    ensures ClosedAll(s, at, recovered) == Closed(s, at, ids)
  {
    ListedOnce(recovered, ids);
  }

  /** Left alone and without a failure, that is a whole sweep, and it returns each job once. */
  lemma SweepLeftAlone(at: SweepTimes, limit: nat, skipped: set<JobId>, failing: nat, w: Sweeping,
                       s': State, r: Result<seq<JobId>, QueueError>)
    requires w.Goes(at, limit, skipped, NOBODY) && SweepEnds(at, failing, w, s', r) && failing > 3
    ensures r.Ok? && Distinct(r.value) && SweepsTo(w.First(), at, limit, skipped, r.value, s')
  {
    var a, b, c := UpdatesLeftAlone(at, limit, skipped, w);
    UpdatesPartition(w.First(), at, a, b, c, w.s);
    UnitedOnce(a, b, c);
    ClosedOnce(w.s, at.close, r.value, a + b + c);
    SweepCompletes(w.First(), at, limit, skipped, a, b, c, w.s, r.value);
  }

  lemma UpdateLeftAlone(at: SweepTimes, limit: nat, skipped: set<JobId>, w: Sweeping, kind: SweepKind)
    requires w.Updated? && w.Goes(at, limit, skipped, NOBODY) && KindAt(w.past.Steps()) == kind
    ensures w.past.Goes(at, limit, skipped, NOBODY)
    ensures Picks(w.past.s, at.Of(kind), kind, limit, skipped, w.ids)
    ensures w.s == Swept(w.past.s, at.Of(kind), kind, w.ids)
  {
  }

  lemma ThreeUpdates(s: State, at: SweepTimes, limit: nat, skipped: set<JobId>,
                     a: set<JobId>, s1: State, b: set<JobId>, s2: State, c: set<JobId>, s3: State)
    requires Picks(s, at.retry, ToRetry, limit, skipped, a) && s1 == Swept(s, at.retry, ToRetry, a)
    requires Picks(s1, at.bury, ToDeadLetter, limit, skipped, b) && s2 == Swept(s1, at.bury, ToDeadLetter, b)
    requires Picks(s2, at.fail, ToFailed, limit, skipped, c) && s3 == Swept(s2, at.fail, ToFailed, c)
    ensures UpdatesTo(s, at, limit, skipped, a, b, c, s3) && UpdatesExpired(s, at, a, b, c, s3)
  {
  }

  lemma ThreeSteps(w: Sweeping)
    requires w.Steps() == 3
    ensures w.Updated? && w.past.Updated? && w.past.past.Updated? && w.past.past.past.Began?
    ensures w.past.Steps() == 2 && w.past.past.Steps() == 1 && w.past.past.past.Steps() == 0
    ensures w.First() == w.past.past.past.s
    ensures w.Picked() == multiset(w.past.past.ids) + multiset(w.past.ids) + multiset(w.ids)
  {
    assert w.past.Steps() == 2;
    var w1 := w.past.past;
    assert w1.Steps() == 1;
    assert w1.past.Steps() == 0;
    assert w.First() == w.past.First() == w1.First() == w1.past.First();
    assert w.Picked() == w.past.Picked() + multiset(w.ids);
    assert w.past.Picked() == w1.Picked() + multiset(w.past.ids);
    assert w1.Picked() == w1.past.Picked() + multiset(w1.ids);
  }

  lemma UpdatesLeftAlone(at: SweepTimes, limit: nat, skipped: set<JobId>, w: Sweeping)
    returns (a: set<JobId>, b: set<JobId>, c: set<JobId>)
    requires w.Goes(at, limit, skipped, NOBODY) && w.Steps() == 3
    ensures UpdatesTo(w.First(), at, limit, skipped, a, b, c, w.s) && UpdatesExpired(w.First(), at, a, b, c, w.s)
    ensures w.Picked() == multiset(a) + multiset(b) + multiset(c)
  {
    ThreeSteps(w);
    var w2 := w.past;
    var w1 := w2.past;
    var s := w1.past.s;
    UpdateLeftAlone(at, limit, skipped, w, ToFailed);
    UpdateLeftAlone(at, limit, skipped, w2, ToDeadLetter);
    UpdateLeftAlone(at, limit, skipped, w1, ToRetry);
    a, b, c := w1.ids, w2.ids, w.ids;
    ThreeUpdates(s, at, limit, skipped, a, w1.s, b, w2.s, c, w.s);
  }

  /** A sweep that picked `picked` has failed. */
  function GivenUp(s: State, picked: multiset<JobId>): State {
    s.(closing := s.closing - picked)
  }

  /** The last statement of a sweep that returned `recovered`. */
  function ClosedAll(s: State, at: Time, recovered: seq<JobId>): State {
    s.(attempts := CloseRunning(s.attempts, SetOf(recovered), OnSweep, at), closing := s.closing - multiset(recovered))
  }

  lemma CloseNothing(rows: seq<AttemptRow>, how: Closure, at: Time)
    ensures CloseRunning(rows, {}, how, at) == rows
  {
  }

  class PgStore {
    var queues: map<string, bool>
    var jobs: map<JobId, Job>
    var attempts: seq<AttemptRow>
    var dead: map<JobId, DeadLetter>
    var minted: set<JobId>
    var closing: multiset<JobId>
    var deleting: multiset<JobId>

    function Contents(): State
      reads this
    {
      State(queues, jobs, attempts, dead, minted, closing, deleting)
    }

    constructor ()
      ensures Contents() == EMPTY
    {
      queues, jobs, attempts, dead := map[], map[], [], map[];
      minted, closing, deleting := {}, multiset{}, multiset{};
    }

    /** Other sessions commit. */
    method Meanwhile(others: State -> State)
      modifies this
      ensures Contents() == others(old(Contents()))
    {
      var s := others(Contents());
      queues, jobs, attempts, dead := s.queues, s.jobs, s.attempts, s.dead;
      minted, closing, deleting := s.minted, s.closing, s.deleting;
    }

    // ---- queues ------------------------------------------------------------

    method ListQueues() returns (names: seq<string>)
      ensures SetOf(names) == queues.Keys && Distinct(names)
    {
      names := Listed(queues.Keys);
    }

    method EnsureQueue(name: string, now: Time) returns (paused: bool)
      modifies this
      ensures Contents() == Apply(old(Contents()), now, Event.EnsureQueue(name))
      ensures queues == if name in old(queues) then old(queues) else old(queues)[name := false]
      ensures jobs == old(jobs) && attempts == old(attempts) && dead == old(dead)
      ensures name in queues && paused == queues[name]
    {
      if name !in queues {
        queues := queues[name := false];
      }
      paused := queues[name];
    }

    method SetQueuePaused(name: string, paused: bool, now: Time) returns (r: Result<bool, QueueError>)
      modifies this
      ensures Contents() == Apply(old(Contents()), now, PauseQueue(name, paused))
      ensures queues == if name in old(queues) then old(queues)[name := paused] else old(queues)
      ensures jobs == old(jobs) && attempts == old(attempts) && dead == old(dead)
      ensures r == if name in old(queues) then Ok(paused) else Err(QueueNotFound(name))
    {
      if name !in queues {
        return Err(QueueNotFound(name));
      }
      queues := queues[name := paused];
      r := Ok(paused);
    }

    /** SELECT status, COUNT(*) ... GROUP BY status, in whatever order the groups come. */
    method CountByStatus(name: string) returns (rows: seq<(JobStatus, nat)>)
      ensures forall i :: 0 <= i < |rows| ==>
                rows[i].1 == |set id | id in jobs && jobs[id].queue == name && jobs[id].status == rows[i].0|
      ensures forall i, k :: 0 <= i < k < |rows| ==> rows[i].0 != rows[k].0
      ensures forall id | id in jobs && jobs[id].queue == name ::
                exists i :: 0 <= i < |rows| && rows[i].0 == jobs[id].status
    {
      rows := [];
      var rest := set id | id in jobs && jobs[id].queue == name :: jobs[id].status;
      while rest != {}
        invariant forall i :: 0 <= i < |rows| ==>
                    rows[i].1 == |set id | id in jobs && jobs[id].queue == name && jobs[id].status == rows[i].0|
        invariant forall i, k :: 0 <= i < k < |rows| ==> rows[i].0 != rows[k].0
        invariant forall i :: 0 <= i < |rows| ==> rows[i].0 !in rest
        invariant forall id | id in jobs && jobs[id].queue == name ::
                    jobs[id].status in rest || exists i :: 0 <= i < |rows| && rows[i].0 == jobs[id].status
        decreases rest
      {
        var status :| status in rest;
        ghost var before := rows;
        rows := rows + [(status, |set id | id in jobs && jobs[id].queue == name && jobs[id].status == status|)];
        assert rows[|before|].0 == status && forall i :: 0 <= i < |before| ==> rows[i] == before[i];
        rest := rest - {status};
      }
    }

    method QueueStats(name: string) returns (r: Result<QueueStats, QueueError>)
      ensures r.Ok? <==> name in queues
      ensures r.Ok? ==> r.value.paused == queues[name] && CountsQueue(r.value, Contents(), name)
      ensures r.Ok? ==>
                && r.value.queued == |InStatus(Contents(), name, Queued)|
                && r.value.scheduled == |InStatus(Contents(), name, Scheduled)|
                && r.value.processing == |InStatus(Contents(), name, Processing)|
                && r.value.completed == |InStatus(Contents(), name, Completed)|
                && r.value.failed == |InStatus(Contents(), name, JobStatus.Failed)|
                && r.value.retrying == |InStatus(Contents(), name, Retrying)|
                && r.value.cancelled == |InStatus(Contents(), name, Cancelled)|
                && r.value.deadLettered == |InStatus(Contents(), name, DeadLettered)|
      ensures r.Err? ==> r.error == QueueNotFound(name)
    {
      if name !in queues {
        return Err(QueueNotFound(name));
      }
      var rows := CountByStatus(name);
      forall i | 0 <= i < |rows| ensures rows[i].1 == |InStatus(Contents(), name, rows[i].0)| {
        assert InStatus(Contents(), name, rows[i].0)
            == set id | id in jobs && jobs[id].queue == name && jobs[id].status == rows[i].0;
      }
      var stats := QueueCounts(queues[name], 0, 0, 0, 0, 0, 0, 0, 0);
      ghost var seen := {};
      for i := 0 to |rows|
        invariant stats.paused == queues[name]
        invariant forall k :: 0 <= k < |rows| ==> (rows[k].0 in seen <==> k < i)
        invariant forall status ::
                    CountOf(stats, status) == if status in seen then |InStatus(Contents(), name, status)| else 0
      {
        seen := seen + {rows[i].0};
        ghost var before := stats;
        var count := rows[i].1;
        match rows[i].0 {
          case Queued => stats := stats.(queued := count);
          case Scheduled => stats := stats.(scheduled := count);
          case Processing => stats := stats.(processing := count);
          case Completed => stats := stats.(completed := count);
          case Failed => stats := stats.(failed := count);
          case Retrying => stats := stats.(retrying := count);
          case Cancelled => stats := stats.(cancelled := count);
          case DeadLettered => stats := stats.(deadLettered := count);
        }
        assert CountSet(before, stats, rows[i].0, count);
      }
      forall status ensures CountOf(stats, status) == |InStatus(Contents(), name, status)| {
        if status !in seen {
          assert InStatus(Contents(), name, status) == {};
        }
      }
      CountsFields(stats, Contents(), name);
      r := Ok(stats);
    }

    // ---- submission --------------------------------------------------------

    method SelectByKey(queue: string, key: string) returns (r: Option<JobId>)
      ensures r.Some? ==> r.value in jobs && jobs[r.value].queue == queue
                          && jobs[r.value].idempotencyKey == Some(key)
      ensures r.None? ==> forall id | id in jobs :: jobs[id].queue != queue || jobs[id].idempotencyKey != Some(key)
      ensures r.Some? <==> KeyTaken(Contents(), queue, Some(key))
    {
      var found := set id | id in jobs && jobs[id].queue == queue && jobs[id].idempotencyKey == Some(key);
      assert forall id | id in jobs && jobs[id].queue == queue && jobs[id].idempotencyKey == Some(key) :: id in found;
      if found == {} {
        return None;
      }
      var id :| id in found;
      r := Some(id);
    }

    /** INSERT INTO jobs; false on a unique violation of the primary key or of the idempotency index. */
    method InsertJob(n: NormalizedJob, newId: JobId, now: Time) returns (inserted: bool)
      requires WellFormed(n) && n.queue in queues
      requires newId in minted ==> newId in jobs
      modifies this
      ensures inserted <==> old(newId !in jobs && !KeyTaken(Contents(), n.queue, n.idempotencyKey))
      ensures inserted ==> old(Allowed(Contents(), now, Insert(newId, n)))
                           && Contents() == Apply(old(Contents()), now, Insert(newId, n))
      ensures inserted ==> newId in jobs && IsInserted(jobs[newId], n, now) && jobs == old(jobs)[newId := jobs[newId]]
      ensures !inserted ==> Contents() == old(Contents())
    {
      var clash := newId in jobs;
      if n.idempotencyKey.Some? {
        var other := SelectByKey(n.queue, n.idempotencyKey.value);
        clash := clash || other.Some?;
      }
      if clash {
        return false;
      }
      jobs := jobs[newId := Job(
        n.queue, n.jobType, n.payload, n.status, n.priority, n.idempotencyKey, n.maxAttempts, 0, n.runAt,
        n.timeoutSecs, n.backoffBaseSecs, n.backoffMaxSecs, n.deadLetter, None, None, None, None, None,
        now, now, None)];
      minted := minted + {newId};
      inserted := true;
    }

    /** `newId` is the identifier the database generates; it may clash with a stored one but is never a purged one. */
    method Submit(n: NormalizedJob, newId: JobId, now: Time, others: Others)
      returns (r: Result<Submission, QueueError>)
      requires WellFormed(n)
      requires var t := AtInsert(Contents(), now, n, others);
               n.queue in t.queues && (newId in t.minted ==> newId in t.jobs)
      modifies this
      ensures SubmitsTo(old(Contents()), now, n, newId, others, Contents(), r)
      ensures r.Ok? && r.value.created ==>
                && r.value.id == newId && newId in jobs && r.value.job == jobs[newId] && IsInserted(r.value.job, n, now)
    {
      var _ := EnsureQueue(n.queue, now);
      Meanwhile(others(0));
      if n.idempotencyKey.Some? {
        var existing := SelectByKey(n.queue, n.idempotencyKey.value);
        if existing.Some? {
          return Ok(Submission(existing.value, jobs[existing.value], false));
        }
      }
      Meanwhile(others(1));
      var inserted := InsertJob(n, newId, now);
      if inserted {
        return Ok(Submission(newId, jobs[newId], true));
      }
      if n.idempotencyKey.None? {
        return Err(Storage("duplicate key"));
      }
      Meanwhile(others(2));
      var winner := SelectByKey(n.queue, n.idempotencyKey.value);
      if winner.Some? {
        return Ok(Submission(winner.value, jobs[winner.value], false));
      }
      r := Err(Storage("row not found"));
    }

    // ---- operator actions --------------------------------------------------

    method CancelJob(id: JobId, now: Time) returns (r: Result<Job, QueueError>)
      modifies this
      ensures Contents() == Apply(old(Contents()), now, Event.CancelJob(id))
      ensures if old(Cancellable(Contents(), id)) then id in jobs && r == Ok(jobs[id])
              else if id in old(jobs) then r == Err(InvalidOperation("cancel", old(jobs)[id].status))
              else r == Err(JobNotFound(id))
      ensures r.Ok? <==> id in old(jobs) && old(jobs)[id].status in {Queued, Scheduled, Retrying, Processing}
      ensures r.Ok? ==>
                jobs == old(jobs)[id := old(jobs)[id].(status := Cancelled, lockedBy := None, lockedAt := None,
                                                       leaseExpiresAt := None, updatedAt := now)]
      ensures attempts == old(attempts) && dead == old(dead) && queues == old(queues)
    {
      if id in jobs && jobs[id].status in {Queued, Scheduled, Retrying, Processing} {
        jobs := jobs[id := jobs[id].(status := Cancelled, lockedBy := None, lockedAt := None,
                                     leaseExpiresAt := None, updatedAt := now)];
        return Ok(jobs[id]);
      }
      r := if id in jobs then Err(InvalidOperation("cancel", jobs[id].status)) else Err(JobNotFound(id));
    }

    /** The second statement of a redrive. */
    method DeleteEntry(id: JobId)
      modifies this`dead, this`deleting
      ensures Contents() == EntryDeleted(old(Contents()), id)
    {
      dead := dead - {id};
      deleting := deleting - multiset{id};
    }

    /** Two statements, with other sessions in between; the second may fail. The row returned is the one the first
        statement wrote. */
    method RetryJob(id: JobId, now: Time, others: Others, deleteFails: bool) returns (r: Result<Job, QueueError>)
      modifies this
      ensures if old(Redrivable(Contents(), id)) then
                && var s := others(0)(Apply(old(Contents()), now, RetryUpdate(id)));
                && Contents() == (if deleteFails then EntryKept(s, id) else EntryDeleted(s, id))
                && if deleteFails then r.Err? && r.error.Storage? else r == Ok(RetriedRow(old(jobs)[id], now))
              else
                && Contents() == old(Contents())
                && r == if id in jobs then Err(InvalidOperation("retry", jobs[id].status)) else Err(JobNotFound(id))
      ensures r.Ok? <==> !deleteFails && id in old(jobs) && old(jobs)[id].status in {JobStatus.Failed, DeadLettered}
      ensures r.Ok? ==>
                r.value == old(jobs)[id].(status := Queued, runAt := now, attempts := 0, lastError := None,
                                          lockedBy := None, lockedAt := None, leaseExpiresAt := None, updatedAt := now)
      ensures r.Ok? ==> id !in dead
    {
      if id in jobs && jobs[id].status in {JobStatus.Failed, DeadLettered} {
        jobs := jobs[id := jobs[id].(status := Queued, runAt := now, attempts := 0, lastError := None,
                                     lockedBy := None, lockedAt := None, leaseExpiresAt := None, updatedAt := now)];
        var written := jobs[id];
        deleting := deleting + multiset{id};
        assert Contents() == Apply(old(Contents()), now, RetryUpdate(id));
        Meanwhile(others(0));
        if deleteFails {
          deleting := deleting - multiset{id};
          return Err(Storage("connection lost"));
        }
        DeleteEntry(id);
        return Ok(written);
      }
      r := if id in jobs then Err(InvalidOperation("retry", jobs[id].status)) else Err(JobNotFound(id));
    }

    method PurgeFinished(cutoff: Time, now: Time) returns (purged: nat)
      modifies this
      ensures Contents() == Apply(old(Contents()), now, Event.PurgeFinished(cutoff))
      ensures purged == |old(jobs)| - |jobs|
      ensures forall id :: id in jobs <==>
                id in old(jobs)
                && !(old(jobs)[id].status in {Completed, Cancelled} && old(jobs)[id].updatedAt < cutoff)
      ensures forall id | id in jobs :: jobs[id] == old(jobs)[id]
      ensures dead == old(dead) && queues == old(queues)
    {
      var gone := set id | id in jobs && jobs[id].status in {Completed, Cancelled} && jobs[id].updatedAt < cutoff;
      assert gone == Purgeable(Contents(), cutoff);
      assert jobs.Keys == (jobs - gone).Keys + gone;
      purged := |gone|;
      jobs := jobs - gone;
      attempts := DeleteRows(attempts, gone);
    }

    // ---- leasing protocol --------------------------------------------------

    method LeaseNext(worker: WorkerId, serves: seq<string>, secs: int, skipped: set<JobId>, now: Time)
      returns (r: Option<JobId>)
      modifies this
      ensures old(Allowed(Contents(), now, Event.LeaseNext(worker, SetOf(serves), secs, skipped, r)))
      ensures Contents() == Apply(old(Contents()), now, Event.LeaseNext(worker, SetOf(serves), secs, skipped, r))
      ensures r.None? ==> forall o :: !MayLease(old(jobs), old(queues), serves, skipped, now, o)
      ensures r.None? ==> Contents() == old(Contents())
      ensures r.Some? ==> MayLease(old(jobs), old(queues), serves, skipped, now, r.value)
      ensures r.Some? ==>
                forall o | MayLease(old(jobs), old(queues), serves, skipped, now, o) ::
                  var first, other := old(jobs)[r.value], old(jobs)[o];
                  && !(other.priority > first.priority)
                  && !(other.priority == first.priority && other.runAt < first.runAt)
                  && !(other.priority == first.priority && other.runAt == first.runAt
                       && other.createdAt < first.createdAt)
      ensures r.Some? ==>
                var j := old(jobs)[r.value];
                && jobs == old(jobs)[r.value := j.(status := Processing, lockedBy := Some(worker), lockedAt := Some(now),
                                                   leaseExpiresAt := Some(now + secs * 1_000_000),
                                                   attempts := j.attempts + 1, updatedAt := now)]
                && attempts == old(attempts)
                               + [AttemptRow(r.value, j.attempts + 1, worker, now, None, Running, None)]
    {
      var rows := (set id | id in jobs && jobs[id].queue in serves && jobs[id].queue in queues
                            && !queues[jobs[id].queue] && jobs[id].status in {Queued, Scheduled, Retrying}
                            && jobs[id].runAt <= now) - skipped;
      assert rows == Eligible(Contents(), now, SetOf(serves)) - skipped;
      assert forall o :: o in rows <==> MayLease(jobs, queues, serves, skipped, now, o);
      if rows == {} {
        return None;
      }
      FirstExists(jobs, rows);
      var id :| id in rows && IsFirst(jobs, rows, id);
      var j := jobs[id];
      jobs := jobs[id := j.(status := Processing, lockedBy := Some(worker), lockedAt := Some(now),
                            leaseExpiresAt := Some(now + secs * SECOND), attempts := j.attempts + 1,
                            updatedAt := now)];
      attempts := attempts + [AttemptRow(id, jobs[id].attempts, worker, now, None, Running, None)];
      r := Some(id);
    }

    method CompleteJob(id: JobId, worker: WorkerId, result: Option<Json>, now: Time)
      returns (r: Result<Job, QueueError>)
      modifies this
      ensures Contents() == Apply(old(Contents()), now, Event.CompleteJob(id, worker, result))
      ensures if old(Held(Contents(), id, worker)) then id in jobs && r == Ok(jobs[id])
              else if id in old(jobs) then r == Err(InvalidOperation("complete", old(jobs)[id].status))
              else r == Err(JobNotFound(id))
      ensures r.Ok? <==> HoldsLease(old(jobs), id, worker)
      ensures r.Ok? ==>
                && r.value.result == result && r.value.status == Completed
                && r.value == old(jobs)[id].(status := Completed, result := result, completedAt := Some(now),
                                             lastError := None, lockedBy := None, lockedAt := None,
                                             leaseExpiresAt := None, updatedAt := now)
                && jobs == old(jobs)[id := r.value]
                && ClosedRows(old(attempts), attempts, {id}, Succeeded, None, now)
    {
      ClosedRowsHold(attempts, {id}, "", false, now);
      if id in jobs && jobs[id].lockedBy == Some(worker) && jobs[id].status == Processing {
        jobs := jobs[id := jobs[id].(status := Completed, result := result, completedAt := Some(now),
                                     lockedBy := None, lockedAt := None, leaseExpiresAt := None,
                                     lastError := None, updatedAt := now)];
        attempts := CloseRunning(attempts, {id}, OnComplete, now);
        return Ok(jobs[id]);
      }
      r := if id in jobs then Err(InvalidOperation("complete", jobs[id].status)) else Err(JobNotFound(id));
    }

    /** One transaction; then the row is read again, which other sessions may have changed or removed meanwhile. */
    method FailJob(id: JobId, worker: WorkerId, error: string, timedOut: bool, now: Time, others: Others)
      returns (r: Result<Job, QueueError>)
      modifies this
      ensures var s := Apply(old(Contents()), now, Event.FailJob(id, worker, error, timedOut));
              if old(Held(Contents(), id, worker)) then
                Contents() == others(0)(s) && r == if id in jobs then Ok(jobs[id]) else Err(JobNotFound(id))
              else
                && Contents() == s == old(Contents())
                && r == if id in old(jobs) then Err(InvalidOperation("fail", old(jobs)[id].status))
                        else Err(JobNotFound(id))
    {
      var refused := FailTransaction(id, worker, error, timedOut, now);
      if refused.Some? {
        return Err(refused.value);
      }
      Meanwhile(others(0));
      r := if id in jobs then Ok(jobs[id]) else Err(JobNotFound(id));
    }

    /** `FailedByColumn` spells out what it writes. */
    method FailTransaction(id: JobId, worker: WorkerId, error: string, timedOut: bool, now: Time)
      returns (refused: Option<QueueError>)
      modifies this
      ensures Contents() == Apply(old(Contents()), now, Event.FailJob(id, worker, error, timedOut))
      ensures refused.None? <==> old(Held(Contents(), id, worker))
      ensures refused.Some? ==>
                refused.value == if id in old(jobs) then InvalidOperation("fail", old(jobs)[id].status)
                                 else JobNotFound(id)
      ensures refused.None? <==> HoldsLease(old(jobs), id, worker)
      ensures refused.None? ==>
                id in jobs && jobs == old(jobs)[id := jobs[id]] && IsReleased(old(jobs)[id], jobs[id], error, now)
    {
      if id !in jobs {
        return Some(JobNotFound(id));
      }
      var current := jobs[id];
      if current.status != Processing || current.lockedBy != Some(worker) {
        return Some(InvalidOperation("fail", current.status));
      }
      if current.attempts >= current.maxAttempts {
        if current.deadLetter {
          if id !in dead {
            dead := dead[id := DeadLetter(current.queue, current.jobType, current.payload, current.attempts,
                                          Some(error), now, current.createdAt)];
          }
          jobs := jobs[id := current.(status := DeadLettered, lastError := Some(error), lockedBy := None,
                                      lockedAt := None, leaseExpiresAt := None, updatedAt := now)];
        } else {
          jobs := jobs[id := current.(status := JobStatus.Failed, lastError := Some(error), lockedBy := None,
                                      lockedAt := None, leaseExpiresAt := None, updatedAt := now)];
        }
      } else {
        var policy := Exponential(Max(current.backoffBaseSecs, 1), Max(current.backoffMaxSecs, 1));
        var delaySecs := Ceiling(policy.DelayForAttempt(current.attempts));
        ReportedIsCeiling(current.backoffBaseSecs, current.backoffMaxSecs, current.attempts);
        jobs := jobs[id := current.(status := Retrying, lastError := Some(error), runAt := now + delaySecs * SECOND,
                                    lockedBy := None, lockedAt := None, leaseExpiresAt := None, updatedAt := now)];
      }
      attempts := CloseRunning(attempts, {id}, OnFail(error, timedOut), now);
      FailedByColumn(old(Contents()), now, id, worker, error, timedOut);
      refused := None;
    }

    method RenewLease(id: JobId, worker: WorkerId, secs: int, now: Time) returns (r: Result<(), QueueError>)
      modifies this
      ensures Contents() == Apply(old(Contents()), now, Event.RenewLease(id, worker, secs))
      ensures r == if old(Held(Contents(), id, worker)) then Ok(())
                   else Err(InvalidOperation("renew_lease", Processing))
      ensures r.Ok? <==> HoldsLease(old(jobs), id, worker)
      ensures r.Ok? ==>
                jobs == old(jobs)[id := old(jobs)[id].(leaseExpiresAt := Some(now + secs * 1_000_000), updatedAt := now)]
    {
      if id in jobs && jobs[id].lockedBy == Some(worker) && jobs[id].status == Processing {
        jobs := jobs[id := jobs[id].(leaseExpiresAt := Some(now + secs * SECOND), updatedAt := now)];
        return Ok(());
      }
      r := Err(InvalidOperation("renew_lease", Processing));
    }

    /** SELECT ... ORDER BY lease_expires_at LIMIT `limit` FOR UPDATE SKIP LOCKED. */
    method SelectExpired(kind: SweepKind, limit: nat, skipped: set<JobId>, now: Time) returns (ids: set<JobId>)
      ensures Picks(Contents(), now, kind, limit, skipped, ids)
      ensures forall id | id in ids :: MaySweep(jobs, kind, skipped, now, id)
      ensures |ids| == Min(limit, |set id | id in jobs && MaySweep(jobs, kind, skipped, now, id)|)
      ensures forall id, o {:trigger id in ids, MaySweep(jobs, kind, skipped, now, o)}
                | id in ids && MaySweep(jobs, kind, skipped, now, o) && o !in ids ::
                jobs[id].leaseExpiresAt.value <= jobs[o].leaseExpiresAt.value
    {
      var rows := set id | id in jobs && MaySweep(jobs, kind, skipped, now, id);
      assert rows == Expired(Contents(), now, kind) - skipped;
      OldestExist(jobs, rows, limit);
      ids :| ids <= rows && AreOldest(jobs, rows, limit, ids);
      OldestByColumn(jobs, kind, skipped, now, rows, limit, ids);
    }

    /** One of the sweep's three UPDATE statements. `SweptByColumn` spells out what it writes. */
    method UpdateExpired(kind: SweepKind, limit: nat, skipped: set<JobId>, now: Time) returns (ids: set<JobId>)
      modifies this
      ensures Picks(old(Contents()), now, kind, limit, skipped, ids)
      ensures Contents() == Swept(old(Contents()), now, kind, ids) && queues == old(queues)
      ensures forall id | id in ids :: MaySweep(old(jobs), kind, skipped, now, id)
    {
      ids := SelectExpired(kind, limit, skipped, now);
      if kind.ToDeadLetter? {
        dead := map id | id in dead.Keys + ids ::
          if id in dead then dead[id] else EntryFor(jobs[id], GetOr(jobs[id].lastError, LEASE_EXPIRED), now);
      }
      jobs := map id | id in jobs :: if id in ids then SweptRow(jobs[id], now) else jobs[id];
      closing := closing + multiset(ids);
    }

    /** The last statement of a sweep. */
    method CloseAttempts(recovered: seq<JobId>, now: Time)
      modifies this
      ensures Contents() == ClosedAll(old(Contents()), now, recovered)
      ensures SweptRows(old(attempts), attempts, SetOf(recovered), now)
    {
      if recovered != [] {
        attempts := CloseRunning(attempts, SetOf(recovered), OnSweep, now);
      } else {
        CloseNothing(attempts, OnSweep, now);
      }
      closing := closing - multiset(recovered);
    }

    /** The next UPDATE of a sweep, its result appended to `before`; then other sessions. Nothing of it if a statement
        has failed by then. */
    method RecoverNext(k: nat, limit: nat, skipped: set<JobId>, at: SweepTimes, others: Others, failing: nat,
                       before: seq<JobId>, ghost w: Sweeping)
      returns (recovered: seq<JobId>, ghost w': Sweeping)
      requires w.Goes(at, limit, skipped, others) && w.s == Contents() && w.Steps() == Min(failing, k)
      requires multiset(before) == w.Picked()
      modifies this
      ensures w'.Goes(at, limit, skipped, others) && w'.s == Contents() && w'.Steps() == Min(failing, k + 1)
      ensures w'.First() == w.First() && multiset(recovered) == w'.Picked()
    {
      if failing <= k {
        return before, w;
      }
      var ids := UpdateExpired(KindAt(k), limit, skipped, at.Of(KindAt(k)));
      var listed := Listed(ids);
      recovered := before + listed;
      Meanwhile(others(k));
      w' := Updated(w, ids, Contents());
    }

    /** Four statements, at the times `at`, with other sessions in between; `failing` is the one that fails, if any. */
    method RecoverExpiredLeases(limit: int, skipped: set<JobId>, at: SweepTimes, others: Others, failing: nat)
      returns (r: Result<seq<JobId>, QueueError>, ghost w: Sweeping)
      modifies this
      ensures limit < 0 ==> r.Err? && r.error.Storage? && Contents() == old(Contents())
      ensures limit >= 0 ==>
                w.Goes(at, limit, skipped, others) && w.First() == old(Contents())
                && SweepEnds(at, failing, w, Contents(), r)
    {
      w := Began(Contents());
      if limit < 0 {
        r := Err(Storage("LIMIT must not be negative"));
        return;
      }
      var recovered: seq<JobId> := [];
      recovered, w := RecoverNext(0, limit, skipped, at, others, failing, recovered, w);
      recovered, w := RecoverNext(1, limit, skipped, at, others, failing, recovered, w);
      recovered, w := RecoverNext(2, limit, skipped, at, others, failing, recovered, w);
      if failing < 3 || (failing == 3 && recovered != []) {
        closing := closing - multiset(recovered);
        r := Err(Storage("statement failed"));
        return;
      }
      CloseAttempts(recovered, at.close);
      r := Ok(recovered);
    }
  }
}
