/** The store's tables and what each committed statement or transaction does to them. */
module Tables {
  import opened Basics
  import opened Model
  import opened Lifecycle

  /** `queues` maps a name to its paused flag. `minted`: every id issued so far. `closing` and `deleting`: the jobs
      awaiting the last statement of a sweep or of a redrive that is under way. */
  datatype State = State(
    queues: map<string, bool>,
    jobs: map<JobId, Job>,
    attempts: seq<AttemptRow>,
    dead: map<JobId, DeadLetter>,
    minted: set<JobId>,
    closing: multiset<JobId>,
    deleting: multiset<JobId>)

  const EMPTY: State := State(map[], map[], [], map[], {}, multiset{}, multiset{})

  /** The disjoint kinds of expired job handled by the three updates of a sweep. */
  datatype SweepKind = ToRetry | ToDeadLetter | ToFailed

  /** `skipped` is the set of rows that SKIP LOCKED passed over. */
  datatype Event =
    | EnsureQueue(name: string)
    | PauseQueue(name: string, paused: bool)
    | Insert(id: JobId, n: NormalizedJob)
    | LeaseNext(worker: WorkerId, serves: set<string>, secs: int, skipped: set<JobId>, picked: Option<JobId>)
    | RenewLease(id: JobId, worker: WorkerId, secs: int)
    | CompleteJob(id: JobId, worker: WorkerId, result: Option<Json>)
    | FailJob(id: JobId, worker: WorkerId, error: string, timedOut: bool)
    | SweepUpdate(kind: SweepKind, limit: nat, skipped: set<JobId>, ids: set<JobId>)
    | SweepClose(ids: set<JobId>)
    | SweepCloseFails(ids: set<JobId>)
    | CancelJob(id: JobId)
    | RetryUpdate(id: JobId)
    | RetryDelete(id: JobId)
    | RetryDeleteFails(id: JobId)
    | PurgeFinished(cutoff: Time)

  // ---- queries -------------------------------------------------------------

  predicate LeaseOrder(a: Job, b: Job) {
    || a.priority > b.priority
    || (a.priority == b.priority &&
        (a.runAt < b.runAt || (a.runAt == b.runAt && a.createdAt <= b.createdAt)))
  }

  predicate IsEligible(s: State, at: Time, serves: set<string>, id: JobId) {
    && id in s.jobs
    && var j := s.jobs[id];
       && j.queue in serves && j.queue in s.queues && !s.queues[j.queue]
       && j.status.IsLeaseable() && j.runAt <= at
  }

  function Eligible(s: State, at: Time, serves: set<string>): set<JobId> {
    set id | id in s.jobs && IsEligible(s, at, serves, id)
  }

  /** `id` heads the ORDER BY among `rows`. */
  predicate IsFirst(jobs: map<JobId, Job>, rows: set<JobId>, id: JobId)
    requires rows <= jobs.Keys
  {
    id in rows && forall o | o in rows :: LeaseOrder(jobs[id], jobs[o])
  }

  predicate IsExpired(j: Job, at: Time) {
    j.status.Processing? && j.leaseExpiresAt.Some? && j.leaseExpiresAt.value < at
  }

  predicate InKind(j: Job, kind: SweepKind) {
    match kind
    case ToRetry => !Exhausted(j)
    case ToDeadLetter => Exhausted(j) && j.deadLetter
    case ToFailed => Exhausted(j) && !j.deadLetter
  }

  function Expired(s: State, at: Time, kind: SweepKind): set<JobId> {
    set id | id in s.jobs && IsExpired(s.jobs[id], at) && InKind(s.jobs[id], kind)
  }

  function ExpiryOf(j: Job): Time {
    GetOr(j.leaseExpiresAt, 0)
  }

  /** ORDER BY lease_expires_at LIMIT `limit`. */
  predicate AreOldest(jobs: map<JobId, Job>, rows: set<JobId>, limit: nat, ids: set<JobId>)
    requires rows <= jobs.Keys
  {
    && ids <= rows
    && |ids| == Min(limit, |rows|)
    && forall i, o {:trigger i in ids, o in rows - ids} | i in ids && o in rows - ids ::
         ExpiryOf(jobs[i]) <= ExpiryOf(jobs[o])
  }

  /** `ids` is what one update of a sweep picks. */
  predicate Picks(s: State, at: Time, kind: SweepKind, limit: nat, skipped: set<JobId>, ids: set<JobId>) {
    AreOldest(s.jobs, Expired(s, at, kind) - skipped, limit, ids)
  }

  predicate KeyTaken(s: State, queue: string, key: Option<string>) {
    key.Some? && exists id | id in s.jobs :: s.jobs[id].queue == queue && s.jobs[id].idempotencyKey == key
  }

  predicate Held(s: State, id: JobId, worker: WorkerId) {
    id in s.jobs && s.jobs[id].status.Processing? && s.jobs[id].lockedBy == Some(worker)
  }

  function Purgeable(s: State, cutoff: Time): set<JobId> {
    set id | id in s.jobs && (s.jobs[id].status.Completed? || s.jobs[id].status.Cancelled?)
             && s.jobs[id].updatedAt < cutoff
  }

  predicate Redrivable(s: State, id: JobId) {
    id in s.jobs && (s.jobs[id].status.Failed? || s.jobs[id].status.DeadLettered?)
  }

  predicate Cancellable(s: State, id: JobId) {
    id in s.jobs && s.jobs[id].status.IsCancellable()
  }

  // ---- attempt table -------------------------------------------------------

  function RowsOf(rows: seq<AttemptRow>, id: JobId): seq<AttemptRow> {
    if rows == [] then [] else
    var last := rows[|rows| - 1];
    RowsOf(rows[..|rows| - 1], id) + if last.jobId == id then [last] else []
  }

  /** UPDATE job_attempts ... WHERE status = 'running' AND job_id IN ids. */
  function CloseRunning(rows: seq<AttemptRow>, ids: set<JobId>, how: Closure, at: Time): seq<AttemptRow> {
    seq(|rows|, i requires 0 <= i < |rows| => if rows[i].jobId in ids then CloseRow(rows[i], how, at) else rows[i])
  }

  /** The cascade of deleting the jobs `ids`. */
  function DeleteRows(rows: seq<AttemptRow>, ids: set<JobId>): seq<AttemptRow> {
    if rows == [] then [] else
    var last := rows[|rows| - 1];
    DeleteRows(rows[..|rows| - 1], ids) + if last.jobId in ids then [] else [last]
  }

  // ---- transitions ---------------------------------------------------------

  predicate Allowed(s: State, at: Time, ev: Event) {
    match ev
    case Insert(id, n) =>
      id !in s.minted && WellFormed(n) && n.queue in s.queues && !KeyTaken(s, n.queue, n.idempotencyKey)
    case LeaseNext(_, serves, _, skipped, picked) =>
      var rows := Eligible(s, at, serves) - skipped;
      if picked.None? then rows == {} else IsFirst(s.jobs, rows, picked.value)
    case SweepUpdate(kind, limit, skipped, ids) => Picks(s, at, kind, limit, skipped, ids)
    case SweepClose(ids) => multiset(ids) <= s.closing
    case SweepCloseFails(ids) => multiset(ids) <= s.closing
    case RetryDelete(id) => id in s.deleting
    case RetryDeleteFails(id) => id in s.deleting
    case _ => true
  }

  /** The entry, if any, that an exhausted job leaves when it is released with `error`. */
  function DeadAfter(s: State, id: JobId, error: string, at: Time): map<JobId, DeadLetter>
    requires id in s.jobs
  {
    var j := s.jobs[id];
    if Exhausted(j) && j.deadLetter && id !in s.dead then s.dead[id := EntryFor(j, error, at)] else s.dead
  }

  function SweptDead(s: State, ids: set<JobId>, at: Time): map<JobId, DeadLetter>
    requires ids <= s.jobs.Keys
  {
    map id | id in s.dead.Keys + ids ::
      if id in s.dead then s.dead[id]
      else EntryFor(s.jobs[id], GetOr(s.jobs[id].lastError, LEASE_EXPIRED), at)
  }

  /** The row `id` leased, with its attempt row. */
  function Leased(s: State, at: Time, worker: WorkerId, secs: int, id: JobId): (s': State)
    requires id in s.jobs
    ensures s'.jobs.Keys == s.jobs.Keys
  {
    var j := LeasedRow(s.jobs[id], worker, secs, at);
    s.(jobs := s.jobs[id := j],
       attempts := s.attempts + [AttemptRow(id, j.attempts, worker, at, None, Running, None)])
  }

  /** One of the three updates of a sweep, on the rows it picked. */
  function Swept(s: State, at: Time, kind: SweepKind, ids: set<JobId>): (s': State)
    requires ids <= s.jobs.Keys
    ensures s'.jobs.Keys == s.jobs.Keys
  {
    s.(jobs := map id | id in s.jobs :: if id in ids then SweptRow(s.jobs[id], at) else s.jobs[id],
       dead := if kind.ToDeadLetter? then SweptDead(s, ids, at) else s.dead,
       closing := s.closing + multiset(ids))
  }

  /** The last statement of a sweep that recovered `ids`. */
  function Closed(s: State, at: Time, ids: set<JobId>): State {
    s.(attempts := CloseRunning(s.attempts, ids, OnSweep, at), closing := s.closing - multiset(ids))
  }

  /** The second statement of a redrive. */
  function EntryDeleted(s: State, id: JobId): State {
    s.(dead := s.dead - {id}, deleting := s.deleting - multiset{id})
  }

  /** It failed. */
  function EntryKept(s: State, id: JobId): State {
    s.(deleting := s.deleting - multiset{id})
  }

  function Apply(s: State, at: Time, ev: Event): State
    requires Allowed(s, at, ev)
  {
    match ev
    case EnsureQueue(name) => if name in s.queues then s else s.(queues := s.queues[name := false])
    case PauseQueue(name, paused) => if name in s.queues then s.(queues := s.queues[name := paused]) else s
    case Insert(id, n) => s.(jobs := s.jobs[id := NewRow(n, at)], minted := s.minted + {id})
    case LeaseNext(worker, _, secs, _, picked) =>
      if picked.None? then s else Leased(s, at, worker, secs, picked.value)
    case RenewLease(id, worker, secs) =>
      if Held(s, id, worker) then s.(jobs := s.jobs[id := RenewedRow(s.jobs[id], secs, at)]) else s
    case CompleteJob(id, worker, result) =>
      if Held(s, id, worker) then
        s.(jobs := s.jobs[id := CompletedRow(s.jobs[id], result, at)],
           attempts := CloseRunning(s.attempts, {id}, OnComplete, at))
      else s
    case FailJob(id, worker, error, timedOut) =>
      if Held(s, id, worker) then
        s.(jobs := s.jobs[id := FailedRow(s.jobs[id], error, at)],
           attempts := CloseRunning(s.attempts, {id}, OnFail(error, timedOut), at),
           dead := DeadAfter(s, id, error, at))
      else s
    case SweepUpdate(kind, _, _, ids) => Swept(s, at, kind, ids)
    case SweepClose(ids) => Closed(s, at, ids)
    case SweepCloseFails(ids) => s.(closing := s.closing - multiset(ids))
    case CancelJob(id) =>
      if Cancellable(s, id) then s.(jobs := s.jobs[id := CancelledRow(s.jobs[id], at)]) else s
    case RetryUpdate(id) =>
      if Redrivable(s, id) then
        s.(jobs := s.jobs[id := RetriedRow(s.jobs[id], at)], deleting := s.deleting + multiset{id})
      else s
    case RetryDelete(id) => EntryDeleted(s, id)
    case RetryDeleteFails(id) => EntryKept(s, id)
    case PurgeFinished(cutoff) =>
      var ids := Purgeable(s, cutoff);
      s.(jobs := s.jobs - ids, attempts := DeleteRows(s.attempts, ids))
  }

  // ---- one job's share -----------------------------------------------------

  function ViewOf(s: State, id: JobId): View {
    View(id, id in s.minted,
         if id in s.jobs then Some(s.jobs[id]) else None,
         RowsOf(s.attempts, id),
         if id in s.dead then Some(s.dead[id]) else None,
         s.closing[id], s.deleting[id])
  }

  /** What `ev` does to the job `id`. */
  function ActionOn(s: State, ev: Event, id: JobId): Action {
    match ev
    case EnsureQueue(_) => Pass
    case PauseQueue(_, _) => Pass
    case Insert(i, n) => if i == id then Create(n) else Pass
    case LeaseNext(worker, _, secs, _, picked) => if picked == Some(id) then Lease(worker, secs) else Pass
    case RenewLease(i, w, secs) => if i == id && Held(s, id, w) then Renew(w, secs) else Pass
    case CompleteJob(i, w, result) => if i == id && Held(s, id, w) then Complete(w, result) else Pass
    case FailJob(i, w, error, timedOut) => if i == id && Held(s, id, w) then Fail(w, error, timedOut) else Pass
    case SweepUpdate(_, _, _, ids) => if id in ids then Sweep else Pass
    case SweepClose(ids) => if id in ids then CloseSwept else Pass
    case SweepCloseFails(ids) => if id in ids then CloseFails else Pass
    case CancelJob(i) => if i == id && Cancellable(s, id) then Cancel else Pass
    case RetryUpdate(i) => if i == id && Redrivable(s, id) then Retry else Pass
    case RetryDelete(i) => if i == id then DropDead else Pass
    case RetryDeleteFails(i) => if i == id then DeleteFails else Pass
    case PurgeFinished(cutoff) => if id in Purgeable(s, cutoff) then Purge(cutoff) else Pass
  }

  lemma {:induction false} RowsOfClosed(rows: seq<AttemptRow>, ids: set<JobId>, how: Closure, at: Time, id: JobId)
    ensures RowsOf(CloseRunning(rows, ids, how, at), id)
         == if id in ids then CloseAll(RowsOf(rows, id), how, at) else RowsOf(rows, id)
  {
    if rows != [] {
      var n := |rows| - 1;
      RowsOfClosed(rows[..n], ids, how, at, id);
      assert CloseRunning(rows, ids, how, at)[..n] == CloseRunning(rows[..n], ids, how, at);
    }
  }

  lemma {:induction false} RowsOfDeleted(rows: seq<AttemptRow>, ids: set<JobId>, id: JobId)
    ensures RowsOf(DeleteRows(rows, ids), id) == if id in ids then [] else RowsOf(rows, id)
  {
    if rows != [] {
      var n := |rows| - 1;
      RowsOfDeleted(rows[..n], ids, id);
      if rows[n].jobId !in ids {
        RowsOfAppended(DeleteRows(rows[..n], ids), rows[n], id);
      } else {
        assert DeleteRows(rows, ids) == DeleteRows(rows[..n], ids);
      }
    }
  }

  lemma RowsOfAppended(rows: seq<AttemptRow>, r: AttemptRow, id: JobId)
    ensures RowsOf(rows + [r], id) == RowsOf(rows, id) + if r.jobId == id then [r] else []
  {
    assert (rows + [r])[..|rows|] == rows;
  }

  ghost predicate Projects(s: State, at: Time, ev: Event, id: JobId)
    requires Allowed(s, at, ev)
  {
    var a := ActionOn(s, ev, id);
    Enabled(ViewOf(s, id), at, a) && Effect(ViewOf(s, id), at, a) == ViewOf(Apply(s, at, ev), id)
  }

  lemma ProjectLeased(s: State, at: Time, worker: WorkerId, secs: int, picked: JobId, id: JobId)
    requires picked in s.jobs && s.jobs[picked].status.IsLeaseable() && s.jobs[picked].runAt <= at
    ensures id == picked ==> Enabled(ViewOf(s, id), at, Lease(worker, secs))
    ensures ViewOf(Leased(s, at, worker, secs, picked), id) ==
            if id == picked then Effect(ViewOf(s, id), at, Lease(worker, secs)) else ViewOf(s, id)
  {
    var row := AttemptRow(picked, s.jobs[picked].attempts + 1, worker, at, None, Running, None);
    RowsOfAppended(s.attempts, row, id);
    var s' := Leased(s, at, worker, secs, picked);
    assert s'.attempts == s.attempts + [row];
    var v, v' := ViewOf(s, id), ViewOf(s', id);
    if id == picked {
      assert v' == v.(job := Some(LeasedRow(s.jobs[id], worker, secs, at)), rows := v.rows + [row]);
    } else {
      assert v'.rows == v.rows;
    }
  }

  lemma ProjectResult(s: State, at: Time, ev: Event, id: JobId)
    requires Allowed(s, at, ev) && (ev.CompleteJob? || ev.FailJob?)
    ensures Projects(s, at, ev, id)
  {
    var how := if ev.CompleteJob? then OnComplete else OnFail(ev.error, ev.timedOut);
    RowsOfClosed(s.attempts, {ev.id}, how, at, id);
  }

  lemma ProjectSwept(s: State, at: Time, kind: SweepKind, ids: set<JobId>, id: JobId)
    requires ids <= Expired(s, at, kind)
    ensures id in ids ==> Enabled(ViewOf(s, id), at, Sweep)
    ensures ViewOf(Swept(s, at, kind, ids), id) ==
            if id in ids then Effect(ViewOf(s, id), at, Sweep) else ViewOf(s, id)
  {
    var v, v' := ViewOf(s, id), ViewOf(Swept(s, at, kind, ids), id);
    if id in ids {
      var j, e := s.jobs[id], Effect(v, at, Sweep);
      assert kind.ToDeadLetter? <==> Exhausted(j) && j.deadLetter;
      assert v'.closing == e.closing && v'.dead == e.dead && v'.job == e.job;
    }
  }

  lemma ProjectClose(s: State, at: Time, ev: Event, id: JobId)
    requires Allowed(s, at, ev) && (ev.SweepClose? || ev.SweepCloseFails?)
    ensures Projects(s, at, ev, id)
  {
    if ev.SweepClose? {
      RowsOfClosed(s.attempts, ev.ids, OnSweep, at, id);
    }
    assert id in ev.ids ==> multiset(ev.ids)[id] == 1;
  }

  lemma ProjectPurge(s: State, at: Time, ev: Event, id: JobId)
    requires Allowed(s, at, ev) && ev.PurgeFinished?
    ensures Projects(s, at, ev, id)
  {
    RowsOfDeleted(s.attempts, Purgeable(s, ev.cutoff), id);
  }

  lemma ProjectQueueOrInsert(s: State, at: Time, ev: Event, id: JobId)
    requires Allowed(s, at, ev) && (ev.EnsureQueue? || ev.PauseQueue? || ev.Insert?)
    ensures Projects(s, at, ev, id)
  {
  }

  lemma ProjectDelete(s: State, at: Time, ev: Event, id: JobId)
    requires Allowed(s, at, ev) && (ev.RetryDelete? || ev.RetryDeleteFails?)
    ensures Projects(s, at, ev, id)
  {
  }

  lemma ProjectRow(s: State, at: Time, ev: Event, id: JobId)
    requires ev.RenewLease? || ev.CancelJob? || ev.RetryUpdate?
    ensures Projects(s, at, ev, id)
  {
  }

  /** Each statement of the store is, for every job, one enabled action on that job. */
  lemma Projection(s: State, at: Time, ev: Event, id: JobId)
    requires Allowed(s, at, ev)
    ensures Projects(s, at, ev, id)
  {
    match ev
    case LeaseNext(worker, _, secs, _, picked) =>
      if picked.Some? {
        ProjectLeased(s, at, worker, secs, picked.value, id);
      }
    case CompleteJob(_, _, _) => ProjectResult(s, at, ev, id);
    case FailJob(_, _, _, _) => ProjectResult(s, at, ev, id);
    case SweepUpdate(kind, _, _, ids) => ProjectSwept(s, at, kind, ids, id);
    case SweepClose(_) => ProjectClose(s, at, ev, id);
    case SweepCloseFails(_) => ProjectClose(s, at, ev, id);
    case RetryDelete(_) => ProjectDelete(s, at, ev, id);
    case RetryDeleteFails(_) => ProjectDelete(s, at, ev, id);
    case PurgeFinished(_) => ProjectPurge(s, at, ev, id);
    case RenewLease(_, _, _) => ProjectRow(s, at, ev, id);
    case CancelJob(_) => ProjectRow(s, at, ev, id);
    case RetryUpdate(_) => ProjectRow(s, at, ev, id);
    case _ => ProjectQueueOrInsert(s, at, ev, id);
  }
}
