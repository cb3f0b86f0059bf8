/** Workers executing one job in real time, next to everything else that happens to it in the store. A lease alone is
    only a row; this is where it keeps two handlers of one job from running at once. */
module Execution {
  import opened Basics
  import opened Status
  import opened Model
  import opened Lifecycle
  import opened Invariants
  import Protocol

  /** Where the execution of a leased job stands. `since` is when its lease was renewed. */
  datatype Phase =
    | Leased
    | Covered(since: Time)
    | Handling(since: Time, started: Time)
    | Finished(since: Time, ended: Time)
    | Over

  /** One task of a worker, for one lease. */
  datatype Task = Task(worker: WorkerId, leasedAt: Time, secs: int, timeoutSecs: int, phase: Phase) {
    predicate Live() {
      !phase.Over?
    }
  }

  datatype World = World(view: View, tasks: seq<Task>)

  const MARGIN_SECS: int := 30

  /** The renewal asked for before the handler starts. */
  function CoverSecs(timeoutSecs: int): int {
    timeoutSecs + MARGIN_SECS
  }

  function ReportOf(worker: WorkerId, o: Outcome): Action {
    match o
    case Success(result) => Complete(worker, result)
    case Failure(error) => Fail(worker, error, false)
    case Timeout => Fail(worker, TIMED_OUT, true)
  }

  datatype Move =
    | TakeLease(worker: WorkerId, secs: int)
    | CallRenew(t: nat)
    | StartHandler(t: nat)
    | NoHandler(t: nat)
    | EndHandler(t: nat)
    | Report(t: nat, outcome: Outcome)
    | Die(t: nat)
    | Elsewhere(a: Action)

  predicate IsStoreOnly(a: Action) {
    !a.Lease? && !a.Renew? && !a.Complete? && !a.Fail?
  }

  /** What the move does in the store: a renewal or a report is refused unless the worker holds the lease. */
  function StoreAction(w: World, m: Move): Action
    requires (m.CallRenew? || m.Report?) ==> m.t < |w.tasks|
  {
    match m
    case TakeLease(worker, secs) => Lease(worker, secs)
    case CallRenew(t) =>
      var k := w.tasks[t];
      if w.view.HeldBy(k.worker) then Renew(k.worker, CoverSecs(k.timeoutSecs)) else Pass
    case Report(t, o) => if w.view.HeldBy(w.tasks[t].worker) then ReportOf(w.tasks[t].worker, o) else Pass
    case Elsewhere(a) => a
    case _ => Pass
  }

  predicate InPhase(w: World, m: Move) {
    match m
    case TakeLease(_, _) => true
    case Elsewhere(a) => IsStoreOnly(a)
    case CallRenew(t) => t < |w.tasks| && w.tasks[t].phase.Leased?
    case StartHandler(t) => t < |w.tasks| && w.tasks[t].phase.Covered?
    case NoHandler(t) => t < |w.tasks| && w.tasks[t].phase.Covered?
    case EndHandler(t) => t < |w.tasks| && w.tasks[t].phase.Handling?
    case Report(t, _) => t < |w.tasks| && w.tasks[t].phase.Finished?
    case Die(t) => t < |w.tasks| && w.tasks[t].Live()
  }

  predicate CanMove(w: World, at: Time, m: Move) {
    InPhase(w, m) && Enabled(w.view, at, StoreAction(w, m))
  }

  function PhaseAfter(w: World, at: Time, m: Move): Phase
    requires CanMove(w, at, m) && !m.TakeLease? && !m.Elsewhere?
  {
    var p := w.tasks[m.t].phase;
    match m
    case CallRenew(t) => if w.view.HeldBy(w.tasks[t].worker) then Covered(at) else Over
    case StartHandler(_) => Handling(p.since, at)
    case NoHandler(_) => Finished(p.since, at)
    case EndHandler(_) => Finished(p.since, at)
    case _ => Over
  }

  function DoMove(w: World, at: Time, m: Move): World
    requires CanMove(w, at, m)
  {
    var view := Effect(w.view, at, StoreAction(w, m));
    match m
    case TakeLease(worker, secs) =>
      World(view, w.tasks + [Task(worker, at, secs, w.view.job.value.timeoutSecs, Leased)])
    case Elsewhere(_) => World(view, w.tasks)
    case _ => World(view, w.tasks[m.t := w.tasks[m.t].(phase := PhaseAfter(w, at, m))])
  }

  datatype Timeline = Dawn | Later(past: Timeline, at: Time, m: Move)

  predicate Possible(id: JobId, r: Timeline)
    decreases r, 0
  {
    match r
    case Dawn => true
    case Later(past, at, m) => Possible(id, past) && (past.Later? ==> past.at <= at) && CanMove(WorldOf(id, past), at, m)
  }

  function WorldOf(id: JobId, r: Timeline): World
    requires Possible(id, r)
    decreases r, 1
  {
    match r
    case Dawn => World(View(id, false, None, [], None, 0, 0), [])
    case Later(past, at, m) => DoMove(WorldOf(id, past), at, m)
  }

  /** What the store saw. */
  function StoreHistory(id: JobId, r: Timeline): History
    requires Possible(id, r)
  {
    match r
    case Dawn => Empty
    case Later(past, at, m) => Then(StoreHistory(id, past), at, StoreAction(WorldOf(id, past), m))
  }

  /** A timeline is a legal history of the job with tasks beside it. */
  lemma {:induction false} TimelineIsHistory(id: JobId, r: Timeline)
    requires Possible(id, r)
    ensures Legal(id, StoreHistory(id, r)) && After(id, StoreHistory(id, r)) == WorldOf(id, r).view
  {
    if r.Later? {
      TimelineIsHistory(id, r.past);
    }
  }

  // ---- timeliness ----------------------------------------------------------

  /** How late a renewal may come after the expiry of the lease first taken, a handler start after the renewal, stop
      after its timeout, and be reported after it stopped. */
  datatype Lags = Lags(renew: Time, start: Time, overrun: Time, report: Time) {
    predicate NonNegative() {
      renew >= 0 && start >= 0 && overrun >= 0 && report >= 0
    }

    /** Renewals come in time, and the other lags together fit the margin by which a renewal outlasts the timeout. */
    predicate Fit() {
      NonNegative() && renew == 0 && start + overrun + report <= 30_000_000
    }
  }

  /** The moment by which a live task takes its next step or is dead. */
  function Deadline(k: Task, lags: Lags): Time
    requires k.Live()
  {
    match k.phase
    case Leased => k.leasedAt + k.secs * SECOND + lags.renew
    case Covered(since) => since + lags.start
    case Handling(_, started) => started + Max(k.timeoutSecs, 1) * SECOND + lags.overrun
    case Finished(_, ended) => ended + lags.report
  }

  predicate OnTime(w: World, at: Time, lags: Lags) {
    forall t | 0 <= t < |w.tasks| && w.tasks[t].Live() :: at <= Deadline(w.tasks[t], lags)
  }

  /** Nothing happens past the deadline of a live task. */
  ghost predicate Timely(id: JobId, r: Timeline, lags: Lags)
    requires Possible(id, r)
  {
    r.Later? ==> Timely(id, r.past, lags) && OnTime(WorldOf(id, r.past), r.at, lags)
  }

  // ---- mutual exclusion ----------------------------------------------------

  /** The lease expiry a live task relies on. */
  function ReliesOn(k: Task): Time
    requires k.Live()
  {
    match k.phase
    case Leased => k.leasedAt + k.secs * SECOND
    case Covered(since) => since + CoverSecs(k.timeoutSecs) * SECOND
    case Handling(since, _) => since + CoverSecs(k.timeoutSecs) * SECOND
    case Finished(since, _) => since + CoverSecs(k.timeoutSecs) * SECOND
  }

  /** The phase times are within the margin, so the deadline is not past the expiry relied on. */
  predicate WithinCover(k: Task, lags: Lags)
    requires k.Live()
  {
    match k.phase
    case Leased => true
    case Covered(_) => true
    case Handling(since, started) => started <= since + lags.start
    case Finished(since, ended) => ended <= since + lags.start + k.timeoutSecs * SECOND + lags.overrun
  }

  /** A live task holds the lease it relies on, unless the job was cancelled under it. */
  predicate Protected(w: World, k: Task, lags: Lags)
    requires k.Live()
  {
    && k.timeoutSecs >= 1
    && WithinCover(k, lags)
    && (|| (w.view.HeldBy(k.worker) && w.view.job.value.timeoutSecs == k.timeoutSecs
            && w.view.job.value.leaseExpiresAt == Some(ReliesOn(k)))
        || w.view.Is(Cancelled)
        || (w.view.minted && w.view.job.None?))
  }

  predicate AllProtected(w: World, lags: Lags) {
    forall t | 0 <= t < |w.tasks| && w.tasks[t].Live() :: Protected(w, w.tasks[t], lags)
  }

  predicate OneLive(w: World) {
    forall t, u | 0 <= t < u < |w.tasks| :: !(w.tasks[t].Live() && w.tasks[u].Live())
  }

  predicate Exclusive(w: World, lags: Lags) {
    AllProtected(w, lags) && OneLive(w)
  }

  lemma DeadlineBeforeExpiry(k: Task, lags: Lags)
    requires k.Live() && k.timeoutSecs >= 1 && lags.Fit() && WithinCover(k, lags)
    ensures Deadline(k, lags) <= ReliesOn(k)
  {
  }

  /** Every deadline kept, no live task's lease has run out. */
  predicate NoneLapsed(w: World, at: Time) {
    forall t | 0 <= t < |w.tasks| && w.tasks[t].Live() :: at <= ReliesOn(w.tasks[t])
  }

  lemma ProtectedStep(w: World, at: Time, m: Move, lags: Lags, t: nat)
    requires lags.Fit() && Invariant(w.view) && Exclusive(w, lags)
    requires CanMove(w, at, m) && OnTime(w, at, lags) && NoneLapsed(w, at)
    requires t < |DoMove(w, at, m).tasks| && DoMove(w, at, m).tasks[t].Live()
    ensures Protected(DoMove(w, at, m), DoMove(w, at, m).tasks[t], lags)
  {
    if t < |w.tasks| {
      assert w.tasks[t].Live() && Protected(w, w.tasks[t], lags);
    }
  }

  lemma OneLiveStep(w: World, at: Time, m: Move, lags: Lags)
    requires Exclusive(w, lags) && CanMove(w, at, m)
    ensures OneLive(DoMove(w, at, m))
  {
    if m.TakeLease? {
      forall t | 0 <= t < |w.tasks| ensures !w.tasks[t].Live() {
        assert w.tasks[t].Live() ==> Protected(w, w.tasks[t], lags);
      }
    }
  }

  lemma ExclusiveStep(w: World, at: Time, m: Move, lags: Lags)
    requires lags.Fit() && Invariant(w.view) && Exclusive(w, lags)
    requires CanMove(w, at, m) && OnTime(w, at, lags)
    ensures Exclusive(DoMove(w, at, m), lags)
  {
    forall t | 0 <= t < |w.tasks| && w.tasks[t].Live() ensures at <= ReliesOn(w.tasks[t]) {
      DeadlineBeforeExpiry(w.tasks[t], lags);
    }
    var w' := DoMove(w, at, m);
    forall t | 0 <= t < |w'.tasks| && w'.tasks[t].Live() ensures Protected(w', w'.tasks[t], lags) {
      ProtectedStep(w, at, m, lags, t);
    }
    OneLiveStep(w, at, m, lags);
  }

  lemma {:induction false} TimelyIsExclusive(id: JobId, r: Timeline, lags: Lags)
    requires Possible(id, r) && lags.Fit() && Timely(id, r, lags)
    ensures Exclusive(WorldOf(id, r), lags)
  {
    if r.Later? {
      TimelyIsExclusive(id, r.past, lags);
      TimelineIsHistory(id, r.past);
      InvariantHolds(id, StoreHistory(id, r.past));
      ExclusiveStep(WorldOf(id, r.past), r.at, r.m, lags);
    }
  }

  /** Two handlers of one job never run at once: in every timely run, with any number of workers, crashes, cancels,
      sweeps and redrives, at most one task is live, whatever the workers' identities. */
  lemma HandlersExclude(id: JobId, r: Timeline, lags: Lags, t: nat, u: nat)
    requires Possible(id, r) && lags.Fit() && Timely(id, r, lags)
    requires t < |WorldOf(id, r).tasks| && u < |WorldOf(id, r).tasks|
    requires WorldOf(id, r).tasks[t].phase.Handling? && WorldOf(id, r).tasks[u].phase.Handling?
    ensures t == u
  {
    TimelyIsExclusive(id, r, lags);
  }

  /** In a timely run a finished execution's report is refused only if the job was cancelled. */
  lemma ReportsAreAccepted(id: JobId, r: Timeline, lags: Lags, t: nat)
    requires Possible(id, r) && lags.Fit() && Timely(id, r, lags)
    requires t < |WorldOf(id, r).tasks| && WorldOf(id, r).tasks[t].phase.Finished?
    ensures var w := WorldOf(id, r);
            w.view.HeldBy(w.tasks[t].worker) || w.view.Is(Cancelled) || w.view.job.None?
  {
    TimelyIsExclusive(id, r, lags);
    assert Protected(WorldOf(id, r), WorldOf(id, r).tasks[t], lags);
  }

  // ---- abandoned executions ------------------------------------------------

  /** The `i`-th entry of the job's protocol log is the lease for which task `k` was spawned. */
  predicate IsLeaseOf(log: seq<Protocol.Stamp>, i: nat, k: Task) {
    i < |log| && log[i].act == Lease(k.worker, k.secs) && log[i].at == k.leasedAt
  }

  /** Where the lease of task `t` stands in the log. */
  function LeaseIndex(id: JobId, r: Timeline, t: nat): nat
    requires Possible(id, r) && t < |WorldOf(id, r).tasks|
  {
    if t < |WorldOf(id, r.past).tasks| then LeaseIndex(id, r.past, t) else |Protocol.Log(StoreHistory(id, r.past))|
  }

  lemma {:induction false} EveryTaskHasItsLease(id: JobId, r: Timeline, t: nat)
    requires Possible(id, r) && t < |WorldOf(id, r).tasks|
    ensures IsLeaseOf(Protocol.Log(StoreHistory(id, r)), LeaseIndex(id, r, t), WorldOf(id, r).tasks[t])
  {
    var log := Protocol.Log(StoreHistory(id, r.past));
    if t < |WorldOf(id, r.past).tasks| {
      EveryTaskHasItsLease(id, r.past, t);
      assert Protocol.Log(StoreHistory(id, r))[LeaseIndex(id, r, t)] == log[LeaseIndex(id, r, t)];
    }
  }

  /** Different tasks stem from different leases: later tasks from later ones. */
  lemma {:induction false} LeasesInOrder(id: JobId, r: Timeline, t: nat, u: nat)
    requires Possible(id, r) && t < u < |WorldOf(id, r).tasks|
    ensures LeaseIndex(id, r, t) < LeaseIndex(id, r, u)
  {
    if u < |WorldOf(id, r.past).tasks| {
      LeasesInOrder(id, r.past, t, u);
    } else {
      EveryTaskHasItsLease(id, r.past, t);
    }
  }

  /** And every lease has spawned a task. */
  lemma {:induction false} EveryLeaseHasItsTask(id: JobId, r: Timeline, i: nat) returns (t: nat)
    requires Possible(id, r)
    requires i < |Protocol.Log(StoreHistory(id, r))| && Protocol.Log(StoreHistory(id, r))[i].act.Lease?
    ensures t < |WorldOf(id, r).tasks| && LeaseIndex(id, r, t) == i
  {
    if i < |Protocol.Log(StoreHistory(id, r.past))| {
      t := EveryLeaseHasItsTask(id, r.past, i);
    } else {
      t := |WorldOf(id, r.past).tasks|;
    }
  }

  /** Whatever becomes of a task, the lease it was spawned for is either still in force, and the job can be swept from
      the moment it runs out, or it has been released: by a report of the same worker, by a sweep after it ran out, or by
      a cancellation. */
  lemma NoExecutionLosesItsJob(id: JobId, r: Timeline, t: nat)
    requires Possible(id, r) && t < |WorldOf(id, r).tasks|
    ensures var w, h := WorldOf(id, r), StoreHistory(id, r);
            var k, log, i := w.tasks[t], Protocol.Log(h), LeaseIndex(id, r, t);
            && IsLeaseOf(log, i, k)
            && if i == |log| - 1 then
                 && w.view.HeldBy(k.worker)
                 && forall at :: Enabled(w.view, at, Sweep) <==> at > Protocol.LastExpiry(h)
               else
                 var next := log[i + 1];
                 || (next.act.Complete? && next.act.worker == k.worker)
                 || (next.act.Fail? && next.act.worker == k.worker)
                 || (next.act.Sweep? && next.at > next.expiry)
                 || next.act.Cancel?
  {
    EveryTaskHasItsLease(id, r, t);
    var i := LeaseIndex(id, r, t);
    var h := StoreHistory(id, r);
    TimelineIsHistory(id, r);
    Protocol.LeasesAlternate(id, h);
    var log := Protocol.Log(h);
    if i < |log| - 1 {
      assert Protocol.MayFollow(log[i].act, log[i + 1]);
    }
  }

  // ---- why timeliness is needed --------------------------------------------

  lemma Play(id: JobId, r: Timeline, w: World, at: Time, m: Move) returns (r': Timeline, w': World)
    requires Possible(id, r) && WorldOf(id, r) == w && (r.Later? ==> r.at <= at) && CanMove(w, at, m)
    ensures r' == Later(r, at, m) && w' == DoMove(w, at, m) && Possible(id, r') && WorldOf(id, r') == w'
  {
    r' := Later(r, at, m);
    w' := DoMove(w, at, m);
  }

  /** Worker 7 has let a lease lapse without reporting. */
  lemma LapsedTask(id: JobId) returns (r: Timeline, w: World)
    ensures Possible(id, r) && WorldOf(id, r) == w && r.Later? && r.at == 32 * SECOND
    ensures |w.tasks| == 1 && w.tasks[0].worker == 7 && w.tasks[0].phase.Finished?
    ensures w.view.Is(Retrying) && w.view.job.value.attempts == 1 && w.view.job.value.maxAttempts == 3
    ensures w.view.job.value.backoffBaseSecs == w.view.job.value.backoffMaxSecs == 1
    ensures w.view.job.value.runAt == 33 * SECOND
  {
    w := WorldOf(id, Dawn);
    r, w := Play(id, Dawn, w, 0, Elsewhere(Create(Request(Queued, 3, true))));
    r, w := Play(id, r, w, 0, TakeLease(7, 30));
    r, w := Play(id, r, w, 0, CallRenew(0));
    r, w := Play(id, r, w, 0, NoHandler(0));
    r, w := Play(id, r, w, 32 * SECOND, Elsewhere(Sweep));
  }

  /** It takes the job again and is handling it. */
  lemma StaleTask(id: JobId) returns (r: Timeline, w: World)
    ensures Possible(id, r) && WorldOf(id, r) == w && r.Later? && r.at == 40 * SECOND
    ensures |w.tasks| == 2 && w.tasks[0].worker == w.tasks[1].worker == 7
    ensures w.tasks[0].phase.Finished? && w.tasks[1].phase.Handling?
    ensures w.view.HeldBy(7) && w.view.job.value.attempts == 2 && w.view.job.value.maxAttempts == 3
    ensures w.view.job.value.backoffBaseSecs == w.view.job.value.backoffMaxSecs == 1
  {
    r, w := LapsedTask(id);
    r, w := Play(id, r, w, 40 * SECOND, TakeLease(7, 30));
    r, w := Play(id, r, w, 40 * SECOND, CallRenew(1));
    r, w := Play(id, r, w, 40 * SECOND, StartHandler(1));
  }

  /** The late report is taken for the second lease, which makes the job free again while it is being handled. */
  lemma StaleReport(id: JobId) returns (r: Timeline, w: World)
    ensures Possible(id, r) && WorldOf(id, r) == w && r.Later? && r.at == 40 * SECOND
    ensures r.m == Report(0, Failure("late"))
    ensures |w.tasks| == 2 && w.tasks[1].phase.Handling?
    ensures w.view.Is(Retrying) && w.view.job.value.runAt <= 50 * SECOND
  {
    r, w := StaleTask(id);
    r, w := Play(id, r, w, 40 * SECOND, Report(0, Failure("late")));
  }

  /** The store recognises a worker, not an attempt: a report that comes after its lease was swept is taken for the same
      worker's next lease, and two handlers run at once. */
  lemma LateReportOverlaps(id: JobId) returns (r: Timeline)
    ensures Possible(id, r)
    ensures |WorldOf(id, r).tasks| == 3
    ensures WorldOf(id, r).tasks[1].phase.Handling? && WorldOf(id, r).tasks[2].phase.Handling?
    ensures r.Later? && r.past.Later? && r.past.past.Later? && r.past.past.past.Later?
    ensures r.past.past.past.m == Report(0, Failure("late"))
    ensures forall lags: Lags | lags.Fit() :: !Timely(id, r, lags)
  {
    var w: World;
    r, w := StaleReport(id);
    r, w := Play(id, r, w, 50 * SECOND, TakeLease(8, 30));
    r, w := Play(id, r, w, 50 * SECOND, CallRenew(2));
    r, w := Play(id, r, w, 50 * SECOND, StartHandler(2));
    forall lags: Lags | lags.Fit() ensures !Timely(id, r, lags) {
      if Timely(id, r, lags) {
        HandlersExclude(id, r, lags, 1, 2);
      }
    }
  }

  // ---- the margin is exact -------------------------------------------------

  lemma StillOnTime(w: World, at: Time, m: Move, lags: Lags)
    requires lags.NonNegative() && CanMove(w, at, m) && OnTime(w, at, lags) && (m.TakeLease? ==> m.secs >= 0)
    ensures OnTime(DoMove(w, at, m), at, lags)
  {
    var w' := DoMove(w, at, m);
    forall t | 0 <= t < |w'.tasks| && w'.tasks[t].Live() ensures at <= Deadline(w'.tasks[t], lags) {
      if t < |w.tasks| {
        assert w.tasks[t].Live();
      }
    }
  }

  lemma PlayOnTime(id: JobId, r: Timeline, w: World, lags: Lags, at: Time, m: Move) returns (r': Timeline, w': World)
    requires Possible(id, r) && WorldOf(id, r) == w && (r.Later? ==> r.at <= at) && CanMove(w, at, m)
    requires lags.NonNegative() && Timely(id, r, lags) && OnTime(w, at, lags) && (m.TakeLease? ==> m.secs >= 0)
    ensures r' == Later(r, at, m) && w' == DoMove(w, at, m) && Possible(id, r') && WorldOf(id, r') == w'
    ensures Timely(id, r', lags) && OnTime(w', at, lags)
  {
    r', w' := Play(id, r, w, at, m);
    StillOnTime(w, at, m, lags);
  }

  /** The expiry of a lease renewed at time zero for a handler with one second. */
  const COVERED: Time := (1 + MARGIN_SECS) * SECOND

  /** The first execution, with its lease renewed and its handler started as late as may be. */
  lemma StartedLate(id: JobId, lags: Lags) returns (r: Timeline, w: World)
    requires lags.NonNegative()
    ensures Possible(id, r) && WorldOf(id, r) == w && Timely(id, r, lags)
    ensures r.Later? && r.at == Min(lags.start, COVERED + 1)
    ensures w.tasks == [Task(7, 0, 30, 1, Handling(0, r.at))]
    ensures w.view.HeldBy(7) && w.view.job.value.leaseExpiresAt == Some(COVERED) && LastChance(w.view)
  {
    w := WorldOf(id, Dawn);
    r, w := PlayOnTime(id, Dawn, w, lags, 0, Elsewhere(Create(Request(Queued, 1, false))));
    r, w := PlayOnTime(id, r, w, lags, 0, TakeLease(7, 30));
    r, w := PlayOnTime(id, r, w, lags, 0, CallRenew(0));
    r, w := PlayOnTime(id, r, w, lags, Min(lags.start, COVERED + 1), StartHandler(0));
  }

  /** A job with one attempt, one second for it and no dead-letter entry; if leased, in that attempt. */
  predicate LastChance(v: View) {
    && v.job.Some? && v.job.value.maxAttempts == 1 && v.job.value.timeoutSecs == 1 && !v.job.value.deadLetter
    && (v.Is(Processing) ==> v.job.value.attempts == 1)
  }

  predicate TooLateForMargin(lags: Lags) {
    lags.start + lags.overrun + lags.report > MARGIN_SECS * SECOND
  }

  /** With too little margin it may still be waiting to report when its lease is swept. */
  lemma SweptBeforeReport(id: JobId, lags: Lags) returns (r: Timeline, w: World)
    requires lags.NonNegative() && TooLateForMargin(lags)
    ensures Possible(id, r) && WorldOf(id, r) == w && Timely(id, r, lags)
    ensures r.Later? && r.at == COVERED + 1 && OnTime(w, r.at, lags)
    ensures |w.tasks| == 1 && w.tasks[0].worker == 7 && w.tasks[0].phase.Finished?
    ensures w.view.Is(JobStatus.Failed) && LastChance(w.view)
  {
    r, w := StartedLate(id, lags);
    var ended := Min(r.at + SECOND + lags.overrun, COVERED + 1);
    r, w := PlayOnTime(id, r, w, lags, ended, EndHandler(0));
    r, w := PlayOnTime(id, r, w, lags, COVERED + 1, Elsewhere(Sweep));
  }

  /** The job is redriven, and `worker` leases it at once. */
  lemma LeasedAgain(id: JobId, r: Timeline, w: World, lags: Lags, worker: WorkerId) returns (r': Timeline, w': World)
    requires Possible(id, r) && WorldOf(id, r) == w && Timely(id, r, lags) && lags.NonNegative()
    requires r.Later? && OnTime(w, r.at, lags) && w.view.Is(JobStatus.Failed) && LastChance(w.view)
    ensures Possible(id, r') && WorldOf(id, r') == w' && Timely(id, r', lags)
    ensures r'.Later? && r'.at == r.at && OnTime(w', r'.at, lags)
    ensures w'.tasks == w.tasks + [Task(worker, r.at, 30, 1, Leased)]
    ensures w'.view.HeldBy(worker) && LastChance(w'.view)
  {
    r', w' := PlayOnTime(id, r, w, lags, r.at, Elsewhere(Retry));
    r', w' := PlayOnTime(id, r', w', lags, r.at, TakeLease(worker, 30));
  }

  /** And starts another handler. */
  lemma HandledAgain(id: JobId, r: Timeline, w: World, lags: Lags, worker: WorkerId) returns (r': Timeline, w': World)
    requires Possible(id, r) && WorldOf(id, r) == w && Timely(id, r, lags) && lags.NonNegative()
    requires r.Later? && OnTime(w, r.at, lags) && w.view.Is(JobStatus.Failed) && LastChance(w.view)
    ensures Possible(id, r') && WorldOf(id, r') == w' && Timely(id, r', lags)
    ensures r'.Later? && r'.at == r.at && OnTime(w', r'.at, lags)
    ensures w'.tasks == w.tasks + [Task(worker, r.at, 30, 1, Handling(r.at, r.at))]
    ensures w'.view.HeldBy(worker) && LastChance(w'.view)
  {
    r', w' := LeasedAgain(id, r, w, lags, worker);
    r', w' := PlayOnTime(id, r', w', lags, r.at, CallRenew(|w.tasks|));
    r', w' := PlayOnTime(id, r', w', lags, r.at, StartHandler(|w.tasks|));
  }

  /** The same worker starts a second handler, and the first execution's report ends its lease. */
  lemma ReleasedWhileHandled(id: JobId, lags: Lags) returns (r: Timeline, w: World)
    requires lags.NonNegative() && TooLateForMargin(lags)
    ensures Possible(id, r) && WorldOf(id, r) == w && Timely(id, r, lags)
    ensures r.Later? && OnTime(w, r.at, lags) && w.view.Is(JobStatus.Failed) && LastChance(w.view)
    ensures |w.tasks| == 2 && w.tasks[1].phase.Handling?
  {
    r, w := SweptBeforeReport(id, lags);
    r, w := HandledAgain(id, r, w, lags, 7);
    r, w := PlayOnTime(id, r, w, lags, r.at, Report(0, Failure("late")));
  }

  /** Another worker starts a third. */
  lemma LateReportsCollide(id: JobId, lags: Lags) returns (r: Timeline)
    requires lags.NonNegative() && TooLateForMargin(lags)
    ensures Collides(id, r, lags)
  {
    var w: World;
    r, w := ReleasedWhileHandled(id, lags);
    r, w := HandledAgain(id, r, w, lags, 8);
    assert w.tasks[1].phase.Handling? && w.tasks[2].phase.Handling?;
  }

  /** When the first lease of 30 s has just run out. */
  const LAPSED: Time := 30 * SECOND + 1

  /** If renewals may be late, a first task may not have renewed its lease when that is swept. */
  lemma SweptBeforeRenewal(id: JobId, lags: Lags) returns (r: Timeline, w: World)
    requires lags.NonNegative() && lags.renew > 0
    ensures Possible(id, r) && WorldOf(id, r) == w && Timely(id, r, lags)
    ensures r.Later? && r.at == LAPSED && OnTime(w, r.at, lags)
    ensures w.tasks == [Task(7, 0, 30, 1, Leased)]
    ensures w.view.Is(JobStatus.Failed) && LastChance(w.view)
  {
    w := WorldOf(id, Dawn);
    r, w := PlayOnTime(id, Dawn, w, lags, 0, Elsewhere(Create(Request(Queued, 1, false))));
    r, w := PlayOnTime(id, r, w, lags, 0, TakeLease(7, 30));
    r, w := PlayOnTime(id, r, w, lags, LAPSED, Elsewhere(Sweep));
  }

  /** The same worker handles the job under its next lease, which the late renewal of the first task then extends: the
      first task starts a handler, too. */
  lemma LateRenewalsCollide(id: JobId, lags: Lags) returns (r: Timeline)
    requires lags.NonNegative() && lags.renew > 0
    ensures Collides(id, r, lags)
  {
    var w: World;
    r, w := SweptBeforeRenewal(id, lags);
    r, w := HandledAgain(id, r, w, lags, 7);
    r, w := PlayOnTime(id, r, w, lags, r.at, CallRenew(0));
    r, w := PlayOnTime(id, r, w, lags, r.at, StartHandler(0));
    assert w.tasks[0].phase.Handling? && w.tasks[1].phase.Handling?;
  }

  /** Whenever the lags do not fit, a run that keeps to them has two handlers of one job running. */
  lemma HandlersOverlap(id: JobId, lags: Lags) returns (r: Timeline)
    requires lags.NonNegative() && !lags.Fit()
    ensures Collides(id, r, lags)
  {
    if lags.renew > 0 {
      r := LateRenewalsCollide(id, lags);
    } else {
      r := LateReportsCollide(id, lags);
    }
  }

  /** Two handlers of the job are running. */
  ghost predicate Overlaps(w: World) {
    exists t, u :: 0 <= t < u < |w.tasks| && w.tasks[t].phase.Handling? && w.tasks[u].phase.Handling?
  }

  /** A run that keeps to the lags, and ends with two handlers of the job running. */
  ghost predicate Collides(id: JobId, r: Timeline, lags: Lags) {
    Possible(id, r) && Timely(id, r, lags) && Overlaps(WorldOf(id, r))
  }

  /** Whatever the lags, handlers of a job exclude each other in all runs that keep to them if and only if renewals come
      before the first lease runs out and the other lags fit the margin. */
  lemma MarginIsExact(id: JobId, lags: Lags)
    requires lags.NonNegative()
    ensures lags.Fit() <==> forall r :: !Collides(id, r, lags)
  {
    if lags.Fit() {
      forall r ensures !Collides(id, r, lags) {
        if Collides(id, r, lags) {
          var w := WorldOf(id, r);
          var t, u :| 0 <= t < u < |w.tasks| && w.tasks[t].phase.Handling? && w.tasks[u].phase.Handling?;
          HandlersExclude(id, r, lags, t, u);
        }
      }
    } else {
      var r := HandlersOverlap(id, lags);
      assert Collides(id, r, lags);
    }
  }
}
