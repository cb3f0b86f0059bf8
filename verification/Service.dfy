/** The service over the store: validation, the store's operation, and the counters kept beside it. */
module Service {
  import opened Basics
  import opened Status
  import opened Model
  import opened Lifecycle
  import opened Invariants
  import opened Tables
  import opened Safety
  import opened Store

  /** The counters with a label have one value per queue; a missing label counts as zero. */
  datatype Metrics = Metrics(
    submitted: map<string, nat>,
    completed: map<string, nat>,
    failed: map<string, nat>,
    retried: map<string, nat>,
    deadLettered: map<string, nat>,
    timedOut: nat,
    observed: nat)

  const ZERO: Metrics := Metrics(map[], map[], map[], map[], map[], 0, 0)

  function Count(counter: map<string, nat>, queue: string): nat {
    if queue in counter then counter[queue] else 0
  }

  function Inc(counter: map<string, nat>, queue: string): map<string, nat> {
    counter[queue := Count(counter, queue) + 1]
  }

  // ---- what a call does ----------------------------------------------------

  /** The identifier generated for a new job may clash with a stored one but is never a purged one. */
  predicate UsableId(s: State, newId: JobId) {
    newId in s.minted ==> newId in s.jobs
  }

  predicate Creates(s: State, n: NormalizedJob, newId: JobId) {
    !KeyTaken(s, n.queue, n.idempotencyKey) && newId !in s.jobs
  }

  function ReportEvent(id: JobId, worker: WorkerId, outcome: Outcome): Event {
    match outcome
    case Success(result) => CompleteJob(id, worker, result)
    case Failure(error) => FailJob(id, worker, error, false)
    case Timeout => FailJob(id, worker, TIMED_OUT, true)
  }

  function AfterSubmit(m: Metrics, queue: string, created: bool): Metrics {
    if created then m.(submitted := Inc(m.submitted, queue)) else m
  }

  /** A failure is counted whether or not the store accepts the report; a retry or a dead letter if that is the status
      found when the row is read again. */
  function AfterFailure(m: Metrics, queue: string, found: Option<JobStatus>): Metrics {
    m.(failed := Inc(m.failed, queue),
       retried := if found == Some(Retrying) then Inc(m.retried, queue) else m.retried,
       deadLettered := if found == Some(DeadLettered) then Inc(m.deadLettered, queue) else m.deadLettered)
  }

  /** `accepted`: the store took the report. `found`: what a row that has failed was read again as. */
  function AfterReport(m: Metrics, queue: string, outcome: Outcome, accepted: bool, found: Option<JobStatus>): Metrics {
    var seen := m.(observed := m.observed + 1);
    match outcome
    case Success(_) => if accepted then seen.(completed := Inc(m.completed, queue)) else seen
    case Failure(_) => AfterFailure(seen, queue, found)
    case Timeout => AfterFailure(seen.(timedOut := m.timedOut + 1), queue, found)
  }

  /** The status read from the tables. */
  function StatusOf(s: State, id: JobId): Option<JobStatus> {
    if id in s.jobs then Some(s.jobs[id].status) else None
  }

  /** The status in a result. */
  function StatusIn(r: Result<Job, QueueError>): Option<JobStatus> {
    if r.Ok? then Some(r.value.status) else None
  }

  /** If nobody touches the job in between, a retry is counted exactly if it was given one, and a dead letter exactly if
      it has become one. */
  lemma FoundAsLeft(s: State, at: Time, id: JobId, worker: WorkerId, error: string, timedOut: bool)
    requires Held(s, id, worker)
    ensures var s' := Apply(s, at, FailJob(id, worker, error, timedOut));
            && id in s'.jobs
            && (s'.jobs[id].status == Retrying <==> !Exhausted(s.jobs[id]))
            && (s'.jobs[id].status == DeadLettered <==> Exhausted(s.jobs[id]) && s.jobs[id].deadLetter)
  {
  }

  class QueueService {
    const store: PgStore
    var metrics: Metrics

    constructor (store: PgStore)
      ensures this.store == store && metrics == ZERO
    {
      this.store := store;
      metrics := ZERO;
    }

    /** `clientNow` is the caller's clock, used to schedule the job; `now` is the database's. */
    method Submit(request: NewJob, newId: JobId, clientNow: Time, now: Time, others: Others)
      returns (r: Result<Submission, QueueError>)
      requires Acceptable(request) ==>
                 var n := Normalized(request, clientNow).value;
                 var t := AtInsert(store.Contents(), now, n, others);
                 n.queue in t.queues && UsableId(t, newId)
      modifies this, store
      ensures !Acceptable(request) ==>
                r.Err? && r.error.Validation? && store.Contents() == old(store.Contents()) && metrics == old(metrics)
      ensures Acceptable(request) ==>
                var n := Normalized(request, clientNow).value;
                && SubmitsTo(old(store.Contents()), now, n, newId, others, store.Contents(), r)
                && metrics == AfterSubmit(old(metrics), n.queue, r.Ok? && r.value.created)
    {
      var normalized := Normalized(request, clientNow);
      if normalized.Err? {
        return Err(normalized.error);
      }
      var n := normalized.value;
      r := store.Submit(n, newId, now, others);
      if r.Ok? && r.value.created {
        metrics := metrics.(submitted := Inc(metrics.submitted, n.queue));
      }
    }

    method ReportOutcome(id: JobId, queue: string, worker: WorkerId, outcome: Outcome, now: Time, others: Others)
      returns (r: Result<Job, QueueError>)
      modifies this, store
      ensures var s := Apply(old(store.Contents()), now, ReportEvent(id, worker, outcome));
              var accepted := old(Held(store.Contents(), id, worker));
              && store.Contents() == (if accepted && !outcome.Success? then others(0)(s) else s)
              && metrics == AfterReport(old(metrics), queue, outcome, accepted, StatusIn(r))
              && (r.Ok? <==> accepted && id in store.jobs)
              && (r.Ok? ==> r.value == store.jobs[id])
    {
      metrics := metrics.(observed := metrics.observed + 1);
      match outcome
      case Success(result) =>
        r := store.CompleteJob(id, worker, result, now);
        if r.Ok? {
          metrics := metrics.(completed := Inc(metrics.completed, queue));
        }
      case Failure(error) =>
        r := RecordFailure(id, queue, worker, error, false, now, others);
      case Timeout =>
        metrics := metrics.(timedOut := metrics.timedOut + 1);
        r := RecordFailure(id, queue, worker, TIMED_OUT, true, now, others);
    }

    method RecordFailure(id: JobId, queue: string, worker: WorkerId, error: string, timedOut: bool, now: Time,
                         others: Others)
      returns (r: Result<Job, QueueError>)
      modifies this, store
      ensures var s := Apply(old(store.Contents()), now, FailJob(id, worker, error, timedOut));
              var accepted := old(Held(store.Contents(), id, worker));
              && store.Contents() == (if accepted then others(0)(s) else s)
              && metrics == AfterFailure(old(metrics), queue, StatusIn(r))
              && (r.Ok? <==> accepted && id in store.jobs)
              && (r.Ok? ==> r.value == store.jobs[id])
    {
      metrics := metrics.(failed := Inc(metrics.failed, queue));
      r := store.FailJob(id, worker, error, timedOut, now, others);
      if r.Ok? {
        match r.value.status
        case Retrying => metrics := metrics.(retried := Inc(metrics.retried, queue));
        case DeadLettered => metrics := metrics.(deadLettered := Inc(metrics.deadLettered, queue));
        case _ =>
      }
    }

    /** A completion that no counter sees. */
    method CompleteJob(id: JobId, worker: WorkerId, result: Option<Json>, now: Time) returns (r: Result<Job, QueueError>)
      modifies store
      ensures store.Contents() == Apply(old(store.Contents()), now, Event.CompleteJob(id, worker, result))
      ensures r.Ok? <==> old(Held(store.Contents(), id, worker))
    {
      r := store.CompleteJob(id, worker, result, now);
    }
  }

  // ---- the counters against the tables -------------------------------------

  /** Calls of the service, among whatever else reaches the store. */
  datatype Traffic =
    | Silence
    | Submits(past: Traffic, at: Time, n: NormalizedJob, newId: JobId)
    | Reports(past: Traffic, at: Time, id: JobId, queue: string, worker: WorkerId, outcome: Outcome,
              found: Option<JobStatus>)
    | Elsewhere(past: Traffic, at: Time, ev: Event)

  /** Jobs are reported under their own queue, and only a row whose failure the store has accepted is read again. A
      submission appears with its INSERT; its other statements, whatever comes between the statements of any call, and
      everything that goes past the counters are `Elsewhere`. */
  predicate Fair(t: Traffic)
    decreases t, 0
  {
    t.Silence? || (
      && Fair(t.past)
      && (RunOf(t.past).Next? ==> RunOf(t.past).at <= t.at)
      && var s := StateOf(RunOf(t.past));
         match t
         case Submits(_, _, n, newId) => WellFormed(n) && n.queue in s.queues && UsableId(s, newId)
         case Reports(_, _, id, queue, worker, _, found) =>
           (id in s.jobs ==> s.jobs[id].queue == queue) && (found.Some? ==> Held(s, id, worker))
         case Elsewhere(_, at, ev) => Allowed(s, at, ev))
  }

  /** The run of the store. */
  function RunOf(t: Traffic): (r: Run)
    requires Fair(t)
    ensures Valid(r)
    decreases t, 1
  {
    match t
    case Silence => Boot
    case Submits(past, at, n, newId) =>
      if Creates(StateOf(RunOf(past)), n, newId) then Next(RunOf(past), at, Insert(newId, n)) else RunOf(past)
    case Reports(past, at, id, _, worker, outcome, _) => Next(RunOf(past), at, ReportEvent(id, worker, outcome))
    case Elsewhere(past, at, ev) => Next(RunOf(past), at, ev)
  }

  function MetricsOf(t: Traffic): Metrics
    requires Fair(t)
  {
    match t
    case Silence => ZERO
    case Submits(past, _, n, newId) =>
      AfterSubmit(MetricsOf(past), n.queue, Creates(StateOf(RunOf(past)), n, newId))
    case Reports(past, _, id, queue, worker, outcome, found) =>
      AfterReport(MetricsOf(past), queue, outcome, Held(StateOf(RunOf(past)), id, worker), found)
    case Elsewhere(past, _, _) => MetricsOf(past)
  }

  /** Jobs that an event adds to the queue, jobs it completes, and jobs it removes. */
  function Added(s: State, ev: Event, queue: string): set<JobId> {
    if ev.Insert? && ev.n.queue == queue then {ev.id} else {}
  }

  function NewlyCompleted(s: State, ev: Event, queue: string): set<JobId> {
    if ev.CompleteJob? && Held(s, ev.id, ev.worker) && s.jobs[ev.id].queue == queue then {ev.id} else {}
  }

  function Removed(s: State, ev: Event): set<JobId> {
    if ev.PurgeFinished? then Purgeable(s, ev.cutoff) else {}
  }

  /** How many jobs of the queue purges have removed, and how many of these were completed. */
  function PurgedJobs(r: Run, queue: string): nat
    requires Valid(r)
  {
    match r
    case Boot => 0
    case Next(past, _, ev) =>
      PurgedJobs(past, queue) + |InQueue(StateOf(past), queue) * Removed(StateOf(past), ev)|
  }

  function PurgedCompleted(r: Run, queue: string): nat
    requires Valid(r)
  {
    match r
    case Boot => 0
    case Next(past, _, ev) =>
      PurgedCompleted(past, queue) + |InStatus(StateOf(past), queue, Completed) * Removed(StateOf(past), ev)|
  }

  lemma CompletedStep(v: View, at: Time, a: Action)
    requires Invariant(v) && Enabled(v, at, a)
    ensures Effect(v, at, a).Is(Completed) <==> a.Complete? || (v.Is(Completed) && !a.Purge?)
  {
  }

  /** What the event does to the job's membership of its queue, and of its completed jobs. */
  predicate Moves(s: State, s': State, ev: Event, id: JobId) {
    && (id in s'.jobs <==> (id in s.jobs || (ev.Insert? && id == ev.id)) && id !in Removed(s, ev))
    && (id in s.jobs && id in s'.jobs ==> s'.jobs[id].queue == s.jobs[id].queue)
    && (id !in s.jobs && id in s'.jobs ==> s'.jobs[id].queue == ev.n.queue)
    && (id in s'.jobs ==>
          (s'.jobs[id].status.Completed? <==>
            (ev.CompleteJob? && id == ev.id && Held(s, id, ev.worker))
            || (id in s.jobs && s.jobs[id].status.Completed?)))
  }

  lemma JobStep(s: State, at: Time, ev: Event, id: JobId)
    requires JobsInvariant(s) && Allowed(s, at, ev)
    ensures Moves(s, Apply(s, at, ev), ev, id)
  {
    JobKeys(s, at, ev);
    Projection(s, at, ev, id);
    RowStep(ViewOf(s, id), at, ActionOn(s, ev, id));
    CompletedStep(ViewOf(s, id), at, ActionOn(s, ev, id));
  }

  lemma SetsMove(s: State, s': State, ev: Event, queue: string)
    requires forall id :: Moves(s, s', ev, id)
    requires ev.Insert? ==> ev.id !in s.jobs
    ensures InQueue(s', queue) == InQueue(s, queue) + Added(s, ev, queue) - Removed(s, ev)
    ensures InStatus(s', queue, Completed)
         == InStatus(s, queue, Completed) + NewlyCompleted(s, ev, queue) - Removed(s, ev)
  {
    forall id
      ensures id in InQueue(s', queue) <==> id in InQueue(s, queue) + Added(s, ev, queue) - Removed(s, ev)
      ensures id in InStatus(s', queue, Completed) <==>
              id in InStatus(s, queue, Completed) + NewlyCompleted(s, ev, queue) - Removed(s, ev)
    {
      assert Moves(s, s', ev, id);
    }
  }

  lemma QueueStep(s: State, at: Time, ev: Event, queue: string)
    requires JobsInvariant(s) && Allowed(s, at, ev)
    ensures var s' := Apply(s, at, ev);
            && InQueue(s', queue) == InQueue(s, queue) + Added(s, ev, queue) - Removed(s, ev)
            && InStatus(s', queue, Completed)
            == InStatus(s, queue, Completed) + NewlyCompleted(s, ev, queue) - Removed(s, ev)
  {
    forall id ensures Moves(s, Apply(s, at, ev), ev, id) {
      JobStep(s, at, ev, id);
    }
    assert ev.Insert? ==> Invariant(ViewOf(s, ev.id));
    SetsMove(s, Apply(s, at, ev), ev, queue);
  }

  lemma Sizes<T>(before: set<T>, added: set<T>, removed: set<T>, after: set<T>)
    requires after == before + added - removed && added !! before && added !! removed
    ensures |after| + |before * removed| == |before| + |added|
  {
    assert before + added == after + before * removed;
    assert |before + added| == |before| + |added|;
  }

  /** The queue's jobs, stored or purged. */
  function JobsSoFar(r: Run, queue: string): nat
    requires Valid(r)
  {
    |InQueue(StateOf(r), queue)| + PurgedJobs(r, queue)
  }

  function CompletedSoFar(r: Run, queue: string): nat
    requires Valid(r)
  {
    |InStatus(StateOf(r), queue, Completed)| + PurgedCompleted(r, queue)
  }

  lemma EventCounts(r: Run, queue: string)
    requires Valid(r) && r.Next?
    ensures JobsSoFar(r, queue) == JobsSoFar(r.past, queue) + |Added(StateOf(r.past), r.ev, queue)|
    ensures CompletedSoFar(r, queue)
         == CompletedSoFar(r.past, queue) + |NewlyCompleted(StateOf(r.past), r.ev, queue)|
  {
    var s := StateOf(r.past);
    JobsInvariantHolds(r.past);
    Conservation(r.past);
    QueueStep(s, r.at, r.ev, queue);
    Sizes(InQueue(s, queue), Added(s, r.ev, queue), Removed(s, r.ev), InQueue(StateOf(r), queue));
    Sizes(InStatus(s, queue, Completed), NewlyCompleted(s, r.ev, queue), Removed(s, r.ev),
          InStatus(StateOf(r), queue, Completed));
  }

  lemma ReportTallied(m: Metrics, s: State, id: JobId, own: string, worker: WorkerId, outcome: Outcome,
                      found: Option<JobStatus>, queue: string)
    requires id in s.jobs ==> s.jobs[id].queue == own
    ensures var m' := AfterReport(m, own, outcome, Held(s, id, worker), found);
            var ev := ReportEvent(id, worker, outcome);
            && Count(m'.submitted, queue) == Count(m.submitted, queue) + |Added(s, ev, queue)|
            && Count(m'.completed, queue) == Count(m.completed, queue) + |NewlyCompleted(s, ev, queue)|
  {
  }

  /** Jobs created past the counters. */
  function InsertedBeside(t: Traffic, queue: string): nat
    requires Fair(t)
  {
    match t
    case Silence => 0
    case Submits(past, _, _, _) => InsertedBeside(past, queue)
    case Reports(past, _, _, _, _, _, _) => InsertedBeside(past, queue)
    case Elsewhere(past, _, ev) => InsertedBeside(past, queue) + |Added(StateOf(RunOf(past)), ev, queue)|
  }

  /** Jobs completed past the counters. */
  function CompletedBeside(t: Traffic, queue: string): nat
    requires Fair(t)
  {
    match t
    case Silence => 0
    case Submits(past, _, _, _) => CompletedBeside(past, queue)
    case Reports(past, _, _, _, _, _, _) => CompletedBeside(past, queue)
    case Elsewhere(past, _, ev) => CompletedBeside(past, queue) + |NewlyCompleted(StateOf(RunOf(past)), ev, queue)|
  }

  ghost predicate CountersAgree(t: Traffic, queue: string)
    requires Fair(t)
  {
    && Count(MetricsOf(t).submitted, queue) + InsertedBeside(t, queue) == JobsSoFar(RunOf(t), queue)
    && Count(MetricsOf(t).completed, queue) + CompletedBeside(t, queue) == CompletedSoFar(RunOf(t), queue)
  }

  lemma {:induction false} CountersAddUp(t: Traffic, queue: string)
    requires Fair(t)
    ensures CountersAgree(t, queue)
  {
    match t
    case Silence =>
      assert InQueue(EMPTY, queue) == {} && InStatus(EMPTY, queue, Completed) == {};
    case Submits(past, at, n, newId) =>
      CountersAddUp(past, queue);
      if Creates(StateOf(RunOf(past)), n, newId) {
        EventCounts(RunOf(t), queue);
      }
    case Reports(past, at, id, own, worker, outcome, found) =>
      CountersAddUp(past, queue);
      ReportTallied(MetricsOf(past), StateOf(RunOf(past)), id, own, worker, outcome, found, queue);
      EventCounts(RunOf(t), queue);
    case Elsewhere(past, at, ev) =>
      CountersAddUp(past, queue);
      EventCounts(RunOf(t), queue);
  }

  /** The counters fall short of the tables by what went past the service, in every run: with that, every job of a queue
      was counted once as submitted and every completed one once as completed, whether it is still stored or has been
      purged. They agree exactly if nothing went past it. */
  lemma CountersMirrorTables(t: Traffic, queue: string)
    requires Fair(t)
    ensures Count(MetricsOf(t).submitted, queue) + InsertedBeside(t, queue) == JobsSoFar(RunOf(t), queue)
    ensures Count(MetricsOf(t).completed, queue) + CompletedBeside(t, queue) == CompletedSoFar(RunOf(t), queue)
    ensures Count(MetricsOf(t).submitted, queue) == JobsSoFar(RunOf(t), queue) <==> InsertedBeside(t, queue) == 0
    ensures Count(MetricsOf(t).completed, queue) == CompletedSoFar(RunOf(t), queue) <==> CompletedBeside(t, queue) == 0
  {
    CountersAddUp(t, queue);
  }

  // ---- what became of failures ---------------------------------------------

  /** The report is of a failure, under the queue. */
  predicate ReportsFailure(t: Traffic, queue: string) {
    t.Reports? && !t.outcome.Success? && t.queue == queue
  }

  /** The store accepted it, and gave the job another attempt. */
  predicate GivesRetry(t: Traffic, queue: string)
    requires Fair(t)
  {
    ReportsFailure(t, queue) && Held(StateOf(RunOf(t.past)), t.id, t.worker)
    && !Exhausted(StateOf(RunOf(t.past)).jobs[t.id])
  }

  /** The store accepted it, and dead-lettered the job. */
  predicate Buries(t: Traffic, queue: string)
    requires Fair(t)
  {
    ReportsFailure(t, queue) && Held(StateOf(RunOf(t.past)), t.id, t.worker)
    && Exhausted(StateOf(RunOf(t.past)).jobs[t.id]) && StateOf(RunOf(t.past)).jobs[t.id].deadLetter
  }

  function Failures(t: Traffic, queue: string): nat {
    if t.Silence? then 0 else Failures(t.past, queue) + if ReportsFailure(t, queue) then 1 else 0
  }

  function Retries(t: Traffic, queue: string): nat
    requires Fair(t)
  {
    if t.Silence? then 0 else Retries(t.past, queue) + if GivesRetry(t, queue) then 1 else 0
  }

  function Burials(t: Traffic, queue: string): nat
    requires Fair(t)
  {
    if t.Silence? then 0 else Burials(t.past, queue) + if Buries(t, queue) then 1 else 0
  }

  /** Every accepted failure finds its row as it left it. */
  ghost predicate Prompt(t: Traffic)
    requires Fair(t)
  {
    t.Silence? || (
      && Prompt(t.past)
      && (t.Reports? && !t.outcome.Success? && Held(StateOf(RunOf(t.past)), t.id, t.worker) ==>
            t.found == StatusOf(StateOf(RunOf(t)), t.id)))
  }

  lemma FailureCounted(t: Traffic, queue: string)
    requires Fair(t) && Prompt(t) && t.Reports?
    ensures var m, m' := MetricsOf(t.past), MetricsOf(t);
            && Count(m'.failed, queue) == Count(m.failed, queue) + (if ReportsFailure(t, queue) then 1 else 0)
            && Count(m'.retried, queue) == Count(m.retried, queue) + (if GivesRetry(t, queue) then 1 else 0)
            && Count(m'.deadLettered, queue) == Count(m.deadLettered, queue) + (if Buries(t, queue) then 1 else 0)
  {
    var s := StateOf(RunOf(t.past));
    if !t.outcome.Success? && Held(s, t.id, t.worker) {
      var error := if t.outcome.Failure? then t.outcome.error else TIMED_OUT;
      FoundAsLeft(s, t.at, t.id, t.worker, error, t.outcome.Timeout?);
    }
  }

  lemma FailureAdded(m: Metrics, own: string, outcome: Outcome, accepted: bool, found: Option<JobStatus>, queue: string)
    ensures Count(AfterReport(m, own, outcome, accepted, found).failed, queue)
         == Count(m.failed, queue) + if !outcome.Success? && own == queue then 1 else 0
  {
  }

  lemma {:induction false} FailuresCounted(t: Traffic, queue: string)
    requires Fair(t)
    ensures Count(MetricsOf(t).failed, queue) == Failures(t, queue)
  {
    match t
    case Silence =>
    case Reports(past, _, id, own, worker, outcome, found) =>
      FailuresCounted(past, queue);
      FailureAdded(MetricsOf(past), own, outcome, Held(StateOf(RunOf(past)), id, worker), found, queue);
    case Submits(past, _, _, _) => FailuresCounted(past, queue);
    case Elsewhere(past, _, _) => FailuresCounted(past, queue);
  }

  function ReportsMade(t: Traffic): nat {
    if t.Silence? then 0 else ReportsMade(t.past) + if t.Reports? then 1 else 0
  }

  function TimeoutsReported(t: Traffic): nat {
    if t.Silence? then 0 else TimeoutsReported(t.past) + if t.Reports? && t.outcome == Timeout then 1 else 0
  }

  lemma ReportSeen(m: Metrics, own: string, outcome: Outcome, accepted: bool, found: Option<JobStatus>)
    ensures var m' := AfterReport(m, own, outcome, accepted, found);
            && m'.observed == m.observed + 1
            && m'.timedOut == m.timedOut + if outcome == Timeout then 1 else 0
  {
  }

  /** Every report has its duration observed, whatever becomes of it, and every timeout is counted. */
  lemma {:induction false} ReportsCounted(t: Traffic)
    requires Fair(t)
    ensures MetricsOf(t).observed == ReportsMade(t)
    ensures MetricsOf(t).timedOut == TimeoutsReported(t)
  {
    match t
    case Silence =>
    case Reports(past, _, id, own, worker, outcome, found) =>
      ReportsCounted(past);
      ReportSeen(MetricsOf(past), own, outcome, Held(StateOf(RunOf(past)), id, worker), found);
    case Submits(past, _, _, _) => ReportsCounted(past);
    case Elsewhere(past, _, _) => ReportsCounted(past);
  }

  /** Every failure reported was counted. If no re-read is overtaken, each retry given and each burial made by a report
      was counted as such, once. */
  lemma {:induction false} FatesCounted(t: Traffic, queue: string)
    requires Fair(t) && Prompt(t)
    ensures Count(MetricsOf(t).failed, queue) == Failures(t, queue)
    ensures Count(MetricsOf(t).retried, queue) == Retries(t, queue)
    ensures Count(MetricsOf(t).deadLettered, queue) == Burials(t, queue)
  {
    match t
    case Silence =>
    case Reports(past, _, _, _, _, _, _) =>
      FatesCounted(past, queue);
      FailureCounted(t, queue);
    case Submits(past, _, _, _) => FatesCounted(past, queue);
    case Elsewhere(past, _, _) => FatesCounted(past, queue);
  }
}
