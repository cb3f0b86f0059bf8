/** Whole runs of the store: any statements, of any callers, in any order, on one monotone clock. */
module Safety {
  import opened Basics
  import opened Model
  import opened Lifecycle
  import opened Invariants
  import opened Mirror
  import opened Tables
  import Protocol

  datatype Run = Boot | Next(past: Run, at: Time, ev: Event)

  predicate Valid(r: Run)
    decreases r, 0
  {
    match r
    case Boot => true
    case Next(past, at, ev) => Valid(past) && (past.Next? ==> past.at <= at) && Allowed(StateOf(past), at, ev)
  }

  function StateOf(r: Run): State
    requires Valid(r)
    decreases r, 1
  {
    match r
    case Boot => EMPTY
    case Next(past, at, ev) => Apply(StateOf(past), at, ev)
  }

  /** The run as the job `id` sees it. */
  function HistoryOf(r: Run, id: JobId): History
    requires Valid(r)
  {
    match r
    case Boot => Empty
    case Next(past, at, ev) => Then(HistoryOf(past, id), at, ActionOn(StateOf(past), ev, id))
  }

  /** Every run is, job by job, a legal history that ends in the job's rows. All that is proved of histories therefore
      holds of every job in every run. */
  lemma {:induction false} RunProjects(r: Run, id: JobId)
    requires Valid(r)
    ensures Legal(id, HistoryOf(r, id))
    ensures After(id, HistoryOf(r, id)) == ViewOf(StateOf(r), id)
  {
    if r.Next? {
      RunProjects(r.past, id);
      Projection(StateOf(r.past), r.at, r.ev, id);
    }
  }

  // ---- in every reachable state --------------------------------------------

  predicate SameKey(j: Job, k: Job) {
    j.queue == k.queue && j.idempotencyKey.Some? && j.idempotencyKey == k.idempotencyKey
  }

  ghost predicate UniqueKeys(s: State) {
    forall i, k | i in s.jobs && k in s.jobs ::
      SameKey(s.jobs[i], s.jobs[k]) ==> i == k
  }

  ghost predicate QueuesExist(s: State) {
    forall i | i in s.jobs :: s.jobs[i].queue in s.queues
  }

  ghost predicate JobsInvariant(s: State) {
    forall id :: Invariant(ViewOf(s, id))
  }

  lemma JobsInvariantHolds(r: Run)
    requires Valid(r)
    ensures JobsInvariant(StateOf(r))
  {
    forall id ensures Invariant(ViewOf(StateOf(r), id)) {
      RunProjects(r, id);
      InvariantHolds(id, HistoryOf(r, id));
    }
  }

  /** Rows other than a new one keep their queue and key. */
  lemma KeysFixed(s: State, at: Time, ev: Event, id: JobId)
    requires JobsInvariant(s) && Allowed(s, at, ev) && id in Apply(s, at, ev).jobs
    ensures id in s.jobs ==> SameIdentity(s.jobs[id], Apply(s, at, ev).jobs[id])
    ensures id !in s.jobs ==> ev.Insert? && ev.id == id
  {
    Projection(s, at, ev, id);
    RowStep(ViewOf(s, id), at, ActionOn(s, ev, id));
  }

  /** Rows of `s'` are rows of `s`, with their queue and key, but for one that is new. */
  ghost predicate KeysCarried(s: State, s': State, ev: Event) {
    forall id | id in s'.jobs ::
      if id in s.jobs then SameIdentity(s.jobs[id], s'.jobs[id]) else ev.Insert? && ev.id == id
  }

  lemma UniqueKeysStep(s: State, at: Time, ev: Event)
    requires UniqueKeys(s) && Allowed(s, at, ev) && KeysCarried(s, Apply(s, at, ev), ev)
    ensures UniqueKeys(Apply(s, at, ev))
  {
    var s' := Apply(s, at, ev);
    forall i, k | i in s'.jobs && k in s'.jobs && i != k ensures !SameKey(s'.jobs[i], s'.jobs[k]) {
      NotTheNewKey(s, at, ev, i, k);
    }
  }

  lemma NotTheNewKey(s: State, at: Time, ev: Event, i: JobId, k: JobId)
    requires UniqueKeys(s) && Allowed(s, at, ev) && KeysCarried(s, Apply(s, at, ev), ev)
    requires i in Apply(s, at, ev).jobs && k in Apply(s, at, ev).jobs && i != k
    ensures !SameKey(Apply(s, at, ev).jobs[i], Apply(s, at, ev).jobs[k])
  {
    var s' := Apply(s, at, ev);
    if i in s.jobs && k in s.jobs {
      assert !SameKey(s.jobs[i], s.jobs[k]);
    } else {
      assert ev.Insert? && s'.jobs[ev.id] == NewRow(ev.n, at);
    }
  }

  lemma QueuesExistStep(s: State, at: Time, ev: Event)
    requires QueuesExist(s) && Allowed(s, at, ev) && KeysCarried(s, Apply(s, at, ev), ev)
    ensures QueuesExist(Apply(s, at, ev))
  {
    assert s.queues.Keys <= Apply(s, at, ev).queues.Keys;
  }

  /** Every job's queue exists, and no two jobs of a queue share an idempotency key. */
  lemma {:induction false} TablesConsistent(r: Run)
    requires Valid(r)
    ensures QueuesExist(StateOf(r)) && UniqueKeys(StateOf(r))
  {
    if r.Next? {
      TablesConsistent(r.past);
      JobsInvariantHolds(r.past);
      var s, s' := StateOf(r.past), StateOf(r);
      forall id | id in s'.jobs
        ensures if id in s.jobs then SameIdentity(s.jobs[id], s'.jobs[id]) else r.ev.Insert? && r.ev.id == id
      {
        KeysFixed(s, r.at, r.ev, id);
      }
      UniqueKeysStep(s, r.at, r.ev);
      QueuesExistStep(s, r.at, r.ev);
    }
  }

  // ---- conservation --------------------------------------------------------

  function Created(r: Run): seq<JobId> {
    match r
    case Boot => []
    case Next(past, _, ev) => Created(past) + if ev.Insert? then [ev.id] else []
  }

  function Purged(r: Run): set<JobId>
    requires Valid(r)
  {
    match r
    case Boot => {}
    case Next(past, _, ev) =>
      Purged(past) + if ev.PurgeFinished? then Purgeable(StateOf(past), ev.cutoff) else {}
  }

  ghost predicate KeysStep(s: State, ev: Event, s': State) {
    && s'.jobs.Keys == (if ev.Insert? then s.jobs.Keys + {ev.id}
                        else if ev.PurgeFinished? then s.jobs.Keys - Purgeable(s, ev.cutoff)
                        else s.jobs.Keys)
    && s'.minted == (if ev.Insert? then s.minted + {ev.id} else s.minted)
    && (ev.Insert? ==> ev.id !in s.minted)
  }

  lemma RowUpdateKeepsKeys(s: State, at: Time, ev: Event)
    requires ev.RenewLease? || ev.CompleteJob? || ev.FailJob? || ev.CancelJob? || ev.RetryUpdate?
    ensures KeysStep(s, ev, Apply(s, at, ev))
  {
  }

  lemma JobKeys(s: State, at: Time, ev: Event)
    requires Allowed(s, at, ev)
    ensures KeysStep(s, ev, Apply(s, at, ev))
  {
    if ev.RenewLease? || ev.CompleteJob? || ev.FailJob? || ev.CancelJob? || ev.RetryUpdate? {
      RowUpdateKeepsKeys(s, at, ev);
    }
  }

  ghost predicate Accounts(created: seq<JobId>, minted: set<JobId>, stored: set<JobId>, purged: set<JobId>) {
    && (forall id :: id in created <==> id in minted)
    && minted == stored + purged
    && stored !! purged
    && |created| == |stored| + |purged|
  }

  lemma AccountsInsert(created: seq<JobId>, minted: set<JobId>, stored: set<JobId>, purged: set<JobId>, id: JobId)
    requires Accounts(created, minted, stored, purged) && id !in minted
    ensures Accounts(created + [id], minted + {id}, stored + {id}, purged)
  {
    assert |stored + {id}| == |stored| + 1;
  }

  lemma AccountsPurge(created: seq<JobId>, minted: set<JobId>, stored: set<JobId>, purged: set<JobId>,
                      gone: set<JobId>)
    requires Accounts(created, minted, stored, purged) && gone <= stored
    ensures Accounts(created, minted, stored - gone, purged + gone)
  {
    assert |stored - gone| == |stored| - |gone| by {
      assert stored == (stored - gone) + gone;
    }
    assert |purged + gone| == |purged| + |gone|;
  }

  lemma AccountsStep(created: seq<JobId>, s: State, purged: set<JobId>, ev: Event, s': State)
    requires Accounts(created, s.minted, s.jobs.Keys, purged) && KeysStep(s, ev, s')
    ensures Accounts(created + (if ev.Insert? then [ev.id] else []), s'.minted, s'.jobs.Keys,
                     purged + (if ev.PurgeFinished? then Purgeable(s, ev.cutoff) else {}))
  {
    if ev.Insert? {
      assert purged + {} == purged;
      AccountsInsert(created, s.minted, s.jobs.Keys, purged, ev.id);
    } else if ev.PurgeFinished? {
      assert created + [] == created;
      AccountsPurge(created, s.minted, s.jobs.Keys, purged, Purgeable(s, ev.cutoff));
    } else {
      assert created + [] == created && purged + {} == purged;
    }
  }

  /** Every job ever created is stored or was purged, never both, and none is created twice. */
  lemma {:induction false} Conservation(r: Run)
    requires Valid(r)
    ensures Accounts(Created(r), StateOf(r).minted, StateOf(r).jobs.Keys, Purged(r))
  {
    if r.Next? {
      Conservation(r.past);
      JobKeys(StateOf(r.past), r.at, r.ev);
      AccountsStep(Created(r.past), StateOf(r.past), Purged(r.past), r.ev, StateOf(r));
    }
  }

  predicate HasFinished(log: seq<Protocol.Stamp>) {
    log != [] && (log[|log| - 1].act.Complete? || log[|log| - 1].act.Cancel?)
  }

  /** Only jobs whose last protocol action was a completion or a cancellation are ever purged. */
  lemma {:induction false} OnlyFinishedPurged(r: Run, id: JobId)
    requires Valid(r) && id in Purged(r)
    ensures HasFinished(Protocol.Log(HistoryOf(r, id)))
  {
    RunProjects(r, id);
    Protocol.LeasesAlternate(id, HistoryOf(r, id));
    Conservation(r);
    assert ViewOf(StateOf(r), id).minted && ViewOf(StateOf(r), id).job.None?;
  }

  // ---- exact mirrors -------------------------------------------------------

  /** Sweeps and redrives are not interleaved with anything else. */
  ghost predicate Serial(r: Run)
    requires Valid(r)
  {
    match r
    case Boot => true
    case Next(past, _, ev) =>
      && Serial(past)
      && (StateOf(past).closing != multiset{} ==> ev.SweepUpdate? || ev.SweepClose?)
      && (StateOf(past).deleting != multiset{} ==> ev.RetryDelete?)
  }

  lemma SerialWaits(s: State, at: Time, ev: Event, id: JobId, cutShort: bool)
    requires Allowed(s, at, ev)
    requires s.closing != multiset{} ==> ev.SweepUpdate? || ev.SweepClose?
    requires s.deleting != multiset{} ==> ev.RetryDelete?
    requires Undisturbed(ViewOf(s, id), cutShort)
    ensures Waits(ViewOf(s, id), ActionOn(s, ev, id))
  {
    assert s.closing[id] > 0 ==> id in s.closing;
    assert s.deleting[id] > 0 ==> id in s.deleting;
    if ev.SweepUpdate? && id in ev.ids {
      assert id in Expired(s, at, ev.kind);
    }
  }

  lemma {:induction false} SerialIsCalm(r: Run, id: JobId)
    requires Valid(r) && Serial(r)
    ensures Legal(id, HistoryOf(r, id)) && Calm(id, HistoryOf(r, id))
  {
    RunProjects(r, id);
    if r.Next? {
      SerialIsCalm(r.past, id);
      RunProjects(r.past, id);
      var h := HistoryOf(r.past, id);
      CalmHistory(id, h);
      SerialWaits(StateOf(r.past), r.at, r.ev, id, CutShort(id, h));
    }
  }

  /** The dead-letter table is an exact index of the dead-lettered jobs. */
  ghost predicate DeadLetterIndex(s: State) {
    && s.dead.Keys == (set id | id in s.jobs && s.jobs[id].status.DeadLettered?)
    && forall id | id in s.dead :: id in s.jobs && Agrees(s.dead[id], s.jobs[id])
  }

  /** No event of the run spoils a mirror of the job. */
  ghost predicate SparesMirrors(r: Run, id: JobId)
    requires Valid(r)
  {
    var h := HistoryOf(r, id);
    Legal(id, h) && NeverSpoilsIndex(id, h) && NeverSpoilsRows(id, h)
  }

  /** In every run whose events spoil neither mirror of any job, the dead-letter table and the attempt table mirror the
      jobs exactly whenever nothing is half done. */
  lemma UnspoiltRunsAreExact(r: Run)
    requires Valid(r) && forall id :: SparesMirrors(r, id)
    requires StateOf(r).closing == multiset{} && StateOf(r).deleting == multiset{}
    ensures DeadLetterIndex(StateOf(r))
    ensures forall id ::
              Legal(id, HistoryOf(r, id)) && RowsMirror(ViewOf(StateOf(r), id), CutShort(id, HistoryOf(r, id)))
  {
    var s := StateOf(r);
    forall id
      ensures IndexExact(ViewOf(s, id))
      ensures Legal(id, HistoryOf(r, id)) && RowsMirror(ViewOf(s, id), CutShort(id, HistoryOf(r, id)))
    {
      assert SparesMirrors(r, id);
      RunProjects(r, id);
      UnspoiltHistoriesAreExact(id, HistoryOf(r, id));
    }
    forall id ensures id in s.dead <==> id in s.jobs && s.jobs[id].status.DeadLettered? {
      assert IndexExact(ViewOf(s, id));
    }
    forall id | id in s.dead ensures id in s.jobs && Agrees(s.dead[id], s.jobs[id]) {
      assert IndexExact(ViewOf(s, id));
    }
  }

  /** In every serial run with nothing half done, the dead-letter table and the attempt table mirror the jobs exactly. */
  lemma SerialRunsAreExact(r: Run)
    requires Valid(r) && Serial(r)
    requires StateOf(r).closing == multiset{} && StateOf(r).deleting == multiset{}
    ensures DeadLetterIndex(StateOf(r))
    ensures forall id ::
              Legal(id, HistoryOf(r, id)) && RowsMirror(ViewOf(StateOf(r), id), CutShort(id, HistoryOf(r, id)))
  {
    forall id ensures SparesMirrors(r, id) {
      SerialIsCalm(r, id);
      CalmHistory(id, HistoryOf(r, id));
    }
    UnspoiltRunsAreExact(r);
  }

  /** In every run an entry belongs to a dead-lettered job or to one whose redrive is under way, and has done so
      throughout, exactly if no DELETE that failed has stranded it. */
  lemma EntriesAccounted(r: Run, id: JobId)
    requires Valid(r)
    ensures Legal(id, HistoryOf(r, id))
    ensures AlwaysEntryAccounted(id, HistoryOf(r, id)) <==> NeverStrandsEntry(id, HistoryOf(r, id))
    ensures NeverStrandsEntry(id, HistoryOf(r, id)) && id in StateOf(r).dead ==>
              var s := StateOf(r);
              (id in s.jobs && s.jobs[id].status.DeadLettered?) || id in s.deleting
  {
    RunProjects(r, id);
    EntriesAccountedThroughout(id, HistoryOf(r, id));
    assert AlwaysEntryAccounted(id, HistoryOf(r, id)) ==> EntryAccounted(ViewOf(StateOf(r), id));
  }

  // ---- every history is realised -------------------------------------------

  /** The history without the moments at which nothing happened to the job. */
  function Stripped(h: History): History {
    match h
    case Empty => Empty
    case Then(past, at, a) => if a.Pass? then Stripped(past) else Then(Stripped(past), at, a)
  }

  /** Nothing of another job is half done. */
  predicate NothingElseHalfDone(s: State, id: JobId) {
    (forall i | i in s.closing :: i == id) && (forall i | i in s.deleting :: i == id)
  }

  /** The store holds no other job, and the job's queue is open. */
  predicate OnlyJob(s: State, id: JobId) {
    s.jobs.Keys <= {id} && (id in s.jobs ==> s.jobs[id].queue in s.queues && !s.queues[s.jobs[id].queue])
  }

  predicate Alone(s: State, id: JobId) {
    OnlyJob(s, id) && NothingElseHalfDone(s, id)
  }

  /** The event that is `a` on the job `id`, alone in the store. */
  function EventFor(s: State, id: JobId, a: Action): Event
    requires !a.Pass?
    requires a.Lease? || a.Sweep? ==> id in s.jobs
  {
    match a
    case Create(n) => Insert(id, n)
    case Lease(worker, secs) => LeaseNext(worker, {s.jobs[id].queue}, secs, {}, Some(id))
    case Renew(worker, secs) => RenewLease(id, worker, secs)
    case Complete(worker, result) => CompleteJob(id, worker, result)
    case Fail(worker, error, timedOut) => FailJob(id, worker, error, timedOut)
    case Sweep =>
      var j := s.jobs[id];
      SweepUpdate(if !Exhausted(j) then ToRetry else if j.deadLetter then ToDeadLetter else ToFailed, 1, {}, {id})
    case CloseSwept => SweepClose({id})
    case CloseFails => SweepCloseFails({id})
    case Cancel => CancelJob(id)
    case Retry => RetryUpdate(id)
    case DropDead => RetryDelete(id)
    case DeleteFails => RetryDeleteFails(id)
    case Purge(cutoff) => PurgeFinished(cutoff)
  }

  lemma EventForIsAllowed(s: State, id: JobId, at: Time, a: Action)
    requires Alone(s, id) && Enabled(ViewOf(s, id), at, a) && !a.Pass?
    requires id in s.jobs ==> id in s.minted
    requires a.Create? ==> a.n.queue in s.queues && !s.queues[a.n.queue]
    ensures Allowed(s, at, EventFor(s, id, a))
    ensures ActionOn(s, EventFor(s, id, a), id) == a
  {
  }

  lemma OthersPass(s: State, id: JobId, a: Action, i: JobId)
    requires OnlyJob(s, id) && !a.Pass? && (a.Lease? || a.Sweep? ==> id in s.jobs) && i != id
    ensures ActionOn(s, EventFor(s, id, a), i).Pass?
  {
  }

  lemma OthersUntouched(s: State, id: JobId, at: Time, a: Action, i: JobId)
    requires OnlyJob(s, id) && !a.Pass? && (a.Lease? || a.Sweep? ==> id in s.jobs) && i != id
    requires Allowed(s, at, EventFor(s, id, a))
    ensures ViewOf(Apply(s, at, EventFor(s, id, a)), i) == ViewOf(s, i)
  {
    OthersPass(s, id, a, i);
    Projection(s, at, EventFor(s, id, a), i);
  }

  lemma OnlyQueueEventsChangeQueues(s: State, at: Time, ev: Event)
    requires Allowed(s, at, ev) && !ev.EnsureQueue? && !ev.PauseQueue?
    ensures Apply(s, at, ev).queues == s.queues
  {
  }

  lemma QueueStaysOpen(s: State, id: JobId, at: Time, a: Action)
    requires OnlyJob(s, id) && Enabled(ViewOf(s, id), at, a) && !a.Pass? && Invariant(ViewOf(s, id))
    requires Allowed(s, at, EventFor(s, id, a)) && ActionOn(s, EventFor(s, id, a), id) == a
    requires a.Create? ==> a.n.queue in s.queues && !s.queues[a.n.queue]
    ensures var s' := Apply(s, at, EventFor(s, id, a));
            id in s'.jobs ==> s'.jobs[id].queue in s'.queues && !s'.queues[s'.jobs[id].queue]
  {
    OnlyQueueEventsChangeQueues(s, at, EventFor(s, id, a));
    Projection(s, at, EventFor(s, id, a), id);
    RowStep(ViewOf(s, id), at, a);
    assert Effect(ViewOf(s, id), at, a) == ViewOf(Apply(s, at, EventFor(s, id, a)), id);
  }

  lemma StaysAlone(s: State, id: JobId, at: Time, a: Action)
    requires Alone(s, id) && Enabled(ViewOf(s, id), at, a) && !a.Pass? && Invariant(ViewOf(s, id))
    requires Allowed(s, at, EventFor(s, id, a)) && ActionOn(s, EventFor(s, id, a), id) == a
    requires a.Create? ==> a.n.queue in s.queues && !s.queues[a.n.queue]
    ensures Alone(Apply(s, at, EventFor(s, id, a)), id)
  {
    var s' := Apply(s, at, EventFor(s, id, a));
    QueueStaysOpen(s, id, at, a);
    forall i | i != id ensures i !in s'.jobs && i !in s'.closing && i !in s'.deleting {
      OthersUntouched(s, id, at, a, i);
      assert ViewOf(s, i).closing == 0 && ViewOf(s, i).deleting == 0 && ViewOf(s, i).job.None?;
    }
  }

  /** `r` does to the job `id` what `h` does, and nothing to any other. */
  ghost predicate Realises(r: Run, id: JobId, h: History)
    requires Legal(id, h)
  {
    && Valid(r)
    && Alone(StateOf(r), id)
    && ViewOf(StateOf(r), id) == After(id, h)
    && Stripped(HistoryOf(r, id)) == Stripped(h)
    && (r.Next? ==> h.Then? && r.at <= h.at)
  }

  lemma Extend(r: Run, id: JobId, h: History, at: Time, ev: Event) returns (r': Run)
    requires Valid(r) && (r.Next? ==> r.at <= at) && Allowed(StateOf(r), at, ev)
    requires Legal(id, h) && ViewOf(StateOf(r), id) == After(id, h) && Stripped(HistoryOf(r, id)) == Stripped(h)
    requires Legal(id, Then(h, at, ActionOn(StateOf(r), ev, id)))
    ensures r' == Next(r, at, ev) && Valid(r')
    ensures ViewOf(StateOf(r'), id) == After(id, Then(h, at, ActionOn(StateOf(r), ev, id)))
    ensures Stripped(HistoryOf(r', id)) == Stripped(Then(h, at, ActionOn(StateOf(r), ev, id)))
  {
    r' := Next(r, at, ev);
    Projection(StateOf(r), at, ev, id);
  }

  lemma RealiseNext(r: Run, id: JobId, h: History, at: Time, a: Action) returns (r': Run)
    requires Legal(id, Then(h, at, a)) && !a.Pass?
    requires Valid(r) && (r.Next? ==> r.at <= at) && Alone(StateOf(r), id)
    requires ViewOf(StateOf(r), id) == After(id, h) && Stripped(HistoryOf(r, id)) == Stripped(h)
    requires a.Create? ==> a.n.queue in StateOf(r).queues && !StateOf(r).queues[a.n.queue]
    ensures Realises(r', id, Then(h, at, a))
  {
    var s := StateOf(r);
    InvariantHolds(id, h);
    assert id in s.jobs ==> After(id, h).minted;
    EventForIsAllowed(s, id, at, a);
    StaysAlone(s, id, at, a);
    r' := Extend(r, id, h, at, EventFor(s, id, a));
  }

  lemma RealisePass(r: Run, id: JobId, h: History, at: Time)
    requires Legal(id, Then(h, at, Pass)) && Realises(r, id, h)
    ensures Realises(r, id, Then(h, at, Pass))
  {
  }

  lemma RealiseCreate(r: Run, id: JobId, h: History, at: Time, n: NormalizedJob) returns (r': Run)
    requires Legal(id, Then(h, at, Create(n))) && Realises(r, id, h)
    ensures Realises(r', id, Then(h, at, Create(n)))
  {
    InvariantHolds(id, h);
    r' := OpenQueue(r, id, h, at, n.queue);
    r' := RealiseNext(r', id, h, at, Create(n));
  }

  /** `RunProjects` has a converse: every legal history of a job is what some run does to it. */
  lemma {:induction false} HistoriesAreRealised(id: JobId, h: History) returns (r: Run)
    requires Legal(id, h)
    ensures Realises(r, id, h)
  {
    match h
    case Empty =>
      r := Boot;
    case Then(past, at, a) =>
      r := HistoriesAreRealised(id, past);
      match a
      case Pass => RealisePass(r, id, past, at);
      case Create(n) => r := RealiseCreate(r, id, past, at, n);
      case _ => r := RealiseNext(r, id, past, at, a);
  }

  lemma OpenQueue(r: Run, id: JobId, h: History, at: Time, queue: string) returns (r': Run)
    requires Legal(id, h) && Realises(r, id, h) && (h.Then? ==> h.at <= at) && After(id, h).job.None?
    ensures Valid(r') && r'.Next? && r'.at == at
    ensures ViewOf(StateOf(r'), id) == After(id, h) && Stripped(HistoryOf(r', id)) == Stripped(h)
    ensures Alone(StateOf(r'), id) && queue in StateOf(r').queues && !StateOf(r').queues[queue]
  {
    r' := Extend(r, id, h, at, EnsureQueue(queue));
    if StateOf(r').queues[queue] {
      r' := Extend(r', id, h, at, PauseQueue(queue, false));
    }
  }

  lemma RealisedAtRest(id: JobId, h: History) returns (s: State)
    requires Legal(id, h) && After(id, h).closing == 0 && After(id, h).deleting == 0
    ensures exists r :: Valid(r) && StateOf(r) == s
    ensures ViewOf(s, id) == After(id, h) && s.closing == multiset{} && s.deleting == multiset{}
  {
    var r := HistoriesAreRealised(id, h);
    s := StateOf(r);
    assert s.closing[id] == 0 && s.deleting[id] == 0;
    assert forall i :: i !in s.closing && i !in s.deleting;
  }

  /** There are runs, with nothing half done at their end, after which a dead-lettered job has no entry, a completed job
      has no succeeded row, a completed job has two, the row of a job cancelled while processing is timed out, an entry
      has no job, and a dead-lettered job has an open row. */
  lemma MirrorsBreakInRuns(id: JobId)
    returns (lost: State, none: State, two: State, cut: State, orphan: State, open: State)
    ensures forall s | s in {lost, none, two, cut, orphan, open} ::
              (exists r :: Valid(r) && StateOf(r) == s) && s.closing == multiset{} && s.deleting == multiset{}
    ensures id in lost.jobs && lost.jobs[id].status.DeadLettered? && id !in lost.dead
    ensures id in none.jobs && none.jobs[id].status.Completed?
            && forall row | row in RowsOf(none.attempts, id) :: row.status.TimedOut?
    ensures id in two.jobs && two.jobs[id].status.Completed? && |RowsOf(two.attempts, id)| == 2
            && forall row | row in RowsOf(two.attempts, id) :: row.status.Succeeded?
    ensures id in cut.jobs && cut.jobs[id].status.Cancelled? && |RowsOf(cut.attempts, id)| == 2
            && RowsOf(cut.attempts, id)[1].status.TimedOut?
    ensures id !in orphan.jobs && id in orphan.dead
    ensures id in open.jobs && open.jobs[id].status.DeadLettered? && |RowsOf(open.attempts, id)| == 1
            && RowsOf(open.attempts, id)[0].status.Running?
  {
    var h := LateDeleteLosesEntry(id);
    lost := RealisedAtRest(id, h);
    h := LateCloseLosesSuccess(id);
    none := RealisedAtRest(id, h);
    h := LateCloseAddsSuccess(id);
    two := RealisedAtRest(id, h);
    h := LateCloseEndsCancelled(id);
    cut := RealisedAtRest(id, h);
    h := FailedDeleteOrphansEntry(id);
    orphan := RealisedAtRest(id, h);
    h := FailedCloseLeavesRowOpen(id);
    open := RealisedAtRest(id, h);
  }
}
