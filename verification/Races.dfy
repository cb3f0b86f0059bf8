/** Any number of submissions at once: each is several statements, and anything may commit in between. */
module Races {
  import opened Basics
  import opened Status
  import opened Model
  import opened Lifecycle
  import opened Invariants
  import opened Tables
  import Safety

  /** The statement a submission runs next, or its result. */
  datatype Phase =
    | Ensuring
    | Selecting
    | Inserting
    | Reselecting
    | Done(r: Result<Accepted, QueueError>)

  datatype Accepted = Accepted(id: JobId, created: bool)

  datatype Submitter = Submitter(n: NormalizedJob, phase: Phase)

  datatype System = System(tables: State, subs: seq<Submitter>)

  /** `found` is what a look-up by key returns; `newId` is the identifier the database generates, which may clash with a
      stored one but is never a purged one. */
  datatype Step =
    | Arrive(n: NormalizedJob)
    | Ensure(i: nat)
    | Select(i: nat, found: Option<JobId>)
    | TryInsert(i: nat, newId: JobId)
    | Reselect(i: nat, found: Option<JobId>)
    | Other(ev: Event)

  predicate HasKey(s: State, id: JobId, n: NormalizedJob) {
    id in s.jobs && s.jobs[id].queue == n.queue && s.jobs[id].idempotencyKey == n.idempotencyKey
  }

  predicate LooksUp(s: State, n: NormalizedJob, found: Option<JobId>) {
    if found.Some? then n.idempotencyKey.Some? && HasKey(s, found.value, n) else !KeyTaken(s, n.queue, n.idempotencyKey)
  }

  predicate InPhase(sys: System, i: nat, p: Phase) {
    i < |sys.subs| && sys.subs[i].phase == p
  }

  predicate CanStep(sys: System, at: Time, step: Step) {
    match step
    case Arrive(n) => WellFormed(n)
    case Ensure(i) => InPhase(sys, i, Ensuring)
    case Select(i, found) => InPhase(sys, i, Selecting) && LooksUp(sys.tables, sys.subs[i].n, found)
    case TryInsert(i, newId) =>
      InPhase(sys, i, Inserting) && (newId in sys.tables.minted ==> newId in sys.tables.jobs)
      && WellFormed(sys.subs[i].n)
      && sys.subs[i].n.queue in sys.tables.queues
    case Reselect(i, found) => InPhase(sys, i, Reselecting) && LooksUp(sys.tables, sys.subs[i].n, found)
    case Other(ev) => !ev.Insert? && Allowed(sys.tables, at, ev)
  }

  /** The INSERT meets a unique violation of the key index or of the primary key. */
  predicate Clashes(s: State, n: NormalizedJob, newId: JobId) {
    KeyTaken(s, n.queue, n.idempotencyKey) || newId in s.jobs
  }

  /** The event `step` commits, if any. */
  function EventOf(sys: System, step: Step): Option<Event> {
    match step
    case Ensure(i) => if i < |sys.subs| then Some(EnsureQueue(sys.subs[i].n.queue)) else None
    case TryInsert(i, newId) =>
      if i < |sys.subs| && !Clashes(sys.tables, sys.subs[i].n, newId)
      then Some(Insert(newId, sys.subs[i].n)) else None
    case Other(ev) => Some(ev)
    case _ => None
  }

  function Found(found: Option<JobId>, otherwise: Phase): Phase {
    if found.Some? then Done(Ok(Accepted(found.value, false))) else otherwise
  }

  /** The submission's next phase. */
  function PhaseAfter(sys: System, step: Step): Phase
    requires !step.Arrive? && !step.Other? && step.i < |sys.subs|
  {
    var n := sys.subs[step.i].n;
    match step
    case Ensure(_) => if n.idempotencyKey.Some? then Selecting else Inserting
    case Select(_, found) => Found(found, Inserting)
    case TryInsert(_, newId) =>
      if !Clashes(sys.tables, n, newId) then Done(Ok(Accepted(newId, true)))
      else if n.idempotencyKey.Some? then Reselecting
      else Done(Err(Storage("duplicate key")))
    case Reselect(_, found) => Found(found, Done(Err(Storage("row not found"))))
  }

  function SubsAfter(sys: System, step: Step): seq<Submitter>
    requires !step.Arrive? && !step.Other? ==> step.i < |sys.subs|
  {
    match step
    case Arrive(n) => sys.subs + [Submitter(n, Ensuring)]
    case Other(_) => sys.subs
    case _ => sys.subs[step.i := sys.subs[step.i].(phase := PhaseAfter(sys, step))]
  }

  function DoStep(sys: System, at: Time, step: Step): System
    requires CanStep(sys, at, step)
  {
    var tables := match EventOf(sys, step)
      case Some(ev) => Apply(sys.tables, at, ev)
      case None => sys.tables;
    System(tables, SubsAfter(sys, step))
  }

  datatype Race = Start | And(past: Race, at: Time, step: Step)

  predicate Valid(r: Race)
    decreases r, 0
  {
    match r
    case Start => true
    case And(past, at, step) => Valid(past) && (past.And? ==> past.at <= at) && CanStep(SystemOf(past), at, step)
  }

  function SystemOf(r: Race): System
    requires Valid(r)
    decreases r, 1
  {
    match r
    case Start => System(EMPTY, [])
    case And(past, at, step) => DoStep(SystemOf(past), at, step)
  }

  predicate PurgeFree(r: Race) {
    r.And? ==> PurgeFree(r.past) && !(r.step.Other? && r.step.ev.PurgeFinished?)
  }

  // ---- the tables underneath -----------------------------------------------

  /** The statements of the race that changed tables. */
  function Statements(r: Race): Safety.Run
    requires Valid(r)
  {
    match r
    case Start => Safety.Boot
    case And(past, at, step) =>
      match EventOf(SystemOf(past), step)
      case Some(ev) => Safety.Next(Statements(past), at, ev)
      case None => Statements(past)
  }

  /** A race is a run of the store, so every theorem about runs holds in it. */
  lemma {:induction false} RaceIsRun(r: Race)
    requires Valid(r)
    ensures Safety.Valid(Statements(r)) && Safety.StateOf(Statements(r)) == SystemOf(r).tables
    ensures Statements(r).Next? ==> r.And? && Statements(r).at <= r.at
  {
    if r.And? {
      RaceIsRun(r.past);
    }
  }

  // ---- at most one job per key, one creation, one id -----------------------

  predicate IsDone(sys: System, i: int) {
    0 <= i < |sys.subs| && sys.subs[i].phase.Done?
  }

  predicate IsCreator(sys: System, i: int) {
    IsDone(sys, i) && sys.subs[i].phase.r.Ok? && sys.subs[i].phase.r.value.created
  }

  predicate IsAccepted(sys: System, i: int) {
    IsDone(sys, i) && sys.subs[i].phase.r.Ok?
  }

  /** Every keyed result, and every creation, names a job that carries the key asked for. */
  ghost predicate ResultsHold(sys: System) {
    && (forall i | IsAccepted(sys, i) && sys.subs[i].n.idempotencyKey.Some? ::
          HasKey(sys.tables, sys.subs[i].phase.r.value.id, sys.subs[i].n))
    && (forall i | IsCreator(sys, i) :: HasKey(sys.tables, sys.subs[i].phase.r.value.id, sys.subs[i].n))
  }

  /** Every creation made a job of its own. */
  ghost predicate CreatorsDistinct(sys: System) {
    forall i, k | IsCreator(sys, i) && IsCreator(sys, k) && i != k ::
      sys.subs[i].phase.r.value.id != sys.subs[k].phase.r.value.id
  }

  predicate Created(sys: System, i: int, id: JobId) {
    IsCreator(sys, i) && sys.subs[i].phase.r.value.id == id
  }

  /** Every keyed job has a creator. */
  ghost predicate CreatorsKnown(sys: System) {
    forall id | id in sys.tables.jobs && sys.tables.jobs[id].idempotencyKey.Some? :: exists i :: Created(sys, i, id)
  }

  ghost predicate Claims(sys: System) {
    ResultsHold(sys) && CreatorsDistinct(sys) && CreatorsKnown(sys)
  }

  /** `s'` keeps the rows of `s`, with their keys, and adds `added`. */
  ghost predicate KeepsRows(s: State, s': State, added: set<JobId>) {
    && s.minted <= s'.minted
    && s'.jobs.Keys == s.jobs.Keys + added
    && forall id | id in s.jobs :: s'.jobs[id].queue == s.jobs[id].queue
                                   && s'.jobs[id].idempotencyKey == s.jobs[id].idempotencyKey
  }

  /** Without a purge, rows and their keys stay. */
  lemma KeysStay(r: Safety.Run, at: Time, ev: Event)
    requires Safety.Valid(r) && Allowed(Safety.StateOf(r), at, ev) && !ev.PurgeFinished?
    ensures KeepsRows(Safety.StateOf(r), Apply(Safety.StateOf(r), at, ev), if ev.Insert? then {ev.id} else {})
  {
    var s, s' := Safety.StateOf(r), Apply(Safety.StateOf(r), at, ev);
    Safety.JobKeys(s, at, ev);
    Safety.JobsInvariantHolds(r);
    forall id | id in s.jobs ensures SameIdentity(s.jobs[id], s'.jobs[id]) {
      Safety.KeysFixed(s, at, ev, id);
    }
  }

  lemma InsertedRow(s: State, at: Time, id: JobId, n: NormalizedJob)
    requires Allowed(s, at, Insert(id, n))
    ensures HasKey(Apply(s, at, Insert(id, n)), id, n)
  {
  }

  lemma KeyStaysTaken(s: State, s': State, added: set<JobId>, queue: string, key: Option<string>)
    requires KeepsRows(s, s', added) && KeyTaken(s, queue, key)
    ensures KeyTaken(s', queue, key)
  {
    var id :| id in s.jobs && s.jobs[id].queue == queue && s.jobs[id].idempotencyKey == key;
    assert id in s'.jobs;
  }

  /** What a step does, as far as claims are concerned. */
  ghost predicate Moves(sys: System, step: Step, sys': System) {
    var ev := EventOf(sys, step);
    && KeepsRows(sys.tables, sys'.tables, if ev.Some? && ev.value.Insert? then {ev.value.id} else {})
    && (ev.Some? && ev.value.Insert? ==>
          ev.value.id !in sys.tables.jobs && HasKey(sys'.tables, ev.value.id, ev.value.n))
    && (!step.Arrive? && !step.Other? ==> step.i < |sys.subs|)
    && sys'.subs == SubsAfter(sys, step)
  }

  lemma ResultsStep(sys: System, at: Time, step: Step, sys': System)
    requires CanStep(sys, at, step) && Claims(sys) && Moves(sys, step, sys')
    ensures ResultsHold(sys')
  {
  }

  lemma DistinctStep(sys: System, at: Time, step: Step, sys': System)
    requires CanStep(sys, at, step) && Claims(sys) && Moves(sys, step, sys')
    ensures CreatorsDistinct(sys')
  {
  }

  lemma CreatorsStep(sys: System, at: Time, step: Step, sys': System)
    requires CanStep(sys, at, step) && Claims(sys) && Moves(sys, step, sys')
    ensures CreatorsKnown(sys')
  {
    forall id | id in sys'.tables.jobs && sys'.tables.jobs[id].idempotencyKey.Some?
      ensures exists i :: Created(sys', i, id)
    {
      if id in sys.tables.jobs {
        var i :| Created(sys, i, id);
        assert Created(sys', i, id);
      } else {
        assert Created(sys', step.i, id);
      }
    }
  }

  lemma StepMoves(sys: System, at: Time, step: Step, run: Safety.Run)
    requires Safety.Valid(run) && Safety.StateOf(run) == sys.tables && CanStep(sys, at, step)
    requires !(step.Other? && step.ev.PurgeFinished?)
    ensures Moves(sys, step, DoStep(sys, at, step))
  {
    var ev := EventOf(sys, step);
    if ev.Some? {
      KeysStay(run, at, ev.value);
      if ev.value.Insert? {
        Safety.JobsInvariantHolds(run);
        assert Invariant(ViewOf(sys.tables, ev.value.id));
        InsertedRow(sys.tables, at, ev.value.id, ev.value.n);
      }
    }
  }

  lemma {:induction false} ClaimsHold(r: Race)
    requires Valid(r) && PurgeFree(r)
    ensures Claims(SystemOf(r))
  {
    if r.And? {
      ClaimsHold(r.past);
      RaceIsRun(r.past);
      StepMoves(SystemOf(r.past), r.at, r.step, Statements(r.past));
      var sys, sys' := SystemOf(r.past), SystemOf(r);
      ResultsStep(sys, r.at, r.step, sys');
      DistinctStep(sys, r.at, r.step, sys');
      CreatorsStep(sys, r.at, r.step, sys');
    }
  }

  predicate SameRequestKey(a: NormalizedJob, b: NormalizedJob) {
    a.queue == b.queue && a.idempotencyKey.Some? && a.idempotencyKey == b.idempotencyKey
  }

  /** `w` reported that it created the job asked for by `n`. */
  predicate IsWinner(sys: System, w: int, n: NormalizedJob) {
    IsCreator(sys, w) && SameRequestKey(sys.subs[w].n, n)
  }

  // ---- failures ------------------------------------------------------------

  predicate IsFailed(sys: System, i: int) {
    IsDone(sys, i) && sys.subs[i].phase.r.Err?
  }

  predicate IsFree(sys: System, i: nat)
    requires i < |sys.subs|
  {
    !KeyTaken(sys.tables, sys.subs[i].n.queue, sys.subs[i].n.idempotencyKey)
  }

  /** The second look-up of submission `i` ran while nobody held its key. */
  ghost predicate LookedUpInVain(r: Race, i: nat)
    requires Valid(r)
  {
    r.And? &&
    (LookedUpInVain(r.past, i) || (r.step.Reselect? && r.step.i == i && IsFree(SystemOf(r.past), i)))
  }

  /** The identifier generated for submission `i` was that of a stored job. */
  ghost predicate IdClashed(r: Race, i: nat)
    requires Valid(r)
  {
    r.And? &&
    (IdClashed(r.past, i)
     || (r.step.TryInsert? && r.step.i == i && r.step.newId in SystemOf(r.past).tables.jobs))
  }

  lemma FailedStep(sys: System, at: Time, step: Step, i: nat)
    requires CanStep(sys, at, step) && i < |sys.subs|
    ensures SubsAfter(sys, step) == DoStep(sys, at, step).subs
    ensures IsFailed(DoStep(sys, at, step), i) <==>
              || IsFailed(sys, i)
              || (step.Reselect? && step.i == i && IsFree(sys, i))
              || (step.TryInsert? && step.i == i && step.newId in sys.tables.jobs && sys.subs[i].n.idempotencyKey.None?)
  {
    var subs := SubsAfter(sys, step);
    if step.Arrive? || step.Other? || step.i != i {
      assert subs[i] == sys.subs[i];
    }
  }

  lemma RequestFixed(sys: System, at: Time, step: Step, i: nat)
    requires CanStep(sys, at, step) && i < |sys.subs|
    ensures i < |DoStep(sys, at, step).subs| && DoStep(sys, at, step).subs[i].n == sys.subs[i].n
  {
  }

  /** A submission without a key has no second look-up. */
  predicate KeyedIfReselecting(sys: System) {
    forall i | 0 <= i < |sys.subs| && sys.subs[i].phase.Reselecting? :: sys.subs[i].n.idempotencyKey.Some?
  }

  lemma {:induction false} OnlyKeyedReselect(r: Race)
    requires Valid(r)
    ensures KeyedIfReselecting(SystemOf(r))
  {
    if r.And? {
      OnlyKeyedReselect(r.past);
      ReselectingStep(SystemOf(r.past), r.at, r.step);
    }
  }

  lemma ReselectingStep(sys: System, at: Time, step: Step)
    requires CanStep(sys, at, step) && KeyedIfReselecting(sys)
    ensures KeyedIfReselecting(DoStep(sys, at, step))
  {
  }

  lemma NothingYet(r: Race, i: nat)
    requires Valid(r) && i >= |SystemOf(r).subs|
    ensures !LookedUpInVain(r, i) && !IdClashed(r, i)
  {
    if r.And? {
      NothingYet(r.past, i);
    }
  }

  lemma {:induction false} FailsExactly(r: Race, i: nat)
    requires Valid(r) && i < |SystemOf(r).subs|
    ensures IsFailed(SystemOf(r), i) <==>
              if SystemOf(r).subs[i].n.idempotencyKey.Some? then LookedUpInVain(r, i) else IdClashed(r, i)
  {
    var sys := SystemOf(r.past);
    if i < |sys.subs| {
      FailsExactly(r.past, i);
      OnlyKeyedReselect(r.past);
      FailedStep(sys, r.at, r.step, i);
      RequestFixed(sys, r.at, r.step, i);
    } else {
      NothingYet(r.past, i);
    }
  }

  /** The purge with this cutoff removes a job with the key of submission `i`. */
  ghost predicate PurgesKey(sys: System, i: nat, cutoff: Time) {
    i < |sys.subs| && exists id | id in Purgeable(sys.tables, cutoff) :: HasKey(sys.tables, id, sys.subs[i].n)
  }

  /** Since submission `i` tried to insert, a purge has removed a job with its key. */
  ghost predicate PurgedSince(r: Race, i: nat)
    requires Valid(r)
  {
    r.And? && !(r.step.TryInsert? && r.step.i == i) && (
      || PurgedSince(r.past, i)
      || (r.step.Other? && r.step.ev.PurgeFinished? && PurgesKey(SystemOf(r.past), i, r.step.ev.cutoff)))
  }

  lemma PurgeFreesKey(sys: System, at: Time, cutoff: Time, i: nat)
    requires i < |sys.subs| && !IsFree(sys, i)
    ensures PurgesKey(sys, i, cutoff) || !IsFree(DoStep(sys, at, Other(PurgeFinished(cutoff))), i)
  {
    var n := sys.subs[i].n;
    var id :| id in sys.tables.jobs && sys.tables.jobs[id].queue == n.queue
              && sys.tables.jobs[id].idempotencyKey == n.idempotencyKey;
    if id in Purgeable(sys.tables, cutoff) {
      assert HasKey(sys.tables, id, n);
    } else {
      assert id in Apply(sys.tables, at, PurgeFinished(cutoff)).jobs;
    }
  }

  lemma KeyKeptOrPurged(r: Race, i: nat)
    requires Valid(r) && r.And? && i < |SystemOf(r.past).subs| && !IsFree(SystemOf(r.past), i)
    requires SystemOf(r.past).subs[i].phase.Reselecting? && SystemOf(r).subs[i].phase.Reselecting?
    ensures !IsFree(SystemOf(r), i) || PurgedSince(r, i)
  {
    var sys := SystemOf(r.past);
    if r.step.Other? && r.step.ev.PurgeFinished? {
      PurgeFreesKey(sys, r.at, r.step.ev.cutoff, i);
    } else {
      RaceIsRun(r.past);
      StepMoves(sys, r.at, r.step, Statements(r.past));
      var ev := EventOf(sys, r.step);
      var added := if ev.Some? && ev.value.Insert? then {ev.value.id} else {};
      KeyStaysTaken(sys.tables, SystemOf(r).tables, added, sys.subs[i].n.queue, sys.subs[i].n.idempotencyKey);
    }
  }

  /** The second look-up, if any, is the end of a submission. */
  lemma {:induction false} VainIsOver(r: Race, i: nat)
    requires Valid(r) && i < |SystemOf(r).subs| && LookedUpInVain(r, i)
    ensures SystemOf(r).subs[i].phase.Done?
  {
    if i < |SystemOf(r.past).subs| {
      if LookedUpInVain(r.past, i) {
        VainIsOver(r.past, i);
      }
    } else {
      NothingYet(r.past, i);
    }
  }

  lemma LostByKeyOrId(r: Race, i: nat)
    requires Valid(r) && r.And? && i < |SystemOf(r.past).subs|
    requires !SystemOf(r.past).subs[i].phase.Reselecting? && SystemOf(r).subs[i].phase.Reselecting?
    ensures !IsFree(SystemOf(r), i) || IdClashed(r, i)
  {
  }

  /** A submission that lost the race finds the winner, or the winner has been purged meanwhile, or it has lost by its
      identifier. */
  lemma {:induction false} LoserFindsOrPurged(r: Race, i: nat)
    requires Valid(r) && i < |SystemOf(r).subs|
    ensures SystemOf(r).subs[i].phase.Reselecting? ==> !IsFree(SystemOf(r), i) || PurgedSince(r, i) || IdClashed(r, i)
    ensures LookedUpInVain(r, i) ==> PurgedSince(r, i) || IdClashed(r, i)
  {
    var sys := SystemOf(r.past);
    if i < |sys.subs| {
      LoserFindsOrPurged(r.past, i);
      if LookedUpInVain(r.past, i) {
        VainIsOver(r.past, i);
      }
      if SystemOf(r).subs[i].phase.Reselecting? {
        if !sys.subs[i].phase.Reselecting? {
          LostByKeyOrId(r, i);
        } else if !IsFree(sys, i) {
          KeyKeptOrPurged(r, i);
        }
      }
    } else {
      NothingYet(r.past, i);
    }
  }

  /** In every race, purges and clashing identifiers included: a submission with a key fails exactly if its second
      look-up runs while its key is free, and one without a key exactly if its identifier clashes. The first takes a
      purge, after it tried to insert, of a job with that key, or again a clash. */
  lemma FailureNeedsPurge(r: Race, i: nat)
    requires Valid(r) && i < |SystemOf(r).subs|
    ensures IsFailed(SystemOf(r), i) <==>
              if SystemOf(r).subs[i].n.idempotencyKey.Some? then LookedUpInVain(r, i) else IdClashed(r, i)
    ensures IsFailed(SystemOf(r), i) ==> PurgedSince(r, i) || IdClashed(r, i)
  {
    FailsExactly(r, i);
    LoserFindsOrPurged(r, i);
  }

  lemma {:induction false} NeverPurged(r: Race, i: nat)
    requires Valid(r) && PurgeFree(r)
    ensures !PurgedSince(r, i)
  {
    if r.And? {
      NeverPurged(r.past, i);
    }
  }

  /** However submissions with one key interleave, as long as nothing is purged: none of them fails but by a clash of its
      identifier; all others return the same job, exactly one reports that it created the job, and the table holds one
      job with that key. */
  lemma IdempotentSubmission(r: Race, i: nat)
    requires Valid(r) && PurgeFree(r)
    requires IsDone(SystemOf(r), i) && SystemOf(r).subs[i].n.idempotencyKey.Some?
    ensures SystemOf(r).subs[i].phase.r.Err? ==> IdClashed(r, i)
    ensures SystemOf(r).subs[i].phase.r.Ok? ==>
              var sys := SystemOf(r);
              var n, id := sys.subs[i].n, sys.subs[i].phase.r.value.id;
              && HasKey(sys.tables, id, n)
              && (forall o | o in sys.tables.jobs && HasKey(sys.tables, o, n) :: o == id)
              && (forall k | IsAccepted(sys, k) && SameRequestKey(sys.subs[k].n, n) ::
                    sys.subs[k].phase.r.value.id == id)
              && exists w :: IsWinner(sys, w, n)
    ensures forall w, x | IsWinner(SystemOf(r), w, SystemOf(r).subs[i].n)
                          && IsWinner(SystemOf(r), x, SystemOf(r).subs[i].n) :: w == x
  {
    FailureNeedsPurge(r, i);
    NeverPurged(r, i);
    ClaimsHold(r);
    RaceIsRun(r);
    Safety.TablesConsistent(Statements(r));
    var sys := SystemOf(r);
    if IsAccepted(sys, i) {
      var id := sys.subs[i].phase.r.value.id;
      var w :| Created(sys, w, id);
      assert IsWinner(sys, w, sys.subs[i].n);
    }
  }

  lemma Play(r: Race, sys: System, at: Time, step: Step) returns (r': Race, sys': System)
    requires Valid(r) && SystemOf(r) == sys && (r.And? ==> r.at <= at) && CanStep(sys, at, step)
    ensures r' == And(r, at, step) && sys' == DoStep(sys, at, step) && Valid(r') && SystemOf(r') == sys'
  {
    r' := And(r, at, step);
    sys' := DoStep(sys, at, step);
  }

  function Keyed(key: string): NormalizedJob {
    NormalizedJob("q", "t", "{}", 0, Some(key), 1, 0, Queued, 1, 1, 1, true)
  }

  /** Two submissions with one key have both found nothing, and the first has created job 0. */
  lemma BothMissed() returns (r: Race, sys: System)
    ensures Valid(r) && SystemOf(r) == sys && r.And? && r.at == 0
    ensures |sys.subs| == 2 && sys.subs[1] == Submitter(Keyed("k"), Inserting)
    ensures sys.tables.jobs == map[0 := NewRow(Keyed("k"), 0)] && sys.tables.minted == {0}
    ensures "q" in sys.tables.queues
  {
    sys := SystemOf(Start);
    r, sys := Play(Start, sys, 0, Arrive(Keyed("k")));
    r, sys := Play(r, sys, 0, Arrive(Keyed("k")));
    r, sys := Play(r, sys, 0, Ensure(0));
    r, sys := Play(r, sys, 0, Ensure(1));
    r, sys := Play(r, sys, 0, Select(0, None));
    r, sys := Play(r, sys, 0, Select(1, None));
    r, sys := Play(r, sys, 0, TryInsert(0, 0));
  }

  /** The second cannot insert, and the job is cancelled. */
  lemma WinnerCancelled() returns (r: Race, sys: System)
    ensures Valid(r) && SystemOf(r) == sys && r.And? && r.at == 0
    ensures |sys.subs| == 2 && sys.subs[1] == Submitter(Keyed("k"), Reselecting)
    ensures sys.tables.jobs == map[0 := CancelledRow(NewRow(Keyed("k"), 0), 0)]
  {
    r, sys := BothMissed();
    assert sys.tables.jobs[0].queue == "q" && sys.tables.jobs[0].idempotencyKey == Some("k");
    r, sys := Play(r, sys, 0, TryInsert(1, 1));
    r, sys := Play(r, sys, 0, Other(CancelJob(0)));
  }

  /** The job is purged, and the second submission fails. */
  lemma PurgedWinnerFailsLoser() returns (r: Race)
    ensures Valid(r) && IsFailed(SystemOf(r), 1)
  {
    var sys: System;
    r, sys := WinnerCancelled();
    r, sys := Play(r, sys, 1, Other(PurgeFinished(1)));
    assert sys.tables.jobs == map[];
    r, sys := Play(r, sys, 1, Reselect(1, None));
  }

  lemma OneStored() returns (r: Race, sys: System)
    ensures Valid(r) && PurgeFree(r) && SystemOf(r) == sys && r.And? && r.at == 0
    ensures |sys.subs| == 1 && sys.tables.jobs == map[0 := NewRow(Keyed("k"), 0)] && "q" in sys.tables.queues
  {
    sys := SystemOf(Start);
    r, sys := Play(Start, sys, 0, Arrive(Keyed("k")));
    r, sys := Play(r, sys, 0, Ensure(0));
    r, sys := Play(r, sys, 0, Select(0, None));
    r, sys := Play(r, sys, 0, TryInsert(0, 0));
  }

  /** Another job is stored as number 0, and a submission with a free key is about to insert. */
  lemma AboutToClash() returns (r: Race, sys: System)
    ensures Valid(r) && PurgeFree(r) && SystemOf(r) == sys && r.And? && r.at == 0
    ensures |sys.subs| == 2 && sys.subs[1] == Submitter(Keyed("l"), Inserting)
    ensures sys.tables.jobs == map[0 := NewRow(Keyed("k"), 0)] && "q" in sys.tables.queues
  {
    r, sys := OneStored();
    r, sys := Play(r, sys, 0, Arrive(Keyed("l")));
    r, sys := Play(r, sys, 0, Ensure(1));
    assert sys.tables.jobs[0].idempotencyKey == Some("k");
    r, sys := Play(r, sys, 0, Select(1, None));
  }

  /** It is given number 0, too, and fails though nothing was purged. */
  lemma ClashingIdFails() returns (r: Race)
    ensures Valid(r) && PurgeFree(r) && IsFailed(SystemOf(r), 1)
  {
    var sys: System;
    r, sys := AboutToClash();
    assert sys.tables.jobs[0].idempotencyKey == Some("k");
    r, sys := Play(r, sys, 0, TryInsert(1, 0));
    r, sys := Play(r, sys, 0, Reselect(1, None));
  }
}
