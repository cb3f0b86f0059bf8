/** The worker: its run loop with a semaphore and a set of tasks, and the execution of one leased job. */
module Worker {
  import opened Basics
  import opened Status
  import opened Model
  import opened Lifecycle
  import opened Tables
  import opened Store
  import opened Service
  import Execution

  // ---- the run loop as an automaton ----------------------------------------

  /** Where the loop waits: for a permit, for the answer of a lease attempt, for the next poll, for its tasks. */
  datatype Place = Acquiring | Asking | Pausing | Draining | Stopped

  /** `free`: permits left in the semaphore. `running`, `ended`: tasks whose body is still running, or has ended and is
      not yet joined. `spawned`: how many tasks there have been; tasks are numbered in order. */
  datatype Loop = Loop(
    place: Place,
    free: nat,
    running: set<nat>,
    ended: set<nat>,
    spawned: nat,
    abandoned: set<nat>,
    signalled: bool)

  /** What the loop can be woken by. */
  datatype Input =
    | Signal
    | TaskEnds(t: nat)
    | Permit
    | Shutdown
    | LeaseHit
    | LeaseMiss
    | LeaseError
    | Slept
    | GraceOver

  function Started(concurrency: nat): Loop {
    Loop(Acquiring, concurrency, {}, {}, 0, {}, false)
  }

  predicate Possible(l: Loop, i: Input) {
    match i
    case Signal => !l.place.Stopped?
    case TaskEnds(t) => t in l.running
    case Permit => l.place.Acquiring? && l.free > 0
    case Shutdown => l.signalled && (l.place.Acquiring? || l.place.Pausing?)
    case LeaseHit => l.place.Asking?
    case LeaseMiss => l.place.Asking?
    case LeaseError => l.place.Asking?
    case Slept => l.place.Pausing?
    case GraceOver => l.place.Draining?
  }

  /** The drain ends when no task is left to join. */
  function Drained(l: Loop): Loop {
    l.(place := if l.running == {} then Stopped else Draining, ended := {})
  }

  function Step(l: Loop, i: Input): Loop
    requires Possible(l, i)
  {
    match i
    case Signal => l.(signalled := true)
    case TaskEnds(t) =>
      var e := l.(free := l.free + 1, running := l.running - {t}, ended := l.ended + {t});
      if l.place.Draining? then Drained(e) else e
    case Permit => l.(place := Asking, free := l.free - 1)
    case Shutdown => Drained(l)
    case LeaseHit =>
      l.(place := Acquiring, running := l.running + {l.spawned}, spawned := l.spawned + 1, ended := {})
    case LeaseMiss => l.(place := Pausing, free := l.free + 1)
    case LeaseError => l.(place := Pausing, free := l.free + 1)
    case Slept => l.(place := Acquiring, ended := {})
    case GraceOver =>
      l.(place := Stopped, free := l.free + |l.running|, running := {}, abandoned := l.running)
  }

  /** The inputs can come in this order. */
  predicate Feasible(l: Loop, script: seq<Input>)
    decreases script
  {
    script == [] || (Possible(l, script[0]) && Feasible(Step(l, script[0]), script[1..]))
  }

  function Played(l: Loop, script: seq<Input>): Loop
    requires Feasible(l, script)
    decreases script
  {
    if script == [] then l else Played(Step(l, script[0]), script[1..])
  }

  // ---- permits -------------------------------------------------------------

  /** The loop itself holds a permit exactly while it asks for a job. */
  function HeldByLoop(l: Loop): nat {
    if l.place.Asking? then 1 else 0
  }

  predicate Balanced(concurrency: nat, l: Loop) {
    l.free + HeldByLoop(l) + |l.running| == concurrency
  }

  /** Tasks that are running, unjoined or abandoned are distinct tasks spawned before. */
  ghost predicate Apart(l: Loop) {
    && (forall t | t in l.running || t in l.ended || t in l.abandoned :: t < l.spawned)
    && l.running !! l.ended !! l.abandoned
  }

  predicate PlaceFits(l: Loop) {
    && (l.place.Draining? ==> l.running != {} && l.ended == {})
    && (l.place.Stopped? ==> l.running == {} && l.ended == {})
    && (l.abandoned != {} ==> l.place.Stopped?)
    && (l.place.Draining? || l.place.Stopped? ==> l.signalled)
  }

  lemma BalancedStep(concurrency: nat, l: Loop, i: Input)
    requires Balanced(concurrency, l) && Possible(l, i) && Apart(l)
    ensures Balanced(concurrency, Step(l, i))
  {
    match i
    case TaskEnds(t) =>
      assert |l.running - {t}| == |l.running| - 1;
    case LeaseHit =>
      assert |l.running + {l.spawned}| == |l.running| + 1;
    case _ =>
  }

  lemma ApartStep(l: Loop, i: Input)
    requires Apart(l) && PlaceFits(l) && Possible(l, i)
    ensures Apart(Step(l, i)) && PlaceFits(Step(l, i))
  {
  }

  ghost predicate Conserved(concurrency: nat, l: Loop) {
    Balanced(concurrency, l) && Apart(l) && PlaceFits(l)
  }

  lemma {:induction false} ConservedAfter(concurrency: nat, l: Loop, script: seq<Input>)
    requires Feasible(l, script) && Conserved(concurrency, l)
    ensures Conserved(concurrency, Played(l, script))
    decreases script
  {
    if script != [] {
      BalancedStep(concurrency, l, script[0]);
      ApartStep(l, script[0]);
      ConservedAfter(concurrency, Step(l, script[0]), script[1..]);
    }
  }

  /** No permit is ever lost or made up: at every point of every run, through hits, misses, errors, ends of tasks, drain
      and abort, those free, the one in the loop's hand and those of running tasks are all there are. */
  lemma PermitsConserved(concurrency: nat, script: seq<Input>)
    requires Feasible(Started(concurrency), script)
    ensures Conserved(concurrency, Played(Started(concurrency), script))
  {
    ConservedAfter(concurrency, Started(concurrency), script);
  }

  /** Running handlers never exceed the configured concurrency; a worker that has stopped has all its permits back. */
  lemma ConcurrencyBounded(concurrency: nat, script: seq<Input>)
    requires Feasible(Started(concurrency), script)
    ensures var l := Played(Started(concurrency), script);
            && |l.running| <= concurrency
            && (l.place.Stopped? ==> l.running == {} && l.free == concurrency)
  {
    PermitsConserved(concurrency, script);
  }

  /** A loop that has not stopped always has something to wait for besides the shutdown signal. */
  lemma NeverStuck(concurrency: nat, script: seq<Input>)
    requires concurrency > 0 && Feasible(Started(concurrency), script)
    requires !Played(Started(concurrency), script).place.Stopped?
    ensures exists i :: i != Signal && Possible(Played(Started(concurrency), script), i)
  {
    PermitsConserved(concurrency, script);
    var l := Played(Started(concurrency), script);
    var i :=
      match l.place
      case Acquiring => if l.free > 0 then Permit else var t :| t in l.running; TaskEnds(t)
      case Asking => LeaseMiss
      case Pausing => Slept
      case _ => GraceOver;
    assert Possible(l, i);
  }

  function Hits(script: seq<Input>): nat {
    if script == [] then 0 else (if script[0].LeaseHit? then 1 else 0) + Hits(script[1..])
  }

  /** `over`: the end of task `t` has been seen. */
  predicate Accounted(l: Loop, t: nat, over: bool) {
    if t < l.spawned then !over <==> t in l.running || t in l.abandoned else !over
  }

  lemma AccountedStep(l: Loop, i: Input, t: nat, over: bool)
    requires Apart(l) && PlaceFits(l) && Possible(l, i) && Accounted(l, t, over)
    ensures Accounted(Step(l, i), t, over || i == TaskEnds(t))
  {
  }

  lemma {:induction false} AccountedAfter(l: Loop, script: seq<Input>, t: nat, over: bool)
    requires Feasible(l, script) && Apart(l) && PlaceFits(l) && Accounted(l, t, over)
    ensures Accounted(Played(l, script), t, over || TaskEnds(t) in script)
    decreases script
  {
    if script != [] {
      ApartStep(l, script[0]);
      AccountedStep(l, script[0], t, over);
      AccountedAfter(Step(l, script[0]), script[1..], t, over || script[0] == TaskEnds(t));
      assert script == [script[0]] + script[1..];
    }
  }

  lemma {:induction false} HitsSpawn(l: Loop, script: seq<Input>)
    requires Feasible(l, script)
    ensures Played(l, script).spawned == l.spawned + Hits(script)
    decreases script
  {
    if script != [] {
      HitsSpawn(Step(l, script[0]), script[1..]);
    }
  }

  /** Every leased job got one task, and exactly the tasks that have not ended are still running or were abandoned. */
  lemma TaskFate(concurrency: nat, script: seq<Input>, t: nat)
    requires Feasible(Started(concurrency), script)
    ensures var l := Played(Started(concurrency), script);
            && l.spawned == Hits(script)
            && (t < l.spawned ==> (TaskEnds(t) !in script <==> t in l.running || t in l.abandoned))
            && (t >= l.spawned ==> TaskEnds(t) !in script)
  {
    AccountedAfter(Started(concurrency), script, t, false);
    HitsSpawn(Started(concurrency), script);
  }

  lemma {:induction false} NoneAbandoned(l: Loop, script: seq<Input>)
    requires Feasible(l, script) && GraceOver !in script
    ensures Played(l, script).abandoned == l.abandoned
    decreases script
  {
    if script != [] {
      assert script[0] in script;
      NoneAbandoned(Step(l, script[0]), script[1..]);
    }
  }

  /** A worker that stops before its grace period has run out has seen every task end. */
  lemma GracefulDrain(concurrency: nat, script: seq<Input>, t: nat)
    requires Feasible(Started(concurrency), script) && GraceOver !in script
    requires Played(Started(concurrency), script).place.Stopped? && t < Hits(script)
    ensures TaskEnds(t) in script
  {
    NoneAbandoned(Started(concurrency), script);
    TaskFate(concurrency, script, t);
    PermitsConserved(concurrency, script);
  }

  /** Shutting down does not rule out one more lease: the permit may win against a signal already given. */
  lemma LeaseAfterSignal() returns (script: seq<Input>)
    ensures script == [Signal, Permit, LeaseHit]
    ensures Feasible(Started(1), script) && Played(Started(1), script).spawned == 1
  {
    script := [Signal, Permit, LeaseHit];
    assert script[1..] == [Permit, LeaseHit];
    assert script[1..][1..] == [LeaseHit];
    assert script[1..][1..][1..] == [];
  }

  // ---- the run loop --------------------------------------------------------

  lemma Woken(l: Loop, script: seq<Input>, k: nat)
    requires k < |script| && Feasible(l, script[k..])
    ensures Possible(l, script[k]) && Feasible(Step(l, script[k]), script[k + 1..])
    ensures Played(l, script[k..]) == Played(Step(l, script[k]), script[k + 1..])
  {
    assert script[k..][1..] == script[k + 1..];
  }

  class WorkerRuntime {
    const concurrency: nat
    var free: nat
    var running: set<nat>
    var ended: set<nat>
    var spawned: nat
    var abandoned: set<nat>
    var signalled: bool

    constructor (concurrency: nat)
      ensures this.concurrency == concurrency && At(Acquiring) == Started(concurrency)
    {
      this.concurrency := concurrency;
      free, running, ended, spawned, abandoned, signalled := concurrency, {}, {}, 0, {}, false;
    }

    ghost function At(place: Place): Loop
      reads this
    {
      Loop(place, free, running, ended, spawned, abandoned, signalled)
    }

    /** From `place` on, the inputs from `k` lead where the whole script leads. */
    ghost predicate Reached(place: Place, script: seq<Input>, k: nat, goal: Loop)
      reads this
    {
      k <= |script| && Feasible(At(place), script[k..]) && Played(At(place), script[k..]) == goal
    }

    /** Lets tasks end, and the signal come, until the next input meant for the loop. */
    method Await(script: seq<Input>, i: nat, ghost place: Place, ghost goal: Loop) returns (k: nat)
      requires Reached(place, script, i, goal) && !place.Draining?
      modifies this
      ensures i <= k && Reached(place, script, k, goal)
      ensures k == |script| || (!script[k].Signal? && !script[k].TaskEnds? && Possible(At(place), script[k]))
    {
      k := i;
      while k < |script| && (script[k].Signal? || script[k].TaskEnds?)
        invariant i <= k && Reached(place, script, k, goal)
      {
        assert script[k..][1..] == script[k + 1..];
        match script[k] {
          case Signal => signalled := true;
          case TaskEnds(t) =>
            running := running - {t};
            ended := ended + {t};
            free := free + 1;
        }
        k := k + 1;
      }
    }

    /** The loop has just been left, with the inputs from `k` to come. */
    ghost predicate Left(script: seq<Input>, k: nat, goal: Loop)
      reads this
    {
      var l := Drained(At(Draining));
      k <= |script| && Feasible(l, script[k..]) && Played(l, script[k..]) == goal
    }

    /** With a permit in hand: one lease attempt, and the pause after a miss or an error. `place` is where the loop goes
        on, or where it is when the script ends. */
    method Ask(script: seq<Input>, i: nat, ghost goal: Loop) returns (k: nat, place: Place)
      requires Reached(Asking, script, i, goal)
      modifies this
      ensures i <= k
      ensures match place
              case Acquiring => Reached(Acquiring, script, k, goal)
              case Draining => Left(script, k, goal)
              case _ => At(place) == goal
    {
      k := Await(script, i, Asking, goal);
      if k == |script| {
        return k, Asking;
      }
      Woken(At(Asking), script, k);
      ghost var next := Step(At(Asking), script[k]);
      if script[k].LeaseHit? {
        running := running + {spawned};
        spawned := spawned + 1;
      } else {
        free := free + 1;
        assert At(Pausing) == next;
        k := Await(script, k + 1, Pausing, goal);
        if k == |script| {
          return k, Pausing;
        }
        Woken(At(Pausing), script, k);
        next := Step(At(Pausing), script[k]);
        if script[k].Shutdown? {
          return k + 1, Draining;
        }
      }
      ended := {};
      assert At(Acquiring) == next;
      return k + 1, Acquiring;
    }

    /** One input while tasks are being joined. */
    method Join(input: Input) returns (place: Place)
      requires Possible(At(Draining), input) && ended == {} && running != {}
      modifies this
      ensures At(place) == Step(old(At(Draining)), input)
      ensures ended == {} && place == if running == {} then Stopped else Draining
    {
      match input {
        case Signal => signalled := true;
        case TaskEnds(t) =>
          running := running - {t};
          free := free + 1;
        case GraceOver =>
          abandoned := running;
          free := free + |running|;
          running := {};
      }
      place := if running == {} then Stopped else Draining;
    }

    /** Joins the tasks that are left, until the grace period is over. */
    method Drain(script: seq<Input>, i: nat, ghost goal: Loop) returns (place: Place)
      requires Left(script, i, goal)
      modifies this
      ensures At(place) == goal
    {
      var k := i;
      ended := {};
      place := if running == {} then Stopped else Draining;
      while place.Draining?
        invariant Reached(place, script, k, goal) && ended == {}
        invariant place == if running == {} then Stopped else Draining
        decreases |script| - k
      {
        if k == |script| {
          return;
        }
        Woken(At(Draining), script, k);
        place := Join(script[k]);
        k := k + 1;
      }
    }

    /** The worker's life: `place` is where it is when the script ends. */
    method Run(script: seq<Input>) returns (place: Place)
      requires At(Acquiring) == Started(concurrency) && Feasible(Started(concurrency), script)
      modifies this
      ensures At(place) == Played(Started(concurrency), script)
    {
      ghost var goal := Played(Started(concurrency), script);
      var k := 0;
      while true
        invariant Reached(Acquiring, script, k, goal)
        decreases |script| - k
      {
        k := Await(script, k, Acquiring, goal);
        if k == |script| {
          return Acquiring;
        }
        Woken(At(Acquiring), script, k);
        if script[k].Shutdown? {
          k := k + 1;
          break;
        }
        free := free - 1;
        k, place := Ask(script, k + 1, goal);
        if place.Draining? {
          break;
        }
        if !place.Acquiring? {
          return;
        }
      }
      place := Drain(script, k, goal);
    }
  }

  // ---- the execution of one job --------------------------------------------

  /** How a call of a handler under its timeout ends. */
  datatype Handled = Returned(result: Option<Json>) | Raised(message: string) | TimedOut

  function OutcomeOf(handlers: set<string>, jobType: string, handled: Handled): Outcome {
    if jobType !in handlers then Failure("no handler for job_type '" + jobType + "'")
    else match handled
      case Returned(result) => Success(result)
      case Raised(message) => Failure(message)
      case TimedOut => Timeout
  }

  lemma ReportReleases(s: State, at: Time, id: JobId, worker: WorkerId, outcome: Outcome)
    ensures !Held(Apply(s, at, ReportEvent(id, worker, outcome)), id, worker)
  {
  }

  /** What a task asks of the store, told by its job, is what `Execution` has it do. */
  lemma TaskCallsSeen(s: State, id: JobId, worker: WorkerId, outcome: Outcome, secs: int)
    ensures var held := ViewOf(s, id).HeldBy(worker);
            && ActionOn(s, ReportEvent(id, worker, outcome), id)
            == (if held then Execution.ReportOf(worker, outcome) else Pass)
            && ActionOn(s, RenewLease(id, worker, secs), id) == (if held then Renew(worker, secs) else Pass)
            && (held <==> HoldsLease(s.jobs, id, worker))
  {
  }

  /** The handler was there, and returned. */
  predicate Returns(handlers: set<string>, jobType: string, handled: Handled) {
    jobType in handlers && handled.Returned?
  }

  /** What is said of an execution that did not return. */
  function Complaint(handlers: set<string>, jobType: string, handled: Handled): string {
    if jobType !in handlers then "no handler for job_type '" + jobType + "'"
    else if handled.Raised? then handled.message
    else "execution timed out"
  }

  /** From `s` to `s'` the job ended the way its handler did: it is completed with the result returned; or it waits for
      another attempt or has failed, with a complaint. So did its attempt. */
  predicate EndsAsHandled(s: State, s': State, id: JobId, handlers: set<string>, jobType: string, handled: Handled,
                          at: Time)
    requires id in s.jobs
  {
    && id in s'.jobs && s'.jobs == s.jobs[id := s'.jobs[id]]
    && if Returns(handlers, jobType, handled) then
         && s'.jobs[id] == s.jobs[id].(status := Completed, result := handled.result, completedAt := Some(at),
                                       lastError := None, lockedBy := None, lockedAt := None,
                                       leaseExpiresAt := None, updatedAt := at)
         && ClosedRows(s.attempts, s'.attempts, {id}, Succeeded, None, at)
       else
         var complaint := Complaint(handlers, jobType, handled);
         var ending := if jobType in handlers && handled.TimedOut? then AttemptStatus.TimedOut else Errored;
         && IsReleased(s.jobs[id], s'.jobs[id], complaint, at)
         && ClosedRows(s.attempts, s'.attempts, {id}, ending, Some(complaint), at)
  }

  /** The report of the worker that holds the job ends it the way its handler ended. */
  lemma ReportEndsAsHandled(s: State, at: Time, id: JobId, worker: WorkerId, handlers: set<string>, jobType: string,
                            handled: Handled)
    requires HoldsLease(s.jobs, id, worker)
    ensures EndsAsHandled(s, Apply(s, at, ReportEvent(id, worker, OutcomeOf(handlers, jobType, handled))), id, handlers,
                          jobType, handled, at)
  {
    match OutcomeOf(handlers, jobType, handled)
    case Success(result) => CompletedByColumn(s, at, id, worker, result);
    case Failure(error) => FailedByColumn(s, at, id, worker, error, false);
    case Timeout => FailedByColumn(s, at, id, worker, "execution timed out", true);
  }

  /** The job completes if and only if its handler is there and returns. If not, it is retried if it has attempts left,
      or else dead-lettered if it asked for that, or else failed; and its last error is the complaint. */
  lemma CompletesExactlyIfReturned(s: State, s': State, id: JobId, handlers: set<string>, jobType: string,
                                   handled: Handled, at: Time)
    requires id in s.jobs && EndsAsHandled(s, s', id, handlers, jobType, handled, at)
    ensures var j, j' := s.jobs[id], s'.jobs[id];
            && (j'.status == Completed <==> Returns(handlers, jobType, handled))
            && (j'.status == Completed <==> j'.lastError == None)
            && (j'.status == Retrying <==> !Returns(handlers, jobType, handled) && j.attempts < j.maxAttempts)
            && j'.status in {Completed, Retrying, JobStatus.Failed, DeadLettered}
  {
  }

  /** Only the expiry of the lease moved: the lease lasts the job's timeout and 30 seconds more. */
  function WithLeaseCovering(s: State, id: JobId, timeoutSecs: int, at: Time): State
    requires id in s.jobs
  {
    s.(jobs := s.jobs[id := s.jobs[id].(leaseExpiresAt := Some(at + (timeoutSecs + 30) * 1_000_000), updatedAt := at)])
  }

  lemma RenewalCovers(s: State, id: JobId, worker: WorkerId, timeoutSecs: int, at: Time)
    requires HoldsLease(s.jobs, id, worker)
    ensures Apply(s, at, RenewLease(id, worker, Execution.CoverSecs(timeoutSecs)))
         == WithLeaseCovering(s, id, timeoutSecs, at)
  {
  }

  /** The leased job `id` as the worker received it is `job`. Without the lease nothing happens. With it the lease is
      made to cover the execution, other sessions being at work `meanwhile`, and exactly one outcome is reported, which
      makes of the tables `covered` the tables `reported`: refused, it changes nothing; taken, it ends the job the way
      the handler ended. After it the worker does not hold the job. */
  method ExecuteJob(service: QueueService, handlers: set<string>, worker: WorkerId, id: JobId, job: Job,
                    handled: Handled, renewedAt: Time, reportedAt: Time, meanwhile: State -> State, others: Others)
    returns (ghost covered: State, ghost reported: State)
    modifies service, service.store
    ensures var s := old(service.store.Contents());
            if !HoldsLease(s.jobs, id, worker) then
              service.store.Contents() == s && service.metrics == old(service.metrics)
            else
              && covered == meanwhile(WithLeaseCovering(s, id, job.timeoutSecs, renewedAt))
              && !HoldsLease(reported.jobs, id, worker)
              && if HoldsLease(covered.jobs, id, worker) then
                   && EndsAsHandled(covered, reported, id, handlers, job.jobType, handled, reportedAt)
                   && service.store.Contents()
                   == (if Returns(handlers, job.jobType, handled) then reported else others(0)(reported))
                 else
                   service.store.Contents() == reported == covered
    ensures var accepted := HoldsLease(covered.jobs, id, worker);
            old(HoldsLease(service.store.Contents().jobs, id, worker)) ==>
              && reported == Apply(covered, reportedAt,
                                   ReportEvent(id, worker, OutcomeOf(handlers, job.jobType, handled)))
              && service.metrics
              == AfterReport(old(service.metrics), job.queue, OutcomeOf(handlers, job.jobType, handled), accepted,
                             if accepted then StatusOf(service.store.Contents(), id) else None)
  {
    covered := service.store.Contents();
    reported := covered;
    if HoldsLease(covered.jobs, id, worker) {
      RenewalCovers(covered, id, worker, job.timeoutSecs, renewedAt);
    }
    var renewed := service.store.RenewLease(id, worker, Execution.CoverSecs(job.timeoutSecs), renewedAt);
    if renewed.Err? {
      return;
    }
    service.store.Meanwhile(meanwhile);
    covered := service.store.Contents();
    var outcome := Failure("no handler for job_type '" + job.jobType + "'");
    if job.jobType in handlers {
      match handled
      case Returned(result) => outcome := Success(result);
      case Raised(message) => outcome := Failure(message);
      case TimedOut => outcome := Timeout;
    }
    reported := Apply(covered, reportedAt, ReportEvent(id, worker, outcome));
    if HoldsLease(covered.jobs, id, worker) {
      ReportEndsAsHandled(covered, reportedAt, id, worker, handlers, job.jobType, handled);
    }
    ReportReleases(covered, reportedAt, id, worker, outcome);
    var _ := service.ReportOutcome(id, job.queue, worker, outcome, reportedAt, others);
  }
}
