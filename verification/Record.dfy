/** What the tables say of a job, column by column, told from what happened to it. */
module Record {
  import opened Basics
  import opened Status
  import opened Backoff
  import opened Model
  import opened Lifecycle
  import opened Invariants
  import opened Protocol
  import Tables
  import Safety

  // ---- what was asked for --------------------------------------------------

  /** The request the job was created for, and when. */
  datatype Order = Order(n: NormalizedJob, at: Time)

  function Ordered(h: History): Option<Order> {
    match h
    case Empty => None
    case Then(past, at, a) => if a.Create? then Some(Order(a.n, at)) else Ordered(past)
  }

  /** The row carries what was asked for. */
  predicate CarriesOrder(j: Job, o: Order) {
    && j.queue == o.n.queue && j.jobType == o.n.jobType && j.payload == o.n.payload && j.priority == o.n.priority
    && j.idempotencyKey == o.n.idempotencyKey && j.maxAttempts == o.n.maxAttempts && j.timeoutSecs == o.n.timeoutSecs
    && j.backoffBaseSecs == o.n.backoffBaseSecs && j.backoffMaxSecs == o.n.backoffMaxSecs
    && j.deadLetter == o.n.deadLetter && j.createdAt == o.at
  }

  lemma OrderStep(v: View, at: Time, a: Action, o: Order)
    requires Invariant(v) && Enabled(v, at, a) && Effect(v, at, a).job.Some?
    requires a.Create? ==> o == Order(a.n, at)
    requires v.job.Some? ==> CarriesOrder(v.job.value, o)
    requires v.job.None? ==> a.Create?
    ensures CarriesOrder(Effect(v, at, a).job.value, o)
  {
  }

  /** A row comes only from a creation. */
  lemma OnlyCreated(v: View, at: Time, a: Action)
    requires Invariant(v) && Enabled(v, at, a) && Effect(v, at, a).job.Some?
    ensures v.job.None? <==> a.Create?
  {
  }

  /** On every history the row carries the request of its one creation, and its time. */
  lemma {:induction false} OrderCarried(id: JobId, h: History)
    requires Legal(id, h) && After(id, h).job.Some?
    ensures Ordered(h).Some? && WellFormed(Ordered(h).value.n)
    ensures CarriesOrder(After(id, h).job.value, Ordered(h).value)
  {
    InvariantHolds(id, h.past);
    OnlyCreated(After(id, h.past), h.at, h.act);
    if !h.act.Create? {
      OrderCarried(id, h.past);
    }
    OrderStep(After(id, h.past), h.at, h.act, Ordered(h).value);
  }

  // ---- when it is due ------------------------------------------------------

  /** A release of the job, by a report or a sweep, and when. */
  function LastRelease(h: History): Option<Time> {
    match h
    case Empty => None
    case Then(past, at, a) => if a.Fail? || a.Sweep? then Some(at) else LastRelease(past)
  }

  function LastRedrive(h: History): Option<Time> {
    match h
    case Empty => None
    case Then(past, at, a) => if a.Retry? then Some(at) else LastRedrive(past)
  }

  /** The delay after the `k`-th attempt, in seconds. */
  function Delay(n: NormalizedJob, k: nat): int
    requires k >= 1
  {
    if n.backoffBaseSecs * Pow2(k - 1) <= n.backoffMaxSecs then n.backoffBaseSecs * Pow2(k - 1) else n.backoffMaxSecs
  }

  /** A waiting job is due when it was asked for, or was redriven, or at the end of its delay. */
  predicate DueAsTold(j: Job, o: Order, attempts: nat, release: Option<Time>, redrive: Option<Time>) {
    && (j.status.Queued? || j.status.Scheduled? ==> j.runAt == if redrive.Some? then redrive.value else o.n.runAt)
    && (j.status.Retrying? ==>
          attempts >= 1 && release.Some? && j.runAt == release.value + Delay(o.n, attempts) * 1_000_000)
  }

  lemma DueStep(v: View, at: Time, a: Action, o: Order, attempts: nat, release: Option<Time>, redrive: Option<Time>)
    requires Invariant(v) && Enabled(v, at, a) && Effect(v, at, a).job.Some? && !a.Create? && v.job.Some?
    requires CarriesOrder(v.job.value, o) && v.job.value.attempts == attempts
    requires DueAsTold(v.job.value, o, attempts, release, redrive)
    ensures DueAsTold(Effect(v, at, a).job.value, o,
                      if a.Retry? then 0 else if a.Lease? then attempts + 1 else attempts,
                      if a.Fail? || a.Sweep? then Some(at) else release,
                      if a.Retry? then Some(at) else redrive)
  {
    var j := v.job.value;
    DelaysAgree(j.backoffBaseSecs, j.backoffMaxSecs, j.attempts);
  }

  lemma NotBefore(id: JobId, h: History)
    requires Legal(id, h) && !After(id, h).minted
    ensures LastRedrive(h).None? && LastRelease(h).None?
  {
    if h.Then? {
      InvariantHolds(id, h.past);
      NotBefore(id, h.past);
    }
  }

  /** On every history: the attempts counted are the leases of this life, and a waiting job is due exactly as told. */
  lemma {:induction false} DueTold(id: JobId, h: History)
    requires Legal(id, h) && After(id, h).job.Some?
    ensures Ordered(h).Some? && After(id, h).job.value.attempts == |LifeLeases(h)|
    ensures DueAsTold(After(id, h).job.value, Ordered(h).value, |LifeLeases(h)|, LastRelease(h), LastRedrive(h))
  {
    OrderCarried(id, h);
    LeasesRemembered(id, h);
    InvariantHolds(id, h.past);
    OnlyCreated(After(id, h.past), h.at, h.act);
    if h.act.Create? {
      NotBefore(id, h.past);
    } else {
      OrderCarried(id, h.past);
      DueTold(id, h.past);
      DueStep(After(id, h.past), h.at, h.act, Ordered(h).value, |LifeLeases(h.past)|, LastRelease(h.past),
              LastRedrive(h.past));
    }
  }

  /** A retrying job can be leased from the end of its delay on, and not before. */
  lemma RetriedExactlyWhenDue(id: JobId, h: History, at: Time, worker: WorkerId, secs: int)
    requires Legal(id, h) && After(id, h).Is(Retrying)
    ensures Ordered(h).Some? && LastRelease(h).Some? && |LifeLeases(h)| >= 1
    ensures Enabled(After(id, h), at, Lease(worker, secs)) <==>
              at >= LastRelease(h).value + Delay(Ordered(h).value.n, |LifeLeases(h)|) * 1_000_000
  {
    DueTold(id, h);
  }

  lemma {:induction false} LoggedBefore(id: JobId, h: History, i: nat)
    requires Legal(id, h) && i < |Log(h)|
    ensures Log(h)[i].at <= h.at
  {
    if i < |Log(h.past)| {
      LoggedBefore(id, h.past, i);
    }
  }

  lemma {:induction false} RedrivesAreLogged(h: History)
    requires Log(h) == []
    ensures LastRedrive(h).None?
  {
    if h.Then? {
      RedrivesAreLogged(h.past);
    }
  }

  /** No lease of the job comes before the time that was asked for. */
  lemma {:induction false} NeverLeasedEarly(id: JobId, h: History)
    requires Legal(id, h) && After(id, h).job.Some?
    ensures Ordered(h).Some?
    ensures forall i :: 0 <= i < |Log(h)| && Log(h)[i].act.Lease? ==> Log(h)[i].at >= Ordered(h).value.n.runAt
  {
    InvariantHolds(id, h.past);
    OnlyCreated(After(id, h.past), h.at, h.act);
    if h.act.Create? {
      LeasesAlternate(id, h.past);
    } else {
      NeverLeasedEarly(id, h.past);
      if h.act.Lease? {
        LeasedWhenDue(id, h);
      }
    }
  }

  lemma LeasedWhenDue(id: JobId, h: History)
    requires Legal(id, h) && h.Then? && h.act.Lease? && Ordered(h).Some?
    requires forall i :: 0 <= i < |Log(h.past)| && Log(h.past)[i].act.Lease? ==>
               Log(h.past)[i].at >= Ordered(h).value.n.runAt
    ensures h.at >= Ordered(h).value.n.runAt
  {
    var log := Log(h.past);
    DueTold(id, h.past);
    LeasesAlternate(id, h.past);
    if log == [] {
      RedrivesAreLogged(h.past);
    } else {
      assert |log| > 1 ==> MayFollow(log[0].act, log[1]);
      assert log[0].act.Lease?;
      LoggedBefore(id, h.past, 0);
    }
  }

  // ---- when it was last touched --------------------------------------------

  predicate TouchesRow(a: Action) {
    a.Create? || a.Lease? || a.Renew? || a.Complete? || a.Fail? || a.Sweep? || a.Cancel? || a.Retry?
  }

  function LastTouch(h: History): Option<Time> {
    match h
    case Empty => None
    case Then(past, at, a) => if TouchesRow(a) then Some(at) else LastTouch(past)
  }

  /** `updated_at` is the time of the last statement that wrote the row. */
  lemma {:induction false} TouchTold(id: JobId, h: History)
    requires Legal(id, h) && After(id, h).job.Some?
    ensures LastTouch(h) == Some(After(id, h).job.value.updatedAt)
  {
    InvariantHolds(id, h.past);
    OnlyCreated(After(id, h.past), h.at, h.act);
    if !h.act.Create? {
      TouchTold(id, h.past);
    }
  }

  // ---- its result, error and lock ------------------------------------------

  /** A completed job carries the result of its completion; no other has one. */
  predicate ResultAsTold(j: Job, log: seq<Stamp>) {
    if j.status.Completed? then
      && log != [] && log[|log| - 1].act.Complete?
      && j.result == log[|log| - 1].act.result
      && j.completedAt == Some(log[|log| - 1].at) && j.updatedAt == log[|log| - 1].at
      && j.lastError == None
    else j.result == None && j.completedAt == None
  }

  lemma ResultStep(v: View, at: Time, a: Action, log: seq<Stamp>, expiry: Time)
    requires Invariant(v) && Enabled(v, at, a) && Effect(v, at, a).job.Some?
    requires v.job.Some? ==> ResultAsTold(v.job.value, log)
    ensures ResultAsTold(Effect(v, at, a).job.value, log + if IsProtocol(a) then [Stamp(at, a, expiry)] else [])
  {
  }

  lemma {:induction false} ResultTold(id: JobId, h: History)
    requires Legal(id, h) && After(id, h).job.Some?
    ensures ResultAsTold(After(id, h).job.value, Log(h))
  {
    InvariantHolds(id, h.past);
    if After(id, h.past).job.Some? {
      ResultTold(id, h.past);
    }
    ResultStep(After(id, h.past), h.at, h.act, Log(h.past), LastExpiry(h.past));
  }

  /** A finished job was touched last when it finished. */
  predicate FinishAsTold(j: Job, log: seq<Stamp>) {
    j.status.Cancelled? ==> log != [] && log[|log| - 1].act.Cancel? && j.updatedAt == log[|log| - 1].at
  }

  lemma FinishStep(v: View, at: Time, a: Action, log: seq<Stamp>, expiry: Time)
    requires Invariant(v) && Enabled(v, at, a) && Effect(v, at, a).job.Some?
    requires v.job.Some? ==> FinishAsTold(v.job.value, log)
    ensures FinishAsTold(Effect(v, at, a).job.value, log + if IsProtocol(a) then [Stamp(at, a, expiry)] else [])
  {
  }

  lemma {:induction false} FinishTold(id: JobId, h: History)
    requires Legal(id, h) && After(id, h).job.Some?
    ensures FinishAsTold(After(id, h).job.value, Log(h))
  {
    InvariantHolds(id, h.past);
    if After(id, h.past).job.Some? {
      FinishTold(id, h.past);
    }
    FinishStep(After(id, h.past), h.at, h.act, Log(h.past), LastExpiry(h.past));
  }

  /** A purge removes the job exactly if its last protocol action completed or cancelled it, before the cutoff. */
  lemma PurgedExactlyWhenOld(id: JobId, h: History, at: Time, cutoff: Time)
    requires Legal(id, h) && After(id, h).job.Some?
    ensures Enabled(After(id, h), at, Purge(cutoff)) <==>
              && Log(h) != []
              && (Log(h)[|Log(h)| - 1].act.Complete? || Log(h)[|Log(h)| - 1].act.Cancel?)
              && Log(h)[|Log(h)| - 1].at < cutoff
  {
    ResultTold(id, h);
    FinishTold(id, h);
    LeasesAlternate(id, h);
  }

  /** The error of the last failure reported since the job was created or redriven. */
  function LastFailure(h: History): Option<string> {
    match h
    case Empty => None
    case Then(past, at, a) =>
      if a.Create? || a.Retry? then None else if a.Fail? then Some(a.error) else LastFailure(past)
  }

  predicate EverSwept(h: History) {
    h.Then? && !h.act.Create? && !h.act.Retry? && (h.act.Sweep? || EverSwept(h.past))
  }

  /** Sweeps do not overwrite the error of a failure. */
  predicate ErrorAsTold(j: Job, failure: Option<string>, swept: bool) {
    j.lastError == if j.status.Completed? then None
                   else if failure.Some? then failure
                   else if swept then Some("lease expired") else None
  }

  lemma ErrorStep(v: View, at: Time, a: Action, failure: Option<string>, swept: bool)
    requires Invariant(v) && Enabled(v, at, a) && Effect(v, at, a).job.Some?
    requires v.job.Some? ==> ErrorAsTold(v.job.value, failure, swept)
    ensures ErrorAsTold(Effect(v, at, a).job.value,
                        if a.Create? || a.Retry? then None else if a.Fail? then Some(a.error) else failure,
                        !a.Create? && !a.Retry? && (a.Sweep? || swept))
  {
  }

  lemma {:induction false} ErrorTold(id: JobId, h: History)
    requires Legal(id, h) && After(id, h).job.Some?
    ensures ErrorAsTold(After(id, h).job.value, LastFailure(h), EverSwept(h))
  {
    InvariantHolds(id, h.past);
    if After(id, h.past).job.Some? {
      ErrorTold(id, h.past);
    }
    ErrorStep(After(id, h.past), h.at, h.act, LastFailure(h.past), EverSwept(h.past));
  }

  /** A processing job was locked by its last lease. */
  lemma {:induction false} LockTold(id: JobId, h: History)
    requires Legal(id, h) && After(id, h).Is(Processing)
    ensures var j, log := After(id, h).job.value, Log(h);
            && log != [] && log[|log| - 1].act.Lease?
            && j.lockedBy == Some(log[|log| - 1].act.worker) && j.lockedAt == Some(log[|log| - 1].at)
            && j.leaseExpiresAt == Some(LastExpiry(h))
  {
    LeasesAlternate(id, h);
    if !h.act.Lease? {
      InvariantHolds(id, h.past);
      LockTold(id, h.past);
    }
  }

  /** What becomes of a released job is told by its leases and its order. */
  lemma ReleasedAsTold(id: JobId, h: History)
    requires Legal(id, h) && h.Then? && (h.act.Fail? || h.act.Sweep?)
    ensures After(id, h).job.Some? && Ordered(h).Some?
    ensures var n, k := Ordered(h).value.n, |LifeLeases(h)|;
            After(id, h).job.value.status ==
              if k < n.maxAttempts then Retrying else if n.deadLetter then DeadLettered else JobStatus.Failed
  {
    InvariantHolds(id, h.past);
    OrderCarried(id, h);
    LeasesRemembered(id, h);
  }

  // ---- its attempt rows ----------------------------------------------------

  /** One lease of the job, and the action that ended the attempt as far as its row is concerned. */
  datatype Try = Try(at: Time, worker: WorkerId, end: Option<End>)

  datatype End = End(at: Time, act: Action)

  predicate EndsTries(a: Action) {
    a.Complete? || a.Fail? || a.CloseSwept?
  }

  function Ended(t: Try, at: Time, a: Action): Try {
    if t.end.None? then t.(end := Some(End(at, a))) else t
  }

  /** All leases ever taken, each with the first action after it that closes rows. */
  function Tries(h: History): seq<Try> {
    match h
    case Empty => []
    case Then(past, at, a) =>
      var tries := Tries(past);
      if a.Lease? then tries + [Try(at, a.worker, None)]
      else if EndsTries(a) then seq(|tries|, i requires 0 <= i < |tries| => Ended(tries[i], at, a))
      else tries
  }

  /** The row names its lease, and records the action that closed it. */
  predicate RowAsTold(r: AttemptRow, id: JobId, t: Try) {
    && r.jobId == id && r.worker == t.worker && r.startedAt == t.at
    && match t.end
       case None => r.status == Running && r.finishedAt == None && r.error == None
       case Some(End(at, act)) =>
         && EndsTries(act)
         && r.finishedAt == Some(at)
         && r.status == (if act.Complete? then Succeeded else if act.Fail? && !act.timedOut then Errored else TimedOut)
         && r.error == (if act.Complete? then None else if act.Fail? then Some(act.error) else Some("lease expired"))
  }

  predicate RowsAsTold(rows: seq<AttemptRow>, id: JobId, tries: seq<Try>) {
    |rows| == |tries| && forall i :: 0 <= i < |rows| ==> RowAsTold(rows[i], id, tries[i])
  }

  lemma RowClosedAsTold(r: AttemptRow, id: JobId, t: Try, at: Time, a: Action)
    requires RowAsTold(r, id, t) && EndsTries(a)
    ensures var how := if a.Complete? then OnComplete else if a.Fail? then OnFail(a.error, a.timedOut) else OnSweep;
            RowAsTold(CloseRow(r, how, at), id, Ended(t, at, a))
  {
  }

  lemma RowsStep(v: View, at: Time, a: Action, tries: seq<Try>)
    requires Invariant(v) && Enabled(v, at, a) && v.job.Some? && Effect(v, at, a).job.Some?
    requires RowsAsTold(v.rows, v.id, tries)
    ensures RowsAsTold(Effect(v, at, a).rows, v.id,
                       if a.Lease? then tries + [Try(at, a.worker, None)]
                       else if EndsTries(a) then seq(|tries|, i requires 0 <= i < |tries| => Ended(tries[i], at, a))
                       else tries)
  {
    if EndsTries(a) {
      forall i | 0 <= i < |v.rows|
        ensures RowAsTold(Effect(v, at, a).rows[i], v.id, Ended(tries[i], at, a))
      {
        RowClosedAsTold(v.rows[i], v.id, tries[i], at, a);
      }
    }
  }

  lemma NoTriesYet(id: JobId, h: History)
    requires Legal(id, h) && !After(id, h).minted
    ensures Tries(h) == []
  {
    if h.Then? {
      InvariantHolds(id, h.past);
      NoTriesYet(id, h.past);
    }
  }

  /** On every history the attempt rows of a stored job are those of its leases. Each was closed by the first completion,
      failure or closing statement of a sweep after it, then and in its way. */
  lemma {:induction false} RowsTold(id: JobId, h: History)
    requires Legal(id, h) && After(id, h).job.Some?
    ensures RowsAsTold(After(id, h).rows, id, Tries(h))
  {
    InvariantHolds(id, h.past);
    OnlyCreated(After(id, h.past), h.at, h.act);
    if h.act.Create? {
      NoTriesYet(id, h.past);
    } else {
      RowsTold(id, h.past);
      RowsStep(After(id, h.past), h.at, h.act, Tries(h.past));
    }
  }

  // ---- its dead-letter entry -----------------------------------------------

  datatype Burial = Burial(at: Time, error: string)

  /** The action takes the job's last attempt away, and the order asks for dead-lettering. */
  predicate Buries(h: History, a: Action) {
    && (a.Fail? || a.Sweep?)
    && Ordered(h).Some? && |LifeLeases(h)| >= Ordered(h).value.n.maxAttempts && Ordered(h).value.n.deadLetter
  }

  function BurialBy(h: History, at: Time, a: Action): Burial
    requires a.Fail? || a.Sweep?
  {
    Burial(at, if a.Fail? then a.error else GetOr(LastFailure(h), "lease expired"))
  }

  /** The first burial since the last deletion of an entry. */
  function Buried(h: History): Option<Burial> {
    match h
    case Empty => None
    case Then(past, at, a) =>
      if a.DropDead? then None
      else if Buries(past, a) && Buried(past).None? then Some(BurialBy(past, at, a))
      else Buried(past)
  }

  predicate EntryAsTold(e: DeadLetter, o: Order, b: Burial) {
    && e.queue == o.n.queue && e.jobType == o.n.jobType && e.payload == o.n.payload
    && e.attempts == o.n.maxAttempts && e.originalCreatedAt == o.at
    && e.deadLetteredAt == b.at && e.lastError == Some(b.error)
  }

  predicate DeadAsTold(dead: Option<DeadLetter>, o: Option<Order>, b: Option<Burial>) {
    if b.None? then dead.None? else dead.Some? && o.Some? && EntryAsTold(dead.value, o.value, b.value)
  }

  lemma BuriesAsTold(id: JobId, h: History, a: Action)
    requires Legal(id, h) && After(id, h).Is(Processing) && (a.Fail? || a.Sweep?)
    ensures DeadLetters(After(id, h), a) <==> Buries(h, a)
    ensures DeadLetters(After(id, h), a) ==> ErrorWritten(After(id, h), a) == BurialBy(h, 0, a).error
  {
    OrderCarried(id, h);
    LeasesRemembered(id, h);
    ErrorTold(id, h);
  }

  lemma EntryStep(v: View, at: Time, a: Action, o: Option<Order>, b: Option<Burial>, error: string)
    requires Invariant(v) && Enabled(v, at, a) && DeadAsTold(v.dead, o, b)
    requires v.job.Some? ==> o.Some? && CarriesOrder(v.job.value, o.value)
    requires DeadLetters(v, a) ==> error == ErrorWritten(v, a)
    ensures DeadAsTold(Effect(v, at, a).dead, o,
                       if a.DropDead? then None
                       else if DeadLetters(v, a) && b.None? then Some(Burial(at, error)) else b)
  {
  }

  lemma NoBurialYet(id: JobId, h: History)
    requires Legal(id, h) && !After(id, h).minted
    ensures Buried(h).None?
  {
    if h.Then? {
      InvariantHolds(id, h.past);
      NoBurialYet(id, h.past);
    }
  }

  /** On every history there is an entry exactly if the job has been buried since an entry of it was last deleted, and it
      carries the order, the time and the error of the first such burial. */
  lemma {:induction false} EntryTold(id: JobId, h: History)
    requires Legal(id, h)
    ensures DeadAsTold(After(id, h).dead, Ordered(h), Buried(h))
  {
    if h.Then? {
      var v := After(id, h.past);
      InvariantHolds(id, h.past);
      EntryTold(id, h.past);
      if h.act.Create? {
        NoBurialYet(id, h.past);
      } else {
        if v.job.Some? {
          OrderCarried(id, h.past);
        }
        if h.act.Fail? || h.act.Sweep? {
          BuriesAsTold(id, h.past, h.act);
        }
        EntryStep(v, h.at, h.act, Ordered(h.past), Buried(h.past),
                  if h.act.Fail? || h.act.Sweep? then BurialBy(h.past, h.at, h.act).error else "");
      }
    }
  }

  // ---- in every run --------------------------------------------------------

  /** The record of one job in the tables `s`, told from its history. */
  ghost predicate IsRecordOf(s: Tables.State, id: JobId, h: History) {
    && (id in s.jobs ==>
          && var j := s.jobs[id];
          && Ordered(h).Some? && CarriesOrder(j, Ordered(h).value)
          && j.attempts == |LifeLeases(h)|
          && DueAsTold(j, Ordered(h).value, |LifeLeases(h)|, LastRelease(h), LastRedrive(h))
          && LastTouch(h) == Some(j.updatedAt)
          && ResultAsTold(j, Log(h))
          && ErrorAsTold(j, LastFailure(h), EverSwept(h))
          && RowsAsTold(Tables.RowsOf(s.attempts, id), id, Tries(h)))
    && DeadAsTold(if id in s.dead then Some(s.dead[id]) else None, Ordered(h), Buried(h))
  }

  /** In every run of the store the tables are, job by job, the record of what happened. */
  lemma TablesAreRecords(r: Safety.Run, id: JobId)
    requires Safety.Valid(r)
    ensures IsRecordOf(Safety.StateOf(r), id, Safety.HistoryOf(r, id))
  {
    var h := Safety.HistoryOf(r, id);
    Safety.RunProjects(r, id);
    EntryTold(id, h);
    if id in Safety.StateOf(r).jobs {
      OrderCarried(id, h);
      DueTold(id, h);
      TouchTold(id, h);
      ResultTold(id, h);
      ErrorTold(id, h);
      RowsTold(id, h);
    }
  }
}
