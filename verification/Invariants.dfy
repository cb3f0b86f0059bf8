/** What holds of one job after every legal history, however its statements interleave. */
module Invariants {
  import opened Basics
  import opened Status
  import opened Backoff
  import opened Model
  import opened Lifecycle

  /** The lock columns are set together, exactly while the job is processing. */
  predicate LockCoherent(j: Job) {
    && (j.status.Processing? <==> j.lockedBy.Some?)
    && (j.status.Processing? <==> j.lockedAt.Some?)
    && (j.status.Processing? <==> j.leaseExpiresAt.Some?)
    && (j.status.Completed? <==> j.completedAt.Some?)
  }

  /** The attempt counter stays within the budget although leasing never looks at the budget. */
  predicate WithinBudget(j: Job) {
    && j.attempts <= j.maxAttempts
    && (j.status.IsLeaseable() ==> j.attempts < j.maxAttempts)
    && (j.status.Queued? || j.status.Scheduled? ==> j.attempts == 0)
    && (j.status.Processing? || j.status.Retrying? || j.status.Completed? ==> j.attempts >= 1)
    && (j.status.Failed? || j.status.DeadLettered? ==> j.attempts == j.maxAttempts)
  }

  predicate RowInvariant(j: Job) {
    && 1 <= j.maxAttempts <= 100
    && 1 <= j.timeoutSecs <= 86_400
    && 1 <= j.backoffBaseSecs <= j.backoffMaxSecs < INT32_LIMIT
    && LockCoherent(j)
    && WithinBudget(j)
    && (j.status.Failed? ==> !j.deadLetter)
    && (j.status.DeadLettered? ==> j.deadLetter)
    && (j.status.Failed? || j.status.DeadLettered? || j.status.Retrying? ==> j.lastError.Some?)
  }

  predicate Invariant(v: View) {
    && (v.job.Some? ==> v.minted && RowInvariant(v.job.value))
    && (v.job.None? ==> v.rows == [])
    && (!v.minted ==> v.dead.None? && v.closing == 0 && v.deleting == 0)
  }

  lemma RowInvariantStep(v: View, at: Time, a: Action)
    requires Invariant(v) && Enabled(v, at, a) && Effect(v, at, a).job.Some?
    ensures RowInvariant(Effect(v, at, a).job.value)
  {
  }

  lemma InvariantStep(v: View, at: Time, a: Action)
    requires Invariant(v) && Enabled(v, at, a)
    ensures Invariant(Effect(v, at, a))
  {
    if Effect(v, at, a).job.Some? {
      RowInvariantStep(v, at, a);
    }
  }

  /** In every reachable state. */
  lemma {:induction false} InvariantHolds(id: JobId, h: History)
    requires Legal(id, h)
    ensures Invariant(After(id, h))
  {
    if h.Then? {
      InvariantHolds(id, h.past);
      InvariantStep(After(id, h.past), h.at, h.act);
    }
  }

  // ---- attempt history -----------------------------------------------------

  /** The number carried by the `i`-th row (from zero) when numbers run from 1 to `m` over and over. */
  function RoundNumber(i: nat, m: nat): nat
    requires m > 0
  {
    if i < m then i + 1 else RoundNumber(i - m, m)
  }

  lemma Multiple(d: int, m: int)
    requires m > 0
    ensures d >= 1 ==> d * m >= m
    ensures d <= -1 ==> d * m <= -m
  {
  }

  lemma DivisionIsUnique(n: nat, m: nat, q: int, r: nat)
    requires m > 0 && n == q * m + r && r < m
    ensures n % m == r
  {
    var d := n / m - q;
    assert d * m == (n / m) * m - q * m;
    Multiple(d, m);
  }

  lemma {:induction false} RoundNumberIsRemainder(i: nat, m: nat)
    requires m > 0
    ensures RoundNumber(i, m) == i % m + 1
  {
    if i < m {
      DivisionIsUnique(i, m, 0, i);
    } else {
      RoundNumberIsRemainder(i - m, m);
      var q := (i - m) / m;
      assert (q + 1) * m == q * m + m;
      DivisionIsUnique(i, m, q + 1, (i - m) % m);
    }
  }

  /** Rows of `r` full rounds. */
  function Rounds(r: nat, m: nat): (n: nat)
    ensures n == r * m
  {
    if r == 0 then 0 else Rounds(r - 1, m) + m
  }

  lemma {:induction false} RoundNumberInRound(r: nat, m: nat, k: nat)
    requires k < m
    ensures RoundNumber(Rounds(r, m) + k, m) == k + 1
  {
    if r > 0 {
      RoundNumberInRound(r - 1, m, k);
    }
  }

  predicate Numbered(rows: seq<AttemptRow>, m: nat)
    requires m > 0
  {
    forall i: nat :: i < |rows| ==> rows[i].attempt == RoundNumber(i, m)
  }

  /** A job redriven `r` times has `r` full rounds of attempt rows and those of the current round, and the rows number
      the attempts of each round from one. */
  predicate AttemptsRecorded(v: View, r: nat) {
    v.job.Some? && v.job.value.maxAttempts > 0 ==>
      && |v.rows| == Rounds(r, v.job.value.maxAttempts) + v.job.value.attempts
      && Numbered(v.rows, v.job.value.maxAttempts)
  }

  /** Past redrives of the job. */
  function Retries(h: History): nat {
    match h
    case Empty => 0
    case Then(past, _, a) => Retries(past) + if a.Retry? then 1 else 0
  }

  lemma AttemptsRecordedStep(v: View, at: Time, a: Action, r: nat)
    requires Invariant(v) && Enabled(v, at, a) && AttemptsRecorded(v, r)
    requires !v.minted ==> r == 0
    ensures AttemptsRecorded(Effect(v, at, a), if a.Retry? then r + 1 else r)
  {
    if a.Lease? {
      RoundNumberInRound(r, v.job.value.maxAttempts, v.job.value.attempts);
    }
  }

  lemma {:induction false} AttemptHistory(id: JobId, h: History)
    requires Legal(id, h)
    ensures AttemptsRecorded(After(id, h), Retries(h))
    ensures !After(id, h).minted ==> Retries(h) == 0
  {
    if h.Then? {
      AttemptHistory(id, h.past);
      InvariantHolds(id, h.past);
      AttemptsRecordedStep(After(id, h.past), h.at, h.act, Retries(h.past));
    }
  }

  // ---- status changes ------------------------------------------------------

  /** A status changes only along the store's edges, and the row disappears only from a purgeable status. */
  lemma StatusStep(v: View, at: Time, a: Action)
    requires Invariant(v) && Enabled(v, at, a) && v.job.Some?
    ensures var v' := Effect(v, at, a);
            if v'.job.Some? then
              v'.job.value.status == v.job.value.status || StoreEdge(v.job.value.status, v'.job.value.status)
            else a.Purge? && (v.Is(Completed) || v.Is(Cancelled))
  {
  }

  /** What to look at before the action: it stays within the documented table unless it dead-letters the job or redrives
      it. */
  lemma TableKeptExactly(v: View, at: Time, a: Action)
    requires Invariant(v) && Enabled(v, at, a) && v.job.Some? && Effect(v, at, a).job.Some?
    ensures var from, to := v.job.value.status, Effect(v, at, a).job.value.status;
            (to == from || from.CanTransitionTo(to)) <==> !(DeadLetters(v, a) || a.Retry?)
  {
  }

  /** A job in a terminal status that is not purged keeps that status unless it is redriven. */
  lemma TerminalLeftExactly(v: View, at: Time, a: Action)
    requires Invariant(v) && Enabled(v, at, a) && v.job.Some? && Effect(v, at, a).job.Some?
    requires v.job.value.status.IsTerminal()
    ensures Effect(v, at, a).job.value.status != v.job.value.status <==> a.Retry?
  {
    TableKeptExactly(v, at, a);
  }

  function Request(status: JobStatus, maxAttempts: Int32, deadLetter: bool): NormalizedJob {
    NormalizedJob("q", "t", "{}", 0, None, maxAttempts, 0, status, 1, 1, 1, deadLetter)
  }

  /** One more action, and the job it leaves. */
  lemma Act(id: JobId, h: History, v: View, at: Time, a: Action) returns (h': History, v': View)
    requires Legal(id, h) && After(id, h) == v && (h.Then? ==> h.at <= at) && Enabled(v, at, a)
    ensures h' == Then(h, at, a) && v' == Effect(v, at, a) && Legal(id, h') && After(id, h') == v'
  {
    h' := Then(h, at, a);
    v' := Effect(v, at, a);
  }

  lemma FirstLease(id: JobId, maxAttempts: Int32, deadLetter: bool) returns (h: History, v: View)
    requires 1 <= maxAttempts <= 100
    ensures Legal(id, h) && After(id, h) == v && h.Then? && h.at == 0
    ensures v.HeldBy(7) && v.job.value.attempts == 1 && v.job.value.maxAttempts == maxAttempts
    ensures v.job.value.deadLetter == deadLetter
    ensures v.job.value.backoffBaseSecs == v.job.value.backoffMaxSecs == 1
  {
    v := After(id, Empty);
    h, v := Act(id, Empty, v, 0, Create(Request(Queued, maxAttempts, deadLetter)));
    h, v := Act(id, h, v, 0, Lease(7, 30));
  }

  lemma WaitingIn(id: JobId, status: JobStatus) returns (h: History, v: View)
    requires status.IsLeaseable()
    ensures Legal(id, h) && After(id, h) == v && h.Then? && h.at == 0
    ensures v.Is(status) && v.job.value.runAt <= SECOND
  {
    if status.Retrying? {
      h, v := FirstLease(id, 2, true);
      DelaysAgree(1, 1, 1);
      DelayBounds(1, 1, 1);
      h, v := Act(id, h, v, 0, Fail(7, "boom", false));
    } else {
      v := After(id, Empty);
      h, v := Act(id, Empty, v, 0, Create(Request(status, 1, true)));
    }
  }

  /** The last action of some history of the job changes its status so. */
  ghost predicate Taken(id: JobId, from: JobStatus, to: JobStatus) {
    exists h :: Takes(id, h, from, to)
  }

  ghost predicate Takes(id: JobId, h: History, from: JobStatus, to: JobStatus) {
    h.Then? && Legal(id, h) && After(id, h.past).Is(from) && After(id, h).Is(to)
  }

  lemma TakesEdge(id: JobId, from: JobStatus, to: JobStatus) returns (h: History)
    requires StoreEdge(from, to)
    ensures Takes(id, h, from, to)
  {
    var v: View;
    if from.IsLeaseable() {
      h, v := WaitingIn(id, from);
      h, v := Act(id, h, v, SECOND, if to.Cancelled? then Cancel else Lease(7, 30));
    } else {
      var last := to.Failed? || to.DeadLettered? || !from.Processing?;
      h, v := FirstLease(id, if last then 1 else 2, to.DeadLettered? || from.DeadLettered?);
      var a := if to.Completed? then Complete(7, None) else if to.Cancelled? then Cancel else Fail(7, "boom", false);
      h, v := Act(id, h, v, 0, a);
      if !from.Processing? {
        h, v := Act(id, h, v, 0, Retry);
      }
    }
  }

  /** The store's edges are those its runs take, no more and no fewer. */
  lemma StoreEdgesExactly(id: JobId, from: JobStatus, to: JobStatus)
    requires from != to
    ensures StoreEdge(from, to) <==> Taken(id, from, to)
  {
    if StoreEdge(from, to) {
      var h := TakesEdge(id, from, to);
    } else if Taken(id, from, to) {
      var h :| Takes(id, h, from, to);
      InvariantHolds(id, h.past);
      StatusStep(After(id, h.past), h.at, h.act);
    }
  }

  /** Columns no statement ever changes. */
  predicate SameIdentity(j: Job, k: Job) {
    && j.queue == k.queue && j.jobType == k.jobType && j.payload == k.payload && j.priority == k.priority
    && j.idempotencyKey == k.idempotencyKey && j.maxAttempts == k.maxAttempts && j.timeoutSecs == k.timeoutSecs
    && j.backoffBaseSecs == k.backoffBaseSecs && j.backoffMaxSecs == k.backoffMaxSecs
    && j.deadLetter == k.deadLetter && j.createdAt == k.createdAt
  }

  /** `h` continues `g`. */
  ghost predicate Extends(h: History, g: History) {
    h == g || (h.Then? && Extends(h.past, g))
  }

  lemma {:induction false} LegalPrefix(id: JobId, h: History, g: History)
    requires Legal(id, h) && Extends(h, g)
    ensures Legal(id, g)
  {
    if h != g {
      LegalPrefix(id, h.past, g);
    }
  }

  /** One step keeps the identity of a row, never changes a finished row, and never revives a row that is gone. */
  lemma RowStep(v: View, at: Time, a: Action)
    requires Invariant(v) && Enabled(v, at, a)
    ensures var v' := Effect(v, at, a);
            && (v.job.Some? && v'.job.Some? ==> SameIdentity(v.job.value, v'.job.value))
            && (v.Is(Completed) || v.Is(Cancelled) ==> v'.job == v.job || v'.job.None?)
            && (v.minted && v.job.None? ==> v'.job.None?)
            && (v.minted ==> v'.minted)
  {
  }

  /** On every continuation: an id stays issued, and a row that is gone stays gone. */
  lemma {:induction false} GoneForGood(id: JobId, h: History, g: History)
    requires Legal(id, h) && Extends(h, g) && Legal(id, g) && After(id, g).minted
    ensures After(id, h).minted
    ensures After(id, g).job.None? ==> After(id, h).job.None?
  {
    if h != g {
      GoneForGood(id, h.past, g);
      InvariantHolds(id, h.past);
      RowStep(After(id, h.past), h.at, h.act);
    }
  }

  /** Completed and cancelled are never left: the row keeps every column until a purge removes it for good. */
  lemma {:induction false} FinishedForGood(id: JobId, h: History, g: History)
    requires Legal(id, h) && Extends(h, g) && Legal(id, g)
    requires After(id, g).Is(Completed) || After(id, g).Is(Cancelled)
    ensures After(id, h).job == After(id, g).job || After(id, h).job.None?
  {
    if h != g {
      FinishedForGood(id, h.past, g);
      InvariantHolds(id, h.past);
      InvariantHolds(id, g);
      GoneForGood(id, h.past, g);
      RowStep(After(id, h.past), h.at, h.act);
    }
  }

  /** What was submitted is what every later row carries. */
  lemma {:induction false} IdentityIsFixed(id: JobId, h: History, g: History)
    requires Legal(id, h) && Extends(h, g) && Legal(id, g)
    requires After(id, g).job.Some? && After(id, h).job.Some?
    ensures SameIdentity(After(id, g).job.value, After(id, h).job.value)
  {
    if h != g {
      InvariantHolds(id, h.past);
      InvariantHolds(id, g);
      GoneForGood(id, h.past, g);
      RowStep(After(id, h.past), h.at, h.act);
      IdentityIsFixed(id, h.past, g);
    }
  }

  // ---- termination ---------------------------------------------------------

  /** How many status changes a job can still go through before it rests. */
  function Remaining(j: Job): int {
    if j.status.IsLeaseable() then 2 * (j.maxAttempts - j.attempts)
    else if j.status.Processing? then 2 * (j.maxAttempts - j.attempts) + 1
    else 0
  }

  /** Every status change but a redrive uses up part of the budget. */
  lemma RemainingDecreases(v: View, at: Time, a: Action)
    requires Invariant(v) && Enabled(v, at, a) && v.job.Some? && Effect(v, at, a).job.Some?
    requires !a.Retry?
    ensures var j, j' := v.job.value, Effect(v, at, a).job.value;
            if j'.status == j.status then Remaining(j') == Remaining(j) else Remaining(j') < Remaining(j)
  {
  }

  predicate ChangesStatus(v: View, v': View) {
    v.job.Some? && v'.job.Some? && v.job.value.status != v'.job.value.status
  }

  /** Status changes since the job was created or last redriven. */
  function ChangesInLife(id: JobId, h: History): nat
    requires Legal(id, h)
  {
    match h
    case Empty => 0
    case Then(past, at, a) =>
      if a.Retry? then 0
      else ChangesInLife(id, past) + if ChangesStatus(After(id, past), After(id, h)) then 1 else 0
  }

  predicate LifeBounded(v: View, changes: nat) {
    && (v.job.Some? ==> changes + Remaining(v.job.value) <= 2 * v.job.value.maxAttempts)
    && (!v.minted ==> changes == 0)
  }

  lemma LifeStep(v: View, at: Time, a: Action, changes: nat)
    requires Invariant(v) && Enabled(v, at, a) && LifeBounded(v, changes)
    ensures LifeBounded(Effect(v, at, a),
                        if a.Retry? then 0
                        else changes + if ChangesStatus(v, Effect(v, at, a)) then 1 else 0)
  {
    if v.job.Some? && Effect(v, at, a).job.Some? && !a.Retry? {
      RemainingDecreases(v, at, a);
      RowStep(v, at, a);
    }
  }

  /** Between redrives a job changes status at most twice per allowed attempt. */
  lemma {:induction false} BoundedLife(id: JobId, h: History)
    requires Legal(id, h)
    ensures LifeBounded(After(id, h), ChangesInLife(id, h))
  {
    if h.Then? {
      BoundedLife(id, h.past);
      InvariantHolds(id, h.past);
      LifeStep(After(id, h.past), h.at, h.act, ChangesInLife(id, h.past));
    }
  }
}
