/** The maintenance loop: repeated bounded sweeps, and the queue-depth gauge. */
module Reaper {
  import opened Basics
  import opened Status
  import opened Model
  import opened Lifecycle
  import opened Tables
  import opened Store

  // ---- one sweep -----------------------------------------------------------

  /** The leases that run out from `lo` until `hi`. */
  function RunningOut(s: State, lo: Time, hi: Time): set<JobId> {
    set id | id in s.jobs && s.jobs[id].status.Processing? && s.jobs[id].leaseExpiresAt.Some?
             && lo <= s.jobs[id].leaseExpiresAt.value < hi
  }

  /** No lease runs out from `lo` until `hi`. */
  predicate Quiet(s: State, lo: Time, hi: Time) {
    RunningOut(s, lo, hi) == {}
  }

  predicate Within(at: SweepTimes, lo: Time, hi: Time) {
    lo <= at.retry <= hi && lo <= at.bury <= hi && lo <= at.fail <= hi
  }

  /** The expired leases of one kind, with their expiry. */
  function Due(s: State, at: Time, kind: SweepKind): map<JobId, Time> {
    map id | id in Expired(s, at, kind) :: ExpiryOf(s.jobs[id])
  }

  /** `picked` is a batch of the oldest leases in `due`. */
  ghost predicate IsBatch(due: map<JobId, Time>, limit: nat, picked: set<JobId>) {
    && picked <= due.Keys
    && |picked| == Min(limit, |due|)
    && forall i, o {:trigger i in picked, o in due.Keys - picked} | i in picked && o in due.Keys - picked ::
         due[i] <= due[o]
  }

  lemma QuietDue(s: State, lo: Time, hi: Time, at: Time, kind: SweepKind)
    requires Quiet(s, lo, hi) && lo <= at <= hi
    ensures Expired(s, at, kind) == Expired(s, lo, kind)
    ensures Due(s, at, kind) == Due(s, lo, kind)
  {
    forall id | id in s.jobs ensures IsExpired(s.jobs[id], at) <==> IsExpired(s.jobs[id], lo) {
      assert id !in RunningOut(s, lo, hi);
    }
  }

  lemma PicksBatch(s: State, at: Time, kind: SweepKind, limit: nat, ids: set<JobId>)
    requires Picks(s, at, kind, limit, {}, ids)
    ensures IsBatch(Due(s, at, kind), limit, ids)
  {
    assert Expired(s, at, kind) - {} == Expired(s, at, kind);
    assert Due(s, at, kind).Keys == Expired(s, at, kind);
  }

  lemma SweptRows(s: State, at: Time, kind: SweepKind, ids: set<JobId>)
    requires ids <= s.jobs.Keys
    ensures var s' := Swept(s, at, kind, ids);
            forall id | id in s.jobs ::
              if id in ids then !s'.jobs[id].status.Processing? else s'.jobs[id] == s.jobs[id]
  {
  }

  lemma DueAfter(s: State, s': State, kind: SweepKind, ids: set<JobId>, lo: Time, hi: Time, other: SweepKind)
    requires Quiet(s, lo, hi) && s'.jobs.Keys == s.jobs.Keys && ids <= Expired(s, lo, kind)
    requires forall id | id in s.jobs ::
               if id in ids then !s'.jobs[id].status.Processing? else s'.jobs[id] == s.jobs[id]
    ensures Quiet(s', lo, hi)
    ensures Due(s', lo, other) == if other == kind then Due(s, lo, kind) - ids else Due(s, lo, other)
  {
    assert Expired(s', lo, other) == if other == kind then Expired(s, lo, kind) - ids else Expired(s, lo, other);
  }

  /** Kind `kind` lost `ids`; the other kinds lost nothing. */
  ghost predicate Narrows(s: State, s': State, kind: SweepKind, ids: set<JobId>, lo: Time, hi: Time) {
    && Quiet(s', lo, hi)
    && forall other :: Due(s', lo, other) == if other == kind then Due(s, lo, kind) - ids else Due(s, lo, other)
  }

  lemma UpdateOfQuiet(s: State, at: Time, kind: SweepKind, limit: nat, ids: set<JobId>, lo: Time, hi: Time)
    requires Quiet(s, lo, hi) && lo <= at <= hi && Picks(s, at, kind, limit, {}, ids)
    ensures IsBatch(Due(s, lo, kind), limit, ids)
    ensures Narrows(s, Swept(s, at, kind, ids), kind, ids, lo, hi)
  {
    QuietDue(s, lo, hi, at, kind);
    PicksBatch(s, at, kind, limit, ids);
    SweptRows(s, at, kind, ids);
    var s' := Swept(s, at, kind, ids);
    forall other
      ensures Due(s', lo, other) == if other == kind then Due(s, lo, kind) - ids else Due(s, lo, other)
    {
      DueAfter(s, s', kind, ids, lo, hi, other);
    }
    DueAfter(s, s', kind, ids, lo, hi, kind);
  }

  lemma NarrowsThrice(s: State, s1: State, s2: State, s3: State, a: set<JobId>, b: set<JobId>, c: set<JobId>,
                      lo: Time, hi: Time)
    requires Narrows(s, s1, ToRetry, a, lo, hi)
    requires Narrows(s1, s2, ToDeadLetter, b, lo, hi)
    requires Narrows(s2, s3, ToFailed, c, lo, hi)
    ensures Due(s1, lo, ToDeadLetter) == Due(s, lo, ToDeadLetter)
    ensures Due(s2, lo, ToFailed) == Due(s, lo, ToFailed)
    ensures Due(s3, lo, ToRetry) == Due(s, lo, ToRetry) - a
    ensures Due(s3, lo, ToDeadLetter) == Due(s, lo, ToDeadLetter) - b
    ensures Due(s3, lo, ToFailed) == Due(s, lo, ToFailed) - c
  {
  }

  lemma ThreeUpdatesOfQuiet(s: State, at: SweepTimes, limit: nat, a: set<JobId>, b: set<JobId>, c: set<JobId>,
                            s3: State, lo: Time, hi: Time)
    requires UpdatesTo(s, at, limit, {}, a, b, c, s3)
    requires Quiet(s, lo, hi) && lo <= at.retry <= hi && lo <= at.bury <= hi && lo <= at.fail <= hi
    ensures Quiet(s3, lo, hi)
    ensures Takes(s, s3, lo, ToRetry, limit, a)
    ensures Takes(s, s3, lo, ToDeadLetter, limit, b)
    ensures Takes(s, s3, lo, ToFailed, limit, c)
  {
    var s1 := Swept(s, at.retry, ToRetry, a);
    var s2 := Swept(s1, at.bury, ToDeadLetter, b);
    UpdateOfQuiet(s, at.retry, ToRetry, limit, a, lo, hi);
    UpdateOfQuiet(s1, at.bury, ToDeadLetter, limit, b, lo, hi);
    UpdateOfQuiet(s2, at.fail, ToFailed, limit, c, lo, hi);
    NarrowsThrice(s, s1, s2, s3, a, b, c, lo, hi);
  }

  /** Kind `kind` lost a batch of its oldest expired leases: `ids`. */
  ghost predicate Takes(s: State, s': State, lo: Time, kind: SweepKind, limit: nat, ids: set<JobId>) {
    IsBatch(Due(s, lo, kind), limit, ids) && Due(s', lo, kind) == Due(s, lo, kind) - ids
  }

  /** A sweep with no rows locked takes a batch of the oldest expired leases of each kind, and nothing else. */
  lemma SweepTakesBatches(s: State, at: SweepTimes, limit: nat, recovered: seq<JobId>, s': State, lo: Time, hi: Time)
    requires SweepsTo(s, at, limit, {}, recovered, s')
    requires Quiet(s, lo, hi) && Within(at, lo, hi)
    ensures Quiet(s', lo, hi)
    ensures Takes(s, s', lo, ToRetry, limit, Part(s, recovered, ToRetry))
    ensures Takes(s, s', lo, ToDeadLetter, limit, Part(s, recovered, ToDeadLetter))
    ensures Takes(s, s', lo, ToFailed, limit, Part(s, recovered, ToFailed))
  {
    var a, b, c := Part(s, recovered, ToRetry), Part(s, recovered, ToDeadLetter), Part(s, recovered, ToFailed);
    var s3 := AfterUpdates(s, at, a, b, c);
    ThreeUpdatesOfQuiet(s, at, limit, a, b, c, s3, lo, hi);
    SameJobsSameDue(s3, s', lo, hi, ToRetry);
    SameJobsSameDue(s3, s', lo, hi, ToDeadLetter);
    SameJobsSameDue(s3, s', lo, hi, ToFailed);
  }

  lemma DueByColumn(s: State, at: Time, kind: SweepKind, id: JobId)
    ensures id in Due(s, at, kind) <==> MaySweep(s.jobs, kind, {}, at, id)
    ensures id in Due(s, at, kind) ==> Due(s, at, kind)[id] == s.jobs[id].leaseExpiresAt.value
  {
    assert id in Due(s, at, kind) <==> id in Expired(s, at, kind);
  }

  lemma PartIn(s: State, recovered: seq<JobId>, kind: SweepKind, at: Time, id: JobId)
    requires MaySweep(s.jobs, kind, {}, at, id)
    ensures id in Part(s, recovered, kind) <==> id in recovered
  {
  }

  /** Of two jobs on expired leases of one kind, a sweep with no rows locked leaves the later one: no recovered lease had
      expired after one that was left. */
  lemma SweepTakesOldest(s: State, at: SweepTimes, limit: nat, recovered: seq<JobId>, s': State, lo: Time, hi: Time,
                         kind: SweepKind, i: JobId, o: JobId)
    requires SweepsTo(s, at, limit, {}, recovered, s')
    requires Quiet(s, lo, hi) && Within(at, lo, hi)
    requires MaySweep(s.jobs, kind, {}, lo, i) && MaySweep(s.jobs, kind, {}, lo, o)
    requires i in recovered && o !in recovered
    ensures s.jobs[i].leaseExpiresAt.value <= s.jobs[o].leaseExpiresAt.value
  {
    SweepTakesBatches(s, at, limit, recovered, s', lo, hi);
    var due, picked := Due(s, lo, kind), Part(s, recovered, kind);
    assert IsBatch(due, limit, picked);
    PartIn(s, recovered, kind, lo, i);
    PartIn(s, recovered, kind, lo, o);
    DueByColumn(s, lo, kind, i);
    DueByColumn(s, lo, kind, o);
    assert i in picked && o in due.Keys - picked;
  }

  lemma SameJobsSameDue(s: State, s': State, lo: Time, hi: Time, kind: SweepKind)
    requires s'.jobs == s.jobs
    ensures Quiet(s, lo, hi) ==> Quiet(s', lo, hi)
    ensures Due(s', lo, kind) == Due(s, lo, kind)
  {
    assert Expired(s', lo, kind) == Expired(s, lo, kind);
  }

  lemma UpdatesChange(s: State, at: SweepTimes, a: set<JobId>, b: set<JobId>, c: set<JobId>, s3: State)
    requires UpdatesExpired(s, at, a, b, c, s3)
    ensures s3.jobs.Keys == s.jobs.Keys
    ensures forall id | id in s.jobs :: id in a + b + c <==> s3.jobs[id] != s.jobs[id]
  {
    var s1 := Swept(s, at.retry, ToRetry, a);
    var s2 := Swept(s1, at.bury, ToDeadLetter, b);
    UpdatesPartition(s, at, a, b, c, s3);
    SweptRows(s, at.retry, ToRetry, a);
    SweptRows(s1, at.bury, ToDeadLetter, b);
    SweptRows(s2, at.fail, ToFailed, c);
    forall id | id in a ensures s.jobs[id].status.Processing? {
      assert id in Expired(s, at.retry, ToRetry);
    }
    forall id | id in b ensures s1.jobs[id].status.Processing? {
      assert id in Expired(s1, at.bury, ToDeadLetter);
    }
    forall id | id in c ensures s2.jobs[id].status.Processing? {
      assert id in Expired(s2, at.fail, ToFailed);
    }
  }

  lemma PickedUpdatesChange(s: State, at: SweepTimes, limit: nat, skipped: set<JobId>,
                            a: set<JobId>, b: set<JobId>, c: set<JobId>, s3: State)
    requires UpdatesTo(s, at, limit, skipped, a, b, c, s3)
    ensures s3.jobs.Keys == s.jobs.Keys
    ensures forall id | id in s.jobs :: id in a + b + c <==> s3.jobs[id] != s.jobs[id]
  {
    UpdatesChange(s, at, a, b, c, s3);
  }

  /** The jobs whose row differs. */
  function Changed(s: State, s': State): set<JobId>
    requires s'.jobs.Keys == s.jobs.Keys
  {
    set id | id in s.jobs && s'.jobs[id] != s.jobs[id]
  }

  lemma AllChanged(s: State, ids: set<JobId>, s': State)
    requires s'.jobs.Keys == s.jobs.Keys && ids <= s.jobs.Keys
    requires forall id | id in s.jobs :: id in ids <==> s'.jobs[id] != s.jobs[id]
    ensures Changed(s, s') == ids
  {
  }

  /** What a sweep returns is exactly the jobs whose row it changed. */
  lemma SweepReturnsChanged(s: State, at: SweepTimes, limit: nat, skipped: set<JobId>, recovered: seq<JobId>, s': State)
    requires SweepsTo(s, at, limit, skipped, recovered, s')
    ensures s'.jobs.Keys == s.jobs.Keys
    ensures Changed(s, s') == SetOf(recovered)
  {
    var a, b, c := Part(s, recovered, ToRetry), Part(s, recovered, ToDeadLetter), Part(s, recovered, ToFailed);
    PickedUpdatesChange(s, at, limit, skipped, a, b, c, AfterUpdates(s, at, a, b, c));
    AllChanged(s, a + b + c, s');
  }

  // ---- repeated sweeps -----------------------------------------------------

  /** From `s` to `s'` no lease has been made to run out in the period, and none is due that was not. */
  ghost predicate NothingNewDue(s: State, s': State, lo: Time, hi: Time) {
    Quiet(s', lo, hi) && forall kind :: Due(s', lo, kind).Keys <= Due(s, lo, kind).Keys
  }

  /** A sweep ends by closing attempt rows, or fails to. */
  predicate IsClosing(ev: Event) {
    ev.SweepClose? || ev.SweepCloseFails?
  }

  /** Updates of sweeps one after the other, with other events in between, and the store after each. */
  datatype Rounds =
    | Initially(s: State)
    | Update(past: Rounds, kind: SweepKind, now: Time, ids: set<JobId>, s: State)
    | Meanwhile(past: Rounds, now: Time, ev: Event, s: State)
  {
    function First(): State {
      if Initially? then s else past.First()
    }

    /** The number of updates of kind `k`; each sweep makes one. */
    function Count(k: SweepKind): nat {
      if Initially? then 0 else past.Count(k) + if Update? && kind == k then 1 else 0
    }

    /** Each update takes a batch of size `limit` with no rows locked, within the time from `lo` to `hi`; what happens in
        between, be it between two sweeps or within one, makes no further lease run out. */
    ghost predicate Goes(limit: nat, lo: Time, hi: Time) {
      match this
      case Initially(_) => true
      case Update(_, _, _, _, _) =>
        && past.Goes(limit, lo, hi) && lo <= now <= hi
        && Picks(past.s, now, kind, limit, {}, ids) && s == Swept(past.s, now, kind, ids)
      case Meanwhile(_, _, _, _) =>
        past.Goes(limit, lo, hi) && Allowed(past.s, now, ev) && s == Apply(past.s, now, ev)
        && NothingNewDue(past.s, s, lo, hi)
    }

    /** Nothing but sweeps. */
    predicate Undisturbed() {
      Initially? || (past.Undisturbed() && (Meanwhile? ==> IsClosing(ev)))
    }
  }

  /** A job is only ever processing because it was, or by a lease; only a lease or a renewal moves the expiry. */
  lemma ProcessingStep(v: View, at: Time, a: Action)
    requires Enabled(v, at, a) && Effect(v, at, a).Is(Processing)
    ensures Effect(v, at, a).job == v.job
            || ((a.Lease? || a.Renew?) && Effect(v, at, a).job.value.leaseExpiresAt == Some(at + a.secs * SECOND))
  {
  }

  /** Each processing job of `s'` is as it was in `s`, or has a lease until `hi` at least. */
  ghost predicate LeasesReach(s: State, s': State, hi: Time) {
    forall id | id in s'.jobs && s'.jobs[id].status.Processing? ::
      || (id in s.jobs && s'.jobs[id] == s.jobs[id])
      || (s'.jobs[id].leaseExpiresAt.Some? && hi <= s'.jobs[id].leaseExpiresAt.value)
  }

  lemma ReachingLeasesAreNotDue(s: State, s': State, lo: Time, hi: Time)
    requires LeasesReach(s, s', hi) && Quiet(s, lo, hi) && lo <= hi
    ensures NothingNewDue(s, s', lo, hi)
  {
    forall id ensures id !in RunningOut(s', lo, hi) {
      assert id !in RunningOut(s, lo, hi);
    }
    forall kind, id | id in Due(s', lo, kind).Keys ensures id in Due(s, lo, kind).Keys {
      assert id in Expired(s', lo, kind);
      assert id in Expired(s, lo, kind);
    }
  }

  /** What may come in between: anything, so long as the leases it grants or renews run beyond the period. */
  lemma LongLeasesAreNeverDue(s: State, at: Time, ev: Event, lo: Time, hi: Time)
    requires Allowed(s, at, ev) && Quiet(s, lo, hi) && lo <= hi
    requires ev.LeaseNext? || ev.RenewLease? ==> hi <= at + ev.secs * SECOND
    ensures NothingNewDue(s, Apply(s, at, ev), lo, hi)
  {
    var s' := Apply(s, at, ev);
    forall id | id in s'.jobs && s'.jobs[id].status.Processing?
      ensures (id in s.jobs && s'.jobs[id] == s.jobs[id])
              || (s'.jobs[id].leaseExpiresAt.Some? && hi <= s'.jobs[id].leaseExpiresAt.value)
    {
      Projection(s, at, ev, id);
      ProcessingStep(ViewOf(s, id), at, ActionOn(s, ev, id));
    }
    ReachingLeasesAreNotDue(s, s', lo, hi);
  }

  /** Of `n`, up to `taken` are gone. */
  predicate Shrinks(n: nat, taken: nat, left: nat) {
    if n <= taken then left == 0 else left == n - taken
  }

  lemma BatchLeaves(due: map<JobId, Time>, limit: nat, picked: set<JobId>)
    requires IsBatch(due, limit, picked)
    ensures Shrinks(|due|, limit, |due - picked|)
  {
    assert (due - picked).Keys == due.Keys - picked;
    assert due.Keys == picked + (due.Keys - picked);
  }

  /** How many leases `k` batches may take. */
  function Capacity(k: nat, limit: nat): nat {
    if k == 0 then 0 else Capacity(k - 1, limit) + limit
  }

  lemma LastUpdateLeaves(r: Rounds, limit: nat, lo: Time, hi: Time, kind: SweepKind)
    requires r.Update? && r.Goes(limit, lo, hi) && Quiet(r.past.s, lo, hi)
    ensures Quiet(r.s, lo, hi)
    ensures r.kind == kind ==> Shrinks(|Due(r.past.s, lo, kind)|, limit, |Due(r.s, lo, kind)|)
    ensures r.kind != kind ==> |Due(r.s, lo, kind)| == |Due(r.past.s, lo, kind)|
  {
    UpdateOfQuiet(r.past.s, r.now, r.kind, limit, r.ids, lo, hi);
    assert Due(r.s, lo, kind) == if kind == r.kind then Due(r.past.s, lo, kind) - r.ids else Due(r.past.s, lo, kind);
    if r.kind == kind {
      BatchLeaves(Due(r.past.s, lo, kind), limit, r.ids);
    }
  }

  lemma ClosingKeepsJobs(s: State, at: Time, ev: Event)
    requires Allowed(s, at, ev) && IsClosing(ev)
    ensures Apply(s, at, ev).jobs == s.jobs
  {
  }

  lemma LastMeanwhileLeaves(r: Rounds, limit: nat, lo: Time, hi: Time, kind: SweepKind)
    requires r.Meanwhile? && r.Goes(limit, lo, hi)
    ensures Quiet(r.s, lo, hi)
    ensures |Due(r.s, lo, kind)| <= |Due(r.past.s, lo, kind)|
    ensures IsClosing(r.ev) ==> |Due(r.s, lo, kind)| == |Due(r.past.s, lo, kind)|
  {
    SubsetSize(Due(r.s, lo, kind), Due(r.past.s, lo, kind));
    if IsClosing(r.ev) {
      ClosingKeepsJobs(r.past.s, r.now, r.ev);
      SameJobsSameDue(r.past.s, r.s, lo, hi, kind);
    }
  }

  lemma SubsetSize(a: map<JobId, Time>, b: map<JobId, Time>)
    requires a.Keys <= b.Keys
    ensures |a| <= |b|
  {
    assert b.Keys == a.Keys + (b.Keys - a.Keys);
  }

  /** Update by update, the backlog of `kind` shrinks by `limit`, and never grows. */
  ghost predicate Declines(r: Rounds, limit: nat, lo: Time, hi: Time, kind: SweepKind) {
    && Quiet(r.s, lo, hi)
    && (!r.Initially? ==> Declines(r.past, limit, lo, hi, kind))
    && (r.Update? && r.kind == kind ==> Shrinks(|Due(r.past.s, lo, kind)|, limit, |Due(r.s, lo, kind)|))
    && (r.Update? && r.kind != kind ==> |Due(r.s, lo, kind)| == |Due(r.past.s, lo, kind)|)
    && (r.Meanwhile? ==> |Due(r.s, lo, kind)| <= |Due(r.past.s, lo, kind)|)
    && (r.Meanwhile? && IsClosing(r.ev) ==> |Due(r.s, lo, kind)| == |Due(r.past.s, lo, kind)|)
  }

  lemma {:induction false} SweepsDecline(r: Rounds, limit: nat, lo: Time, hi: Time, kind: SweepKind)
    requires r.Goes(limit, lo, hi) && Quiet(r.First(), lo, hi)
    ensures Declines(r, limit, lo, hi, kind)
  {
    match r
    case Initially(_) =>
    case Update(_, _, _, _, _) =>
      SweepsDecline(r.past, limit, lo, hi, kind);
      LastUpdateLeaves(r, limit, lo, hi, kind);
    case Meanwhile(_, _, _, _) =>
      SweepsDecline(r.past, limit, lo, hi, kind);
      LastMeanwhileLeaves(r, limit, lo, hi, kind);
  }

  /** Of `n`, at least `taken` are gone, or all. */
  predicate ShrinksAtLeast(n: nat, taken: nat, left: nat) {
    left <= if n <= taken then 0 else n - taken
  }

  lemma ShrinksTwice(n: nat, taken: nat, left: nat, limit: nat, left': nat)
    requires ShrinksAtLeast(n, taken, left) && Shrinks(left, limit, left')
    ensures ShrinksAtLeast(n, taken + limit, left')
    ensures Shrinks(n, taken, left) ==> Shrinks(n, taken + limit, left')
  {
  }

  lemma ShrinksStill(n: nat, taken: nat, left: nat, left': nat)
    requires ShrinksAtLeast(n, taken, left) && left' <= left
    ensures ShrinksAtLeast(n, taken, left')
    ensures Shrinks(n, taken, left) && left' == left ==> Shrinks(n, taken, left')
  {
  }

  lemma DeclineStep(r: Rounds, limit: nat, lo: Time, hi: Time, kind: SweepKind, n: nat, taken: nat)
    requires Declines(r, limit, lo, hi, kind) && !r.Initially?
    requires ShrinksAtLeast(n, taken, |Due(r.past.s, lo, kind)|)
    ensures var now := taken + if r.Update? && r.kind == kind then limit else 0;
            && ShrinksAtLeast(n, now, |Due(r.s, lo, kind)|)
            && (Shrinks(n, taken, |Due(r.past.s, lo, kind)|) && r.Undisturbed() ==>
                  Shrinks(n, now, |Due(r.s, lo, kind)|))
  {
    if r.Update? && r.kind == kind {
      ShrinksTwice(n, taken, |Due(r.past.s, lo, kind)|, limit, |Due(r.s, lo, kind)|);
    } else {
      ShrinksStill(n, taken, |Due(r.past.s, lo, kind)|, |Due(r.s, lo, kind)|);
    }
  }

  lemma CapacityGrows(r: Rounds, limit: nat, kind: SweepKind)
    requires !r.Initially?
    ensures Capacity(r.Count(kind), limit)
         == Capacity(r.past.Count(kind), limit) + if r.Update? && r.kind == kind then limit else 0
  {
  }

  lemma {:induction false} DeclineAddsUp(r: Rounds, limit: nat, lo: Time, hi: Time, kind: SweepKind)
    requires Declines(r, limit, lo, hi, kind)
    ensures Quiet(r.s, lo, hi)
    ensures ShrinksAtLeast(|Due(r.First(), lo, kind)|, Capacity(r.Count(kind), limit), |Due(r.s, lo, kind)|)
    ensures r.Undisturbed() ==>
              Shrinks(|Due(r.First(), lo, kind)|, Capacity(r.Count(kind), limit), |Due(r.s, lo, kind)|)
  {
    if !r.Initially? {
      DeclineAddsUp(r.past, limit, lo, hi, kind);
      CapacityGrows(r, limit, kind);
      DeclineStep(r, limit, lo, hi, kind, |Due(r.First(), lo, kind)|, Capacity(r.past.Count(kind), limit));
    }
  }

  /** While no further lease runs out, and whatever else happens between the sweeps and within them, `k` sweeps with
      batch size `limit` leave, of each kind, at most all but `k * limit` of the expired leases; exactly so many if
      nothing comes in between. */
  lemma SweepsConverge(r: Rounds, limit: nat, lo: Time, hi: Time, kind: SweepKind)
    requires r.Goes(limit, lo, hi) && Quiet(r.First(), lo, hi)
    ensures Quiet(r.s, lo, hi)
    ensures ShrinksAtLeast(|Due(r.First(), lo, kind)|, Capacity(r.Count(kind), limit), |Due(r.s, lo, kind)|)
    ensures r.Undisturbed() ==>
              Shrinks(|Due(r.First(), lo, kind)|, Capacity(r.Count(kind), limit), |Due(r.s, lo, kind)|)
  {
    SweepsDecline(r, limit, lo, hi, kind);
    DeclineAddsUp(r, limit, lo, hi, kind);
  }

  /** No job sits on an expired lease. */
  ghost predicate NoneExpired(s: State, at: Time) {
    forall id | id in s.jobs && s.jobs[id].status == Processing && s.jobs[id].leaseExpiresAt.Some? ::
      at <= s.jobs[id].leaseExpiresAt.value
  }

  /** No kind has more than `n` expired leases. */
  ghost predicate BacklogAtMost(s: State, at: Time, n: int) {
    forall kind :: |Due(s, at, kind)| <= n
  }

  lemma NoneExpiredIsNoBacklog(s: State, at: Time)
    ensures NoneExpired(s, at) <==> BacklogAtMost(s, at, 0)
  {
    if BacklogAtMost(s, at, 0) {
      forall id | id in s.jobs ensures !IsExpired(s.jobs[id], at) {
        var kind := KindOf(s.jobs[id]);
        assert |Due(s, at, kind)| == 0;
        assert id !in Due(s, at, kind);
      }
    } else {
      var kind :| |Due(s, at, kind)| > 0;
      var id :| id in Due(s, at, kind);
      assert IsExpired(s.jobs[id], at);
    }
  }

  lemma QuietNoneExpired(s: State, lo: Time, hi: Time)
    requires lo <= hi && Quiet(s, lo, hi)
    ensures NoneExpired(s, hi) <==> NoneExpired(s, lo)
  {
    forall id | id in s.jobs ensures IsExpired(s.jobs[id], hi) <==> IsExpired(s.jobs[id], lo) {
      assert id !in RunningOut(s, lo, hi);
    }
  }

  /** Every kind has at most as many expired leases as its updates in `r` may take. */
  ghost predicate Covered(r: Rounds, limit: nat, lo: Time) {
    forall kind :: |Due(r.First(), lo, kind)| <= Capacity(r.Count(kind), limit)
  }

  lemma DeclinesFreeAll(r: Rounds, limit: nat, lo: Time, hi: Time)
    requires forall kind :: Declines(r, limit, lo, hi, kind)
    ensures Covered(r, limit, lo) ==> BacklogAtMost(r.s, lo, 0)
    ensures r.Undisturbed() && BacklogAtMost(r.s, lo, 0) ==> Covered(r, limit, lo)
  {
    forall kind
      ensures |Due(r.First(), lo, kind)| <= Capacity(r.Count(kind), limit) ==> |Due(r.s, lo, kind)| <= 0
      ensures r.Undisturbed() && |Due(r.s, lo, kind)| <= 0 ==>
                |Due(r.First(), lo, kind)| <= Capacity(r.Count(kind), limit)
    {
      DeclineAddsUp(r, limit, lo, hi, kind);
    }
  }

  lemma {:induction false} CapacityIsProduct(k: nat, limit: nat)
    ensures Capacity(k, limit) == k * limit
  {
    if k > 0 {
      CapacityIsProduct(k - 1, limit);
    }
  }

  /** Each kind has had `k` updates: there have been `k` sweeps. */
  predicate Sweeps(r: Rounds, k: nat) {
    r.Count(ToRetry) == k && r.Count(ToDeadLetter) == k && r.Count(ToFailed) == k
  }

  lemma SweepsCover(r: Rounds, k: nat, limit: nat, lo: Time)
    requires Sweeps(r, k)
    ensures Covered(r, limit, lo) <==> BacklogAtMost(r.First(), lo, k * limit)
  {
    CapacityIsProduct(k, limit);
    forall kind ensures r.Count(kind) == k {
      match kind
      case ToRetry =>
      case ToDeadLetter =>
      case ToFailed =>
    }
  }

  /** The store is free of expired leases after `k` sweeps if `k` batches cover the largest kind; and only if, where
      nothing comes in between. */
  lemma SweepsFreeAll(r: Rounds, k: nat, limit: nat, lo: Time, hi: Time)
    requires r.Goes(limit, lo, hi) && Sweeps(r, k) && lo <= hi && Quiet(r.First(), lo, hi)
    ensures BacklogAtMost(r.First(), lo, k * limit) ==> NoneExpired(r.s, hi)
    ensures r.Undisturbed() ==> (NoneExpired(r.s, hi) <==> BacklogAtMost(r.First(), lo, k * limit))
  {
    SweepsCover(r, k, limit, lo);
    forall kind ensures Declines(r, limit, lo, hi, kind) {
      SweepsDecline(r, limit, lo, hi, kind);
    }
    DeclinesFreeAll(r, limit, lo, hi);
    SweepsConverge(r, limit, lo, hi, ToRetry);
    QuietNoneExpired(r.s, lo, hi);
    NoneExpiredIsNoBacklog(r.s, lo);
  }

  lemma ClosingIsRound(r: Rounds, limit: nat, at: Time, ids: set<JobId>, lo: Time, hi: Time) returns (r': Rounds)
    requires r.Goes(limit, lo, hi) && Quiet(r.First(), lo, hi) && lo <= hi && multiset(ids) <= r.s.closing
    ensures r'.Goes(limit, lo, hi) && r'.First() == r.First() && r'.s == Closed(r.s, at, ids)
    ensures forall kind :: r'.Count(kind) == r.Count(kind)
    ensures r.Undisturbed() ==> r'.Undisturbed()
  {
    SweepsDecline(r, limit, lo, hi, ToRetry);
    LongLeasesAreNeverDue(r.s, at, SweepClose(ids), lo, hi);
    r' := Meanwhile(r, at, SweepClose(ids), Closed(r.s, at, ids));
  }

  /** A whole sweep adds one update of each kind. */
  lemma SweepIsRound(r: Rounds, at: SweepTimes, limit: nat, a: set<JobId>, b: set<JobId>, c: set<JobId>, s3: State,
                     ids: set<JobId>, lo: Time, hi: Time)
    returns (r': Rounds)
    requires r.Goes(limit, lo, hi) && Quiet(r.First(), lo, hi) && lo <= hi && Within(at, lo, hi)
    requires UpdatesTo(r.s, at, limit, {}, a, b, c, s3) && multiset(ids) <= s3.closing
    ensures r'.Goes(limit, lo, hi) && r'.First() == r.First() && r'.s == Closed(s3, at.close, ids)
    ensures forall kind :: r'.Count(kind) == r.Count(kind) + 1
    ensures r.Undisturbed() ==> r'.Undisturbed()
  {
    r' := UpdatesAreRounds(r, at, limit, a, b, c, s3, lo, hi);
    r' := ClosingIsRound(r', limit, at.close, ids, lo, hi);
  }

  lemma UpdatesAreRounds(r: Rounds, at: SweepTimes, limit: nat, a: set<JobId>, b: set<JobId>, c: set<JobId>, s3: State,
                         lo: Time, hi: Time)
    returns (r': Rounds)
    requires r.Goes(limit, lo, hi) && Within(at, lo, hi) && UpdatesTo(r.s, at, limit, {}, a, b, c, s3)
    ensures r'.Goes(limit, lo, hi) && r'.First() == r.First() && r'.s == s3
    ensures forall kind :: r'.Count(kind) == r.Count(kind) + 1
    ensures r.Undisturbed() ==> r'.Undisturbed()
  {
    var r1 := Update(r, ToRetry, at.retry, a, Swept(r.s, at.retry, ToRetry, a));
    var r2 := Update(r1, ToDeadLetter, at.bury, b, Swept(r1.s, at.bury, ToDeadLetter, b));
    r' := Update(r2, ToFailed, at.fail, c, Swept(r2.s, at.fail, ToFailed, c));
    assert r1.Goes(limit, lo, hi);
    assert r2.Goes(limit, lo, hi);
    forall kind ensures r'.Count(kind) == r.Count(kind) + 1 {
      assert r'.Count(kind) == r2.Count(kind) + if kind == ToFailed then 1 else 0;
      assert r2.Count(kind) == r1.Count(kind) + if kind == ToDeadLetter then 1 else 0;
    }
    assert r1.First() == r.First() && r2.First() == r1.First();
    assert r.Undisturbed() ==> r1.Undisturbed() && r2.Undisturbed();
  }

  function KindOf(j: Job): (kind: SweepKind)
    ensures InKind(j, kind)
  {
    if !Exhausted(j) then ToRetry else if j.deadLetter then ToDeadLetter else ToFailed
  }

  // ---- the maintenance task ------------------------------------------------

  /** The gauge `q` has the same value, or none, in both. */
  predicate SameGauge(before: map<string, int>, after: map<string, int>, q: string) {
    if q in before then q in after && after[q] == before[q] else q !in after
  }

  /** The gauge of `q` after a query that found the tables `s`, or failed. */
  predicate Gauged(q: string, failed: bool, s: State, before: map<string, int>, after: map<string, int>) {
    if failed || q !in s.queues then SameGauge(before, after, q) else q in after && after[q] == |Waiting(s, q)|
  }

  /** Each query found what other sessions had made of what the one before it found. */
  ghost predicate Follow(s: State, others: Others, seen: seq<State>) {
    forall i :: 0 <= i < |seen| ==> seen[i] == others(i)(if i == 0 then s else seen[i - 1])
  }

  /** The gauge of each queue found is the number of its waiting jobs at the moment of its query, and all other gauges
      are as they were. */
  ghost predicate Refreshed(s: State, listed: seq<string>, others: Others, fails: nat -> bool, seen: seq<State>,
                            before: map<string, int>, after: map<string, int>, s': State)
  {
    && |seen| == |listed| && Follow(s, others, seen)
    && s' == (if seen == [] then s else seen[|seen| - 1])
    && (forall i :: 0 <= i < |listed| ==> Gauged(listed[i], fails(i), seen[i], before, after))
    && forall q :: q !in listed ==> SameGauge(before, after, q)
  }

  lemma FollowNext(s: State, others: Others, seen: seq<State>, s2: State)
    requires Follow(s, others, seen) && s2 == others(|seen|)(if seen == [] then s else seen[|seen| - 1])
    ensures Follow(s, others, seen + [s2])
  {
  }

  lemma GaugesKept(front: seq<string>, fails: nat -> bool, seen: seq<State>, q: string,
                   before: map<string, int>, gauges: map<string, int>, after: map<string, int>)
    requires |seen| == |front| && q !in front
    requires forall i :: 0 <= i < |front| ==> Gauged(front[i], fails(i), seen[i], before, gauges)
    requires forall p :: p != q ==> SameGauge(gauges, after, p)
    ensures forall i :: 0 <= i < |front| ==> Gauged(front[i], fails(i), seen[i], before, after)
  {
    forall i | 0 <= i < |front| ensures Gauged(front[i], fails(i), seen[i], before, after) {
      assert front[i] != q;
      assert SameGauge(gauges, after, front[i]);
    }
  }

  lemma RefreshedNext(s: State, listed: seq<string>, i: nat, others: Others, fails: nat -> bool, seen: seq<State>,
                      before: map<string, int>, gauges: map<string, int>, after: map<string, int>,
                      s1: State, s2: State)
    requires Distinct(listed) && i < |listed|
    requires Refreshed(s, listed[..i], others, fails, seen, before, gauges, s1) && s2 == others(i)(s1)
    requires if fails(i) || listed[i] !in s2.queues then after == gauges
             else after == gauges[listed[i] := |Waiting(s2, listed[i])|]
    ensures Refreshed(s, listed[..i + 1], others, fails, seen + [s2], before, after, s2)
  {
    var front, q := listed[..i], listed[i];
    assert listed[..i + 1] == front + [q];
    assert q !in front;
    assert SameGauge(before, gauges, q);
    assert Gauged(q, fails(i), s2, before, after);
    forall p | p != q ensures SameGauge(gauges, after, p) {
    }
    GaugesKept(front, fails, seen, q, before, gauges, after);
    forall k | 0 <= k < i + 1
      ensures Gauged((front + [q])[k], fails(k), (seen + [s2])[k], before, after)
    {
      if k < i {
        assert (front + [q])[k] == front[k] && (seen + [s2])[k] == seen[k];
      }
    }
    forall p | p !in front + [q] ensures SameGauge(before, after, p) {
      assert p !in front && p != q;
      assert SameGauge(gauges, after, p) && SameGauge(before, gauges, p);
    }
    FollowNext(s, others, seen, s2);
  }

  class Maintenance {
    const store: PgStore
    var queueDepth: map<string, int>

    constructor (store: PgStore)
      ensures this.store == store && queueDepth == map[]
    {
      this.store := store;
      queueDepth := map[];
    }

    /** The depth gauge of one queue, unless the query fails. */
    method RefreshDepth(q: string, failed: bool)
      modifies this`queueDepth
      ensures queueDepth == if failed || q !in store.queues then old(queueDepth)
                            else old(queueDepth)[q := |Waiting(store.Contents(), q)|]
    {
      var stats := store.QueueStats(q);
      if !failed && stats.Ok? {
        CountsAddUp(stats.value, store.Contents(), q);
        queueDepth := queueDepth[q := stats.value.queued + stats.value.scheduled + stats.value.retrying];
      }
    }

    /** The depth gauge of every listed queue, in turn. Other sessions come before each query, and a query may fail; then
        the gauge keeps its value. `seen`: the tables as each query found them. */
    method RefreshDepths(listed: seq<string>, others: Others, fails: nat -> bool) returns (ghost seen: seq<State>)
      requires Distinct(listed)
      modifies this, store
      ensures Refreshed(old(store.Contents()), listed, others, fails, seen, old(queueDepth), queueDepth,
                        store.Contents())
    {
      seen := [];
      for i := 0 to |listed|
        invariant Refreshed(old(store.Contents()), listed[..i], others, fails, seen, old(queueDepth), queueDepth,
                            store.Contents())
      {
        ghost var gauges, states := queueDepth, seen;
        store.Meanwhile(others(i));
        seen := seen + [store.Contents()];
        RefreshDepth(listed[i], fails(i));
        RefreshedNext(old(store.Contents()), listed, i, others, fails, states, old(queueDepth), gauges, queueDepth,
                      if i == 0 then old(store.Contents()) else states[i - 1], store.Contents());
      }
      assert listed[..|listed|] == listed;
    }

    /** Recovery, then the gauges, with other sessions in between. A recovery or a listing that fails is only logged. */
    method Sweep(batch: int, skipped: set<JobId>, at: SweepTimes, others: Others, failing: nat,
                 listFails: bool, later: Others, fails: nat -> bool)
      returns (ghost r: Result<seq<JobId>, QueueError>, ghost w: Sweeping, ghost swept: State,
               ghost listed: seq<string>, ghost seen: seq<State>)
      modifies this, store
      ensures batch < 0 ==> swept == old(store.Contents())
      ensures batch >= 0 ==>
                && w.Goes(at, batch, skipped, others) && w.First() == old(store.Contents())
                && SweepEnds(at, failing, w, swept, r)
      ensures listFails ==> store.Contents() == swept && queueDepth == old(queueDepth)
      ensures !listFails ==>
                && SetOf(listed) == swept.queues.Keys && Distinct(listed)
                && Refreshed(swept, listed, later, fails, seen, old(queueDepth), queueDepth, store.Contents())
    {
      r, w := store.RecoverExpiredLeases(batch, skipped, at, others, failing);
      swept := store.Contents();
      listed, seen := [], [];
      if !listFails {
        var names := store.ListQueues();
        listed := names;
        seen := RefreshDepths(names, later, fails);
      }
    }
  }
}
