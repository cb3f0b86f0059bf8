/** The operations of several statements, among other sessions: if what the others do is what runs of the store do, the
    operation as a whole is, too. */
module Sessions {
  import opened Basics
  import opened Model
  import opened Lifecycle
  import opened Tables
  import opened Safety
  import opened Store

  /** `r'` is the run `r` with more events. */
  ghost predicate Continues(r': Run, r: Run) {
    r' == r || (r'.Next? && Continues(r'.past, r))
  }

  predicate Before(r: Run, at: Time) {
    r.Next? ==> r.at <= at
  }

  /** A run from `r` to the tables `s`, over by the time `hi`. */
  ghost predicate Leads(r: Run, r': Run, s: State, hi: Time) {
    Valid(r') && Continues(r', r) && StateOf(r') == s && Before(r', hi)
  }

  lemma {:induction false} ContinuesOn(r: Run, r1: Run, r2: Run)
    requires Continues(r1, r) && Continues(r2, r1)
    ensures Continues(r2, r)
  {
    if r2 != r1 {
      ContinuesOn(r, r1, r2.past);
    }
  }

  lemma LeadsOn(r: Run, r1: Run, s1: State, r2: Run, s2: State, mid: Time, hi: Time)
    requires Leads(r, r1, s1, mid) && Leads(r1, r2, s2, hi)
    ensures Leads(r, r2, s2, hi)
  {
    ContinuesOn(r, r1, r2);
  }

  lemma OneMore(r: Run, at: Time, ev: Event)
    requires Valid(r) && Before(r, at) && Allowed(StateOf(r), at, ev)
    ensures Leads(r, Next(r, at, ev), Apply(StateOf(r), at, ev), at)
  {
    assert Continues(Next(r, at, ev).past, r);
  }

  /** From any run over by `lo`, `f` is what some events do, over by `hi`. */
  ghost predicate RunsOn(f: State -> State, lo: Time, hi: Time) {
    forall r | Valid(r) && Before(r, lo) :: exists r' :: Leads(r, r', f(StateOf(r)), hi)
  }

  lemma ThenOthers(r: Run, at: Time, ev: Event, f: State -> State, hi: Time) returns (r': Run)
    requires Valid(r) && Before(r, at) && Allowed(StateOf(r), at, ev) && RunsOn(f, at, hi)
    ensures Leads(r, r', f(Apply(StateOf(r), at, ev)), hi)
  {
    OneMore(r, at, ev);
    var r1 := Next(r, at, ev);
    r' :| Leads(r1, r', f(StateOf(r1)), hi);
    LeadsOn(r, r1, StateOf(r1), r', StateOf(r'), at, hi);
  }

  lemma OthersThen(r: Run, r1: Run, s: State, mid: Time, f: State -> State, hi: Time) returns (r': Run)
    requires Leads(r, r1, s, mid) && RunsOn(f, mid, hi)
    ensures Leads(r, r', f(s), hi)
  {
    r' :| Leads(r1, r', f(s), hi);
    LeadsOn(r, r1, s, r', f(s), mid, hi);
  }

  lemma ThenEvent(r: Run, r1: Run, s: State, mid: Time, at: Time, ev: Event) returns (r': Run)
    requires Leads(r, r1, s, mid) && mid <= at && Allowed(s, at, ev)
    ensures Leads(r, r', Apply(s, at, ev), at)
  {
    OneMore(r1, at, ev);
    r' := Next(r1, at, ev);
    LeadsOn(r, r1, s, r', Apply(s, at, ev), mid, at);
  }

  // ---- redrive, failure ----------------------------------------------------

  /** A redrive whose DELETE comes at `later`, if the others leave it that to do. */
  lemma RetryIsRun(r: Run, id: JobId, now: Time, later: Time, others: Others, deleteFails: bool) returns (r': Run)
    requires Valid(r) && Before(r, now) && Redrivable(StateOf(r), id) && RunsOn(others(0), now, later)
    requires id in others(0)(Apply(StateOf(r), now, RetryUpdate(id))).deleting
    ensures var s := others(0)(Apply(StateOf(r), now, RetryUpdate(id)));
            Leads(r, r', if deleteFails then EntryKept(s, id) else EntryDeleted(s, id), later)
  {
    var r1 := ThenOthers(r, now, RetryUpdate(id), others(0), later);
    var s := StateOf(r1);
    r' := ThenEvent(r, r1, s, later, later, if deleteFails then RetryDeleteFails(id) else RetryDelete(id));
  }

  lemma FailIsRun(r: Run, id: JobId, worker: WorkerId, error: string, timedOut: bool, now: Time, later: Time,
                  others: Others)
    returns (r': Run)
    requires Valid(r) && Before(r, now) && RunsOn(others(0), now, later)
    ensures Leads(r, r', others(0)(Apply(StateOf(r), now, FailJob(id, worker, error, timedOut))), later)
  {
    r' := ThenOthers(r, now, FailJob(id, worker, error, timedOut), others(0), later);
  }

  // ---- submission ----------------------------------------------------------

  /** `ensured`, `looked`: when the first two statements come; the INSERT comes at `now`. */
  lemma SubmitIsRun(r: Run, ensured: Time, looked: Time, now: Time, later: Time, n: NormalizedJob, newId: JobId,
                    others: Others, s': State, result: Result<Submission, QueueError>)
    returns (r': Run)
    requires Valid(r) && Before(r, ensured) && ensured <= looked <= now <= later
    requires RunsOn(others(0), ensured, looked) && RunsOn(others(1), looked, now) && RunsOn(others(2), now, later)
    requires WellFormed(n)
    requires var t := AtInsert(StateOf(r), now, n, others);
             n.queue in t.queues && (newId in t.minted ==> newId in t.jobs)
    requires SubmitsTo(StateOf(r), now, n, newId, others, s', result)
    ensures Leads(r, r', s', later)
  {
    var r2 := ThenOthers(r, ensured, EnsureQueue(n.queue), others(0), looked);
    if KeyTaken(StateOf(r2), n.queue, n.idempotencyKey) {
      return r2;
    }
    var r3 := OthersThen(r, r2, StateOf(r2), looked, others(1), now);
    r' := InsertIsRun(r, r3, now, later, n, newId, others(2), s');
  }

  /** The INSERT, or the second look-up. */
  lemma InsertIsRun(r: Run, r3: Run, now: Time, later: Time, n: NormalizedJob, newId: JobId, others: State -> State,
                    s': State)
    returns (r': Run)
    requires Valid(r3) && Leads(r, r3, StateOf(r3), now) && now <= later && RunsOn(others, now, later)
    requires var t := StateOf(r3);
             && WellFormed(n) && n.queue in t.queues && (newId in t.minted ==> newId in t.jobs)
             && s' == if newId !in t.jobs && !KeyTaken(t, n.queue, n.idempotencyKey) then Apply(t, now, Insert(newId, n))
                      else if n.idempotencyKey.None? then t else others(t)
    ensures Leads(r, r', s', later)
  {
    var t := StateOf(r3);
    if newId !in t.jobs && !KeyTaken(t, n.queue, n.idempotencyKey) {
      r' := ThenEvent(r, r3, t, now, now, Insert(newId, n));
    } else if n.idempotencyKey.None? {
      r' := r3;
    } else {
      r' := OthersThen(r, r3, t, now, others, later);
    }
  }

  // ---- sweep ---------------------------------------------------------------

  /** When the statement `k` of a sweep comes. */
  function Slot(at: SweepTimes, k: nat): Time {
    if k == 0 then at.retry else if k == 1 then at.bury else if k == 2 then at.fail else at.close
  }

  predicate InOrder(at: SweepTimes) {
    at.retry <= at.bury <= at.fail <= at.close
  }

  /** Between its statements the others do what runs of the store do. */
  ghost predicate SessionsRun(at: SweepTimes, others: Others) {
    && RunsOn(others(0), Slot(at, 0), Slot(at, 1))
    && RunsOn(others(1), Slot(at, 1), Slot(at, 2))
    && RunsOn(others(2), Slot(at, 2), Slot(at, 3))
  }

  /** The last update of `w`. */
  lemma UpdatePicks(w: Sweeping, at: SweepTimes, limit: nat, skipped: set<JobId>, others: Others)
    requires w.Updated? && w.Goes(at, limit, skipped, others) && w.Steps() <= 3
    ensures w.past.Goes(at, limit, skipped, others)
    ensures var k := w.past.Steps();
            && Picks(w.past.s, Slot(at, k), KindAt(k), limit, skipped, w.ids)
            && w.s == others(k)(Swept(w.past.s, Slot(at, k), KindAt(k), w.ids))
  {
  }

  lemma SlotRuns(at: SweepTimes, others: Others, k: nat)
    requires SessionsRun(at, others) && k < 3
    ensures RunsOn(others(k), Slot(at, k), Slot(at, k + 1))
  {
  }

  lemma UpdateIsRun(r: Run, at: SweepTimes, k: nat, limit: nat, skipped: set<JobId>, ids: set<JobId>, others: Others)
    returns (r': Run)
    requires Valid(r) && Before(r, Slot(at, k)) && k < 3 && SessionsRun(at, others)
    requires Picks(StateOf(r), Slot(at, k), KindAt(k), limit, skipped, ids)
    ensures Leads(r, r', others(k)(Swept(StateOf(r), Slot(at, k), KindAt(k), ids)), Slot(at, k + 1))
  {
    SlotRuns(at, others, k);
    r' := ThenOthers(r, Slot(at, k), SweepUpdate(KindAt(k), limit, skipped, ids), others(k), Slot(at, k + 1));
  }

  lemma LastUpdateIsRun(r: Run, r1: Run, w: Sweeping, at: SweepTimes, limit: nat, skipped: set<JobId>, others: Others)
    returns (r': Run)
    requires w.Updated? && w.Goes(at, limit, skipped, others) && w.Steps() <= 3 && SessionsRun(at, others)
    requires Leads(r, r1, w.past.s, Slot(at, w.past.Steps()))
    ensures Leads(r, r', w.s, Slot(at, w.Steps()))
  {
    UpdatePicks(w, at, limit, skipped, others);
    var k := w.past.Steps();
    r' := UpdateIsRun(r1, at, k, limit, skipped, w.ids, others);
    LeadsOn(r, r1, w.past.s, r', w.s, Slot(at, k), Slot(at, k + 1));
  }

  lemma {:induction false} UpdatesAreRun(w: Sweeping, at: SweepTimes, limit: nat, skipped: set<JobId>, others: Others,
                                         r: Run)
    returns (r': Run)
    requires w.Goes(at, limit, skipped, others) && w.Steps() <= 3 && SessionsRun(at, others)
    requires Valid(r) && Before(r, Slot(at, 0)) && StateOf(r) == w.First()
    ensures Leads(r, r', w.s, Slot(at, w.Steps()))
  {
    r' := r;
    if w.Updated? {
      var r1 := UpdatesAreRun(w.past, at, limit, skipped, others, r);
      r' := LastUpdateIsRun(r, r1, w, at, limit, skipped, others);
    }
  }

  function PickedSet(w: Sweeping): set<JobId> {
    if w.Began? then {} else PickedSet(w.past) + w.ids
  }

  lemma {:induction false} PickedAlike(w: Sweeping, id: JobId)
    ensures id in w.Picked() <==> id in PickedSet(w)
  {
    if w.Updated? {
      PickedAlike(w.past, id);
    }
  }

  lemma ClosedTwice(rows: seq<AttemptRow>, a: set<JobId>, b: set<JobId>, at: Time)
    ensures CloseRunning(CloseRunning(rows, a, OnSweep, at), b, OnSweep, at) == CloseRunning(rows, a + b, OnSweep, at)
  {
  }

  function ClosedSet(s: State, at: Time, ids: set<JobId>, picked: multiset<JobId>): State {
    s.(attempts := CloseRunning(s.attempts, ids, OnSweep, at), closing := s.closing - picked)
  }

  lemma ClosedNext(s: State, at: Time, a: set<JobId>, m: multiset<JobId>, b: set<JobId>)
    requires m + multiset(b) <= s.closing
    ensures multiset(b) <= ClosedSet(s, at, a, m).closing
    ensures Closed(ClosedSet(s, at, a, m), at, b) == ClosedSet(s, at, a + b, m + multiset(b))
  {
    ClosedTwice(s.attempts, a, b, at);
    assert s.closing - m - multiset(b) == s.closing - (m + multiset(b));
  }

  /** The closing statement is one event for what each update picked: a job picked twice is closed twice. */
  lemma {:induction false} ClosingIsRun(w: Sweeping, at: Time, r: Run) returns (r': Run)
    requires Valid(r) && Before(r, at) && w.Picked() <= StateOf(r).closing
    ensures Leads(r, r', ClosedSet(StateOf(r), at, PickedSet(w), w.Picked()), at)
  {
    if w.Began? {
      r' := r;
      CloseNothing(StateOf(r).attempts, OnSweep, at);
      assert StateOf(r).closing - multiset{} == StateOf(r).closing;
    } else {
      var r1 := ClosingIsRun(w.past, at, r);
      ClosedNext(StateOf(r), at, PickedSet(w.past), w.past.Picked(), w.ids);
      OneMore(r1, at, SweepClose(w.ids));
      r' := Next(r1, at, SweepClose(w.ids));
      LeadsOn(r, r1, StateOf(r1), r', StateOf(r'), at, at);
    }
  }

  /** So is its failure. */
  lemma {:induction false} GivingUpIsRun(w: Sweeping, at: Time, r: Run) returns (r': Run)
    requires Valid(r) && Before(r, at) && w.Picked() <= StateOf(r).closing
    ensures Leads(r, r', GivenUp(StateOf(r), w.Picked()), at)
  {
    if w.Began? {
      r' := r;
      assert StateOf(r).closing - multiset{} == StateOf(r).closing;
    } else {
      var r1 := GivingUpIsRun(w.past, at, r);
      assert multiset(w.ids) <= StateOf(r1).closing;
      assert StateOf(r).closing - w.past.Picked() - multiset(w.ids) == StateOf(r).closing - w.Picked();
      OneMore(r1, at, SweepCloseFails(w.ids));
      r' := Next(r1, at, SweepCloseFails(w.ids));
      LeadsOn(r, r1, StateOf(r1), r', StateOf(r'), at, at);
    }
  }

  /** The end of a sweep. */
  lemma EndIsRun(r: Run, w: Sweeping, at: SweepTimes, failing: nat, s': State, result: Result<seq<JobId>, QueueError>)
    returns (r': Run)
    requires Valid(r) && Before(r, at.close) && StateOf(r) == w.s
    requires SweepEnds(at, failing, w, s', result) && w.Picked() <= w.s.closing
    ensures Leads(r, r', s', at.close)
  {
    if result.Err? {
      r' := GivingUpIsRun(w, at.close, r);
    } else {
      r' := ClosingIsRun(w, at.close, r);
      forall id ensures id in SetOf(result.value) <==> id in PickedSet(w) {
        PickedAlike(w, id);
        assert id in result.value <==> id in multiset(result.value);
      }
      assert SetOf(result.value) == PickedSet(w);
    }
  }

  lemma SlotBefore(at: SweepTimes, k: nat)
    requires InOrder(at) && k <= 3
    ensures Slot(at, k) <= at.close
  {
  }

  /** A sweep, failing or not, whose closing the others leave to it. */
  lemma SweepIsRun(r: Run, at: SweepTimes, limit: nat, skipped: set<JobId>, others: Others, failing: nat, w: Sweeping,
                   s': State, result: Result<seq<JobId>, QueueError>)
    returns (r': Run)
    requires Valid(r) && Before(r, at.retry) && InOrder(at) && SessionsRun(at, others)
    requires w.Goes(at, limit, skipped, others) && w.First() == StateOf(r)
    requires SweepEnds(at, failing, w, s', result) && w.Picked() <= w.s.closing
    ensures Leads(r, r', s', at.close)
  {
    var r1 := UpdatesAreRun(w, at, limit, skipped, others, r);
    SlotBefore(at, w.Steps());
    r' := EndIsRun(r1, w, at, failing, s', result);
    LeadsOn(r, r1, w.s, r', s', Slot(at, w.Steps()), at.close);
  }
}
