/** Leasing under concurrency: lease transactions hold row locks while they are open, other statements run in between,
    and transactions commit or roll back. Also the order in which repeated leasing empties the queues. */
module Leasing {
  import opened Basics
  import opened Status
  import opened Lifecycle
  import opened Tables
  import opened Store

  type TxId = nat

  /** An open lease transaction: it has locked the row `picked` with timestamp `at`; `inserted` once its attempt row is
      written. Nothing of it is visible to others before it commits. */
  datatype Tx = Tx(worker: WorkerId, secs: int, at: Time, picked: JobId, inserted: bool)

  datatype System = System(tables: State, open: map<TxId, Tx>)

  datatype Step =
    | Pick(tx: TxId, worker: WorkerId, serves: set<string>, secs: int, id: JobId)
    | InsertAttempt(tx: TxId)
    | Commit(tx: TxId)
    | Rollback(tx: TxId)
    | Other(ev: Event)

  function Locked(sys: System): set<JobId> {
    set t | t in sys.open :: sys.open[t].picked
  }

  /** FOR UPDATE SKIP LOCKED picks the first unlocked eligible row; any other statement waits for the locks on the rows
      it would change. */
  ghost predicate CanStep(sys: System, at: Time, step: Step) {
    match step
    case Pick(tx, _, serves, _, id) =>
      tx !in sys.open && IsFirst(sys.tables.jobs, Eligible(sys.tables, at, serves) - Locked(sys), id)
    case InsertAttempt(tx) => tx in sys.open && !sys.open[tx].inserted
    case Commit(tx) => tx in sys.open && sys.open[tx].inserted && sys.open[tx].picked in sys.tables.jobs
    case Rollback(tx) => tx in sys.open
    case Other(ev) =>
      && !ev.LeaseNext? && Allowed(sys.tables, at, ev)
      && forall id | id in Locked(sys) :: ActionOn(sys.tables, ev, id).Pass?
  }

  ghost function DoStep(sys: System, at: Time, step: Step): System
    requires CanStep(sys, at, step)
  {
    match step
    case Pick(tx, worker, _, secs, id) => sys.(open := sys.open[tx := Tx(worker, secs, at, id, false)])
    case InsertAttempt(tx) => sys.(open := sys.open[tx := sys.open[tx].(inserted := true)])
    case Commit(tx) =>
      var t := sys.open[tx];
      System(Leased(sys.tables, t.at, t.worker, t.secs, t.picked), sys.open - {tx})
    case Rollback(tx) => sys.(open := sys.open - {tx})
    case Other(ev) => sys.(tables := Apply(sys.tables, at, ev))
  }

  datatype Interleaving = Start | And(past: Interleaving, at: Time, step: Step)

  ghost predicate Valid(r: Interleaving)
    decreases r, 0
  {
    match r
    case Start => true
    case And(past, at, step) => Valid(past) && (past.And? ==> past.at <= at) && CanStep(SystemOf(past), at, step)
  }

  ghost function SystemOf(r: Interleaving): System
    requires Valid(r)
    decreases r, 1
  {
    match r
    case Start => System(EMPTY, map[])
    case And(past, at, step) => DoStep(SystemOf(past), at, step)
  }

  // ---- every interleaving --------------------------------------------------

  /** The actions committed on the job `id`, each at the time it took effect. */
  ghost function Committed(r: Interleaving, id: JobId): History
    requires Valid(r)
  {
    match r
    case Start => Empty
    case And(past, at, step) =>
      var h := Committed(past, id);
      match step
      case Commit(tx) =>
        var t := SystemOf(past).open[tx];
        if t.picked == id then Then(h, t.at, Lease(t.worker, t.secs)) else h
      case Other(ev) =>
        var a := ActionOn(SystemOf(past).tables, ev, id);
        if a.Pass? then h else Then(h, at, a)
      case _ => h
  }

  /** An open transaction holds a row that is still eligible by its own clock, and that nobody else holds. */
  ghost predicate Holds(sys: System, tx: TxId)
    requires tx in sys.open
  {
    var t := sys.open[tx];
    && t.picked in sys.tables.jobs
    && sys.tables.jobs[t.picked].status.IsLeaseable()
    && sys.tables.jobs[t.picked].runAt <= t.at
    && forall o | o in sys.open && o != tx :: sys.open[o].picked != t.picked
  }

  ghost predicate LocksHeld(sys: System) {
    forall tx | tx in sys.open :: Holds(sys, tx)
  }

  lemma OtherKeepsLocked(sys: System, at: Time, ev: Event, id: JobId)
    requires CanStep(sys, at, Other(ev)) && id in Locked(sys)
    ensures ViewOf(Apply(sys.tables, at, ev), id) == ViewOf(sys.tables, id)
  {
    Projection(sys.tables, at, ev, id);
  }

  lemma LocksStep(sys: System, at: Time, step: Step)
    requires LocksHeld(sys) && CanStep(sys, at, step)
    ensures LocksHeld(DoStep(sys, at, step))
  {
    var sys' := DoStep(sys, at, step);
    forall tx | tx in sys'.open ensures Holds(sys', tx) {
      match step
      case Pick(t, _, serves, _, id) =>
        assert id in Eligible(sys.tables, at, serves);
        if tx == t {
          forall o | o in sys.open ensures sys.open[o].picked != id {
            assert sys.open[o].picked in Locked(sys);
          }
        } else {
          assert Holds(sys, tx);
          assert sys.open[tx].picked in Locked(sys);
        }
      case Other(ev) =>
        assert Holds(sys, tx);
        assert sys.open[tx].picked in Locked(sys);
        OtherKeepsLocked(sys, at, ev, sys.open[tx].picked);
        assert ViewOf(sys'.tables, sys.open[tx].picked).job == ViewOf(sys.tables, sys.open[tx].picked).job;
      case _ =>
        assert Holds(sys, tx);
    }
  }

  /** In every interleaving the locked rows are pairwise different and stay eligible until commit or rollback. */
  lemma {:induction false} LocksAreDisjoint(r: Interleaving)
    requires Valid(r)
    ensures LocksHeld(SystemOf(r))
  {
    if r.And? {
      LocksAreDisjoint(r.past);
      LocksStep(SystemOf(r.past), r.at, r.step);
    }
  }

  /** The clock is past everything committed, and past what each open transaction started from. */
  ghost predicate ClockAhead(r: Interleaving, id: JobId)
    requires Valid(r)
  {
    var h := Committed(r, id);
    h.Then? ==>
      && r.And? && h.at <= r.at
      && forall tx | tx in SystemOf(r).open && SystemOf(r).open[tx].picked == id :: h.at <= SystemOf(r).open[tx].at
  }

  lemma ClockStep(r: Interleaving, id: JobId)
    requires Valid(r) && r.And? && ClockAhead(r.past, id) && LocksHeld(SystemOf(r.past))
    ensures ClockAhead(r, id)
  {
    var sys := SystemOf(r.past);
    match r.step
    case Commit(tx) =>
      assert Holds(sys, tx);
      if sys.open[tx].picked == id {
        TxNotAhead(r.past, tx);
        forall o | o in SystemOf(r).open ensures SystemOf(r).open[o].picked != id {
          assert o in sys.open && o != tx;
        }
      }
    case Other(ev) =>
      forall tx | tx in sys.open && sys.open[tx].picked == id ensures ActionOn(sys.tables, ev, id).Pass? {
        assert id in Locked(sys);
      }
    case _ =>
  }

  lemma {:induction false} TxNotAhead(r: Interleaving, tx: TxId)
    requires Valid(r) && tx in SystemOf(r).open
    ensures r.And? && SystemOf(r).open[tx].at <= r.at
  {
    if r.And? && tx in SystemOf(r.past).open {
      TxNotAhead(r.past, tx);
    }
  }

  /** Every interleaving is serializable job by job: what it committed on a job is a legal history of atomic actions,
      in which each committed transaction is one atomic lease and a rolled-back one has left no trace. */
  lemma {:induction false} InterleavingsSerialize(r: Interleaving, id: JobId)
    requires Valid(r)
    ensures Legal(id, Committed(r, id)) && After(id, Committed(r, id)) == ViewOf(SystemOf(r).tables, id)
    ensures ClockAhead(r, id)
  {
    if r.And? {
      InterleavingsSerialize(r.past, id);
      LocksAreDisjoint(r.past);
      ClockStep(r, id);
      var sys := SystemOf(r.past);
      match r.step
      case Commit(tx) =>
        var t := sys.open[tx];
        assert Holds(sys, tx);
        ProjectLeased(sys.tables, t.at, t.worker, t.secs, t.picked, id);
      case Other(ev) =>
        Projection(sys.tables, r.at, ev, id);
      case _ =>
    }
  }

  // ---- what other sessions may rely on -------------------------------------

  /** The job as if every open transaction had committed. */
  ghost function Seen(sys: System, id: JobId): View
    requires LocksHeld(sys)
  {
    if id in Locked(sys) then
      var tx :| tx in sys.open && sys.open[tx].picked == id;
      assert Holds(sys, tx);
      var t := sys.open[tx];
      Effect(ViewOf(sys.tables, id), t.at, Lease(t.worker, t.secs))
    else ViewOf(sys.tables, id)
  }

  lemma SeenThrough(sys: System, tx: TxId)
    requires LocksHeld(sys) && tx in sys.open
    ensures Holds(sys, tx)
    ensures var t := sys.open[tx];
            Seen(sys, t.picked) == Effect(ViewOf(sys.tables, t.picked), t.at, Lease(t.worker, t.secs))
  {
    assert Holds(sys, tx);
    assert sys.open[tx].picked in Locked(sys);
  }

  /** The job is eligible once open transactions are counted as committed. */
  ghost predicate SeenEligible(sys: System, at: Time, serves: set<string>, id: JobId)
    requires LocksHeld(sys)
  {
    var v := Seen(sys, id);
    && v.job.Some?
    && v.job.value.queue in serves && v.job.value.queue in sys.tables.queues && !sys.tables.queues[v.job.value.queue]
    && v.job.value.status in {Queued, Scheduled, Retrying} && v.job.value.runAt <= at
  }

  lemma SeenEligibleIsUnlocked(sys: System, at: Time, serves: set<string>, id: JobId)
    requires LocksHeld(sys)
    ensures SeenEligible(sys, at, serves, id) <==> id in Eligible(sys.tables, at, serves) - Locked(sys)
  {
    if id in Locked(sys) {
      var tx :| tx in sys.open && sys.open[tx].picked == id;
      SeenThrough(sys, tx);
    }
  }

  /** Skipping locked rows loses nothing: a pick is one atomic lease of the best job there is, counting open
      transactions as committed, and changes no other job. */
  lemma PickIsOneLease(sys: System, at: Time, tx: TxId, worker: WorkerId, serves: set<string>, secs: int, id: JobId)
    requires LocksHeld(sys) && CanStep(sys, at, Pick(tx, worker, serves, secs, id))
    ensures SeenEligible(sys, at, serves, id)
    ensures forall o | SeenEligible(sys, at, serves, o) ::
              var first, other := Seen(sys, id).job.value, Seen(sys, o).job.value;
              && !(other.priority > first.priority)
              && !(other.priority == first.priority && other.runAt < first.runAt)
              && !(other.priority == first.priority && other.runAt == first.runAt && other.createdAt < first.createdAt)
    ensures var sys' := DoStep(sys, at, Pick(tx, worker, serves, secs, id));
            && LocksHeld(sys')
            && Seen(sys', id) == Effect(Seen(sys, id), at, Lease(worker, secs))
            && forall o | o != id :: Seen(sys', o) == Seen(sys, o)
  {
    var step := Pick(tx, worker, serves, secs, id);
    LocksStep(sys, at, step);
    var sys' := DoStep(sys, at, step);
    SeenEligibleIsUnlocked(sys, at, serves, id);
    forall o | SeenEligible(sys, at, serves, o)
      ensures LeaseOrder(Seen(sys, id).job.value, Seen(sys, o).job.value)
    {
      SeenEligibleIsUnlocked(sys, at, serves, o);
    }
    SeenThrough(sys', tx);
    forall o | o != id ensures Seen(sys', o) == Seen(sys, o) {
      OthersSeenAlike(sys, sys', o);
    }
  }

  lemma OthersSeenAlike(sys: System, sys': System, o: JobId)
    requires LocksHeld(sys) && LocksHeld(sys')
    requires ViewOf(sys.tables, o) == ViewOf(sys'.tables, o)
    requires forall t | t in sys.open && sys.open[t].picked == o ::
               t in sys'.open && sys'.open[t].(inserted := false) == sys.open[t].(inserted := false)
    requires forall t | t in sys'.open && sys'.open[t].picked == o :: t in sys.open && sys.open[t].picked == o
    ensures Seen(sys', o) == Seen(sys, o)
  {
    if o in Locked(sys) {
      var t :| t in sys.open && sys.open[t].picked == o;
      SeenThrough(sys, t);
      SeenThrough(sys', t);
    } else {
      forall t | t in sys'.open ensures sys'.open[t].picked != o {
        assert t in sys.open ==> sys.open[t].picked in Locked(sys);
      }
    }
  }

  /** A commit changes nothing that counting it as committed had not changed already; a rollback gives the row back
      untouched and changes no table. */
  lemma CommitAndRollback(sys: System, at: Time, tx: TxId)
    requires LocksHeld(sys) && tx in sys.open
    ensures CanStep(sys, at, Commit(tx)) ==>
              var sys' := DoStep(sys, at, Commit(tx));
              LocksHeld(sys') && forall o :: Seen(sys', o) == Seen(sys, o)
    ensures var sys' := DoStep(sys, at, Rollback(tx));
            && LocksHeld(sys')
            && sys'.tables == sys.tables
            && Seen(sys', sys.open[tx].picked) == ViewOf(sys.tables, sys.open[tx].picked)
            && forall o | o != sys.open[tx].picked :: Seen(sys', o) == Seen(sys, o)
  {
    var t := sys.open[tx];
    SeenThrough(sys, tx);
    if CanStep(sys, at, Commit(tx)) {
      LocksStep(sys, at, Commit(tx));
      var sys' := DoStep(sys, at, Commit(tx));
      forall o ensures Seen(sys', o) == Seen(sys, o) {
        ProjectLeased(sys.tables, t.at, t.worker, t.secs, t.picked, o);
        if o == t.picked {
          NotLockedTwice(sys, sys', tx);
        } else {
          OthersSeenAlike(sys, sys', o);
        }
      }
    }
    LocksStep(sys, at, Rollback(tx));
    var back := DoStep(sys, at, Rollback(tx));
    NotLockedTwice(sys, back, tx);
    forall o | o != t.picked ensures Seen(back, o) == Seen(sys, o) {
      OthersSeenAlike(sys, back, o);
    }
  }

  lemma NotLockedTwice(sys: System, sys': System, tx: TxId)
    requires LocksHeld(sys) && tx in sys.open && sys'.open == sys.open - {tx}
    ensures sys.open[tx].picked !in Locked(sys')
  {
    assert Holds(sys, tx);
  }

  // ---- draining ------------------------------------------------------------

  /** Repeated leasing at one moment, with nothing else going on, until there is nothing left to lease. */
  ghost predicate Drains(s: State, at: Time, worker: WorkerId, serves: set<string>, secs: int, out: seq<JobId>)
    decreases |out|
  {
    if out == [] then Allowed(s, at, LeaseNext(worker, serves, secs, {}, None))
    else
      var ev := LeaseNext(worker, serves, secs, {}, Some(out[0]));
      Allowed(s, at, ev) && Drains(Apply(s, at, ev), at, worker, serves, secs, out[1..])
  }

  lemma LeaseShrinks(s: State, at: Time, worker: WorkerId, serves: set<string>, secs: int, id: JobId)
    requires id in Eligible(s, at, serves)
    ensures Eligible(Leased(s, at, worker, secs, id), at, serves) == Eligible(s, at, serves) - {id}
    ensures forall o | o in s.jobs && o != id :: Leased(s, at, worker, secs, id).jobs[o] == s.jobs[o]
  {
  }

  lemma {:induction false} DrainingOrders(s: State, at: Time, worker: WorkerId, serves: set<string>, secs: int,
                                          out: seq<JobId>)
    requires Drains(s, at, worker, serves, secs, out)
    ensures SetOf(out) == Eligible(s, at, serves)
    ensures Distinct(out)
    ensures forall i, k :: 0 <= i < k < |out| ==> out[i] in s.jobs && out[k] in s.jobs
                                                  && LeaseOrder(s.jobs[out[i]], s.jobs[out[k]])
    decreases |out|
  {
    var rows := Eligible(s, at, serves);
    assert rows - {} == rows;
    if out != [] {
      var id := out[0];
      var s' := Leased(s, at, worker, secs, id);
      LeaseShrinks(s, at, worker, serves, secs, id);
      DrainingOrders(s', at, worker, serves, secs, out[1..]);
      forall x ensures x in out <==> x in rows {
        assert x in out <==> x == id || x in SetOf(out[1..]);
      }
      forall i, k | 0 <= i < k < |out|
        ensures out[i] != out[k] && out[i] in s.jobs && out[k] in s.jobs
                && LeaseOrder(s.jobs[out[i]], s.jobs[out[k]])
      {
        assert out[k] == out[1..][k - 1] && out[k] in SetOf(out[1..]);
        if i > 0 {
          assert out[i] == out[1..][i - 1] && out[i] in SetOf(out[1..]);
        }
      }
    }
  }

  /** Draining hands out every due job that waits in an open queue served, exactly once, by priority, then due time, then
      age. */
  lemma DrainingSorts(s: State, at: Time, worker: WorkerId, serves: set<string>, secs: int, out: seq<JobId>)
    requires Drains(s, at, worker, serves, secs, out)
    ensures forall id :: id in out <==>
              && id in s.jobs && s.jobs[id].queue in serves && s.jobs[id].queue in s.queues
              && !s.queues[s.jobs[id].queue] && s.jobs[id].status in {Queued, Scheduled, Retrying}
              && s.jobs[id].runAt <= at
    ensures Distinct(out)
    ensures forall i, k :: 0 <= i < k < |out| ==>
              && out[i] in s.jobs && out[k] in s.jobs
              && var first, other := s.jobs[out[i]], s.jobs[out[k]];
                 && !(other.priority > first.priority)
                 && !(other.priority == first.priority && other.runAt < first.runAt)
                 && !(other.priority == first.priority && other.runAt == first.runAt
                      && other.createdAt < first.createdAt)
  {
    DrainingOrders(s, at, worker, serves, secs, out);
    forall id ensures id in out <==> id in Eligible(s, at, serves) {
      assert id in out <==> id in SetOf(out);
    }
  }

  /** Draining always comes to an end. */
  lemma {:induction false} DrainingEnds(s: State, at: Time, worker: WorkerId, serves: set<string>, secs: int)
    returns (out: seq<JobId>)
    ensures Drains(s, at, worker, serves, secs, out)
    decreases |Eligible(s, at, serves)|
  {
    var rows := Eligible(s, at, serves);
    assert rows - {} == rows;
    if rows == {} {
      out := [];
    } else {
      FirstExists(s.jobs, rows);
      var id :| IsFirst(s.jobs, rows, id);
      LeaseShrinks(s, at, worker, serves, secs, id);
      var rest := DrainingEnds(Leased(s, at, worker, secs, id), at, worker, serves, secs);
      out := [id] + rest;
      assert out[1..] == rest;
    }
  }
}
