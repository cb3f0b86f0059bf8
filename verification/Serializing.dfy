/** Lease transactions overlap in time; this module turns an interleaving of them into one run of atomic statements. */
module Serializing {
  import opened Basics
  import opened Lifecycle
  import opened Tables
  import opened Leasing
  import Safety

  // ---- the run -------------------------------------------------------------

  /** A statement of a worker that does not hold the job finds no row and does nothing. */
  predicate FindsNoRow(s: State, ev: Event) {
    (ev.RenewLease? || ev.CompleteJob? || ev.FailJob?) && !Held(s, ev.id, ev.worker)
  }

  /** A sweep skips the rows that are locked. */
  function Skipping(ev: Event, locked: set<JobId>): Event {
    if ev.SweepUpdate? then ev.(skipped := ev.skipped + locked) else ev
  }

  /** The kept transactions that are open before `step`. */
  function Before(step: Step, keep: set<TxId>): set<TxId> {
    match step
    case Pick(tx, _, _, _, _) => keep - {tx}
    case Commit(tx) => keep + {tx}
    case _ => keep
  }

  /** The step adds an event to the run. */
  predicate Grows(sys: System, step: Step, keep: set<TxId>) {
    (step.Pick? && step.tx in keep) || (step.Other? && !FindsNoRow(sys.tables, step.ev))
  }

  function EventOf(sys: System, step: Step): Event
    requires step.Pick? || step.Other?
  {
    match step
    case Pick(_, worker, serves, secs, id) => LeaseNext(worker, serves, secs, Locked(sys), Some(id))
    case Other(ev) => Skipping(ev, Locked(sys))
  }

  /** Each committed lease where its transaction picked the row, with the rows skipped that were locked then; rolled-back
      transactions and statements that found no row left out. Of the transactions still open, those in `keep` count as
      committed. */
  ghost function Serial(r: Interleaving, keep: set<TxId>): Safety.Run
    requires Valid(r)
  {
    match r
    case Start => Safety.Boot
    case And(past, at, step) =>
      var run := Serial(past, Before(step, keep));
      if Grows(SystemOf(past), step, keep) then Safety.Next(run, at, EventOf(SystemOf(past), step)) else run
  }

  lemma KeptBefore(sys: System, at: Time, step: Step, keep: set<TxId>)
    requires CanStep(sys, at, step) && keep <= DoStep(sys, at, step).open.Keys
    ensures Before(step, keep) <= sys.open.Keys
    ensures step.Commit? || step.Rollback? ==> step.tx !in keep
  {
  }

  lemma KeptCount(step: Step, keep: set<TxId>)
    requires step.Commit? ==> step.tx !in keep
    ensures |keep| == |Before(step, keep)|
            + (if step.Pick? && step.tx in keep then 1 else 0) - (if step.Commit? then 1 else 0)
  {
    match step
    case Pick(tx, _, _, _, _) =>
      if tx in keep {
        assert |keep - {tx}| == |keep| - 1;
      } else {
        assert keep - {tx} == keep;
      }
    case Commit(tx) =>
      assert |keep + {tx}| == |keep| + 1;
    case _ =>
  }

  // ---- the state it leads to -----------------------------------------------

  function LockedBy(sys: System, keep: set<TxId>): set<JobId> {
    set t | t in keep && t in sys.open :: sys.open[t].picked
  }

  /** `v'` is `v` leased by the transaction. */
  ghost predicate LeasedBy(t: Tx, v: View, v': View) {
    Enabled(v, t.at, Lease(t.worker, t.secs)) && v' == Effect(v, t.at, Lease(t.worker, t.secs))
  }

  /** The transactions in `keep` have committed in `s` but for that it is the tables of `sys`. (Attempt rows of different
      jobs may come in another order.) */
  ghost predicate Ahead(s: State, sys: System, keep: set<TxId>) {
    && keep <= sys.open.Keys
    && s.queues == sys.tables.queues
    && (forall t | t in keep ::
          LeasedBy(sys.open[t], ViewOf(sys.tables, sys.open[t].picked), ViewOf(s, sys.open[t].picked)))
    && (forall id | id !in LockedBy(sys, keep) :: ViewOf(s, id) == ViewOf(sys.tables, id))
  }

  /** What a row locked by a kept transaction looks like on either side; any other row looks the same. */
  lemma RowsCompare(s: State, sys: System, keep: set<TxId>, id: JobId)
    requires Ahead(s, sys, keep)
    ensures id in LockedBy(sys, keep) ==>
              && id in s.jobs && s.jobs[id].status.Processing?
              && id in sys.tables.jobs && sys.tables.jobs[id].status.IsLeaseable()
              && s.jobs[id].queue == sys.tables.jobs[id].queue
              && s.jobs[id].idempotencyKey == sys.tables.jobs[id].idempotencyKey
    ensures id !in LockedBy(sys, keep) ==>
              && (id in s.jobs <==> id in sys.tables.jobs)
              && (id in s.jobs ==> s.jobs[id] == sys.tables.jobs[id])
    ensures (id in s.minted <==> id in sys.tables.minted)
            && s.closing[id] == sys.tables.closing[id] && s.deleting[id] == sys.tables.deleting[id]
  {
    var v, w := ViewOf(s, id), ViewOf(sys.tables, id);
    if id in LockedBy(sys, keep) {
      var t :| t in keep && t in sys.open && sys.open[t].picked == id;
      assert LeasedBy(sys.open[t], w, v);
    } else {
      assert v == w;
    }
  }

  lemma SameRowSameAction(s: State, t: State, ev: Event, locked: set<JobId>, id: JobId)
    requires (id in s.jobs <==> id in t.jobs) && (id in s.jobs ==> s.jobs[id] == t.jobs[id])
    ensures ActionOn(s, Skipping(ev, locked), id) == ActionOn(t, ev, id)
  {
  }

  /** What leaves a waiting job alone leaves it alone once leased, unless it is the leasing worker's own statement. */
  lemma LeasedRowPasses(s: State, t: State, ev: Event, locked: set<JobId>, id: JobId)
    requires id in s.jobs && s.jobs[id].status.Processing?
    requires id in t.jobs && t.jobs[id].status.IsLeaseable()
    requires ActionOn(t, ev, id).Pass? && !FindsNoRow(t, ev)
    ensures ActionOn(s, Skipping(ev, locked), id).Pass?
  {
  }

  lemma SameAction(s: State, sys: System, keep: set<TxId>, at: Time, ev: Event, id: JobId)
    requires Ahead(s, sys, keep) && CanStep(sys, at, Other(ev)) && !FindsNoRow(sys.tables, ev)
    ensures ActionOn(s, Skipping(ev, Locked(sys)), id) == ActionOn(sys.tables, ev, id)
    ensures id in LockedBy(sys, keep) ==> ActionOn(sys.tables, ev, id).Pass?
  {
    RowsCompare(s, sys, keep, id);
    if id in LockedBy(sys, keep) {
      assert id in Locked(sys);
      LeasedRowPasses(s, sys.tables, ev, Locked(sys), id);
    } else {
      SameRowSameAction(s, sys.tables, ev, Locked(sys), id);
    }
  }

  lemma SweepStillPicks(s: State, sys: System, keep: set<TxId>, at: Time, ev: Event)
    requires Ahead(s, sys, keep) && LocksHeld(sys) && ev.SweepUpdate? && Allowed(sys.tables, at, ev)
    ensures Allowed(s, at, Skipping(ev, Locked(sys)))
  {
    var rows := Expired(sys.tables, at, ev.kind) - ev.skipped;
    forall id ensures id in Expired(s, at, ev.kind) - (ev.skipped + Locked(sys)) <==> id in rows {
      RowsCompare(s, sys, keep, id);
      if id in Locked(sys) {
        var t :| t in sys.open && sys.open[t].picked == id;
        assert Holds(sys, t);
      } else {
        assert id !in LockedBy(sys, keep);
      }
    }
    assert Expired(s, at, ev.kind) - (ev.skipped + Locked(sys)) == rows;
    forall id | id in rows ensures id in s.jobs && s.jobs[id] == sys.tables.jobs[id] {
      RowsCompare(s, sys, keep, id);
      assert s.jobs[id].status.Processing?;
    }
  }

  lemma OtherStillAllowed(s: State, sys: System, keep: set<TxId>, at: Time, ev: Event)
    requires Ahead(s, sys, keep) && LocksHeld(sys) && CanStep(sys, at, Other(ev))
    ensures Allowed(s, at, Skipping(ev, Locked(sys)))
  {
    forall id
      ensures (id in s.minted <==> id in sys.tables.minted)
              && s.closing[id] == sys.tables.closing[id] && s.deleting[id] == sys.tables.deleting[id]
    {
      RowsCompare(s, sys, keep, id);
    }
    match ev
    case SweepUpdate(_, _, _, _) => SweepStillPicks(s, sys, keep, at, ev);
    case Insert(_, n) =>
      forall id | id in s.jobs
        ensures id in sys.tables.jobs && s.jobs[id].queue == sys.tables.jobs[id].queue
                && s.jobs[id].idempotencyKey == sys.tables.jobs[id].idempotencyKey
      {
        RowsCompare(s, sys, keep, id);
      }
    case _ =>
  }

  // ---- step by step --------------------------------------------------------

  lemma ActedAlike(s: State, sys: System, keep: set<TxId>, at: Time, ev: Event, id: JobId)
    requires Ahead(s, sys, keep) && CanStep(sys, at, Other(ev)) && !FindsNoRow(sys.tables, ev)
    requires Allowed(s, at, Skipping(ev, Locked(sys)))
    ensures var s', tables' := Apply(s, at, Skipping(ev, Locked(sys))), Apply(sys.tables, at, ev);
            if id in LockedBy(sys, keep)
            then ViewOf(s', id) == ViewOf(s, id) && ViewOf(tables', id) == ViewOf(sys.tables, id)
            else ViewOf(s', id) == ViewOf(tables', id)
  {
    SameAction(s, sys, keep, at, ev, id);
    Projection(s, at, Skipping(ev, Locked(sys)), id);
    Projection(sys.tables, at, ev, id);
  }

  lemma OtherAhead(s: State, sys: System, keep: set<TxId>, at: Time, ev: Event)
    requires Ahead(s, sys, keep) && LocksHeld(sys) && CanStep(sys, at, Other(ev)) && !FindsNoRow(sys.tables, ev)
    ensures Allowed(s, at, Skipping(ev, Locked(sys)))
    ensures Ahead(Apply(s, at, Skipping(ev, Locked(sys))), DoStep(sys, at, Other(ev)), keep)
  {
    OtherStillAllowed(s, sys, keep, at, ev);
    var s', sys' := Apply(s, at, Skipping(ev, Locked(sys))), DoStep(sys, at, Other(ev));
    assert LockedBy(sys', keep) == LockedBy(sys, keep);
    forall t | t in keep
      ensures LeasedBy(sys'.open[t], ViewOf(sys'.tables, sys'.open[t].picked), ViewOf(s', sys'.open[t].picked))
    {
      assert sys.open[t].picked in LockedBy(sys, keep);
      ActedAlike(s, sys, keep, at, ev, sys.open[t].picked);
    }
    forall id | id !in LockedBy(sys', keep) ensures ViewOf(s', id) == ViewOf(sys'.tables, id) {
      ActedAlike(s, sys, keep, at, ev, id);
    }
    QueuesAlike(s, sys, at, ev);
  }

  lemma QueuesAlike(s: State, sys: System, at: Time, ev: Event)
    requires Allowed(s, at, Skipping(ev, Locked(sys))) && Allowed(sys.tables, at, ev) && s.queues == sys.tables.queues
    ensures Apply(s, at, Skipping(ev, Locked(sys))).queues == Apply(sys.tables, at, ev).queues
  {
  }

  lemma NothingFound(s: State, at: Time, ev: Event)
    requires FindsNoRow(s, ev)
    ensures Apply(s, at, ev) == s
  {
  }

  lemma PickStillFirst(s: State, sys: System, keep: set<TxId>, at: Time, step: Step)
    requires Ahead(s, sys, keep) && step.Pick? && CanStep(sys, at, step)
    ensures Allowed(s, at, EventOf(sys, step))
  {
    var rows := Eligible(sys.tables, at, step.serves) - Locked(sys);
    forall id ensures id in Eligible(s, at, step.serves) - Locked(sys) <==> id in rows {
      RowsCompare(s, sys, keep, id);
      assert id in LockedBy(sys, keep) ==> id in Locked(sys);
    }
    assert Eligible(s, at, step.serves) - Locked(sys) == rows;
    forall id | id in rows ensures id in s.jobs && s.jobs[id] == sys.tables.jobs[id] {
      RowsCompare(s, sys, keep, id);
      assert id in LockedBy(sys, keep) ==> id in Locked(sys);
    }
  }

  /** The row a transaction has just picked, and those others hold. */
  lemma PickedRow(sys: System, keep: set<TxId>, at: Time, step: Step)
    requires LocksHeld(sys) && step.Pick? && CanStep(sys, at, step) && keep <= sys.open.Keys
    ensures step.id !in Locked(sys) && step.id !in LockedBy(sys, keep)
    ensures LockedBy(DoStep(sys, at, step), keep + {step.tx}) == LockedBy(sys, keep) + {step.id}
    ensures forall t | t in keep :: DoStep(sys, at, step).open[t] == sys.open[t] && sys.open[t].picked != step.id
  {
    forall t | t in keep ensures sys.open[t].picked != step.id {
      assert sys.open[t].picked in Locked(sys);
    }
  }

  lemma PickAhead(s: State, sys: System, keep: set<TxId>, at: Time, step: Step)
    requires Ahead(s, sys, keep) && LocksHeld(sys) && step.Pick? && CanStep(sys, at, step)
    ensures Allowed(s, at, EventOf(sys, step))
    ensures Ahead(Apply(s, at, EventOf(sys, step)), DoStep(sys, at, step), keep + {step.tx})
  {
    PickStillFirst(s, sys, keep, at, step);
    PickedRow(sys, keep, at, step);
    RowsCompare(s, sys, keep, step.id);
    var s' := Leased(s, at, step.worker, step.secs, step.id);
    forall id
      ensures ViewOf(s', id) == if id == step.id
                                then Effect(ViewOf(s, id), at, Lease(step.worker, step.secs)) else ViewOf(s, id)
    {
      ProjectLeased(s, at, step.worker, step.secs, step.id, id);
    }
  }

  lemma CommitBehind(s: State, sys: System, keep: set<TxId>, at: Time, tx: TxId)
    requires Ahead(s, sys, keep + {tx}) && LocksHeld(sys) && tx !in keep && CanStep(sys, at, Commit(tx))
    ensures Ahead(s, DoStep(sys, at, Commit(tx)), keep)
  {
    var sys' := DoStep(sys, at, Commit(tx));
    var t := sys.open[tx];
    assert Holds(sys, tx);
    assert LeasedBy(t, ViewOf(sys.tables, t.picked), ViewOf(s, t.picked));
    assert LockedBy(sys, keep + {tx}) == LockedBy(sys', keep) + {t.picked};
    forall id
      ensures ViewOf(sys'.tables, id) == if id == t.picked
                                         then Effect(ViewOf(sys.tables, id), t.at, Lease(t.worker, t.secs))
                                         else ViewOf(sys.tables, id)
    {
      ProjectLeased(sys.tables, t.at, t.worker, t.secs, t.picked, id);
    }
    forall o | o in keep
      ensures sys'.open[o] == sys.open[o]
      ensures LeasedBy(sys.open[o], ViewOf(sys'.tables, sys.open[o].picked), ViewOf(s, sys.open[o].picked))
    {
      assert sys.open[o].picked != t.picked;
    }
  }

  lemma OpenOnly(s: State, sys: System, keep: set<TxId>, at: Time, step: Step)
    requires Ahead(s, sys, keep) && CanStep(sys, at, step)
    requires step.InsertAttempt? || (step.Rollback? && step.tx !in keep) || (step.Pick? && step.tx !in keep)
    ensures Ahead(s, DoStep(sys, at, step), keep)
  {
    var sys' := DoStep(sys, at, step);
    assert LockedBy(sys', keep) == LockedBy(sys, keep);
    forall t | t in keep
      ensures t in sys'.open
      ensures LeasedBy(sys'.open[t], ViewOf(sys.tables, sys.open[t].picked), ViewOf(s, sys.open[t].picked))
    {
      assert LeasedBy(sys.open[t], ViewOf(sys.tables, sys.open[t].picked), ViewOf(s, sys.open[t].picked));
    }
  }

  // ---- every interleaving --------------------------------------------------

  lemma GrowingStep(s: State, sys: System, at: Time, step: Step, keep: set<TxId>)
    requires Ahead(s, sys, Before(step, keep)) && LocksHeld(sys) && CanStep(sys, at, step)
    requires Grows(sys, step, keep)
    ensures Allowed(s, at, EventOf(sys, step))
    ensures Ahead(Apply(s, at, EventOf(sys, step)), DoStep(sys, at, step), keep)
  {
    if step.Pick? {
      PickAhead(s, sys, keep - {step.tx}, at, step);
      assert keep - {step.tx} + {step.tx} == keep;
    } else {
      OtherAhead(s, sys, keep, at, step.ev);
    }
  }

  lemma SilentStep(s: State, sys: System, at: Time, step: Step, keep: set<TxId>)
    requires Ahead(s, sys, Before(step, keep)) && LocksHeld(sys) && CanStep(sys, at, step)
    requires !Grows(sys, step, keep) && (step.Commit? || step.Rollback? ==> step.tx !in keep)
    ensures Ahead(s, DoStep(sys, at, step), keep)
  {
    if step.Commit? {
      CommitBehind(s, sys, keep, at, step.tx);
    } else if step.Other? {
      NothingFound(sys.tables, at, step.ev);
    } else {
      assert Before(step, keep) == keep;
      OpenOnly(s, sys, keep, at, step);
    }
  }

  /** The run is one of the store and ends where the interleaving does, the kept transactions committed. */
  lemma {:induction false} SerialRuns(r: Interleaving, keep: set<TxId>)
    requires Valid(r) && keep <= SystemOf(r).open.Keys
    ensures var run := Serial(r, keep);
            && Safety.Valid(run)
            && (run.Next? ==> r.And? && run.at <= r.at)
            && Ahead(Safety.StateOf(run), SystemOf(r), keep)
  {
    if r.And? {
      var sys := SystemOf(r.past);
      LocksAreDisjoint(r.past);
      KeptBefore(sys, r.at, r.step, keep);
      SerialRuns(r.past, Before(r.step, keep));
      var s := Safety.StateOf(Serial(r.past, Before(r.step, keep)));
      if Grows(sys, r.step, keep) {
        GrowingStep(s, sys, r.at, r.step, keep);
      } else {
        SilentStep(s, sys, r.at, r.step, keep);
      }
    }
  }

  /** Any interleaving of lease transactions with other statements leaves, once no transaction is open, the tables that
      one run of atomic statements leaves: the same queues, and of every job the same rows. */
  lemma InterleavingsAreRuns(r: Interleaving)
    requires Valid(r) && SystemOf(r).open == map[]
    ensures var run := Serial(r, {});
            && Safety.Valid(run)
            && Safety.StateOf(run).queues == SystemOf(r).tables.queues
            && forall id :: ViewOf(Safety.StateOf(run), id) == ViewOf(SystemOf(r).tables, id)
  {
    SerialRuns(r, {});
    assert LockedBy(SystemOf(r), {}) == {};
  }

  function Leases(run: Safety.Run): nat {
    match run
    case Boot => 0
    case Next(past, _, ev) => Leases(past) + if ev.LeaseNext? then 1 else 0
  }

  function Commits(r: Interleaving): nat {
    match r
    case Start => 0
    case And(past, _, step) => Commits(past) + if step.Commit? then 1 else 0
  }

  /** The run has one lease for each transaction that committed, and none for one that rolled back. */
  lemma {:induction false} OneLeasePerCommit(r: Interleaving, keep: set<TxId>)
    requires Valid(r) && keep <= SystemOf(r).open.Keys
    ensures Leases(Serial(r, keep)) == Commits(r) + |keep|
  {
    if r.And? {
      KeptBefore(SystemOf(r.past), r.at, r.step, keep);
      KeptCount(r.step, keep);
      OneLeasePerCommit(r.past, Before(r.step, keep));
    }
  }
}
