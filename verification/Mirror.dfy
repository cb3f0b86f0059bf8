/** How the dead-letter table and the attempt rows mirror the job row. A sweep and a redrive each commit in several
    statements, and others may come in between. This module says which actions spoil the mirrors, exactly, and that no
    other does; histories whose sweeps and redrives are not disturbed contain none of them. */
module Mirror {
  import opened Basics
  import opened Status
  import opened Backoff
  import opened Lifecycle
  import opened Invariants

  // ---- the mirrors ---------------------------------------------------------

  /** The entry carries what the row carries. */
  predicate Agrees(e: DeadLetter, j: Job) {
    && e.queue == j.queue && e.jobType == j.jobType && e.payload == j.payload
    && e.attempts == j.attempts && e.lastError == j.lastError && e.originalCreatedAt == j.createdAt
  }

  predicate Indexed(v: View) {
    v.Is(DeadLettered) ==> v.dead.Some? && Agrees(v.dead.value, v.job.value)
  }

  /** There is an entry exactly for a dead-lettered job, and it agrees with the row. */
  predicate IndexExact(v: View) {
    (v.dead.Some? <==> v.Is(DeadLettered)) && Indexed(v)
  }

  predicate Lapsed(r: AttemptRow) {
    r.status.Errored? || r.status.TimedOut?
  }

  /** The newest row is that of an execution nobody has ended: the job is processing, or was when it was cancelled. */
  predicate Unended(v: View, cutShort: bool) {
    v.Is(Processing) || (v.Is(Cancelled) && cutShort)
  }

  /** Every row but the newest ended in failure; the newest is running exactly while the job is processing or if it was
      cancelled then, and succeeded exactly if the job is completed. */
  predicate RowsMirror(v: View, cutShort: bool) {
    v.job.Some? ==>
      && (forall i :: 0 <= i < |v.rows| - 1 ==> Lapsed(v.rows[i]))
      && (v.rows == [] ==> !Unended(v, cutShort) && !v.Is(Completed))
      && (v.rows != [] ==>
            var last := v.rows[|v.rows| - 1].status;
            && (last.Running? <==> Unended(v, cutShort))
            && (last.Succeeded? <==> v.Is(Completed)))
  }

  /** The job was processing when it was last cancelled. */
  ghost predicate CutShort(id: JobId, h: History)
    requires Legal(id, h)
  {
    match h
    case Empty => false
    case Then(past, _, a) => if a.Cancel? then After(id, past).Is(Processing) else CutShort(id, past)
  }

  // ---- what breaks the index -----------------------------------------------

  /** An entry, stale or not, carries what can never change in the row; the last error is all it can be wrong about. */
  predicate EntryFaithful(v: View) {
    v.dead.Some? && v.job.Some? ==>
      var e, j := v.dead.value, v.job.value;
      && e.queue == j.queue && e.jobType == j.jobType && e.payload == j.payload
      && e.originalCreatedAt == j.createdAt && e.attempts == j.maxAttempts && e.lastError.Some?
  }

  lemma EntryFaithfulStep(v: View, at: Time, a: Action)
    requires Invariant(v) && Enabled(v, at, a) && EntryFaithful(v)
    ensures EntryFaithful(Effect(v, at, a))
  {
  }

  lemma {:induction false} EntriesFaithful(id: JobId, h: History)
    requires Legal(id, h)
    ensures EntryFaithful(After(id, h))
  {
    if h.Then? {
      EntriesFaithful(id, h.past);
      InvariantHolds(id, h.past);
      EntryFaithfulStep(After(id, h.past), h.at, h.act);
    }
  }

  /** An entry belongs to a dead-lettered job, or to one whose redrive will yet delete it. */
  predicate EntryAccounted(v: View) {
    v.dead.Some? ==> v.Is(DeadLettered) || v.deleting > 0
  }

  /** The last DELETE pending fails, and the entry it was to delete is not that of a job dead-lettered again. */
  predicate StrandsEntry(v: View, a: Action) {
    a.DeleteFails? && v.deleting == 1 && v.dead.Some? && !v.Is(DeadLettered)
  }

  lemma EntryStrandedExactly(v: View, at: Time, a: Action)
    requires Invariant(v) && Enabled(v, at, a) && EntryAccounted(v)
    ensures !EntryAccounted(Effect(v, at, a)) <==> StrandsEntry(v, a)
  {
  }

  ghost predicate AlwaysEntryAccounted(id: JobId, h: History)
    requires Legal(id, h)
  {
    EntryAccounted(After(id, h)) && (h.Then? ==> AlwaysEntryAccounted(id, h.past))
  }

  ghost predicate NeverStrandsEntry(id: JobId, h: History)
    requires Legal(id, h)
  {
    h.Then? ==> NeverStrandsEntry(id, h.past) && !StrandsEntry(After(id, h.past), h.act)
  }

  /** Entries are accounted for throughout a history exactly if no failed DELETE strands one. */
  lemma {:induction false} EntriesAccountedThroughout(id: JobId, h: History)
    requires Legal(id, h)
    ensures AlwaysEntryAccounted(id, h) <==> NeverStrandsEntry(id, h)
  {
    if h.Then? {
      EntriesAccountedThroughout(id, h.past);
      InvariantHolds(id, h.past);
      if EntryAccounted(After(id, h.past)) {
        EntryStrandedExactly(After(id, h.past), h.at, h.act);
      }
      assert AlwaysEntryAccounted(id, h.past) ==> EntryAccounted(After(id, h.past));
    }
  }

  /** Every dead-lettered job has its entry, and every other entry will yet be deleted. */
  predicate IndexTrue(v: View) {
    Indexed(v) && EntryAccounted(v)
  }

  /** A late DELETE of an earlier redrive lands on a job dead-lettered again, an insert meets a stale entry with another
      error than the one it brings, or a DELETE that fails strands the entry. */
  predicate SpoilsIndex(v: View, a: Action) {
    || (a.DropDead? && v.Is(DeadLettered))
    || (DeadLetters(v, a) && v.dead.Some? && v.dead.value.lastError != Some(ErrorWritten(v, a)))
    || StrandsEntry(v, a)
  }

  /** From a state where the index is true, exactly these three actions make it false. */
  lemma IndexBreaksExactly(v: View, at: Time, a: Action)
    requires Invariant(v) && Enabled(v, at, a) && EntryFaithful(v) && IndexTrue(v)
    ensures !IndexTrue(Effect(v, at, a)) <==> SpoilsIndex(v, a)
  {
    EntryStrandedExactly(v, at, a);
  }

  ghost predicate AlwaysIndexed(id: JobId, h: History)
    requires Legal(id, h)
  {
    IndexTrue(After(id, h)) && (h.Then? ==> AlwaysIndexed(id, h.past))
  }

  ghost predicate NeverSpoilsIndex(id: JobId, h: History)
    requires Legal(id, h)
  {
    h.Then? ==> NeverSpoilsIndex(id, h.past) && !SpoilsIndex(After(id, h.past), h.act)
  }

  /** The index is true throughout a history exactly if no action of the history spoils it. */
  lemma {:induction false} IndexedThroughout(id: JobId, h: History)
    requires Legal(id, h)
    ensures AlwaysIndexed(id, h) <==> NeverSpoilsIndex(id, h)
  {
    if h.Then? {
      IndexedThroughout(id, h.past);
      InvariantHolds(id, h.past);
      EntriesFaithful(id, h.past);
      if IndexTrue(After(id, h.past)) {
        IndexBreaksExactly(After(id, h.past), h.at, h.act);
      } else {
        NotIndexedNow(id, h.past);
      }
    }
  }

  lemma NotIndexedNow(id: JobId, h: History)
    requires Legal(id, h) && !IndexTrue(After(id, h))
    ensures !AlwaysIndexed(id, h)
  {
  }

  /** With no redrive under way, to be true is all that the exact index asks for. */
  lemma IndexAtRest(v: View)
    requires v.deleting == 0
    ensures IndexExact(v) <==> IndexTrue(v)
  {
  }

  // ---- what breaks the attempt rows ----------------------------------------

  /** An unended execution has its row open. */
  predicate LiveRowOpen(v: View, cutShort: bool) {
    Unended(v, cutShort) ==> v.rows != [] && v.rows[|v.rows| - 1].status.Running?
  }

  /** A row says succeeded exactly if it is the newest of a completed job. */
  predicate SuccessExact(v: View) {
    v.job.Some? ==>
      && (v.Is(Completed) ==> v.rows != [])
      && forall i :: 0 <= i < |v.rows| ==> (v.rows[i].status.Succeeded? <==> v.Is(Completed) && i == |v.rows| - 1)
  }

  /** The row is open, and not the live one. */
  predicate Stray(v: View, i: int, cutShort: bool)
    requires 0 <= i < |v.rows|
  {
    v.rows[i].status.Running? && !(i == |v.rows| - 1 && Unended(v, cutShort))
  }

  ghost predicate HasStray(v: View, cutShort: bool) {
    exists i :: 0 <= i < |v.rows| && Stray(v, i, cutShort)
  }

  /** A stray row waits for the closing statement of a sweep that is under way. */
  ghost predicate OpenRowsAccounted(v: View, cutShort: bool) {
    v.job.Some? && HasStray(v, cutShort) ==> v.closing > 0
  }

  /** The last closing statement pending fails while there is a stray row. */
  ghost predicate StrandsRow(v: View, a: Action, cutShort: bool) {
    a.CloseFails? && v.closing == 1 && HasStray(v, cutShort)
  }

  function CutShortAfter(v: View, a: Action, cutShort: bool): bool {
    if a.Cancel? then v.Is(Processing) else cutShort
  }

  /** Where a stray row comes from: it was one, or it was the live row of an execution that a sweep has ended. */
  lemma StrayStep(v: View, at: Time, a: Action, cutShort: bool)
    requires Invariant(v) && Enabled(v, at, a) && v.job.Some?
    requires HasStray(Effect(v, at, a), CutShortAfter(v, a, cutShort))
    ensures a.Sweep? || (HasStray(v, cutShort) && !a.CloseSwept?)
  {
    var v' := Effect(v, at, a);
    var i :| 0 <= i < |v'.rows| && Stray(v', i, CutShortAfter(v, a, cutShort));
    if i < |v.rows| {
      assert a.Sweep? || Stray(v, i, cutShort);
    }
  }

  lemma RowStranded(v: View, at: Time, a: Action, cutShort: bool)
    requires Invariant(v) && Enabled(v, at, a) && StrandsRow(v, a, cutShort)
    ensures !OpenRowsAccounted(Effect(v, at, a), CutShortAfter(v, a, cutShort))
  {
    var i :| 0 <= i < |v.rows| && Stray(v, i, cutShort);
    assert Stray(Effect(v, at, a), i, cutShort);
  }

  lemma OpenRowsBreakExactly(v: View, at: Time, a: Action, cutShort: bool)
    requires Invariant(v) && Enabled(v, at, a) && OpenRowsAccounted(v, cutShort)
    ensures !OpenRowsAccounted(Effect(v, at, a), CutShortAfter(v, a, cutShort)) <==> StrandsRow(v, a, cutShort)
  {
    if StrandsRow(v, a, cutShort) {
      RowStranded(v, at, a, cutShort);
    } else if !OpenRowsAccounted(Effect(v, at, a), CutShortAfter(v, a, cutShort)) && v.job.Some? {
      StrayStep(v, at, a, cutShort);
    }
  }

  ghost predicate AlwaysOpenRowsAccounted(id: JobId, h: History)
    requires Legal(id, h)
  {
    OpenRowsAccounted(After(id, h), CutShort(id, h)) && (h.Then? ==> AlwaysOpenRowsAccounted(id, h.past))
  }

  ghost predicate NeverStrandsRow(id: JobId, h: History)
    requires Legal(id, h)
  {
    h.Then? ==> NeverStrandsRow(id, h.past) && !StrandsRow(After(id, h.past), h.act, CutShort(id, h.past))
  }

  /** Open rows are accounted for throughout a history exactly if no failed closing statement strands one. */
  lemma {:induction false} OpenRowsThroughout(id: JobId, h: History)
    requires Legal(id, h)
    ensures AlwaysOpenRowsAccounted(id, h) <==> NeverStrandsRow(id, h)
  {
    if h.Then? {
      OpenRowsThroughout(id, h.past);
      InvariantHolds(id, h.past);
      if OpenRowsAccounted(After(id, h.past), CutShort(id, h.past)) {
        OpenRowsBreakExactly(After(id, h.past), h.at, h.act, CutShort(id, h.past));
      } else {
        NotAccountedNow(id, h.past);
      }
    }
  }

  lemma NotAccountedNow(id: JobId, h: History)
    requires Legal(id, h) && !OpenRowsAccounted(After(id, h), CutShort(id, h))
    ensures !AlwaysOpenRowsAccounted(id, h)
  {
  }

  /** Only a sweep's late closing statement closes the row of an unended execution: that of a job leased again since, or
      of a job cancelled while it was processing. */
  lemma LiveRowBreaksExactly(v: View, at: Time, a: Action, cutShort: bool)
    requires Invariant(v) && Enabled(v, at, a) && LiveRowOpen(v, cutShort)
    ensures !LiveRowOpen(Effect(v, at, a), CutShortAfter(v, a, cutShort)) <==> a.CloseSwept? && Unended(v, cutShort)
  {
    if a.CloseSwept? && Unended(v, cutShort) {
      var v' := Effect(v, at, a);
      assert !v'.rows[|v'.rows| - 1].status.Running?;
    }
  }

  /** Some row before the newest is still open. */
  predicate EarlierRowOpen(v: View) {
    exists i :: 0 <= i < |v.rows| - 1 && v.rows[i].status.Running?
  }

  /** A completion marks exactly the open rows as succeeded, whichever they are. */
  lemma CompletionMarksOpenRows(v: View, at: Time, a: Action)
    requires Invariant(v) && Enabled(v, at, a) && a.Complete? && SuccessExact(v)
    ensures |Effect(v, at, a).rows| == |v.rows|
    ensures forall i :: 0 <= i < |v.rows| ==>
              (Effect(v, at, a).rows[i].status.Succeeded? <==> v.rows[i].status.Running?)
  {
  }

  /** The success of a job is recorded exactly, unless a completion finds the live row closed or an earlier one open. */
  lemma SuccessRecordedExactly(v: View, at: Time, a: Action)
    requires Invariant(v) && Enabled(v, at, a) && SuccessExact(v)
    ensures !SuccessExact(Effect(v, at, a)) <==> a.Complete? && (!LiveRowOpen(v, false) || EarlierRowOpen(v))
  {
    var v' := Effect(v, at, a);
    if a.Complete? {
      CompletionMarksOpenRows(v, at, a);
      if EarlierRowOpen(v) {
        var i :| 0 <= i < |v.rows| - 1 && v.rows[i].status.Running?;
        assert v'.rows[i].status.Succeeded?;
      } else {
        assert forall i :: 0 <= i < |v.rows| - 1 ==> !v.rows[i].status.Running?;
      }
      if v.rows != [] {
        assert v'.rows[|v.rows| - 1].status.Succeeded? <==> v.rows[|v.rows| - 1].status.Running?;
      }
    } else {
      forall i | 0 <= i < |v'.rows| && i < |v.rows|
        ensures v'.rows[i].status.Succeeded? <==> v.rows[i].status.Succeeded?
      {
      }
    }
  }

  /** What the attempt rows say of the job is true, or will yet be made so by a sweep under way. */
  ghost predicate RowsTrue(v: View, cutShort: bool) {
    LiveRowOpen(v, cutShort) && SuccessExact(v) && OpenRowsAccounted(v, cutShort)
  }

  /** A sweep's closing statement lands on an unended execution, a completion finds the row of a swept attempt open, or a
      closing statement that fails strands a row. */
  ghost predicate SpoilsRows(v: View, a: Action, cutShort: bool) {
    || (a.CloseSwept? && Unended(v, cutShort))
    || (a.Complete? && EarlierRowOpen(v))
    || StrandsRow(v, a, cutShort)
  }

  /** From a state in which the rows are true, exactly these three actions make them false. */
  lemma RowsBreakExactly(v: View, at: Time, a: Action, cutShort: bool)
    requires Invariant(v) && Enabled(v, at, a) && RowsTrue(v, cutShort)
    ensures !RowsTrue(Effect(v, at, a), CutShortAfter(v, a, cutShort)) <==> SpoilsRows(v, a, cutShort)
  {
    LiveRowBreaksExactly(v, at, a, cutShort);
    SuccessRecordedExactly(v, at, a);
    OpenRowsBreakExactly(v, at, a, cutShort);
  }

  /** With no sweep under way, to be true is all that the exact mirror asks of the rows. */
  lemma RowsAtRest(v: View, cutShort: bool)
    requires v.closing == 0
    ensures RowsMirror(v, cutShort) <==> RowsTrue(v, cutShort)
  {
    if RowsMirror(v, cutShort) && v.job.Some? {
      forall i | 0 <= i < |v.rows| ensures !Stray(v, i, cutShort) {
        assert i < |v.rows| - 1 ==> Lapsed(v.rows[i]);
      }
    }
    if RowsTrue(v, cutShort) && v.job.Some? {
      forall i | 0 <= i < |v.rows| - 1 ensures Lapsed(v.rows[i]) {
        assert !Stray(v, i, cutShort);
      }
      if v.rows != [] {
        assert !Stray(v, |v.rows| - 1, cutShort);
      }
    }
  }

  ghost predicate AlwaysTrue(id: JobId, h: History)
    requires Legal(id, h)
  {
    RowsTrue(After(id, h), CutShort(id, h)) && (h.Then? ==> AlwaysTrue(id, h.past))
  }

  ghost predicate NeverSpoilsRows(id: JobId, h: History)
    requires Legal(id, h)
  {
    h.Then? ==> NeverSpoilsRows(id, h.past) && !SpoilsRows(After(id, h.past), h.act, CutShort(id, h.past))
  }

  lemma NotTrueNow(id: JobId, h: History)
    requires Legal(id, h) && !RowsTrue(After(id, h), CutShort(id, h))
    ensures !AlwaysTrue(id, h)
  {
  }

  /** The rows are true throughout a history exactly if no action of the history spoils them. */
  lemma {:induction false} RowsTrueThroughout(id: JobId, h: History)
    requires Legal(id, h)
    ensures AlwaysTrue(id, h) <==> NeverSpoilsRows(id, h)
  {
    if h.Then? {
      RowsTrueThroughout(id, h.past);
      InvariantHolds(id, h.past);
      if RowsTrue(After(id, h.past), CutShort(id, h.past)) {
        RowsBreakExactly(After(id, h.past), h.at, h.act, CutShort(id, h.past));
      } else {
        NotTrueNow(id, h.past);
      }
    }
  }

  /** So wherever a history with no such action comes to rest, both mirrors are exact. */
  lemma UnspoiltHistoriesAreExact(id: JobId, h: History)
    requires Legal(id, h) && NeverSpoilsIndex(id, h) && NeverSpoilsRows(id, h)
    ensures After(id, h).deleting == 0 ==> IndexExact(After(id, h))
    ensures After(id, h).closing == 0 ==> RowsMirror(After(id, h), CutShort(id, h))
  {
    IndexedThroughout(id, h);
    RowsTrueThroughout(id, h);
    if After(id, h).deleting == 0 {
      IndexAtRest(After(id, h));
    }
    if After(id, h).closing == 0 {
      RowsAtRest(After(id, h), CutShort(id, h));
    }
  }

  // ---- sweeps and redrives that are not disturbed --------------------------

  /** `a` waits for what is half done. */
  predicate Waits(v: View, a: Action) {
    && (v.closing > 0 ==> a.Pass? || a.CloseSwept?)
    && (v.deleting > 0 ==> a.Pass? || a.DropDead?)
  }

  /** No other action reaches the job between a sweep's update and its closing of attempt rows, nor between a
      redrive's update and its deletion of the dead-letter entry, and neither of these fails. */
  ghost predicate Calm(id: JobId, h: History)
    requires Legal(id, h)
  {
    h.Then? ==> Calm(id, h.past) && Waits(After(id, h.past), h.act)
  }

  /** What is half done has left the job as it made it. */
  predicate Undisturbed(v: View, cutShort: bool) {
    && (v.closing > 0 ==> !Unended(v, cutShort))
    && (v.deleting > 0 ==> v.Is(Queued))
  }

  lemma UndisturbedStep(v: View, at: Time, a: Action, cutShort: bool)
    requires Invariant(v) && Enabled(v, at, a) && Waits(v, a) && Undisturbed(v, cutShort)
    ensures Undisturbed(Effect(v, at, a), CutShortAfter(v, a, cutShort))
  {
  }

  lemma CalmSpoilsNothing(v: View, at: Time, a: Action, cutShort: bool)
    requires Invariant(v) && Enabled(v, at, a) && Waits(v, a) && Undisturbed(v, cutShort)
    requires IndexTrue(v) && RowsTrue(v, cutShort)
    ensures !SpoilsIndex(v, a) && !SpoilsRows(v, a, cutShort)
    ensures DeadLetters(v, a) ==> v.dead.None?
  {
    if a.Complete? && EarlierRowOpen(v) {
      var i :| 0 <= i < |v.rows| - 1 && v.rows[i].status.Running?;
      assert Stray(v, i, cutShort);
    }
  }

  lemma {:induction false} CalmHistory(id: JobId, h: History)
    requires Legal(id, h) && Calm(id, h)
    ensures Undisturbed(After(id, h), CutShort(id, h))
    ensures NeverSpoilsIndex(id, h) && NeverSpoilsRows(id, h)
  {
    if h.Then? {
      CalmHistory(id, h.past);
      TrueNow(id, h.past);
      UndisturbedStep(After(id, h.past), h.at, h.act, CutShort(id, h.past));
      CalmSpoilsNothing(After(id, h.past), h.at, h.act, CutShort(id, h.past));
    }
  }

  lemma TrueNow(id: JobId, h: History)
    requires Legal(id, h) && NeverSpoilsIndex(id, h) && NeverSpoilsRows(id, h)
    ensures Invariant(After(id, h)) && IndexTrue(After(id, h)) && RowsTrue(After(id, h), CutShort(id, h))
  {
    InvariantHolds(id, h);
    IndexedThroughout(id, h);
    RowsTrueThroughout(id, h);
  }

  /** After a calm history with nothing half done, both mirrors are exact. */
  lemma CalmHistoriesAreExact(id: JobId, h: History)
    requires Legal(id, h) && Calm(id, h) && After(id, h).closing == 0 && After(id, h).deleting == 0
    ensures IndexExact(After(id, h))
    ensures RowsMirror(After(id, h), CutShort(id, h))
  {
    CalmHistory(id, h);
    UnspoiltHistoriesAreExact(id, h);
  }

  /** In a calm history the insert never meets an existing entry. */
  lemma NoConflictWhenCalm(id: JobId, h: History)
    requires Legal(id, h) && Calm(id, h) && h.Then? && DeadLetters(After(id, h.past), h.act)
    ensures After(id, h.past).dead.None?
  {
    CalmHistory(id, h.past);
    TrueNow(id, h.past);
    CalmSpoilsNothing(After(id, h.past), h.at, h.act, CutShort(id, h.past));
  }

  // ---- histories that break them -------------------------------------------

  /** A dead-lettered job has been redriven, and its entry is still to be deleted. */
  lemma HalfRedriven(id: JobId) returns (h: History, v: View)
    ensures Legal(id, h) && After(id, h) == v && h.Then? && h.at == 2
    ensures v.Is(Queued) && v.job.value.attempts == 0 && v.job.value.maxAttempts == 1 && v.job.value.deadLetter
    ensures v.job.value.runAt == 2 && v.closing == 0 && v.deleting == 1
    ensures v.dead.Some? && v.minted
  {
    v := After(id, Empty);
    h, v := Act(id, Empty, v, 0, Create(Request(Queued, 1, true)));
    h, v := Act(id, h, v, 0, Lease(7, 30));
    h, v := Act(id, h, v, 1, Fail(7, "boom", false));
    h, v := Act(id, h, v, 2, Retry);
  }

  /** A redrive whose second statement is late: the job is dead-lettered again and its entry is then deleted. */
  lemma LateDeleteLosesEntry(id: JobId) returns (h: History)
    ensures Legal(id, h)
    ensures After(id, h).Is(DeadLettered) && After(id, h).dead.None?
    ensures After(id, h).closing == 0 && After(id, h).deleting == 0
  {
    var v: View;
    h, v := HalfRedriven(id);
    h, v := Act(id, h, v, 2, Lease(7, 30));
    h, v := Act(id, h, v, 3, Fail(7, "again", false));
    h, v := Act(id, h, v, 4, DropDead);
  }

  /** A swept job has been leased again, and the sweep has yet to close the row of the first attempt. */
  lemma HalfSwept(id: JobId) returns (h: History, v: View)
    ensures Legal(id, h) && After(id, h) == v && h.Then? && h.at == 4 * SECOND
    ensures v.HeldBy(7) && v.closing == 1 && v.deleting == 0
    ensures |v.rows| == 2 && v.rows[0].status.Running? && v.rows[1].status.Running?
  {
    v := After(id, Empty);
    h, v := Act(id, Empty, v, 0, Create(Request(Queued, 2, true)));
    h, v := Act(id, h, v, 0, Lease(7, 1));
    h, v := Act(id, h, v, 2 * SECOND, Sweep);
    assert SweptDelay(1, 1, 1) == 1;
    h, v := Act(id, h, v, 4 * SECOND, Lease(7, 30));
  }

  /** The closing statement comes before the job completes: no row records the success. */
  lemma LateCloseLosesSuccess(id: JobId) returns (h: History)
    ensures Legal(id, h)
    ensures After(id, h).Is(Completed) && |After(id, h).rows| == 2
    ensures forall i :: 0 <= i < |After(id, h).rows| ==> After(id, h).rows[i].status.TimedOut?
    ensures After(id, h).closing == 0 && After(id, h).deleting == 0
  {
    var v: View;
    h, v := HalfSwept(id);
    h, v := Act(id, h, v, 5 * SECOND, CloseSwept);
    h, v := Act(id, h, v, 6 * SECOND, Complete(7, None));
  }

  /** The closing statement comes after the job completes: the swept attempt is recorded as a success, too. */
  lemma LateCloseAddsSuccess(id: JobId) returns (h: History)
    ensures Legal(id, h)
    ensures After(id, h).Is(Completed) && |After(id, h).rows| == 2
    ensures forall i :: 0 <= i < |After(id, h).rows| ==> After(id, h).rows[i].status.Succeeded?
    ensures After(id, h).closing == 0 && After(id, h).deleting == 0
  {
    var v: View;
    h, v := HalfSwept(id);
    h, v := Act(id, h, v, 5 * SECOND, Complete(7, None));
    h, v := Act(id, h, v, 6 * SECOND, CloseSwept);
  }

  /** The closing statement comes after the job was cancelled while processing: its open row is timed out. */
  lemma LateCloseEndsCancelled(id: JobId) returns (h: History)
    ensures Legal(id, h)
    ensures After(id, h).Is(Cancelled) && CutShort(id, h) && |After(id, h).rows| == 2
    ensures After(id, h).rows[1].status.TimedOut?
    ensures After(id, h).closing == 0 && After(id, h).deleting == 0
  {
    var v: View;
    h, v := HalfSwept(id);
    h, v := Act(id, h, v, 5 * SECOND, Cancel);
    h, v := Act(id, h, v, 6 * SECOND, CloseSwept);
  }

  /** A redrive whose second statement fails; the job completes and is purged, and its old entry is left. */
  lemma FailedDeleteOrphansEntry(id: JobId) returns (h: History)
    ensures Legal(id, h)
    ensures After(id, h).minted && After(id, h).job.None? && After(id, h).dead.Some?
    ensures After(id, h).closing == 0 && After(id, h).deleting == 0
  {
    var v: View;
    h, v := HalfRedriven(id);
    h, v := Act(id, h, v, 2, DeleteFails);
    h, v := Act(id, h, v, 2, Lease(7, 30));
    h, v := Act(id, h, v, 3, Complete(7, None));
    h, v := Act(id, h, v, 4, Purge(4));
  }

  /** A sweep whose last statement fails: the row of the attempt it ended stays open. */
  lemma FailedCloseLeavesRowOpen(id: JobId) returns (h: History)
    ensures Legal(id, h)
    ensures After(id, h).Is(DeadLettered) && |After(id, h).rows| == 1 && After(id, h).rows[0].status.Running?
    ensures After(id, h).closing == 0 && After(id, h).deleting == 0
  {
    var v := After(id, Empty);
    h, v := Act(id, Empty, v, 0, Create(Request(Queued, 1, true)));
    h, v := Act(id, h, v, 0, Lease(7, 1));
    h, v := Act(id, h, v, 2 * SECOND, Sweep);
    h, v := Act(id, h, v, 2 * SECOND, CloseFails);
  }
}
