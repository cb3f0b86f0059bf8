/** The lifecycle status of a job and the documented transition table. */
module Status {
  datatype JobStatus =
    | Queued
    | Scheduled
    | Processing
    | Completed
    | Failed
    | Retrying
    | Cancelled
    | DeadLettered
  {
    predicate IsTerminal() {
      Completed? || Cancelled? || DeadLettered?
    }

    predicate IsLeaseable() {
      Queued? || Scheduled? || Retrying?
    }

    predicate IsCancellable() {
      IsLeaseable() || Processing?
    }

    predicate CanTransitionTo(next: JobStatus) {
      match (this, next)
      case (Queued, Processing) => true
      case (Queued, Scheduled) => true
      case (Queued, Cancelled) => true
      case (Scheduled, Queued) => true
      case (Scheduled, Processing) => true
      case (Scheduled, Cancelled) => true
      case (Processing, Completed) => true
      case (Processing, Failed) => true
      case (Processing, Retrying) => true
      case (Processing, Queued) => true
      case (Processing, Cancelled) => true
      case (Retrying, Processing) => true
      case (Retrying, Queued) => true
      case (Retrying, Cancelled) => true
      case (Retrying, DeadLettered) => true
      case (Failed, DeadLettered) => true
      case (Failed, Retrying) => true
      case _ => false
    }
  }

  /** A walk through the documented table, one edge at a time. */
  ghost predicate TablePath(walk: seq<JobStatus>) {
    |walk| >= 1 && forall i :: 0 < i < |walk| ==> walk[i - 1].CanTransitionTo(walk[i])
  }

  /** The three status changes the store performs that are not edges of the table. */
  predicate OffTableEdge(from: JobStatus, to: JobStatus) {
    (from.Processing? && to.DeadLettered?) || (from.Failed? && to.Queued?) || (from.DeadLettered? && to.Queued?)
  }

  /** Every status change the store makes. */
  predicate StoreEdge(from: JobStatus, to: JobStatus) {
    || (from.IsLeaseable() && (to.Processing? || to.Cancelled?))
    || (from.Processing? && (to.Completed? || to.Retrying? || to.Failed? || to.DeadLettered? || to.Cancelled?))
    || ((from.Failed? || from.DeadLettered?) && to.Queued?)
  }

  /** The store's edges are table edges but for exactly three; two of those are two-step walks in the table. */
  lemma StoreEdgesAgainstTable(from: JobStatus, to: JobStatus)
    requires StoreEdge(from, to)
    ensures from.CanTransitionTo(to) <==> !OffTableEdge(from, to)
    ensures OffTableEdge(from, to) && !from.DeadLettered? ==>
              exists mid :: TablePath([from, mid, to])
  {
    if OffTableEdge(from, to) && !from.DeadLettered? {
      var mid := if from.Processing? then Failed else Retrying;
      assert from.CanTransitionTo(mid) && mid.CanTransitionTo(to);
      assert TablePath([from, mid, to]);
    }
  }

  /** The edges of the table that the store never takes. */
  predicate UnusedEdge(from: JobStatus, to: JobStatus) {
    || (from.Queued? && to.Scheduled?)
    || ((from.Scheduled? || from.Processing? || from.Retrying?) && to.Queued?)
    || (from.Retrying? && to.DeadLettered?)
    || (from.Failed? && (to.DeadLettered? || to.Retrying?))
  }

  /** The table is the store's edges but for the three, and seven the store never takes. In it, the terminal statuses are
      exactly those without a way on, and those that may be leased or cancelled exactly those with an edge that way. */
  lemma TableExactly(from: JobStatus, to: JobStatus)
    ensures from.CanTransitionTo(to) <==> (StoreEdge(from, to) && !OffTableEdge(from, to)) || UnusedEdge(from, to)
    ensures !(StoreEdge(from, to) && UnusedEdge(from, to)) && !from.CanTransitionTo(from)
    ensures from.IsTerminal() <==> forall next: JobStatus :: !from.CanTransitionTo(next)
    ensures from.IsLeaseable() <==> from.CanTransitionTo(Processing)
    ensures from.IsCancellable() <==> from.CanTransitionTo(Cancelled)
  {
    assert from.IsCancellable() ==> from.CanTransitionTo(Cancelled);
    assert from.Failed? ==> from.CanTransitionTo(Retrying);
  }

  /** No walk in the table leaves a terminal status, so redriving a dead-lettered job is not in it at all. */
  lemma NoWalkLeavesTerminal(walk: seq<JobStatus>)
    requires TablePath(walk) && |walk| > 1
    ensures !walk[0].IsTerminal()
  {
    assert walk[0].CanTransitionTo(walk[1]);
  }
}
