/** The lease protocol of one job over a whole history: leases alternate with releases, a sweep never takes a live
    lease, and attempts are spaced by the backoff. */
module Protocol {
  import opened Basics
  import opened Backoff
  import opened Lifecycle
  import opened Invariants

  /** The expiry most recently written by a lease or an accepted renewal. */
  function LastExpiry(h: History): Time {
    match h
    case Empty => 0
    case Then(past, at, a) => if a.Lease? || a.Renew? then at + a.secs * SECOND else LastExpiry(past)
  }

  predicate IsProtocol(a: Action) {
    a.Lease? || a.Complete? || a.Fail? || a.Sweep? || a.Cancel? || a.Retry?
  }

  /** A protocol action, when it happened and the lease expiry in force at that moment. */
  datatype Stamp = Stamp(at: Time, act: Action, expiry: Time)

  function Log(h: History): seq<Stamp> {
    match h
    case Empty => []
    case Then(past, at, a) => Log(past) + if IsProtocol(a) then [Stamp(at, a, LastExpiry(past))] else []
  }

  /** A release by the worker that took the lease, or by a sweep after that lease ran out. */
  predicate Releases(lease: Action, next: Stamp)
    requires lease.Lease?
  {
    || (next.act.Fail? && next.act.worker == lease.worker)
    || (next.act.Sweep? && next.at > next.expiry)
  }

  predicate MayFollow(prev: Action, next: Stamp) {
    match next.act
    case Lease(_, _) => prev.Fail? || prev.Sweep? || prev.Retry?
    case Complete(w, _) => prev.Lease? && prev.worker == w
    case Fail(_, _, _) => prev.Lease? && Releases(prev, next)
    case Sweep => prev.Lease? && Releases(prev, next)
    case Cancel => prev.Lease? || prev.Fail? || prev.Sweep? || prev.Retry?
    case Retry => prev.Fail? || prev.Sweep?
    case _ => false
  }

  ghost predicate Alternates(log: seq<Stamp>) {
    && (log != [] ==> log[0].act.Lease? || log[0].act.Cancel?)
    && forall i :: 0 < i < |log| ==> MayFollow(log[i - 1].act, log[i])
  }

  /** The row agrees with the last entry of the log. */
  predicate Matches(v: View, log: seq<Stamp>, expiry: Time) {
    if v.job.None? then
      if v.minted then log != [] && (log[|log| - 1].act.Complete? || log[|log| - 1].act.Cancel?) else log == []
    else
      var j := v.job.value;
      match j.status
      case Queued => log == [] || log[|log| - 1].act.Retry?
      case Scheduled => log == []
      case Processing =>
        && log != []
        && log[|log| - 1].act.Lease?
        && j.lockedBy == Some(log[|log| - 1].act.worker)
        && j.leaseExpiresAt == Some(expiry)
      case Completed => log != [] && log[|log| - 1].act.Complete?
      case Cancelled => log != [] && log[|log| - 1].act.Cancel?
      case _ => log != [] && (log[|log| - 1].act.Fail? || log[|log| - 1].act.Sweep?)
  }

  lemma ProtocolStep(v: View, at: Time, a: Action, log: seq<Stamp>, expiry: Time)
    requires Invariant(v) && Enabled(v, at, a) && Matches(v, log, expiry)
    ensures Matches(Effect(v, at, a),
                    log + (if IsProtocol(a) then [Stamp(at, a, expiry)] else []),
                    if a.Lease? || a.Renew? then at + a.secs * SECOND else expiry)
    ensures IsProtocol(a) ==>
              if log == [] then a.Lease? || a.Cancel? else MayFollow(log[|log| - 1].act, Stamp(at, a, expiry))
  {
  }

  /** On every legal history. */
  lemma {:induction false} LeasesAlternate(id: JobId, h: History)
    requires Legal(id, h)
    ensures Alternates(Log(h)) && Matches(After(id, h), Log(h), LastExpiry(h))
  {
    if h.Then? {
      LeasesAlternate(id, h.past);
      InvariantHolds(id, h.past);
      ProtocolStep(After(id, h.past), h.at, h.act, Log(h.past), LastExpiry(h.past));
    }
  }

  /** Between two consecutive leases there is exactly one release, by the holder or by a sweep after expiry, and at
      most one redrive. */
  lemma OneReleaseBetweenLeases(id: JobId, h: History, i: nat, j: nat)
    requires Legal(id, h)
    requires i < j < |Log(h)| && Log(h)[i].act.Lease? && Log(h)[j].act.Lease?
    requires forall k :: i < k < j ==> !Log(h)[k].act.Lease?
    ensures Releases(Log(h)[i].act, Log(h)[i + 1])
    ensures j == i + 2 || (j == i + 3 && Log(h)[i + 2].act.Retry?)
  {
    LeasesAlternate(id, h);
    var log := Log(h);
    assert MayFollow(log[i].act, log[i + 1]);
    assert MayFollow(log[j - 1].act, log[j]);
    assert i + 2 < |log| ==> MayFollow(log[i + 1].act, log[i + 2]);
    assert i + 3 < |log| ==> MayFollow(log[i + 2].act, log[i + 3]);
    assert i + 4 < |log| ==> MayFollow(log[i + 3].act, log[i + 4]);
  }

  /** A result is accepted only for the lease just before it, and only from the worker that took that lease. */
  lemma OneResultPerLease(id: JobId, h: History, i: nat)
    requires Legal(id, h) && i < |Log(h)| && (Log(h)[i].act.Complete? || Log(h)[i].act.Fail?)
    ensures i > 0 && Log(h)[i - 1].act.Lease? && Log(h)[i - 1].act.worker == Log(h)[i].act.worker
    ensures Log(h)[i].act.Complete? ==> i == |Log(h)| - 1
  {
    LeasesAlternate(id, h);
    var log := Log(h);
    assert i > 0 ==> MayFollow(log[i - 1].act, log[i]);
    assert i + 1 < |log| ==> MayFollow(log[i].act, log[i + 1]);
  }

  // ---- spacing of attempts -------------------------------------------------

  /** When the job was leased since it was created or last redriven. */
  function LifeLeases(h: History): seq<Time> {
    match h
    case Empty => []
    case Then(past, at, a) =>
      if a.Retry? then [] else if a.Lease? then LifeLeases(past) + [at] else LifeLeases(past)
  }

  ghost predicate Spaced(leases: seq<Time>, base: int, max: int) {
    forall i: nat :: 0 < i < |leases| ==> leases[i] - leases[i - 1] >= SweptDelay(base, max, i) * SECOND
  }

  /** The row remembers the leases: their number in `attempts`, the next admissible time in `runAt`. */
  ghost predicate RemembersLeases(v: View, leases: seq<Time>, clock: Time) {
    if v.job.None? then !v.minted ==> leases == []
    else
      var j := v.job.value;
      && |leases| == j.attempts
      && Spaced(leases, j.backoffBaseSecs, j.backoffMaxSecs)
      && (leases != [] ==> leases[|leases| - 1] <= clock)
      && (j.status.Retrying? ==>
            && leases != []
            && j.runAt >= leases[|leases| - 1] + SweptDelay(j.backoffBaseSecs, j.backoffMaxSecs, j.attempts) * SECOND)
  }

  lemma RemembersStep(v: View, at: Time, a: Action, leases: seq<Time>, clock: Time)
    requires Invariant(v) && Enabled(v, at, a) && RemembersLeases(v, leases, clock) && clock <= at
    ensures RemembersLeases(Effect(v, at, a),
                            if a.Retry? then [] else if a.Lease? then leases + [at] else leases, at)
  {
    if v.job.Some? {
      DelaysAgree(v.job.value.backoffBaseSecs, v.job.value.backoffMaxSecs, v.job.value.attempts);
    }
  }

  lemma {:induction false} LeasesRemembered(id: JobId, h: History)
    requires Legal(id, h) && h.Then?
    ensures RemembersLeases(After(id, h), LifeLeases(h), h.at)
  {
    InvariantHolds(id, h.past);
    if h.past.Then? {
      LeasesRemembered(id, h.past);
      RemembersStep(After(id, h.past), h.at, h.act, LifeLeases(h.past), h.past.at);
    } else {
      RemembersStep(After(id, h.past), h.at, h.act, [], h.at);
    }
  }

  lemma {:induction false} SpacingAddsUp(leases: seq<Time>, base: int, max: int, k: nat)
    requires Spaced(leases, base, max) && k < |leases|
    ensures leases[k] - leases[0] >= TotalDelay(base, max, k) * SECOND
  {
    if k > 0 {
      SpacingAddsUp(leases, base, max, k - 1);
    }
  }

  /** Within one life the lease after `k` failed or swept attempts comes no earlier than the sum of the first `k`
      delays after the first lease, however failures and sweeps mix; a life has at most `maxAttempts` leases. */
  lemma CumulativeBackoff(id: JobId, h: History, k: nat)
    requires Legal(id, h) && After(id, h).job.Some? && k < |LifeLeases(h)|
    ensures var j := After(id, h).job.value;
            && |LifeLeases(h)| == j.attempts <= j.maxAttempts
            && LifeLeases(h)[k] - LifeLeases(h)[0] >= TotalDelay(j.backoffBaseSecs, j.backoffMaxSecs, k) * SECOND
            && (k >= 1 && j.backoffBaseSecs * Pow2(k - 1) <= j.backoffMaxSecs ==>
                  LifeLeases(h)[k] - LifeLeases(h)[0] >= j.backoffBaseSecs * (Pow2(k) - 1) * SECOND)
  {
    LeasesRemembered(id, h);
    InvariantHolds(id, h);
    var j := After(id, h).job.value;
    SpacingAddsUp(LifeLeases(h), j.backoffBaseSecs, j.backoffMaxSecs, k);
    if k >= 1 && j.backoffBaseSecs * Pow2(k - 1) <= j.backoffMaxSecs {
      TotalDelayClosedForm(j.backoffBaseSecs, j.backoffMaxSecs, k);
    }
  }
}
