/** The live event stream of one job: a loop over polls of the job's row, proved to emit exactly the changes of the
    polled statuses. */
module Stream {
  import opened Basics
  import opened Status
  import opened Lifecycle
  import Invariants

  const MAX_POLLS: nat := 1200

  /** One look at the job. */
  datatype Poll = Found(status: JobStatus, attempts: int, lastError: Option<string>) | Missing

  datatype StreamEvent =
    | StatusEvent(status: JobStatus, attempts: int, lastError: Option<string>)
    | ErrorEvent(message: string)
    | TimeoutEvent(message: string)

  // ---- what should be emitted ----------------------------------------------

  predicate Closes(p: Poll) {
    p.Missing? || p.status.IsTerminal()
  }

  /** How many of the polls are made, the first `i` among them: up to the first that closes the stream, or all. */
  function Made(polls: seq<Poll>, i: nat): (n: nat)
    requires i <= |polls|
    ensures i <= n <= |polls|
    ensures forall k :: i <= k < n - 1 ==> !Closes(polls[k])
    ensures n == |polls| || (n > i && Closes(polls[n - 1]))
    decreases |polls| - i
  {
    if i == |polls| then i else if Closes(polls[i]) then i + 1 else Made(polls, i + 1)
  }

  function Cut(polls: seq<Poll>): seq<Poll> {
    polls[..Made(polls, 0)]
  }

  function Prefix(feed: nat -> Poll, n: nat): seq<Poll> {
    seq(n, i requires 0 <= i < n => feed(i))
  }

  /** Two polls that show the same status. */
  predicate Same(p: Poll, q: Poll) {
    p.Found? && q.Found? && p.status == q.status
  }

  /** The polls that differ in status from the poll just before them. */
  function Destutter(polls: seq<Poll>): seq<Poll> {
    var n := |polls|;
    if n <= 1 then polls
    else Destutter(polls[..n - 1]) + if Same(polls[n - 2], polls[n - 1]) then [] else [polls[n - 1]]
  }

  function EventOf(p: Poll): StreamEvent {
    match p
    case Found(status, attempts, lastError) => StatusEvent(status, attempts, lastError)
    case Missing => ErrorEvent("job not found")
  }

  function EventsOf(polls: seq<Poll>): seq<StreamEvent> {
    seq(|polls|, i requires 0 <= i < |polls| => EventOf(polls[i]))
  }

  /** The whole stream: one event per change up to the closing poll, or up to the limit and then a timeout. */
  function Expected(feed: nat -> Poll): seq<StreamEvent> {
    var made := Cut(Prefix(feed, MAX_POLLS));
    EventsOf(Destutter(made)) + if made != [] && Closes(made[|made| - 1]) then [] else [TimeoutEvent("stream closed")]
  }

  // ---- facts about it ------------------------------------------------------

  lemma CutAtFirst(polls: seq<Poll>, n: nat)
    requires n < |polls| && Closes(polls[n]) && forall i :: 0 <= i < n ==> !Closes(polls[i])
    ensures Cut(polls) == polls[..n + 1]
  {
  }

  lemma CutNowhere(polls: seq<Poll>)
    requires forall i :: 0 <= i < |polls| ==> !Closes(polls[i])
    ensures Cut(polls) == polls
  {
  }

  lemma {:induction false} DestutterEnds(polls: seq<Poll>)
    requires polls != []
    ensures Destutter(polls) != []
    ensures var d := Destutter(polls); d[|d| - 1] == polls[|polls| - 1] || Same(d[|d| - 1], polls[|polls| - 1])
  {
    if |polls| > 1 {
      DestutterEnds(polls[..|polls| - 1]);
    }
  }

  lemma {:induction false} DestutterDiffers(polls: seq<Poll>)
    ensures forall i :: 0 < i < |Destutter(polls)| ==> !Same(Destutter(polls)[i - 1], Destutter(polls)[i])
    ensures forall i :: 0 <= i < |Destutter(polls)| ==> Destutter(polls)[i] in polls
  {
    if |polls| > 1 {
      DestutterDiffers(polls[..|polls| - 1]);
      DestutterEnds(polls[..|polls| - 1]);
    }
  }

  lemma {:induction false} DestutterShows(polls: seq<Poll>, i: nat)
    requires i < |polls|
    ensures exists k :: 0 <= k < |Destutter(polls)|
              && (Destutter(polls)[k] == polls[i] || Same(Destutter(polls)[k], polls[i]))
  {
    var n := |polls|;
    if i < n - 1 {
      DestutterShows(polls[..n - 1], i);
      var d := Destutter(polls[..n - 1]);
      var k :| 0 <= k < |d| && (d[k] == polls[i] || Same(d[k], polls[i]));
      assert Destutter(polls)[k] == d[k];
    } else {
      DestutterEnds(polls);
    }
  }

  /** The event after which the stream ends. */
  predicate IsClosing(e: StreamEvent) {
    !e.StatusEvent? || e.status.IsTerminal()
  }

  lemma DestutterCloses(polls: seq<Poll>)
    requires polls != [] && forall i :: 0 <= i < |polls| - 1 ==> !Closes(polls[i])
    ensures var d := Destutter(polls);
            d != [] && (Closes(d[|d| - 1]) <==> Closes(polls[|polls| - 1]))
            && forall i :: 0 <= i < |d| - 1 ==> !Closes(d[i])
  {
    DestutterEnds(polls);
    var last := polls[|polls| - 1];
    if |polls| > 1 {
      var front := polls[..|polls| - 1];
      DestutterDiffers(front);
      var f := Destutter(front);
      assert forall i :: 0 <= i < |f| ==> f[i] in front && !Closes(f[i]);
    }
  }

  lemma EventsShape(d: seq<Poll>, tail: seq<StreamEvent>) returns (es: seq<StreamEvent>)
    requires d != [] && forall i :: 0 <= i < |d| - 1 ==> !Closes(d[i])
    requires forall i :: 0 < i < |d| ==> !Same(d[i - 1], d[i])
    requires tail == if Closes(d[|d| - 1]) then [] else [TimeoutEvent("stream closed")]
    ensures es == EventsOf(d) + tail && ShapedAsStream(es)
  {
    es := EventsOf(d) + tail;
    forall i | 0 <= i < |d| ensures es[i] == EventOf(d[i]) && (IsClosing(es[i]) <==> Closes(d[i])) {
    }
  }

  /** Neighbouring events never report the same status; exactly the last event closes the stream. */
  ghost predicate ShapedAsStream(es: seq<StreamEvent>) {
    && es != []
    && (forall i :: 0 <= i < |es| ==> (IsClosing(es[i]) <==> i == |es| - 1))
    && (forall i :: 0 < i < |es| && es[i].StatusEvent? ==>
          es[i - 1].StatusEvent? && es[i - 1].status != es[i].status)
  }

  lemma DestutterFacts(polls: seq<Poll>) returns (d: seq<Poll>)
    requires polls != [] && forall i :: 0 <= i < |polls| - 1 ==> !Closes(polls[i])
    ensures d == Destutter(polls)
    ensures d != [] && (Closes(d[|d| - 1]) <==> Closes(polls[|polls| - 1]))
    ensures forall i :: 0 <= i < |d| - 1 ==> !Closes(d[i])
    ensures forall i :: 0 < i < |d| ==> !Same(d[i - 1], d[i])
  {
    d := Destutter(polls);
    DestutterCloses(polls);
    DestutterDiffers(polls);
  }

  lemma StreamShape(feed: nat -> Poll)
    ensures ShapedAsStream(Expected(feed))
  {
    var made := Cut(Prefix(feed, MAX_POLLS));
    var d := DestutterFacts(made);
    var es := EventsShape(d, if Closes(made[|made| - 1]) then [] else [TimeoutEvent("stream closed")]);
    assert es == Expected(feed);
  }

  // ---- the loop ------------------------------------------------------------

  /** The events due after `n` polls none of which closed the stream. */
  function Emitted(feed: nat -> Poll, n: nat): seq<StreamEvent> {
    EventsOf(Destutter(Prefix(feed, n)))
  }

  lemma EmittedGrows(feed: nat -> Poll, n: nat)
    ensures Emitted(feed, n + 1)
         == Emitted(feed, n) + if n > 0 && Same(feed(n - 1), feed(n)) then [] else [EventOf(feed(n))]
  {
    var polls := Prefix(feed, n + 1);
    assert polls[..n] == Prefix(feed, n);
    if n == 0 {
      assert polls == [feed(0)];
    } else {
      assert polls[n - 1] == feed(n - 1) && polls[n] == feed(n);
    }
  }

  /** At poll `i` the job was seen for the first time, or with another status than at the poll before, or not at all. */
  predicate ChangesAt(feed: nat -> Poll, i: nat) {
    i == 0 || feed(i - 1).Missing? || feed(i).Missing? || feed(i - 1).status != feed(i).status
  }

  /** `at` lists the changes among the first `n` polls, in order. */
  ghost predicate ListsChanges(feed: nat -> Poll, n: nat, at: seq<nat>) {
    && (forall k :: 0 <= k < |at| ==> at[k] < n)
    && (forall k :: 0 < k < |at| ==> at[k - 1] < at[k])
    && forall i: nat :: i < n ==> (i in at <==> ChangesAt(feed, i))
  }

  /** The event carries what the poll saw. */
  predicate Tells(e: StreamEvent, p: Poll) {
    if p.Missing? then e == ErrorEvent("job not found")
    else e.StatusEvent? && e.status == p.status && e.attempts == p.attempts && e.lastError == p.lastError
  }

  ghost predicate TellsAll(es: seq<StreamEvent>, feed: nat -> Poll, at: seq<nat>) {
    |es| == |at| && forall k :: 0 <= k < |at| ==> Tells(es[k], feed(at[k]))
  }

  lemma ChangesGrow(feed: nat -> Poll, n: nat, at: seq<nat>)
    requires ListsChanges(feed, n, at)
    ensures ListsChanges(feed, n + 1, if ChangesAt(feed, n) then at + [n] else at)
  {
    var next := if ChangesAt(feed, n) then at + [n] else at;
    forall i: nat | i < n + 1 ensures i in next <==> ChangesAt(feed, i) {
      if i == n {
        assert n !in at;
      } else {
        assert i in next <==> i in at;
      }
    }
  }

  lemma TellsNext(es: seq<StreamEvent>, feed: nat -> Poll, at: seq<nat>, n: nat)
    requires TellsAll(es, feed, at)
    ensures TellsAll(es + [EventOf(feed(n))], feed, at + [n])
  {
  }

  lemma {:induction false} EmittedTells(feed: nat -> Poll, n: nat) returns (at: seq<nat>)
    ensures ListsChanges(feed, n, at) && TellsAll(Emitted(feed, n), feed, at)
  {
    at := [];
    if n > 0 {
      at := EmittedTells(feed, n - 1);
      EmittedGrows(feed, n - 1);
      ChangesGrow(feed, n - 1, at);
      TellsNext(Emitted(feed, n - 1), feed, at, n - 1);
      if ChangesAt(feed, n - 1) {
        at := at + [n - 1];
      }
    }
  }

  /** The job cannot change any more as far as a watcher is concerned. */
  predicate IsOver(p: Poll) {
    p.Missing? || p.status in {Completed, Cancelled, DeadLettered}
  }

  /** The stream tells each change of the `n` polls made, with the attempts and the error seen at that poll, and nothing
      else but the news that it gives up, which it does after 1200 polls. */
  lemma StreamTold(feed: nat -> Poll) returns (n: nat, at: seq<nat>)
    ensures 0 < n <= 1200 && (forall i :: 0 <= i < n - 1 ==> !IsOver(feed(i)))
    ensures n < 1200 ==> IsOver(feed(n - 1))
    ensures ListsChanges(feed, n, at)
    ensures var es := Expected(feed);
            if IsOver(feed(n - 1)) then TellsAll(es, feed, at)
            else |es| == |at| + 1 && TellsAll(es[..|at|], feed, at) && es[|at|] == TimeoutEvent("stream closed")
  {
    var polls := Prefix(feed, MAX_POLLS);
    n := Made(polls, 0);
    at := EmittedTells(feed, n);
    assert Cut(polls) == Prefix(feed, n);
    assert forall i :: 0 <= i < n ==> polls[i] == feed(i) && (Closes(polls[i]) <==> IsOver(feed(i)));
    if !IsOver(feed(n - 1)) {
      assert Expected(feed)[..|at|] == Emitted(feed, n);
    }
  }

  lemma ClosedByPoll(feed: nat -> Poll, n: nat)
    requires n < MAX_POLLS && Closes(feed(n)) && forall i :: 0 <= i < n ==> !Closes(feed(i))
    ensures n > 0 ==> !Same(feed(n - 1), feed(n))
    ensures Expected(feed) == Emitted(feed, n) + [EventOf(feed(n))]
  {
    var polls := Prefix(feed, MAX_POLLS);
    CutAtFirst(polls, n);
    assert polls[..n + 1] == Prefix(feed, n + 1);
    EmittedGrows(feed, n);
  }

  lemma ClosedByLimit(feed: nat -> Poll, n: nat)
    requires n == MAX_POLLS && forall i :: 0 <= i < n ==> !Closes(feed(i))
    ensures Expected(feed) == Emitted(feed, n) + [TimeoutEvent("stream closed")]
  {
    CutNowhere(Prefix(feed, n));
  }

  class JobEventStream {
    const feed: nat -> Poll
    var last: Option<JobStatus>
    var first: bool
    var done: bool
    var polls: nat

    constructor (feed: nat -> Poll)
      ensures this.feed == feed && Valid() && !done && Sent() == []
    {
      this.feed := feed;
      last, first, done, polls := None, true, false, 0;
    }

    ghost predicate Valid()
      reads this
    {
      && polls <= MAX_POLLS
      && (!done ==>
            && (forall i :: 0 <= i < polls ==> !Closes(feed(i)))
            && (first <==> polls == 0)
            && (polls > 0 ==> last == Some(feed(polls - 1).status)))
    }

    /** What has been emitted so far. */
    ghost function Sent(): seq<StreamEvent>
      reads this
    {
      if done then Expected(feed) else Emitted(feed, polls)
    }

    /** One poll, and the item it calls for, if any. */
    method Look() returns (item: Option<StreamEvent>)
      requires Valid() && !done && polls < MAX_POLLS
      modifies this
      ensures Valid() && polls == old(polls) + 1
      ensures item.None? ==> !done
      ensures Sent() == old(Sent()) + if item.Some? then [item.value] else []
    {
      var poll := feed(polls);
      if Closes(poll) {
        ClosedByPoll(feed, polls);
      }
      EmittedGrows(feed, polls);
      polls := polls + 1;
      item := None;
      match poll
      case Found(status, attempts, lastError) =>
        var changed := first || last != Some(status);
        if changed {
          first := false;
          last := Some(status);
          if status.IsTerminal() {
            done := true;
          }
          item := Some(StatusEvent(status, attempts, lastError));
        }
      case Missing =>
        done := true;
        item := Some(ErrorEvent("job not found"));
    }

    /** One item of the stream. */
    method Next() returns (item: Option<StreamEvent>)
      requires Valid()
      modifies this
      ensures Valid()
      ensures item.None? <==> old(done)
      ensures old(done) ==> done
      ensures Sent() == old(Sent()) + if item.Some? then [item.value] else []
      ensures item.Some? ==> done || polls > old(polls)
    {
      if done {
        return None;
      }
      while true
        invariant Valid() && !done && polls >= old(polls)
        invariant Sent() == old(Sent())
        decreases MAX_POLLS - polls
      {
        if polls >= MAX_POLLS {
          ClosedByLimit(feed, polls);
          done := true;
          return Some(TimeoutEvent("stream closed"));
        }
        item := Look();
        if item.Some? {
          return;
        }
      }
    }

    /** The stream read to its end. */
    method Collect() returns (items: seq<StreamEvent>)
      requires Valid() && Sent() == []
      modifies this
      ensures Valid() && done && items == Expected(feed)
    {
      items := [];
      var item := Next();
      while item.Some?
        invariant Valid()
        invariant Sent() == items + if item.Some? then [item.value] else []
        invariant item.None? ==> done
        decreases item.Some?, !done, MAX_POLLS - polls
      {
        items := items + [item.value];
        item := Next();
      }
    }
  }

  // ---- what a watcher learns about the job ---------------------------------

  /** A walk along the store's status changes. */
  ghost predicate IsWalk(w: seq<JobStatus>, from: JobStatus, to: JobStatus) {
    && w != [] && w[0] == from && w[|w| - 1] == to
    && forall i :: 0 < i < |w| ==> StoreEdge(w[i - 1], w[i])
  }

  lemma {:induction false} StatusWalk(id: JobId, h: History, g: History) returns (w: seq<JobStatus>)
    requires Legal(id, h) && Invariants.Extends(h, g) && Legal(id, g)
    requires After(id, g).job.Some? && After(id, h).job.Some?
    ensures IsWalk(w, After(id, g).job.value.status, After(id, h).job.value.status)
  {
    if h == g {
      return [After(id, g).job.value.status];
    }
    Invariants.InvariantHolds(id, g);
    Invariants.InvariantHolds(id, h.past);
    Invariants.GoneForGood(id, h.past, g);
    Invariants.RowStep(After(id, h.past), h.at, h.act);
    w := StatusWalk(id, h.past, g);
    Invariants.StatusStep(After(id, h.past), h.at, h.act);
    var next := After(id, h).job.value.status;
    if next != w[|w| - 1] {
      w := w + [next];
    }
  }

  function PollOf(v: View): Poll {
    match v.job
    case Some(j) => Found(j.status, j.attempts, j.lastError)
    case None => Missing
  }

  /** The polls looked at the job in the course of one history. */
  ghost predicate Watches(id: JobId, hs: seq<History>, polls: seq<Poll>) {
    && |hs| == |polls|
    && (forall i :: 0 <= i < |hs| ==> Legal(id, hs[i]) && polls[i] == PollOf(After(id, hs[i])))
    && forall i :: 0 < i < |hs| ==> Invariants.Extends(hs[i], hs[i - 1])
  }

  ghost predicate Linked(p: Poll, q: Poll) {
    p.Found? && q.Found? ==> exists w :: IsWalk(w, p.status, q.status)
  }

  /** The statuses sent to a watcher, though some may have been missed in between, follow the store's status changes. */
  lemma {:induction false} WatchedStatusesAreLinked(id: JobId, hs: seq<History>, polls: seq<Poll>)
    requires Watches(id, hs, polls)
    ensures var d := Destutter(polls); forall i :: 0 < i < |d| ==> Linked(d[i - 1], d[i])
  {
    var n := |polls|;
    if n > 1 {
      var front := polls[..n - 1];
      WatchedStatusesAreLinked(id, hs[..n - 1], front);
      DestutterEnds(front);
      var p, q := polls[n - 2], polls[n - 1];
      if p.Found? && q.Found? {
        var w := StatusWalk(id, hs[n - 1], hs[n - 2]);
        assert IsWalk(w, p.status, q.status);
      }
      assert Linked(p, q);
      var f := Destutter(front);
      assert f[|f| - 1] == p || Same(f[|f| - 1], p);
      assert Linked(f[|f| - 1], q);
    }
  }
}
