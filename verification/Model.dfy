/** Errors, submissions and the validation that turns a request into a row. */
module Model {
  import opened Basics
  import opened Status

  datatype QueueError =
    | JobNotFound(id: JobId)
    | QueueNotFound(queue: string)
    | InvalidOperation(op: string, status: JobStatus)
    | Validation(message: string)
    | Storage(message: string)

  /** How the execution of a job ended. */
  datatype Outcome = Success(result: Option<Json>) | Failure(error: string) | Timeout

  /** The error recorded for an execution that ran out of time. */
  const TIMED_OUT: string := "execution timed out"

  datatype NewJob = NewJob(
    queue: string,
    jobType: string,
    payload: Json,
    priority: Int32,
    idempotencyKey: Option<string>,
    maxAttempts: Option<Int32>,
    delaySecs: Option<int>,
    runAt: Option<Time>,
    timeoutSecs: Option<Int32>,
    backoffBaseSecs: Option<Int32>,
    backoffMaxSecs: Option<Int32>,
    deadLetter: Option<bool>)

  datatype NormalizedJob = NormalizedJob(
    queue: string,
    jobType: string,
    payload: Json,
    priority: Int32,
    idempotencyKey: Option<string>,
    maxAttempts: Int32,
    runAt: Time,
    status: JobStatus,
    timeoutSecs: Int32,
    backoffBaseSecs: Int32,
    backoffMaxSecs: Int32,
    deadLetter: bool)

  /** What every row inserted by a submission satisfies. */
  predicate WellFormed(n: NormalizedJob) {
    && 1 <= n.maxAttempts <= 100
    && 1 <= n.timeoutSecs <= 86_400
    && 1 <= n.backoffBaseSecs <= n.backoffMaxSecs
    && (n.status.Queued? || n.status.Scheduled?)
  }

  /** Length in bytes of the UTF-8 encoding. */
  function Utf8Length(s: string): nat {
    if s == [] then 0 else
    var c := s[0] as int;
    (if c < 0x80 then 1 else if c < 0x800 then 2 else if c < 0x1_0000 then 3 else 4) + Utf8Length(s[1..])
  }

  /** Unicode White_Space. */
  predicate IsWhitespace(c: char) {
    var n := c as int;
    || 0x09 <= n <= 0x0D || n == 0x20 || n == 0x85 || n == 0xA0 || n == 0x1680
    || 0x2000 <= n <= 0x200A || n == 0x2028 || n == 0x2029 || n == 0x202F || n == 0x205F || n == 0x3000
  }

  /** `s` is empty once trimmed. */
  predicate IsBlank(s: string) {
    forall i :: 0 <= i < |s| ==> IsWhitespace(s[i])
  }

  /** A request a caller may make. */
  predicate Acceptable(r: NewJob) {
    && !IsBlank(r.queue) && Utf8Length(r.queue) <= 128
    && !IsBlank(r.jobType)
    && (r.idempotencyKey.Some? ==> Utf8Length(r.idempotencyKey.value) <= 255)
    && (r.maxAttempts.Some? ==> 1 <= r.maxAttempts.value <= 100)
    && (r.timeoutSecs.Some? ==> 1 <= r.timeoutSecs.value <= 86_400)
  }

  /** `n` keeps every in-range choice of the request and never runs before the time asked for. */
  ghost predicate Honours(r: NewJob, now: Time, n: NormalizedJob) {
    && n.queue == r.queue && n.jobType == r.jobType && n.payload == r.payload
    && n.priority == r.priority && n.idempotencyKey == r.idempotencyKey
    && n.maxAttempts == GetOr(r.maxAttempts, 5)
    && n.timeoutSecs == GetOr(r.timeoutSecs, 300)
    && n.deadLetter == GetOr(r.deadLetter, true)
    && r.runAt in {None, Some(n.runAt)}
    && (r.runAt.None? ==> n.runAt - now == SECOND * Max(GetOr(r.delaySecs, 0), 0))
    && (n.status.Queued? <==> n.runAt <= now)
    && (r.backoffBaseSecs.None? ==> n.backoffBaseSecs == 2)
    && (r.backoffBaseSecs.Some? && 1 <= r.backoffBaseSecs.value ==> n.backoffBaseSecs == r.backoffBaseSecs.value)
    && (r.backoffMaxSecs.None? && n.backoffBaseSecs <= 300 ==> n.backoffMaxSecs == 300)
    && (r.backoffMaxSecs.Some? && n.backoffBaseSecs <= r.backoffMaxSecs.value ==>
          n.backoffMaxSecs == r.backoffMaxSecs.value)
    && (r.backoffBaseSecs.Some? && r.backoffBaseSecs.value < 1 ==> n.backoffBaseSecs == 1)
    && (GetOr(r.backoffMaxSecs, 300) < n.backoffBaseSecs ==> n.backoffMaxSecs == n.backoffBaseSecs)
  }

  /** Validation accepts exactly the acceptable requests and turns each into a well-formed row that honours it. */
  function Normalized(r: NewJob, now: Time): (n: Result<NormalizedJob, QueueError>)
    ensures n.Ok? <==> Acceptable(r)
    ensures n.Ok? ==> WellFormed(n.value) && Honours(r, now, n.value)
    ensures n.Err? ==> n.error.Validation?
  {
    if IsBlank(r.queue) then Err(Validation("queue must not be empty"))
    else if IsBlank(r.jobType) then Err(Validation("job_type must not be empty"))
    else if Utf8Length(r.queue) > 128 then Err(Validation("queue name too long (max 128)"))
    else if r.idempotencyKey.Some? && Utf8Length(r.idempotencyKey.value) > 255 then
      Err(Validation("idempotency_key too long (max 255)"))
    else
      var maxAttempts := GetOr(r.maxAttempts, 5);
      if !(1 <= maxAttempts <= 100) then Err(Validation("max_attempts must be between 1 and 100"))
      else
        var timeoutSecs := GetOr(r.timeoutSecs, 300);
        if !(1 <= timeoutSecs <= 86_400) then Err(Validation("timeout_secs must be between 1 and 86400"))
        else
          var base := Max(GetOr(r.backoffBaseSecs, 2), 1);
          var ceiling := Max(GetOr(r.backoffMaxSecs, 300), base);
          var runAt := match (r.runAt, r.delaySecs)
            case (Some(t), _) => t
            case (None, Some(d)) => if d > 0 then now + d * SECOND else now
            case (None, None) => now;
          var status := if runAt > now then Scheduled else Queued;
          Ok(NormalizedJob(r.queue, r.jobType, r.payload, r.priority, r.idempotencyKey, maxAttempts, runAt, status,
                           timeoutSecs, base, ceiling, GetOr(r.deadLetter, true)))
  }
}
