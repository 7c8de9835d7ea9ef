module JobQueue {
  /**
    The transcription_jobs table as a queue, and every actor that updates it: API submissions
    and cancellations, worker slots of the two lanes, heartbeats, the stale-job watchdog and
    the start-up recovery of jobs that hit the old duration limit.

    Each SQL statement (or transaction) is one atomic step. The class JobStore holds the rows
    the way the database does and changes them in place; QueueRuns interleaves all actors, built
    from the same row functions, and keeps a ledger of what happened.
   */
  import opened Options

  /** Rows are never deleted, so a job is named by the position at which it was inserted. */
  type JobId = nat

  type WorkerId = nat

  datatype Status = Pending | Queued | Processing | Completed | Failed | Cancelled
  {
    predicate Terminal() { Completed? || Failed? || Cancelled? }
  }

  datatype Row = Row(
    key: Option<string>,
    status: Status,
    worker: Option<WorkerId>,
    heartbeat: Option<int>,
    retries: nat,
    maxRetries: int,
    created: int,
    callback: bool,
    hasResult: bool,
    completedAt: Option<int>,
    limitError: bool)

  /** One row of webhook_deliveries, as far as the queue is concerned. */
  datatype Delivery = Delivery(job: JobId, completed: bool)

  function Max(a: int, b: int): int { if a < b then b else a }

  /** GREATEST(COALESCE(max_retries, 3), 3) */
  function RetryCap(r: Row): nat { Max(r.maxRetries, 3) }

  // ---------------------------------------------------------------- row functions

  function NewRow(key: Option<string>, maxRetries: int, callback: bool, now: int): Row {
    Row(key, Queued, None, None, 0, maxRetries, now, callback, false, None, false)
  }

  function Lease(r: Row, worker: WorkerId, now: int): Row {
    r.(status := Processing, worker := Some(worker), heartbeat := Some(now))
  }

  function ToQueue(r: Row): Row {
    r.(status := Queued, worker := None, heartbeat := None)
  }

  function Progressed(r: Row, worker: WorkerId, now: int): Row {
    if r.worker == Some(worker) then r.(heartbeat := Some(now)) else r
  }

  function Completing(r: Row, now: int): Row {
    r.(status := Completed, hasResult := true, completedAt := Some(now))
  }

  function Failing(r: Row, limit: bool, now: int): Row {
    r.(status := Failed, limitError := limit, completedAt := Some(now))
  }

  /** requeue_job: charged to the job, refused once the cap is reached. */
  function Requeued(r: Row, limit: bool): Row {
    if r.retries < RetryCap(r) then ToQueue(r).(retries := r.retries + 1, limitError := limit) else r
  }

  predicate Cancellable(r: Row) { r.status.Pending? || r.status.Queued? || r.status.Processing? }

  function Cancelling(r: Row, now: int): Row {
    if Cancellable(r) then r.(status := Cancelled, limitError := false, completedAt := Some(now)) else r
  }

  predicate Stale(r: Row, cutoff: int) {
    r.status.Processing? && (r.heartbeat.None? || r.heartbeat.value < cutoff)
  }

  predicate StaleRetryable(r: Row, cutoff: int) { Stale(r, cutoff) && r.retries < r.maxRetries }

  function StaleRetried(r: Row, cutoff: int): Row {
    if StaleRetryable(r, cutoff) then ToQueue(r).(retries := r.retries + 1) else r
  }

  function StaleFailed(r: Row, cutoff: int, now: int): Row {
    if Stale(r, cutoff) && r.retries >= r.maxRetries then Failing(r, false, now) else r
  }

  /** Stale, spelt out: in process with no heartbeat since the cutoff. */
  lemma {:induction false} StaleIff(r: Row, cutoff: int, now: int)
    ensures Stale(r, cutoff) <==> r.status.Processing? && (r.heartbeat.Some? ==> r.heartbeat.value < cutoff)
    ensures LimitRecoverable(r, now) <==> r.status.Failed? && r.limitError && now - r.created <= 24 * 3600 * 1000
  {
  }

  predicate Orphaned(r: Row, worker: WorkerId, isLive: bool) {
    r.worker == Some(worker) && r.status.Processing? && !isLive
  }

  /** In process and said to be with this worker. */
  ghost predicate OnItsHands(r: Row, worker: WorkerId) { r.status.Processing? && r.worker == Some(worker) }

  /** Heartbeat transaction on one row: refresh the live ones, then put orphans back. */
  function Beat(r: Row, worker: WorkerId, isLive: bool, now: int): Row {
    var touched := if isLive && r.status.Processing? then r.(heartbeat := Some(now)) else r;
    if Orphaned(touched, worker, isLive) then ToQueue(touched) else touched
  }

  const DAY := 24 * 3600 * 1000

  predicate LimitRecoverable(r: Row, now: int) {
    r.status.Failed? && r.created >= now - DAY && r.limitError
  }

  function LimitRecovered(r: Row, now: int): Row {
    if LimitRecoverable(r, now) then ToQueue(r).(limitError := false) else r
  }

  /** Queued with no trace of a worker: what the next dequeue looks for. */
  predicate IsWaiting(r: Row) { r.status.Queued? && r.worker.None? && r.heartbeat.None? }

  /** The columns no recovery and no failure touches. */
  predicate OtherColumns(r: Row, r': Row) {
    && r'.key == r.key && r'.maxRetries == r.maxRetries && r'.created == r.created
    && r'.callback == r.callback && r'.hasResult == r.hasResult
  }

  // ---------------------------------------------------------------- choosing the next job

  predicate Eligible(rows: seq<Row>, locked: set<JobId>, k: JobId) {
    k < |rows| && rows[k].status.Queued? && k !in locked
  }

  /** Lane order: FIFO by created_at, express by (retry_count, newest first). */
  predicate Before(express: bool, a: Row, b: Row) {
    if express then a.retries < b.retries || (a.retries == b.retries && a.created >= b.created)
    else a.created <= b.created
  }

  /** A row with these retries, created then, comes no later than b: the express lane takes the
      fewest retries first and the newest among them, the other lane the oldest. */
  ghost predicate InLaneOrder(express: bool, retries: nat, created: int, b: Row) {
    && (express ==> retries <= b.retries && (retries == b.retries ==> created >= b.created))
    && (!express ==> created <= b.created)
  }

  /** k may be what ORDER BY ... LIMIT 1 FOR UPDATE SKIP LOCKED returns. */
  ghost predicate IsPick(rows: seq<Row>, locked: set<JobId>, express: bool, k: JobId) {
    && Eligible(rows, locked, k)
    && forall j: JobId :: Eligible(rows, locked, j) ==> Before(express, rows[k], rows[j])
  }

  function FindKey(rows: seq<Row>, key: Option<string>): (r: Option<JobId>)
    ensures r.Some? ==> r.value < |rows| && key.Some? && rows[r.value].key == key
    ensures r.None? ==> key.None? || forall i :: 0 <= i < |rows| ==> rows[i].key != key
  {
    if key.None? || rows == [] then None
    else if rows[|rows| - 1].key == key then Some(|rows| - 1)
    else FindKey(rows[..|rows| - 1], key)
  }

  // ---------------------------------------------------------------- the store

  class JobStore {
    var rows: seq<Row>
    var outbox: seq<Delivery>

    constructor ()
      ensures rows == [] && outbox == []
    {
      rows, outbox := [], [];
    }

    /** CreateJob: a repeated idempotency key returns the row that already has it. */
    method CreateJob(key: Option<string>, maxRetries: int, callback: bool, now: int) returns (id: JobId, existed: bool)
      modifies this`rows
      ensures existed == FindKey(old(rows), key).Some?
      ensures existed <==> key.Some? && exists i :: 0 <= i < |old(rows)| && old(rows)[i].key == key
      ensures existed ==> rows == old(rows) && id < |rows| && rows[id].key == key
      ensures !existed ==> id == |old(rows)| && rows == old(rows) + [NewRow(key, maxRetries, callback, now)]
      ensures !existed ==> rows[id].status.Queued? && rows[id].worker.None? && rows[id].heartbeat.None?
      ensures !existed ==> rows[id].key == key && rows[id].maxRetries == maxRetries && rows[id].callback == callback
      ensures !existed ==> rows[id].created == now && rows[id].completedAt.None?
      ensures !existed ==> rows[id].retries == 0 && !rows[id].hasResult && !rows[id].limitError
    {
      var found := FindKey(rows, key);
      if found.Some? {
        return found.value, true;
      }
      id, existed := |rows|, false;
      rows := rows + [NewRow(key, maxRetries, callback, now)];
    }

    /** dequeue_job: lease the first unlocked queued row in lane order. */
    method Dequeue(worker: WorkerId, express: bool, locked: set<JobId>, now: int) returns (job: Option<JobId>)
      modifies this`rows
      ensures job.None? ==> rows == old(rows) && forall j: JobId :: !Eligible(old(rows), locked, j)
      ensures job.Some? ==> IsPick(old(rows), locked, express, job.value)
                            && rows == old(rows)[job.value := Lease(old(rows)[job.value], worker, now)]
      ensures job.Some? ==> job.value < |rows| && old(rows)[job.value].status.Queued? && job.value !in locked
      ensures job.Some? ==>
        rows[job.value] == old(rows)[job.value].(status := Processing, worker := Some(worker), heartbeat := Some(now))
      ensures forall j: JobId :: job.Some? && j < |old(rows)| && old(rows)[j].status.Queued? && j !in locked ==>
        InLaneOrder(express, old(rows)[job.value].retries, old(rows)[job.value].created, old(rows)[j])
    {
      job := None;
      for i := 0 to |rows|
        invariant rows == old(rows)
        invariant job.None? ==> forall j: JobId :: j < i ==> !Eligible(rows, locked, j)
        invariant job.Some? ==> job.value < i && Eligible(rows, locked, job.value)
        invariant forall j: JobId :: job.Some? && j < i && Eligible(rows, locked, j) ==>
          Before(express, rows[job.value], rows[j])
      {
        if rows[i].status.Queued? && i !in locked {
          if job.None? || !Before(express, rows[job.value], rows[i]) {
            job := Some(i);
          }
        }
      }
      if job.Some? {
        rows := rows[job.value := Lease(rows[job.value], worker, now)];
      }
    }

    method UpdateProgress(id: JobId, worker: WorkerId, now: int)
      requires id < |rows|
      modifies this`rows
      ensures rows == old(rows)[id := Progressed(old(rows)[id], worker, now)]
      ensures old(rows)[id].worker == Some(worker) ==> rows == old(rows)[id := old(rows)[id].(heartbeat := Some(now))]
      ensures old(rows)[id].worker != Some(worker) ==> rows == old(rows)
    {
      if rows[id].worker == Some(worker) {
        rows := rows[id := rows[id].(heartbeat := Some(now))];
      }
    }

    /** complete_job: the row and, when a callback is set, its delivery, in one transaction. */
    method CompleteJob(id: JobId, callback: bool, now: int)
      requires id < |rows|
      modifies this
      ensures rows == old(rows)[id := Completing(old(rows)[id], now)]
      ensures rows[id] == old(rows)[id].(status := Completed, hasResult := true, completedAt := Some(now))
      ensures outbox == old(outbox) + if callback then [Delivery(id, true)] else []
    {
      rows := rows[id := rows[id].(status := Completed, hasResult := true, completedAt := Some(now))];
      if callback {
        outbox := outbox + [Delivery(id, true)];
      }
    }

    method RequeueJob(id: JobId, limit: bool) returns (ok: bool)
      requires id < |rows|
      modifies this`rows
      ensures ok == (old(rows)[id].retries < RetryCap(old(rows)[id]))
      ensures rows == old(rows)[id := Requeued(old(rows)[id], limit)]
      ensures ok <==> old(rows)[id].retries < 3 || old(rows)[id].retries < old(rows)[id].maxRetries
      ensures ok ==> rows[id].status.Queued? && rows[id].worker.None? && rows[id].heartbeat.None?
      ensures ok ==> rows[id].retries == old(rows)[id].retries + 1 && rows[id].limitError == limit
      ensures OtherColumns(old(rows)[id], rows[id]) && (!ok ==> rows == old(rows))
    {
      ok := rows[id].retries < RetryCap(rows[id]);
      if ok {
        rows := rows[id := ToQueue(rows[id]).(retries := rows[id].retries + 1, limitError := limit)];
      }
    }

    method FailJob(id: JobId, limit: bool, callback: bool, now: int)
      requires id < |rows|
      modifies this
      ensures rows == old(rows)[id := Failing(old(rows)[id], limit, now)]
      ensures rows[id].status.Failed? && rows[id].completedAt == Some(now) && !Cancellable(rows[id])
      ensures rows[id].worker == old(rows)[id].worker && rows[id].heartbeat == old(rows)[id].heartbeat
      ensures LimitRecoverable(rows[id], now) <==> limit && now - rows[id].created <= 24 * 3600 * 1000
      ensures OtherColumns(old(rows)[id], rows[id]) && rows[id].retries == old(rows)[id].retries
      ensures forall i :: 0 <= i < |rows| && i != id ==> rows[i] == old(rows)[i]
      ensures outbox == old(outbox) + if callback then [Delivery(id, false)] else []
    {
      rows := rows[id := Failing(rows[id], limit, now)];
      if callback {
        outbox := outbox + [Delivery(id, false)];
      }
    }

    method CancelJob(id: JobId, now: int) returns (ok: bool)
      modifies this`rows
      ensures ok == (id < |old(rows)| && Cancellable(old(rows)[id]))
      ensures rows == if id < |old(rows)| then old(rows)[id := Cancelling(old(rows)[id], now)] else old(rows)
      ensures ok <==> id < |old(rows)| && old(rows)[id].status in {Pending, Queued, Processing}
      ensures ok ==>
        rows[id] == old(rows)[id].(status := Cancelled, limitError := false, completedAt := Some(now))
    {
      ok := id < |rows| && Cancellable(rows[id]);
      if ok {
        rows := rows[id := Cancelling(rows[id], now)];
      }
    }

    /** RecoverStaleJobs: two statements, the second seeing what the first left. No row is
        touched by both, and none is stale afterwards. */
    method RecoverStaleJobs(cutoff: int, now: int)
      modifies this`rows
      ensures |rows| == |old(rows)|
      ensures forall i :: 0 <= i < |rows| ==> !Stale(rows[i], cutoff)
      ensures forall i :: 0 <= i < |rows| && !Stale(old(rows)[i], cutoff) ==> rows[i] == old(rows)[i]
      ensures forall i :: 0 <= i < |rows| && Stale(old(rows)[i], cutoff) ==> OtherColumns(old(rows)[i], rows[i])
      ensures forall i :: 0 <= i < |rows| && StaleRetryable(old(rows)[i], cutoff) ==>
        IsWaiting(rows[i]) && rows[i].retries == old(rows)[i].retries + 1
      ensures forall i :: 0 <= i < |rows| && Stale(old(rows)[i], cutoff) && !StaleRetryable(old(rows)[i], cutoff) ==>
        rows[i].status.Failed? && rows[i].completedAt == Some(now) && rows[i].retries == old(rows)[i].retries
    {
      RetryStaleJobs(cutoff);
      FailStaleJobs(cutoff, now);
    }

    method RetryStaleJobs(cutoff: int)
      modifies this`rows
      ensures rows == RetryStale(old(rows), cutoff)
    {
      rows := RetryStale(rows, cutoff);
    }

    method FailStaleJobs(cutoff: int, now: int)
      modifies this`rows
      ensures rows == FailStale(old(rows), cutoff, now)
    {
      rows := FailStale(rows, cutoff, now);
    }

    /** Afterwards what this worker still has in process is what it says it is working on. */
    method SendHeartbeat(worker: WorkerId, live: set<JobId>, now: int)
      modifies this`rows
      ensures rows == BeatAll(old(rows), worker, live, now)
      ensures forall i :: 0 <= i < |rows| && rows[i].status.Processing? && rows[i].worker == Some(worker) ==> i in live
      ensures forall i :: 0 <= i < |rows| && i in live && old(rows)[i].status.Processing?
                ==> rows[i] == old(rows)[i].(heartbeat := Some(now))
      ensures forall i :: 0 <= i < |rows| && i !in live && OnItsHands(old(rows)[i], worker)
                ==> IsWaiting(rows[i]) && rows[i].retries == old(rows)[i].retries && OtherColumns(old(rows)[i], rows[i])
      ensures forall i :: 0 <= i < |rows| && !old(rows)[i].status.Processing? ==> rows[i] == old(rows)[i]
      ensures forall i :: 0 <= i < |rows| && i !in live && old(rows)[i].worker != Some(worker)
                ==> rows[i] == old(rows)[i]
    {
      rows := BeatAll(rows, worker, live, now);
    }

    /** Afterwards there is nothing left to recover; no retry is charged. */
    method RecoverDurationLimited(now: int)
      modifies this`rows
      ensures rows == RecoverLimited(old(rows), now)
      ensures forall i :: 0 <= i < |rows| ==> !LimitRecoverable(rows[i], now)
      ensures forall i :: 0 <= i < |rows| && LimitRecoverable(old(rows)[i], now)
                ==> IsWaiting(rows[i]) && rows[i].retries == old(rows)[i].retries && OtherColumns(old(rows)[i], rows[i])
                    && !rows[i].limitError && rows[i].completedAt == old(rows)[i].completedAt
      ensures forall i :: 0 <= i < |rows| && !LimitRecoverable(old(rows)[i], now) ==> rows[i] == old(rows)[i]
    {
      rows := RecoverLimited(rows, now);
    }
  }

  // ---------------------------------------------------------------- whole-table statements

  function RetryStale(rows: seq<Row>, cutoff: int): (r: seq<Row>)
    ensures |r| == |rows| && forall i :: 0 <= i < |rows| ==> r[i] == StaleRetried(rows[i], cutoff)
  {
    seq(|rows|, i requires 0 <= i < |rows| => StaleRetried(rows[i], cutoff))
  }

  function FailStale(rows: seq<Row>, cutoff: int, now: int): (r: seq<Row>)
    ensures |r| == |rows| && forall i :: 0 <= i < |rows| ==> r[i] == StaleFailed(rows[i], cutoff, now)
  {
    seq(|rows|, i requires 0 <= i < |rows| => StaleFailed(rows[i], cutoff, now))
  }

  function BeatAll(rows: seq<Row>, worker: WorkerId, live: set<JobId>, now: int): (r: seq<Row>)
    ensures |r| == |rows| && forall i :: 0 <= i < |rows| ==> r[i] == Beat(rows[i], worker, i in live, now)
  {
    seq(|rows|, i requires 0 <= i < |rows| => Beat(rows[i], worker, i in live, now))
  }

  function RecoverLimited(rows: seq<Row>, now: int): (r: seq<Row>)
    ensures |r| == |rows| && forall i :: 0 <= i < |rows| ==> r[i] == LimitRecovered(rows[i], now)
  {
    seq(|rows|, i requires 0 <= i < |rows| => LimitRecovered(rows[i], now))
  }
}
