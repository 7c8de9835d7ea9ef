module QueueRuns {
  /**
    Every interleaving of the queue's actors. A run is a sequence of steps, each one SQL
    statement or transaction by a worker slot, a heartbeat thread, the watchdog, a user or the
    start-up recovery; any of them may be taken by any actor at any time, including by a slot
    whose job was taken away from it meanwhile.

    The ledgers are history: nothing in the system reads them.
   */
  import opened Options
  import opened JobQueue

  /** A slot has leased a job before it enters it in the worker's active set. */
  datatype Phase = Idle | Leased(job: JobId) | Running(job: JobId)

  datatype Slot = Slot(worker: WorkerId, express: bool, phase: Phase)
  {
    predicate Holds(j: JobId) { !phase.Idle? && phase.job == j }
  }

  /** leases: times dequeued; uncharged: re-queues that cost no retry; recoveries: re-queues
      by others while some slot held the job; bypassed: FIFO leases of another job while this
      one was queued and unlocked. */
  datatype Ledger = Ledger(leases: nat, uncharged: nat, recoveries: nat, bypassed: nat)

  datatype State = State(rows: seq<Row>, outbox: seq<Delivery>, slots: seq<Slot>, now: int, ledgers: seq<Ledger>)

  datatype Step =
    | Tick(to: int)
    | Create(key: Option<string>, maxRetries: int, callback: bool)
    | Dequeue(slot: nat, locked: set<JobId>, pick: JobId)
    | Activate(slot: nat)
    | Progress(slot: nat)
    | Complete(slot: nat)
    | Requeue(slot: nat, limit: bool)
    | Fail(slot: nat, limit: bool)
    | Crash(slot: nat)
    | Cancel(job: JobId)
    | RetryStaleRows(cutoff: int)
    | FailStaleRows(cutoff: int)
    | Heartbeat(worker: WorkerId, live: set<JobId>)
    | RecoverLimit

  ghost predicate Shaped(s: State) {
    && |s.ledgers| == |s.rows|
    && forall i :: 0 <= i < |s.slots| ==> s.slots[i].phase.Idle? || s.slots[i].phase.job < |s.rows|
  }

  predicate InPhase(s: State, i: nat, running: bool) {
    i < |s.slots| && if running then s.slots[i].phase.Running? else s.slots[i].phase.Leased?
  }

  ghost predicate Enabled(s: State, step: Step) {
    match step
    case Tick(to) => s.now <= to
    case Create(_, _, _) => true
    case Dequeue(i, locked, k) =>
      i < |s.slots| && s.slots[i].phase.Idle? && IsPick(s.rows, locked, s.slots[i].express, k)
    case Activate(i) => InPhase(s, i, false)
    case Progress(i) => InPhase(s, i, true)
    case Complete(i) => InPhase(s, i, true)
    case Requeue(i, _) => InPhase(s, i, true)
    case Fail(i, _) => InPhase(s, i, true)
    case Crash(i) => i < |s.slots|
    case Cancel(_) => true
    case RetryStaleRows(_) => true
    case FailStaleRows(_) => true
    case Heartbeat(_, _) => true
    case RecoverLimit => true
  }

  function Released(s: State, i: nat): seq<Slot>
    requires i < |s.slots|
  {
    s.slots[i := s.slots[i].(phase := Idle)]
  }

  function Recovered(l: Ledger, held: bool, charged: bool): Ledger {
    l.(recoveries := l.recoveries + if held then 1 else 0, uncharged := l.uncharged + if charged then 0 else 1)
  }

  function AtLease(l: Ledger, leased: bool, passedOver: bool): Ledger {
    if leased then l.(leases := l.leases + 1)
    else if passedOver then l.(bypassed := l.bypassed + 1)
    else l
  }

  function LeaseLedgers(s: State, fifo: bool, locked: set<JobId>, k: JobId): (r: seq<Ledger>)
    requires |s.ledgers| == |s.rows|
    ensures |r| == |s.ledgers|
    ensures forall i :: 0 <= i < |r| ==> r[i] == AtLease(s.ledgers[i], i == k, fifo && Eligible(s.rows, locked, i))
  {
    seq(|s.ledgers|, i requires 0 <= i < |s.ledgers| =>
      AtLease(s.ledgers[i], i == k, fifo && Eligible(s.rows, locked, i)))
  }

  function RecoverLedgers(s: State, hit: JobId -> bool, charged: bool): (r: seq<Ledger>)
    requires |s.ledgers| == |s.rows|
    ensures |r| == |s.ledgers|
    ensures forall i :: 0 <= i < |r| ==>
      r[i] == if hit(i) then Recovered(s.ledgers[i], Executors(s.slots, i) > 0, charged) else s.ledgers[i]
  {
    seq(|s.ledgers|, i requires 0 <= i < |s.ledgers| =>
      if hit(i) then Recovered(s.ledgers[i], Executors(s.slots, i) > 0, charged) else s.ledgers[i])
  }

  function Apply(s: State, step: Step): (t: State)
    requires Shaped(s) && Enabled(s, step)
    ensures Shaped(t) && |s.rows| <= |t.rows| && |t.slots| == |s.slots| && s.now <= t.now
  {
    match step
    case Tick(to) => s.(now := to)
    case Create(key, maxRetries, callback) =>
      if FindKey(s.rows, key).Some? then s
      else s.(rows := s.rows + [NewRow(key, maxRetries, callback, s.now)], ledgers := s.ledgers + [Ledger(0, 0, 0, 0)])
    case Dequeue(i, locked, k) =>
      s.(rows := s.rows[k := Lease(s.rows[k], s.slots[i].worker, s.now)],
         slots := s.slots[i := s.slots[i].(phase := Leased(k))],
         ledgers := LeaseLedgers(s, !s.slots[i].express, locked, k))
    case Activate(i) => s.(slots := s.slots[i := s.slots[i].(phase := Running(s.slots[i].phase.job))])
    case Progress(i) =>
      var k := s.slots[i].phase.job;
      s.(rows := s.rows[k := Progressed(s.rows[k], s.slots[i].worker, s.now)])
    case Complete(i) =>
      var k := s.slots[i].phase.job;
      s.(rows := s.rows[k := Completing(s.rows[k], s.now)],
         outbox := s.outbox + if s.rows[k].callback then [Delivery(k, true)] else [],
         slots := Released(s, i))
    case Requeue(i, limit) =>
      var k := s.slots[i].phase.job;
      if s.rows[k].retries < RetryCap(s.rows[k]) then
        s.(rows := s.rows[k := Requeued(s.rows[k], limit)], slots := Released(s, i))
      else s
    case Fail(i, limit) =>
      var k := s.slots[i].phase.job;
      s.(rows := s.rows[k := Failing(s.rows[k], limit, s.now)],
         outbox := s.outbox + if s.rows[k].callback then [Delivery(k, false)] else [],
         slots := Released(s, i))
    case Crash(i) => s.(slots := Released(s, i))
    case Cancel(k) =>
      if k < |s.rows| then s.(rows := s.rows[k := Cancelling(s.rows[k], s.now)]) else s
    case RetryStaleRows(cutoff) =>
      s.(rows := RetryStale(s.rows, cutoff),
         ledgers := RecoverLedgers(s, (k: JobId) => k < |s.rows| && StaleRetryable(s.rows[k], cutoff), true))
    case FailStaleRows(cutoff) => s.(rows := FailStale(s.rows, cutoff, s.now))
    case Heartbeat(worker, live) =>
      s.(rows := BeatAll(s.rows, worker, live, s.now),
         ledgers := RecoverLedgers(s, (k: JobId) => k < |s.rows| && Orphaned(s.rows[k], worker, k in live), false))
    case RecoverLimit =>
      s.(rows := RecoverLimited(s.rows, s.now),
         ledgers := RecoverLedgers(s, (k: JobId) => k < |s.rows| && LimitRecoverable(s.rows[k], s.now), false))
  }

  ghost predicate ValidRun(s: State, steps: seq<Step>)
    requires Shaped(s)
    decreases |steps|
  {
    steps == [] || (Enabled(s, steps[0]) && ValidRun(Apply(s, steps[0]), steps[1..]))
  }

  ghost function Exec(s: State, steps: seq<Step>): (t: State)
    requires Shaped(s) && ValidRun(s, steps)
    ensures Shaped(t) && |s.rows| <= |t.rows|
    decreases |steps|
  {
    if steps == [] then s else Exec(Apply(s, steps[0]), steps[1..])
  }

  ghost predicate Init(s: State) {
    && s.rows == [] && s.outbox == [] && s.ledgers == []
    && forall i :: 0 <= i < |s.slots| ==> s.slots[i].phase.Idle?
  }

  ghost predicate Reachable(s: State) {
    exists s0: State, steps :: Init(s0) && ValidRun(s0, steps) && s == Exec(s0, steps)
  }

  // ---------------------------------------------------------------- counting

  /** Slots that hold job j: it is being executed there, or about to be. */
  function Executors(slots: seq<Slot>, j: JobId): nat {
    if slots == [] then 0
    else Executors(slots[..|slots| - 1], j) + if slots[|slots| - 1].Holds(j) then 1 else 0
  }

  lemma {:induction false} ExecutorsUpdate(slots: seq<Slot>, i: nat, x: Slot, j: JobId)
    requires i < |slots|
    ensures Executors(slots[i := x], j) + (if slots[i].Holds(j) then 1 else 0)
         == Executors(slots, j) + if x.Holds(j) then 1 else 0
  {
    var n := |slots| - 1;
    if i < n {
      assert slots[i := x][..n] == slots[..n][i := x];
      ExecutorsUpdate(slots[..n], i, x, j);
    } else {
      assert slots[i := x][..n] == slots[..n];
    }
  }

  lemma {:induction false} NoExecutors(slots: seq<Slot>, j: JobId)
    ensures Executors(slots, j) == 0 <==> forall i :: 0 <= i < |slots| ==> !slots[i].Holds(j)
  {
    if slots != [] {
      var n := |slots| - 1;
      NoExecutors(slots[..n], j);
      assert forall i :: 0 <= i < n ==> slots[..n][i] == slots[i];
    }
  }

  /** Leases, among the first n jobs, of jobs other than j that are at least as old. */
  ghost function OlderLeases(rows: seq<Row>, ledgers: seq<Ledger>, j: JobId, n: nat): nat
    requires j < |rows| && n <= |rows| && n <= |ledgers|
  {
    if n == 0 then 0
    else OlderLeases(rows, ledgers, j, n - 1)
         + if n - 1 != j && rows[n - 1].created <= rows[j].created then ledgers[n - 1].leases else 0
  }

  /** What those jobs may cost: 1 + cap leases each, plus their uncharged re-queues. */
  ghost function OlderBudget(rows: seq<Row>, ledgers: seq<Ledger>, j: JobId, n: nat): nat
    requires j < |rows| && n <= |rows| && n <= |ledgers|
  {
    if n == 0 then 0
    else OlderBudget(rows, ledgers, j, n - 1)
         + if n - 1 != j && rows[n - 1].created <= rows[j].created
           then 1 + RetryCap(rows[n - 1]) + ledgers[n - 1].uncharged else 0
  }

  lemma {:induction false} OlderLeasesGrow(s: State, t: State, j: JobId, n: nat, k: JobId)
    requires j < |s.rows| <= |t.rows| && n <= |s.rows| && n <= |s.ledgers| <= |t.ledgers|
    requires forall i :: 0 <= i < |s.rows| ==> t.rows[i].created == s.rows[i].created
    requires forall i :: 0 <= i < n ==> t.ledgers[i].leases == s.ledgers[i].leases + if i == k then 1 else 0
    ensures OlderLeases(t.rows, t.ledgers, j, n) == OlderLeases(s.rows, s.ledgers, j, n)
      + if k < n && k != j && s.rows[k].created <= s.rows[j].created then 1 else 0
  {
    if n > 0 {
      OlderLeasesGrow(s, t, j, n - 1, k);
    }
  }

  // ---------------------------------------------------------------- the invariant

  predicate RowOk(r: Row) {
    && !r.status.Pending?
    && (r.status.Queued? ==> r.worker.None? && r.heartbeat.None?)
    && (r.status.Processing? ==> r.worker.Some? && r.heartbeat.Some?)
    && (r.status.Completed? ==> r.hasResult)
    && (r.status.Terminal() ==> r.completedAt.Some?)
    && r.retries <= RetryCap(r)
  }

  function Waiting(r: Row): nat { if r.status.Queued? then 1 else 0 }

  ghost predicate JobOk(s: State, j: JobId)
    requires Shaped(s) && j < |s.rows|
  {
    var r, l := s.rows[j], s.ledgers[j];
    && RowOk(r)
    && (r.status.Completed? && r.callback ==> Delivery(j, true) in s.outbox)
    && l.leases + Waiting(r) <= 1 + r.retries + l.uncharged
    && Executors(s.slots, j) + Waiting(r) <= 1 + l.recoveries
    && l.bypassed <= OlderLeases(s.rows, s.ledgers, j, |s.rows|)
  }

  ghost predicate UniqueKeys(rows: seq<Row>) {
    forall i, j :: 0 <= i < j < |rows| && rows[i].key.Some? ==> rows[i].key != rows[j].key
  }

  ghost predicate Inv(s: State) {
    && Shaped(s)
    && UniqueKeys(s.rows)
    && forall j :: 0 <= j < |s.rows| ==> JobOk(s, j)
  }

  // ---------------------------------------------------------------- one row, one step

  /** The job of slot i. */
  predicate Has(s: State, i: nat, j: JobId) { i < |s.slots| && s.slots[i].Holds(j) }

  /** Row j after a step. */
  ghost function RowAfter(s: State, step: Step, j: JobId): Row
    requires Shaped(s) && Enabled(s, step) && j < |s.rows|
  {
    var r := s.rows[j];
    match step
    case Dequeue(i, _, k) => if k == j then Lease(r, s.slots[i].worker, s.now) else r
    case Progress(i) => if Has(s, i, j) then Progressed(r, s.slots[i].worker, s.now) else r
    case Complete(i) => if Has(s, i, j) then Completing(r, s.now) else r
    case Requeue(i, limit) => if Has(s, i, j) then Requeued(r, limit) else r
    case Fail(i, limit) => if Has(s, i, j) then Failing(r, limit, s.now) else r
    case Cancel(k) => if k == j then Cancelling(r, s.now) else r
    case RetryStaleRows(cutoff) => StaleRetried(r, cutoff)
    case FailStaleRows(cutoff) => StaleFailed(r, cutoff, s.now)
    case Heartbeat(worker, live) => Beat(r, worker, j in live, s.now)
    case RecoverLimit => LimitRecovered(r, s.now)
    case _ => r
  }

  /** Ledger j after a step. */
  ghost function LedgerAfter(s: State, step: Step, j: JobId): Ledger
    requires Shaped(s) && Enabled(s, step) && j < |s.rows|
  {
    var r, l, held := s.rows[j], s.ledgers[j], Executors(s.slots, j) > 0;
    match step
    case Dequeue(i, locked, k) => AtLease(l, j == k, !s.slots[i].express && Eligible(s.rows, locked, j))
    case RetryStaleRows(cutoff) => if StaleRetryable(r, cutoff) then Recovered(l, held, true) else l
    case Heartbeat(worker, live) => if Orphaned(r, worker, j in live) then Recovered(l, held, false) else l
    case RecoverLimit => if LimitRecoverable(r, s.now) then Recovered(l, held, false) else l
    case _ => l
  }

  lemma {:induction false} RowOf(s: State, step: Step, j: JobId)
    requires Shaped(s) && Enabled(s, step) && j < |s.rows|
    ensures Apply(s, step).rows[j] == RowAfter(s, step, j)
  {
  }

  lemma {:induction false} LedgerOf(s: State, step: Step, j: JobId)
    requires Shaped(s) && Enabled(s, step) && j < |s.rows|
    ensures Apply(s, step).ledgers[j] == LedgerAfter(s, step, j)
  {
  }

  /** What no step changes about an existing row, and which way its counters move. */
  ghost predicate RowKept(r: Row, r': Row) {
    && r'.key == r.key && r'.created == r.created && r'.callback == r.callback && r'.maxRetries == r.maxRetries
    && r.retries <= r'.retries && (r.retries <= RetryCap(r) ==> r'.retries <= RetryCap(r))
    && (r.hasResult ==> r'.hasResult)
  }

  lemma {:induction false} StepKeepsRow(s: State, step: Step, j: JobId)
    requires Shaped(s) && Enabled(s, step) && j < |s.rows|
    ensures RowKept(s.rows[j], Apply(s, step).rows[j])
  {
    RowOf(s, step, j);
    RowAfterKept(s, step, j);
  }

  lemma {:induction false} RowAfterKept(s: State, step: Step, j: JobId)
    requires Shaped(s) && Enabled(s, step) && j < |s.rows|
    ensures RowKept(s.rows[j], RowAfter(s, step, j))
  {
  }

  lemma {:induction false} StepKeepsRowOk(s: State, step: Step, j: JobId)
    requires Shaped(s) && Enabled(s, step) && j < |s.rows| && RowOk(s.rows[j])
    ensures RowOk(Apply(s, step).rows[j])
  {
    RowOf(s, step, j);
    RowAfterOk(s, step, j);
  }

  lemma {:induction false} RowAfterOk(s: State, step: Step, j: JobId)
    requires Shaped(s) && Enabled(s, step) && j < |s.rows| && RowOk(s.rows[j])
    ensures RowOk(RowAfter(s, step, j))
  {
  }

  lemma {:induction false} LeaseAfter(s: State, step: Step, j: JobId)
    requires Shaped(s) && Enabled(s, step) && j < |s.rows| && RowOk(s.rows[j])
    requires s.ledgers[j].leases + Waiting(s.rows[j]) <= 1 + s.rows[j].retries + s.ledgers[j].uncharged
    ensures var r, l := RowAfter(s, step, j), LedgerAfter(s, step, j);
      l.leases + Waiting(r) <= 1 + r.retries + l.uncharged
  {
  }

  lemma {:induction false} StepKeepsLease(s: State, step: Step, j: JobId)
    requires Inv(s) && Enabled(s, step) && j < |s.rows|
    ensures var t := Apply(s, step); var r, l := t.rows[j], t.ledgers[j];
      l.leases + Waiting(r) <= 1 + r.retries + l.uncharged
  {
    assert JobOk(s, j);
    RowOf(s, step, j);
    LedgerOf(s, step, j);
    LeaseAfter(s, step, j);
  }

  /** The step by which a slot lets go of job j. */
  ghost predicate Releases(s: State, step: Step, j: JobId)
    requires Shaped(s) && Enabled(s, step)
  {
    && (step.Complete? || step.Requeue? || step.Fail? || step.Crash?)
    && s.slots[step.slot].Holds(j)
    && (step.Requeue? && j < |s.rows| ==> s.rows[j].retries < RetryCap(s.rows[j]))
  }

  lemma {:induction false} StepMovesExecutors(s: State, step: Step, j: JobId)
    requires Shaped(s) && Enabled(s, step) && j < |s.rows|
    ensures Executors(Apply(s, step).slots, j) + (if Releases(s, step, j) then 1 else 0)
         == Executors(s.slots, j) + if step.Dequeue? && step.pick == j then 1 else 0
  {
    var t := Apply(s, step);
    if t.slots != s.slots {
      var i := step.slot;
      assert t.slots == s.slots[i := t.slots[i]];
      ExecutorsUpdate(s.slots, i, t.slots[i], j);
    }
  }

  lemma {:induction false} StepKeepsExclusion(s: State, step: Step, j: JobId)
    requires Shaped(s) && Enabled(s, step) && j < |s.rows|
    requires Executors(s.slots, j) + Waiting(s.rows[j]) <= 1 + s.ledgers[j].recoveries
    ensures var t := Apply(s, step);
      Executors(t.slots, j) + Waiting(t.rows[j]) <= 1 + t.ledgers[j].recoveries
  {
    StepMovesExecutors(s, step, j);
    RowOf(s, step, j);
    LedgerOf(s, step, j);
  }

  /** A step raises the lease count of the job it dequeues and no other. */
  lemma {:induction false} StepMovesLeases(s: State, step: Step, i: JobId)
    requires Shaped(s) && Enabled(s, step) && i < |s.rows|
    ensures Apply(s, step).ledgers[i].leases == s.ledgers[i].leases + if step.Dequeue? && step.pick == i then 1 else 0
  {
    LedgerOf(s, step, i);
  }

  lemma {:induction false} StepMovesOlderLeases(s: State, step: Step, j: JobId)
    requires Shaped(s) && Enabled(s, step) && j < |s.rows|
    ensures var t, n := Apply(s, step), |s.rows|;
      OlderLeases(t.rows, t.ledgers, j, n) == OlderLeases(s.rows, s.ledgers, j, n)
        + if step.Dequeue? && step.pick != j && s.rows[step.pick].created <= s.rows[j].created then 1 else 0
  {
    var t, n := Apply(s, step), |s.rows|;
    forall i | 0 <= i < n ensures t.rows[i].created == s.rows[i].created {
      StepKeepsRow(s, step, i);
    }
    forall i | 0 <= i < n
      ensures t.ledgers[i].leases == s.ledgers[i].leases + if step.Dequeue? && step.pick == i then 1 else 0
    {
      StepMovesLeases(s, step, i);
    }
    OlderLeasesGrow(s, t, j, n, if step.Dequeue? then step.pick else n);
  }

  lemma {:induction false} StepKeepsBypass(s: State, step: Step, j: JobId)
    requires Inv(s) && Enabled(s, step) && j < |s.rows|
    ensures var t := Apply(s, step);
      t.ledgers[j].bypassed <= OlderLeases(t.rows, t.ledgers, j, |t.rows|)
  {
    assert JobOk(s, j);
    StepMovesOlderLeases(s, step, j);
  }

  lemma {:induction false} StepKeepsDelivery(s: State, step: Step, j: JobId)
    requires Inv(s) && Enabled(s, step) && j < |s.rows|
    ensures var t := Apply(s, step);
      t.rows[j].status.Completed? && t.rows[j].callback ==> Delivery(j, true) in t.outbox
  {
    assert JobOk(s, j);
    RowOf(s, step, j);
    StepKeepsRow(s, step, j);
    if s.rows[j].status.Completed? {
      OutboxGrows(s, step);
    } else if RowAfter(s, step, j).status.Completed? {
      BecomesCompleted(s, step, j);
    }
  }

  lemma {:induction false} OutboxGrows(s: State, step: Step)
    requires Shaped(s) && Enabled(s, step)
    ensures s.outbox <= Apply(s, step).outbox
  {
  }

  /** The only step that completes a job adds its delivery. */
  lemma {:induction false} BecomesCompleted(s: State, step: Step, j: JobId)
    requires Shaped(s) && Enabled(s, step) && j < |s.rows|
    requires !s.rows[j].status.Completed? && RowAfter(s, step, j).status.Completed?
    ensures s.rows[j].callback ==> Delivery(j, true) in Apply(s, step).outbox
  {
    assert step.Complete? && Has(s, step.slot, j);
    if s.rows[j].callback {
      assert Apply(s, step).outbox[|s.outbox|] == Delivery(j, true);
    }
  }

  lemma {:induction false} StepKeepsKeys(s: State, step: Step)
    requires Inv(s) && Enabled(s, step)
    ensures UniqueKeys(Apply(s, step).rows)
  {
    var t := Apply(s, step);
    forall i, j | 0 <= i < j < |t.rows| && t.rows[i].key.Some? ensures t.rows[i].key != t.rows[j].key {
      StepKeepsRow(s, step, i);
      if j < |s.rows| {
        StepKeepsRow(s, step, j);
      }
    }
  }

  lemma {:induction false} StepKeepsInv(s: State, step: Step)
    requires Inv(s) && Enabled(s, step)
    ensures Inv(Apply(s, step))
  {
    var t := Apply(s, step);
    StepKeepsKeys(s, step);
    forall j | 0 <= j < |t.rows| ensures JobOk(t, j) {
      if j < |s.rows| {
        assert JobOk(s, j);
        StepKeepsRowOk(s, step, j);
        StepKeepsLease(s, step, j);
        StepKeepsExclusion(s, step, j);
        StepKeepsBypass(s, step, j);
        StepKeepsDelivery(s, step, j);
      } else {
        NoExecutors(t.slots, j);
      }
    }
  }

  lemma {:induction false} RunKeepsInv(s: State, steps: seq<Step>)
    requires Inv(s) && ValidRun(s, steps)
    ensures Inv(Exec(s, steps))
    decreases |steps|
  {
    if steps != [] {
      StepKeepsInv(s, steps[0]);
      RunKeepsInv(Apply(s, steps[0]), steps[1..]);
    }
  }

  // ---------------------------------------------------------------- main results

  /** Whatever the interleaving, every reachable table is consistent. */
  lemma {:induction false} ReachableInv(s: State)
    requires Reachable(s)
    ensures Inv(s)
  {
    var s0: State, steps :| Init(s0) && ValidRun(s0, steps) && s == Exec(s0, steps);
    RunKeepsInv(s0, steps);
  }

  /** A job is leased at most once, plus once per charged retry, plus once per uncharged
      re-queue; charged retries are capped. */
  lemma {:induction false} LeaseLedger(s: State, j: JobId)
    requires Reachable(s) && j < |s.rows|
    ensures s.ledgers[j].leases + Waiting(s.rows[j]) <= 1 + s.rows[j].retries + s.ledgers[j].uncharged
    ensures s.rows[j].retries <= RetryCap(s.rows[j])
    ensures s.ledgers[j].leases <= 1 + RetryCap(s.rows[j]) + s.ledgers[j].uncharged
  {
    ReachableInv(s);
    assert JobOk(s, j);
  }

  /** No slot runs a job that waits in the queue and no two slots run the same job, unless
      it was re-queued while a slot held it; each such recovery admits one more. */
  lemma {:induction false} ExecutorsBounded(s: State, j: JobId)
    requires Reachable(s) && j < |s.rows|
    ensures Executors(s.slots, j) + Waiting(s.rows[j]) <= 1 + s.ledgers[j].recoveries
  {
    ReachableInv(s);
    assert JobOk(s, j);
  }

  /** The watchdog, a heartbeat or the start-up recovery re-queues j while a slot holds it. */
  ghost predicate RecoversHeld(s: State, step: Step, j: JobId) {
    && j < |s.rows| && Executors(s.slots, j) > 0
    && match step
       case RetryStaleRows(cutoff) => StaleRetryable(s.rows[j], cutoff)
       case Heartbeat(worker, live) => Orphaned(s.rows[j], worker, j in live)
       case RecoverLimit => LimitRecoverable(s.rows[j], s.now)
       case _ => false
  }

  /** At most one slot holds j, and none while it waits in the queue. */
  ghost predicate Exclusive(s: State, j: JobId) {
    j < |s.rows| ==> Executors(s.slots, j) + Waiting(s.rows[j]) <= 1
  }

  lemma {:induction false} StepExclusiveIff(s: State, step: Step, j: JobId)
    requires Shaped(s) && Enabled(s, step) && Exclusive(s, j)
    ensures Exclusive(Apply(s, step), j) <==> !RecoversHeld(s, step, j)
  {
    if j < |s.rows| {
      StepMovesExecutors(s, step, j);
    } else {
      NoExecutors(Apply(s, step).slots, j);
    }
  }

  ghost predicate AlwaysExclusive(s: State, steps: seq<Step>, j: JobId)
    requires Shaped(s) && ValidRun(s, steps)
    decreases |steps|
  {
    Exclusive(s, j) && (steps != [] ==> AlwaysExclusive(Apply(s, steps[0]), steps[1..], j))
  }

  ghost predicate SomeRecoversHeld(s: State, steps: seq<Step>, j: JobId)
    requires Shaped(s) && ValidRun(s, steps)
    decreases |steps|
  {
    steps != [] && (RecoversHeld(s, steps[0], j) || SomeRecoversHeld(Apply(s, steps[0]), steps[1..], j))
  }

  lemma {:induction false} RunExclusiveIff(s: State, steps: seq<Step>, j: JobId)
    requires Shaped(s) && ValidRun(s, steps) && Exclusive(s, j)
    ensures AlwaysExclusive(s, steps, j) <==> !SomeRecoversHeld(s, steps, j)
    decreases |steps|
  {
    if steps != [] {
      StepExclusiveIff(s, steps[0], j);
      if !RecoversHeld(s, steps[0], j) {
        RunExclusiveIff(Apply(s, steps[0]), steps[1..], j);
      }
    }
  }

  /** A job has one executor at a time throughout a run of the system exactly when no step of
      the run re-queues it while a slot holds it. */
  lemma {:induction false} OneExecutorIff(s: State, steps: seq<Step>, j: JobId)
    requires Init(s) && ValidRun(s, steps)
    ensures AlwaysExclusive(s, steps, j) <==> !SomeRecoversHeld(s, steps, j)
  {
    RunExclusiveIff(s, steps, j);
  }

  lemma {:induction false} LeasesWithinBudget(s: State, j: JobId, n: nat)
    requires Inv(s) && j < |s.rows| && n <= |s.rows|
    ensures OlderLeases(s.rows, s.ledgers, j, n) <= OlderBudget(s.rows, s.ledgers, j, n)
  {
    if n > 0 {
      LeasesWithinBudget(s, j, n - 1);
      assert JobOk(s, n - 1);
    }
  }

  /** FIFO lane: being passed over costs an older job one of its leases, so a job is passed
      over at most as often as the older jobs together may be leased. */
  lemma {:induction false} BypassesBounded(s: State, j: JobId)
    requires Reachable(s) && j < |s.rows|
    ensures s.ledgers[j].bypassed <= OlderBudget(s.rows, s.ledgers, j, |s.rows|)
  {
    ReachableInv(s);
    assert JobOk(s, j);
    LeasesWithinBudget(s, j, |s.rows|);
  }

  /** The only step that passes job j over gives the lease to a job at least as old. */
  lemma {:induction false} BypassGoesToOlder(s: State, step: Step, j: JobId)
    requires Shaped(s) && Enabled(s, step) && j < |s.rows|
    requires Apply(s, step).ledgers[j].bypassed != s.ledgers[j].bypassed
    ensures step.Dequeue? && step.pick != j && s.rows[step.pick].created <= s.rows[j].created
    ensures s.rows[j].status.Queued? && Apply(s, step).rows[step.pick].status.Processing?
  {
  }

  lemma {:induction false} RunKeepsRow(s: State, steps: seq<Step>, j: JobId)
    requires Shaped(s) && ValidRun(s, steps) && j < |s.rows|
    ensures var r, r' := s.rows[j], Exec(s, steps).rows[j];
      && r'.key == r.key && r'.created == r.created && r'.callback == r.callback && r'.maxRetries == r.maxRetries
      && r.retries <= r'.retries && (r.hasResult ==> r'.hasResult)
    decreases |steps|
  {
    if steps != [] {
      StepKeepsRow(s, steps[0], j);
      RunKeepsRow(Apply(s, steps[0]), steps[1..], j);
    }
  }

  lemma {:induction false} FindKeyIsUnique(rows: seq<Row>, j: JobId)
    requires UniqueKeys(rows) && j < |rows| && rows[j].key.Some?
    ensures FindKey(rows, rows[j].key) == Some(j)
  {
    var n := |rows| - 1;
    if j < n {
      FindKeyIsUnique(rows[..n], j);
    }
  }

  /** Idempotent submission: once job j has a key, submitting that key again, at any later
      point of any run, finds job j and leaves the table alone. */
  lemma {:induction false} ResubmissionFindsSameJob(
    s: State, steps: seq<Step>, j: JobId, maxRetries: int, callback: bool)
    requires Inv(s) && ValidRun(s, steps) && j < |s.rows| && s.rows[j].key.Some?
    ensures var t := Exec(s, steps);
      FindKey(t.rows, s.rows[j].key) == Some(j) && Apply(t, Create(s.rows[j].key, maxRetries, callback)) == t
  {
    RunKeepsInv(s, steps);
    RunKeepsRow(s, steps, j);
    FindKeyIsUnique(Exec(s, steps).rows, j);
  }

  lemma {:induction false} CreatedHasKey(s: State, key: Option<string>, maxRetries: int, callback: bool)
    returns (j: JobId)
    requires Shaped(s) && key.Some?
    ensures var t := Apply(s, Create(key, maxRetries, callback));
      && j < |t.rows| && t.rows[j].key == key
      && (j == |s.rows| || (t == s && j < |s.rows|))
  {
    var found := FindKey(s.rows, key);
    j := if found.Some? then found.value else |s.rows|;
  }

  /** Once a key was submitted, it finds one and the same job for ever, and submitting it again
      changes nothing: the job that had the key, or the one the submission made. */
  lemma {:induction false} SubmittedKeyFindsJob(
    s: State, key: Option<string>, maxRetries: int, callback: bool, steps: seq<Step>, again: Step)
    returns (j: JobId)
    requires Inv(s) && key.Some? && again.Create? && again.key == key
    requires ValidRun(Apply(s, Create(key, maxRetries, callback)), steps)
    ensures var t := Exec(Apply(s, Create(key, maxRetries, callback)), steps);
      FindKey(t.rows, key) == Some(j) && t.rows[j].key == key && Apply(t, again) == t
    ensures (forall i :: 0 <= i < |s.rows| ==> s.rows[i].key != key) ==> j == |s.rows|
    ensures forall i :: 0 <= i < |s.rows| && s.rows[i].key == key ==> j == i
  {
    var create := Create(key, maxRetries, callback);
    j := CreatedHasKey(s, key, maxRetries, callback);
    StepKeepsInv(s, create);
    ResubmissionFindsSameJob(Apply(s, create), steps, j, again.maxRetries, again.callback);
    RunKeepsRow(Apply(s, create), steps, j);
    forall i | 0 <= i < |s.rows| && s.rows[i].key == key ensures j == i {
      FindKeyIsUnique(s.rows, i);
    }
  }

  // ---------------------------------------------------------------- when is a terminal status final?

  ghost predicate Settled(s: State, j: JobId, status: Status)
    requires Shaped(s) && j < |s.rows|
  {
    && s.rows[j].status == status && status.Terminal()
    && Executors(s.slots, j) == 0
    && !LimitRecoverable(s.rows[j], s.now)
  }

  lemma {:induction false} StepKeepsSettled(s: State, step: Step, j: JobId)
    requires Shaped(s) && Enabled(s, step) && j < |s.rows| && Settled(s, j, s.rows[j].status)
    ensures Settled(Apply(s, step), j, s.rows[j].status)
  {
    NoExecutors(s.slots, j);
    StepMovesExecutors(s, step, j);
    RowOf(s, step, j);
    SettledAfter(s, step, j);
  }

  lemma {:induction false} SettledAfter(s: State, step: Step, j: JobId)
    requires Shaped(s) && Enabled(s, step) && j < |s.rows| && Settled(s, j, s.rows[j].status)
    requires forall i :: 0 <= i < |s.slots| ==> !s.slots[i].Holds(j)
    ensures RowAfter(s, step, j).status == s.rows[j].status && !LimitRecoverable(RowAfter(s, step, j), s.now)
  {
  }

  lemma {:induction false} RunKeepsSettled(s: State, steps: seq<Step>, j: JobId)
    requires Shaped(s) && ValidRun(s, steps) && j < |s.rows| && Settled(s, j, s.rows[j].status)
    ensures Settled(Exec(s, steps), j, s.rows[j].status)
    decreases |steps|
  {
    if steps != [] {
      StepKeepsSettled(s, steps[0], j);
      RunKeepsSettled(Apply(s, steps[0]), steps[1..], j);
    }
  }

  /** A slot that still holds a terminal job can overwrite its status. */
  lemma {:induction false} ZombieOverwrites(s: State, j: JobId, i: nat) returns (steps: seq<Step>)
    requires Shaped(s) && j < |s.rows| && s.rows[j].status.Terminal() && i < |s.slots| && s.slots[i].Holds(j)
    ensures ValidRun(s, steps) && Exec(s, steps).rows[j].status != s.rows[j].status
  {
    var settle := if s.rows[j].status.Completed? then Fail(i, false) else Complete(i);
    if s.slots[i].phase.Running? {
      steps := [settle];
      assert ValidRun(Apply(s, settle), steps[1..]);
      assert Exec(s, steps) == Exec(Apply(s, settle), steps[1..]);
    } else {
      steps := [Activate(i), settle];
      var s1 := Apply(s, Activate(i));
      assert steps[1..] == [settle];
      assert ValidRun(Apply(s1, settle), steps[1..][1..]);
      assert ValidRun(s1, steps[1..]);
      assert Exec(s, steps) == Exec(s1, steps[1..]) == Exec(Apply(s1, settle), steps[1..][1..]);
    }
  }

  /** Completed, failed and cancelled are not final as such: complete_job, fail_job and
      requeue_job do not look at the status they overwrite. A terminal status is final exactly
      when no slot still holds the job and start-up recovery does not apply to it. */
  lemma {:induction false} TerminalIsFinal(s: State, j: JobId)
    requires Shaped(s) && j < |s.rows| && s.rows[j].status.Terminal()
    ensures (forall steps | ValidRun(s, steps) :: Exec(s, steps).rows[j].status == s.rows[j].status)
      <==> (Executors(s.slots, j) == 0 && !LimitRecoverable(s.rows[j], s.now))
  {
    if Executors(s.slots, j) != 0 {
      NoExecutors(s.slots, j);
      var i :| 0 <= i < |s.slots| && s.slots[i].Holds(j);
      var steps := ZombieOverwrites(s, j, i);
    } else if LimitRecoverable(s.rows[j], s.now) {
      var steps := [RecoverLimit];
      assert ValidRun(Apply(s, RecoverLimit), steps[1..]);
      assert ValidRun(s, steps);
      assert Exec(s, steps) == Exec(Apply(s, RecoverLimit), steps[1..]);
      assert Exec(s, steps).rows[j].status.Queued?;
    } else {
      forall steps | ValidRun(s, steps) ensures Exec(s, steps).rows[j].status == s.rows[j].status {
        RunKeepsSettled(s, steps, j);
      }
    }
  }

  lemma {:induction false} RunAppend(s: State, steps: seq<Step>, t: State, step: Step) returns (u: State)
    requires Shaped(s) && ValidRun(s, steps) && Exec(s, steps) == t && Enabled(t, step)
    ensures u == Apply(t, step) && ValidRun(s, steps + [step]) && Exec(s, steps + [step]) == u
  {
    ExecAppend(s, steps, step);
    u := Apply(t, step);
  }

  /** Slot i leases the first job of an empty table and starts on it. */
  function LeasedRun(i: nat, key: Option<string>): seq<Step> {
    [Create(key, 3, false)] + [Dequeue(i, {}, 0)] + [Activate(i)]
  }

  lemma {:induction false} FirstCreated(s: State, key: Option<string>) returns (t: State)
    requires Init(s)
    ensures ValidRun(s, [Create(key, 3, false)]) && t == Exec(s, [Create(key, 3, false)])
    ensures t.slots == s.slots && |t.rows| == 1 && t.rows[0].status.Queued?
  {
    t := RunAppend(s, [], s, Create(key, 3, false));
    assert [] + [Create(key, 3, false)] == [Create(key, 3, false)];
  }

  lemma {:induction false} FirstRuns(s: State, i: nat, key: Option<string>) returns (t: State)
    requires Init(s) && i < |s.slots|
    ensures ValidRun(s, LeasedRun(i, key)) && t == Exec(s, LeasedRun(i, key))
    ensures |t.rows| == 1 && t.rows[0].status.Processing? && |t.slots| == |s.slots| && t.slots[i].phase == Running(0)
  {
    var t1 := FirstCreated(s, key);
    assert Eligible(t1.rows, {}, 0);
    var t2 := RunAppend(s, [Create(key, 3, false)], t1, Dequeue(i, {}, 0));
    t := RunAppend(s, [Create(key, 3, false)] + [Dequeue(i, {}, 0)], t2, Activate(i));
  }

  /** A user cancels the job meanwhile and the slot completes it: the cancelled job ends up completed. */
  lemma {:induction false} CancelledCompletes(s: State, i: nat, key: Option<string>)
    requires Init(s) && i < |s.slots|
    ensures var steps := LeasedRun(i, key) + [Cancel(0)];
      && ValidRun(s, steps) && Exec(s, steps).rows[0].status.Cancelled?
      && ValidRun(s, steps + [Complete(i)]) && Exec(s, steps + [Complete(i)]).rows[0].status.Completed?
  {
    var t3 := FirstRuns(s, i, key);
    var t4 := RunAppend(s, LeasedRun(i, key), t3, Cancel(0));
    var t5 := RunAppend(s, LeasedRun(i, key) + [Cancel(0)], t4, Complete(i));
  }

  // ---------------------------------------------------------------- the double-execution race

  /** Two slots of one worker; a heartbeat between a lease and the active-set update. */
  const RACE: seq<Step> := [
    Create(None, 3, false), Dequeue(0, {}, 0), Heartbeat(0, {}), Dequeue(1, {}, 0), Activate(0), Activate(1)]

  ghost function Start(): State {
    State([], [], [Slot(0, false, Idle), Slot(0, true, Idle)], 0, [])
  }

  lemma {:induction false} ExecAppend(s: State, steps: seq<Step>, step: Step)
    requires Shaped(s) && ValidRun(s, steps) && Enabled(Exec(s, steps), step)
    ensures ValidRun(s, steps + [step]) && Exec(s, steps + [step]) == Apply(Exec(s, steps), step)
    decreases |steps|
  {
    if steps == [] {
      assert (steps + [step])[1..] == [];
    } else {
      ExecAppend(Apply(s, steps[0]), steps[1..], step);
      assert (steps + [step])[1..] == steps[1..] + [step];
    }
  }

  ghost function RaceState(k: nat): State {
    var r := NewRow(None, 3, false, 0);
    var leased := Lease(r, 0, 0);
    match k
    case 0 => Start()
    case 1 => Start().(rows := [r], ledgers := [Ledger(0, 0, 0, 0)])
    case 2 => State([leased], [], [Slot(0, false, Leased(0)), Slot(0, true, Idle)], 0, [Ledger(1, 0, 0, 0)])
    case 3 => State([r], [], [Slot(0, false, Leased(0)), Slot(0, true, Idle)], 0, [Ledger(1, 1, 1, 0)])
    case 4 => State([leased], [], [Slot(0, false, Leased(0)), Slot(0, true, Leased(0))], 0, [Ledger(2, 1, 1, 0)])
    case 5 => State([leased], [], [Slot(0, false, Running(0)), Slot(0, true, Leased(0))], 0, [Ledger(2, 1, 1, 0)])
    case _ => State([leased], [], [Slot(0, false, Running(0)), Slot(0, true, Running(0))], 0, [Ledger(2, 1, 1, 0)])
  }

  lemma {:induction false} RaceCreates(k: nat)
    requires k == 0
    ensures Shaped(RaceState(k)) && Enabled(RaceState(k), RACE[k]) && Apply(RaceState(k), RACE[k]) == RaceState(k + 1)
  {
  }

  lemma {:induction false} RaceOpens(k: nat)
    requires k == 1
    ensures Shaped(RaceState(k)) && Enabled(RaceState(k), RACE[k]) && Apply(RaceState(k), RACE[k]) == RaceState(k + 1)
  {
  }

  lemma {:induction false} RaceBeats(k: nat)
    requires k == 2
    ensures Shaped(RaceState(k)) && Enabled(RaceState(k), RACE[k]) && Apply(RaceState(k), RACE[k]) == RaceState(k + 1)
  {
  }

  lemma {:induction false} RaceCloses(k: nat)
    requires 3 <= k < 6
    ensures Shaped(RaceState(k)) && Enabled(RaceState(k), RACE[k]) && Apply(RaceState(k), RACE[k]) == RaceState(k + 1)
  {
  }

  lemma {:induction false} RaceStep(k: nat)
    requires k < 6
    ensures Shaped(RaceState(k)) && Enabled(RaceState(k), RACE[k]) && Apply(RaceState(k), RACE[k]) == RaceState(k + 1)
  {
    if k == 0 {
      RaceCreates(k);
    } else if k == 1 {
      RaceOpens(k);
    } else if k == 2 {
      RaceBeats(k);
    } else {
      RaceCloses(k);
    }
  }

  lemma {:induction false} RaceReaches(k: nat)
    requires k <= 6
    ensures Shaped(Start()) && ValidRun(Start(), RACE[..k]) && Exec(Start(), RACE[..k]) == RaceState(k)
  {
    if k > 0 {
      RaceReaches(k - 1);
      RaceStep(k - 1);
      ExecAppend(Start(), RACE[..k - 1], RACE[k - 1]);
      assert RACE[..k - 1] + [RACE[k - 1]] == RACE[..k];
    }
  }

  /** The bound of ExecutorsBounded is met: after one recovery two slots run the same job. */
  lemma {:induction false} RaceRunsJobTwice()
    ensures ValidRun(Start(), RACE)
    ensures var t := Exec(Start(), RACE); Executors(t.slots, 0) == 2 && t.ledgers[0].recoveries == 1
  {
    RaceReaches(6);
    assert RACE[..6] == RACE;
    TwoHold(Slot(0, false, Running(0)), Slot(0, true, Running(0)), 0);
  }

  lemma {:induction false} TwoHold(a: Slot, b: Slot, j: JobId)
    requires a.Holds(j) && b.Holds(j)
    ensures Executors([a, b], j) == 2
  {
    assert [a, b][..1] == [a];
    assert Executors([a], j) == 1;
  }

  // ---------------------------------------------------------------- the table does what the steps say

  /** A step of the model performed on the table. Only the choice among jobs that tie in lane
      order is the table's own. */
  method Perform(store: JobStore, s: State, step: Step) returns (done: Step)
    requires Shaped(s) && Enabled(s, step) && store.rows == s.rows && store.outbox == s.outbox
    modifies store
    ensures Enabled(s, done) && store.rows == Apply(s, done).rows && store.outbox == Apply(s, done).outbox
    ensures done == step || (step.Dequeue? && done.Dequeue? && done == step.(pick := done.pick))
  {
    done := step;
    match step {
      case Create(key, maxRetries, callback) =>
        var _, _ := store.CreateJob(key, maxRetries, callback, s.now);
      case Dequeue(i, locked, _) =>
        var job := store.Dequeue(s.slots[i].worker, s.slots[i].express, locked, s.now);
        assert Eligible(s.rows, locked, step.pick);
        done := Dequeue(i, locked, job.value);
      case Complete(_) => Finish(store, s, step);
      case Requeue(_, _) => Finish(store, s, step);
      case Fail(_, _) => Finish(store, s, step);
      case Progress(i) => store.UpdateProgress(s.slots[i].phase.job, s.slots[i].worker, s.now);
      case Cancel(k) => var _ := store.CancelJob(k, s.now);
      case RetryStaleRows(cutoff) => store.RetryStaleJobs(cutoff);
      case FailStaleRows(cutoff) => store.FailStaleJobs(cutoff, s.now);
      case Heartbeat(worker, live) => store.SendHeartbeat(worker, live, s.now);
      case RecoverLimit => store.RecoverDurationLimited(s.now);
      case _ =>
    }
  }

  method Finish(store: JobStore, s: State, step: Step)
    requires Shaped(s) && Enabled(s, step) && store.rows == s.rows && store.outbox == s.outbox
    requires step.Complete? || step.Requeue? || step.Fail?
    modifies store
    ensures store.rows == Apply(s, step).rows && store.outbox == Apply(s, step).outbox
  {
    var id := s.slots[step.slot].phase.job;
    var callback := s.rows[id].callback;
    match step {
      case Complete(_) => store.CompleteJob(id, callback, s.now);
      case Requeue(_, limit) => var _ := store.RequeueJob(id, limit);
      case Fail(_, limit) => store.FailJob(id, limit, callback, s.now);
    }
  }
}
