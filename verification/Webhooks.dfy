module Webhooks {
  /**
    The webhook_deliveries table and the dispatchers that drain it. A dispatcher tick claims a
    batch of due rows in one statement and starts one sender per claimed row; a sender POSTs
    once and then records the outcome, an error of that last update being ignored. Any number
    of dispatchers may run, and a sender may disappear at any point.
   */
  import opened Options
  import opened Sequences

  type RowId = nat

  datatype Status = Pending | Delivering | Retrying | Success | GivenUp

  datatype Row = Row(status: Status, nextRetry: Option<int>, attempt: nat, maxAttempts: nat, created: int)

  /** Claimed: about to POST. Answered: has the outcome of its POST, not yet recorded. */
  datatype Phase = Claimed | Answered(ok: bool) | Gone

  datatype Sender = Sender(row: RowId, phase: Phase)
  {
    predicate Live(r: RowId) { !phase.Gone? && row == r }
  }

  function Pow2(n: nat): nat { if n == 0 then 1 else 2 * Pow2(n - 1) }

  /** Two seconds after the first attempt, twice as long after each further one. */
  ghost predicate DoublesFromTwoSeconds(backoff: nat -> int) {
    backoff(1) == 2000 && forall n: nat :: backoff(n + 1) == 2 * backoff(n)
  }

  function Backoff(attempt: nat): int { 1000 * Pow2(attempt) }

  lemma {:induction false} BackoffDoubles()
    ensures DoublesFromTwoSeconds(Backoff)
  {
    assert Pow2(1) == 2 * Pow2(0);
    forall n: nat ensures Backoff(n + 1) == 2 * Backoff(n) {
      assert Pow2(n + 1) == 2 * Pow2(n);
    }
  }

  /** Waiting for its first or another attempt, and that time has come. */
  ghost predicate IsDue(r: Row, now: int) {
    r.status in {Pending, Retrying} && (r.nextRetry.Some? ==> r.nextRetry.value <= now)
  }

  /** Column defaults: attempt 1, max_attempts 5; no statement writes either. */
  function NewRow(now: int): Row { Row(Pending, Some(now), 1, 5, now) }

  predicate Due(r: Row, now: int) {
    (r.status.Pending? || r.status.Retrying?) && (r.nextRetry.None? || r.nextRetry.value <= now)
  }

  predicate Claimable(rows: seq<Row>, locked: set<RowId>, now: int, k: RowId) {
    k < |rows| && k !in locked && Due(rows[k], now)
  }

  ghost predicate IsOldest(rows: seq<Row>, locked: set<RowId>, now: int, batch: seq<RowId>, k: RowId) {
    && Claimable(rows, locked, now, k) && k !in batch
    && forall j: RowId :: Claimable(rows, locked, now, j) && j !in batch ==> rows[k].created <= rows[j].created
  }

  /** What ORDER BY created_at ASC LIMIT n FOR UPDATE SKIP LOCKED may return. */
  ghost predicate IsBatch(rows: seq<Row>, locked: set<RowId>, now: int, limit: nat, batch: seq<RowId>) {
    && |batch| <= limit
    && (forall i :: 0 <= i < |batch| ==> Claimable(rows, locked, now, batch[i]))
    && (forall i, j :: 0 <= i < j < |batch| ==> batch[i] != batch[j])
    && (forall k: RowId :: Claimable(rows, locked, now, k) && k !in batch ==>
          |batch| == limit && forall i :: 0 <= i < |batch| ==> rows[batch[i]].created <= rows[k].created)
  }

  function ClaimRows(rows: seq<Row>, batch: seq<RowId>): (r: seq<Row>)
    ensures |r| == |rows|
    ensures forall k :: 0 <= k < |rows| ==> r[k] == if k in batch then rows[k].(status := Delivering) else rows[k]
  {
    seq(|rows|, k requires 0 <= k < |rows| => if k in batch then rows[k].(status := Delivering) else rows[k])
  }

  /** handleFailure: back off by 2^attempt seconds, or give up. */
  function AfterFailure(r: Row, now: int): Row {
    if r.attempt < r.maxAttempts
    then r.(status := Retrying, nextRetry := Some(now + Backoff(r.attempt)))
    else r.(status := GivenUp, nextRetry := None)
  }

  function AfterAnswer(r: Row, ok: bool, now: int): Row {
    if ok then r.(status := Success, nextRetry := None) else AfterFailure(r, now)
  }

  // ---------------------------------------------------------------- the store

  class WebhookStore {
    var rows: seq<Row>

    constructor ()
      ensures rows == []
    {
      rows := [];
    }

    method Enqueue(now: int)
      modifies this
      ensures rows == old(rows) + [NewRow(now)]
      ensures var r := rows[|old(rows)|];
        r.status.Pending? && r.nextRetry == Some(now) && r.attempt == 1 && r.maxAttempts == 5 && r.created == now
    {
      rows := rows + [NewRow(now)];
    }

    /** The oldest claimable row not yet in the batch. */
    method Oldest(locked: set<RowId>, now: int, batch: seq<RowId>) returns (k: Option<RowId>)
      ensures k.None? ==> forall j: RowId :: Claimable(rows, locked, now, j) ==> j in batch
      ensures k.Some? ==> IsOldest(rows, locked, now, batch, k.value)
    {
      k := None;
      for i := 0 to |rows|
        invariant k.None? ==> forall j: RowId :: j < i && Claimable(rows, locked, now, j) ==> j in batch
        invariant k.Some? ==> IsOldest(rows[..i], locked, now, batch, k.value)
      {
        if i !in locked && Due(rows[i], now) && i !in batch {
          if k.None? || rows[i].created < rows[k.value].created {
            k := Some(i);
          }
        }
      }
    }

    /** GetPendingWebhooks: one statement, so no other dispatcher sees it half done. */
    method GetPendingWebhooks(limit: nat, locked: set<RowId>, now: int) returns (batch: seq<RowId>)
      modifies this
      ensures IsBatch(old(rows), locked, now, limit, batch)
      ensures rows == ClaimRows(old(rows), batch)
      ensures |rows| == |old(rows)| && |batch| <= limit
      ensures forall k :: 0 <= k < |rows| && k !in batch ==> rows[k] == old(rows)[k]
      ensures forall k: RowId :: k in batch ==>
        k < |rows| && k !in locked && rows[k] == old(rows)[k].(status := Delivering) && IsDue(old(rows)[k], now)
      ensures forall k: RowId :: k < |rows| && k !in locked && IsDue(old(rows)[k], now) && k !in batch ==>
        |batch| == limit && forall j: RowId :: j in batch ==> old(rows)[j].created <= old(rows)[k].created
    {
      batch := [];
      var next := Oldest(locked, now, batch);
      while |batch| < limit && next.Some?
        invariant rows == old(rows) && |batch| <= limit
        invariant forall i :: 0 <= i < |batch| ==> Claimable(rows, locked, now, batch[i])
        invariant forall i, j :: 0 <= i < j < |batch| ==> batch[i] != batch[j]
        invariant forall k: RowId, i :: Claimable(rows, locked, now, k) && k !in batch && 0 <= i < |batch| ==>
          rows[batch[i]].created <= rows[k].created
        invariant next.None? ==> forall j: RowId :: Claimable(rows, locked, now, j) ==> j in batch
        invariant next.Some? ==> IsOldest(rows, locked, now, batch, next.value)
        decreases limit - |batch|
      {
        batch := batch + [next.value];
        next := Oldest(locked, now, batch);
      }
      rows := ClaimRows(rows, batch);
    }

    /** The update made by deliverWebhook and handleFailure. */
    method RecordOutcome(id: RowId, ok: bool, now: int)
      requires id < |rows|
      modifies this
      ensures rows == old(rows)[id := AfterAnswer(old(rows)[id], ok, now)]
      ensures ok ==> rows[id] == old(rows)[id].(status := Success, nextRetry := None)
      ensures !ok && old(rows)[id].attempt >= old(rows)[id].maxAttempts ==>
        rows[id] == old(rows)[id].(status := GivenUp, nextRetry := None)
      ensures !ok && old(rows)[id].attempt < old(rows)[id].maxAttempts ==>
        rows[id] == old(rows)[id].(status := Retrying, nextRetry := Some(now + Backoff(old(rows)[id].attempt)))
    {
      if ok {
        rows := rows[id := rows[id].(status := Success, nextRetry := None)];
      } else if rows[id].attempt < rows[id].maxAttempts {
        rows := rows[id := rows[id].(status := Retrying, nextRetry := Some(now + Backoff(rows[id].attempt)))];
      } else {
        rows := rows[id := rows[id].(status := GivenUp, nextRetry := None)];
      }
    }
  }

  // ---------------------------------------------------------------- all interleavings

  /** posts and acked are history: POSTs made for a row, and whether one of them got a 2xx. */
  datatype State = State(rows: seq<Row>, senders: seq<Sender>, now: int, posts: seq<nat>, acked: seq<bool>)

  datatype Step =
    | Tick(to: int)
    | Enqueue
    | Claim(locked: set<RowId>, batch: seq<RowId>)
    | ClaimAndLose(locked: set<RowId>, batch: seq<RowId>)
    | Post(sender: nat, ok: bool)
    | Record(sender: nat, stored: bool)
    | Die(sender: nat)

  const BATCH: nat := 10

  ghost predicate Shaped(s: State) {
    && |s.posts| == |s.acked| == |s.rows|
    && forall i :: 0 <= i < |s.senders| ==> s.senders[i].row < |s.rows|
  }

  ghost predicate Enabled(s: State, step: Step) {
    match step
    case Tick(to) => s.now <= to
    case Enqueue => true
    case Claim(locked, batch) => IsBatch(s.rows, locked, s.now, BATCH, batch)
    case ClaimAndLose(locked, batch) => IsBatch(s.rows, locked, s.now, BATCH, batch)
    case Post(i, _) => i < |s.senders| && s.senders[i].phase.Claimed?
    case Record(i, _) => i < |s.senders| && s.senders[i].phase.Answered?
    case Die(i) => i < |s.senders|
  }

  function Spawn(batch: seq<RowId>): (r: seq<Sender>)
    ensures |r| == |batch| && forall i :: 0 <= i < |batch| ==> r[i] == Sender(batch[i], Claimed)
  {
    seq(|batch|, i requires 0 <= i < |batch| => Sender(batch[i], Claimed))
  }

  function Move(s: State, i: nat, phase: Phase): seq<Sender>
    requires i < |s.senders|
  {
    s.senders[i := s.senders[i].(phase := phase)]
  }

  function Apply(s: State, step: Step): (t: State)
    requires Shaped(s) && Enabled(s, step)
    ensures Shaped(t) && |s.rows| <= |t.rows| && |s.senders| <= |t.senders|
  {
    match step
    case Tick(to) => s.(now := to)
    case Enqueue => s.(rows := s.rows + [NewRow(s.now)], posts := s.posts + [0], acked := s.acked + [false])
    case Claim(_, batch) => s.(rows := ClaimRows(s.rows, batch), senders := s.senders + Spawn(batch))
    case ClaimAndLose(_, batch) => s.(rows := ClaimRows(s.rows, batch))
    case Post(i, ok) =>
      var k := s.senders[i].row;
      s.(senders := Move(s, i, Answered(ok)), posts := s.posts[k := s.posts[k] + 1],
         acked := s.acked[k := s.acked[k] || ok])
    case Record(i, stored) =>
      var k := s.senders[i].row;
      s.(rows := if stored then s.rows[k := AfterAnswer(s.rows[k], s.senders[i].phase.ok, s.now)] else s.rows,
         senders := Move(s, i, Gone))
    case Die(i) => s.(senders := Move(s, i, Gone))
  }

  ghost predicate ValidRun(s: State, steps: seq<Step>)
    requires Shaped(s)
    decreases |steps|
  {
    steps == [] || (Enabled(s, steps[0]) && ValidRun(Apply(s, steps[0]), steps[1..]))
  }

  ghost function Exec(s: State, steps: seq<Step>): (t: State)
    requires Shaped(s) && ValidRun(s, steps)
    ensures Shaped(t) && |s.rows| <= |t.rows|
    decreases |steps|
  {
    if steps == [] then s else Exec(Apply(s, steps[0]), steps[1..])
  }

  ghost predicate Init(s: State) {
    s.rows == [] && s.senders == [] && s.posts == [] && s.acked == []
  }

  /** At most one sender works on a row, only while the row is `delivering`; once a 2xx was
      seen nobody is about to POST; `success` is recorded only then; nothing is given up. */
  ghost predicate Inv(s: State) {
    && Shaped(s)
    && (forall i, j :: 0 <= i < j < |s.senders| && !s.senders[i].phase.Gone? && !s.senders[j].phase.Gone? ==>
          s.senders[i].row != s.senders[j].row)
    && (forall i :: 0 <= i < |s.senders| && !s.senders[i].phase.Gone? ==> SenderOk(s, s.senders[i]))
    && (forall k :: 0 <= k < |s.rows| ==> RowOk(s.rows[k], s.acked[k]))
  }

  ghost predicate SenderOk(s: State, d: Sender)
    requires Shaped(s) && d.row < |s.rows|
  {
    && s.rows[d.row].status.Delivering?
    && s.acked[d.row] == (d.phase == Answered(true))
  }

  predicate RowOk(r: Row, acked: bool) {
    && r.attempt == 1 && r.maxAttempts == 5 && !r.status.GivenUp?
    && (acked ==> r.status.Delivering? || r.status.Success?)
    && (r.status.Success? ==> acked)
  }

  /** A claim takes no row that somebody works on. */
  lemma {:induction false} ClaimsFreeRows(s: State, step: Step)
    requires Inv(s) && Enabled(s, step) && step.Claim?
    ensures forall i :: 0 <= i < |s.senders| && !s.senders[i].phase.Gone? ==> s.senders[i].row !in step.batch
  {
    forall i | 0 <= i < |s.senders| && !s.senders[i].phase.Gone? ensures s.senders[i].row !in step.batch {
      assert SenderOk(s, s.senders[i]);
    }
  }

  lemma {:induction false} StepKeepsSingle(s: State, step: Step, i: nat, j: nat)
    requires Inv(s) && Enabled(s, step)
    ensures var t := Apply(s, step);
      i < j < |t.senders| && !t.senders[i].phase.Gone? && !t.senders[j].phase.Gone? ==>
        t.senders[i].row != t.senders[j].row
  {
    if step.Claim? {
      ClaimsFreeRows(s, step);
    }
  }

  lemma {:induction false} StepKeepsSender(s: State, step: Step, i: nat)
    requires Inv(s) && Enabled(s, step)
    ensures var t := Apply(s, step);
      i < |t.senders| && !t.senders[i].phase.Gone? ==> SenderOk(t, t.senders[i])
  {
    if i < |s.senders| && !s.senders[i].phase.Gone? {
      assert SenderOk(s, s.senders[i]);
    }
    if step.Claim? {
      ClaimsFreeRows(s, step);
    }
  }

  lemma {:induction false} StepKeepsRowOk(s: State, step: Step, k: nat)
    requires Inv(s) && Enabled(s, step)
    ensures var t := Apply(s, step);
      k < |t.rows| ==> RowOk(t.rows[k], t.acked[k])
  {
    if k < |s.rows| {
      assert RowOk(s.rows[k], s.acked[k]);
    }
    if step.Post? || step.Record? {
      assert SenderOk(s, s.senders[step.sender]);
    }
  }

  lemma {:induction false} StepKeepsInv(s: State, step: Step)
    requires Inv(s) && Enabled(s, step)
    ensures Inv(Apply(s, step))
  {
    var t := Apply(s, step);
    forall i, j | 0 <= i < j < |t.senders| && !t.senders[i].phase.Gone? && !t.senders[j].phase.Gone?
      ensures t.senders[i].row != t.senders[j].row
    {
      StepKeepsSingle(s, step, i, j);
    }
    forall i | 0 <= i < |t.senders| && !t.senders[i].phase.Gone? ensures SenderOk(t, t.senders[i]) {
      StepKeepsSender(s, step, i);
    }
    forall k | 0 <= k < |t.rows| ensures RowOk(t.rows[k], t.acked[k]) {
      StepKeepsRowOk(s, step, k);
    }
  }

  lemma {:induction false} RunKeepsInv(s: State, steps: seq<Step>)
    requires Inv(s) && ValidRun(s, steps)
    ensures Inv(Exec(s, steps))
    decreases |steps|
  {
    if steps != [] {
      StepKeepsInv(s, steps[0]);
      RunKeepsInv(Apply(s, steps[0]), steps[1..]);
    }
  }

  // ---------------------------------------------------------------- main results

  /** In every run, a row has at most one sender at a time and only while `delivering`, and a
      row marked `success` was acknowledged with a 2xx. */
  lemma {:induction false} OneSenderPerRow(s: State, steps: seq<Step>, i: nat, j: nat)
    requires Init(s) && ValidRun(s, steps)
    ensures var t := Exec(s, steps);
      && (i < j < |t.senders| && !t.senders[i].phase.Gone? && !t.senders[j].phase.Gone? ==>
            t.senders[i].row != t.senders[j].row)
      && (i < |t.senders| && !t.senders[i].phase.Gone? ==> t.rows[t.senders[i].row].status.Delivering?)
      && (forall k :: 0 <= k < |t.rows| && t.rows[k].status.Success? ==> t.acked[k])
  {
    RunKeepsInv(s, steps);
    var t := Exec(s, steps);
    if i < |t.senders| && !t.senders[i].phase.Gone? {
      assert SenderOk(t, t.senders[i]);
    }
    assert forall k :: 0 <= k < |t.rows| ==> RowOk(t.rows[k], t.acked[k]);
  }

  lemma {:induction false} AckedNotPosted(s: State, step: Step, r: RowId)
    requires Inv(s) && Enabled(s, step) && r < |s.rows| && s.acked[r]
    ensures Apply(s, step).acked[r] && Apply(s, step).posts[r] == s.posts[r]
  {
    if step.Post? {
      assert SenderOk(s, s.senders[step.sender]);
    }
  }

  /** No re-delivery after success: from the moment a row was acknowledged, no continuation,
      whatever ticks, crashes and lost updates it has, POSTs that row again. */
  lemma {:induction false} NoRedelivery(s: State, steps: seq<Step>, r: RowId)
    requires Inv(s) && ValidRun(s, steps) && r < |s.rows| && s.acked[r]
    ensures Exec(s, steps).acked[r] && Exec(s, steps).posts[r] == s.posts[r]
    decreases |steps|
  {
    if steps != [] {
      AckedNotPosted(s, steps[0], r);
      StepKeepsInv(s, steps[0]);
      NoRedelivery(Apply(s, steps[0]), steps[1..], r);
    }
  }

  // ---------------------------------------------------------------- two promises that are not kept

  ghost predicate Served(s: State, r: RowId) {
    exists i :: 0 <= i < |s.senders| && s.senders[i].Live(r)
  }

  lemma {:induction false} StepKeepsStuck(s: State, step: Step, r: RowId)
    requires Shaped(s) && Enabled(s, step) && r < |s.rows|
    requires s.rows[r].status.Delivering? && !Served(s, r)
    ensures Apply(s, step).rows[r].status.Delivering? && !Served(Apply(s, step), r)
    ensures Apply(s, step).posts[r] == s.posts[r]
  {
    var t := Apply(s, step);
    forall i | 0 <= i < |t.senders| ensures !t.senders[i].Live(r) {
      if i < |s.senders| {
        assert !s.senders[i].Live(r);
      }
    }
    if step.Record? || step.Post? {
      assert !s.senders[step.sender].Live(r);
    }
  }

  lemma {:induction false} RunKeepsStuck(s: State, steps: seq<Step>, r: RowId)
    requires Shaped(s) && ValidRun(s, steps) && r < |s.rows|
    requires s.rows[r].status.Delivering? && !Served(s, r)
    ensures Exec(s, steps).rows[r].status.Delivering? && Exec(s, steps).posts[r] == s.posts[r]
    decreases |steps|
  {
    if steps != [] {
      StepKeepsStuck(s, steps[0], r);
      RunKeepsStuck(Apply(s, steps[0]), steps[1..], r);
    }
  }

  /** A claimed row is not always retried: with its sender gone (a crash, or an update error
      that was ignored) it stays `delivering` for ever. It can still move exactly when a sender
      is working on it. */
  lemma {:induction false} ClaimedRowMovesIffServed(s: State, r: RowId)
    requires Shaped(s) && r < |s.rows| && s.rows[r].status.Delivering?
    ensures (exists steps :: ValidRun(s, steps) && !Exec(s, steps).rows[r].status.Delivering?) <==> Served(s, r)
  {
    if Served(s, r) {
      var i :| 0 <= i < |s.senders| && s.senders[i].Live(r);
      var steps := PostAndRecord(s, i);
      assert ValidRun(s, steps) && !Exec(s, steps).rows[r].status.Delivering?;
    } else {
      forall steps | ValidRun(s, steps) ensures Exec(s, steps).rows[r].status.Delivering? {
        RunKeepsStuck(s, steps, r);
      }
    }
  }

  lemma {:induction false} PostAndRecord(s: State, i: nat) returns (steps: seq<Step>)
    requires Shaped(s) && i < |s.senders| && !s.senders[i].phase.Gone?
    ensures ValidRun(s, steps) && !Exec(s, steps).rows[s.senders[i].row].status.Delivering?
  {
    if s.senders[i].phase.Answered? {
      steps := [Record(i, true)];
      RunOne(s, steps[0]);
    } else {
      var s1 := Apply(s, Post(i, true));
      RunOne(s1, Record(i, true));
      steps := [Post(i, true)] + [Record(i, true)];
      assert steps[1..] == [Record(i, true)];
    }
  }

  lemma {:induction false} RunOne(s: State, step: Step)
    requires Shaped(s) && Enabled(s, step)
    ensures ValidRun(s, [step]) && Exec(s, [step]) == Apply(s, step)
  {
    assert [step][1..] == [];
    assert ValidRun(Apply(s, step), [step][1..]);
    assert Exec(s, [step]) == Exec(Apply(s, step), [step][1..]);
  }

  lemma {:induction false} UnfoldRun(s: State, x: Step, rest: seq<Step>, all: seq<Step>)
    requires Shaped(s) && all == [x] + rest
    ensures ValidRun(s, all) <==> Enabled(s, x) && ValidRun(Apply(s, x), rest)
    ensures ValidRun(s, all) ==> Exec(s, all) == Exec(Apply(s, x), rest)
  {
    assert all[0] == x && all[1..] == rest;
  }

  lemma {:induction false} Concat(s: State, a: seq<Step>, b: seq<Step>)
    requires Shaped(s) && ValidRun(s, a) && ValidRun(Exec(s, a), b)
    ensures ValidRun(s, a + b) && Exec(s, a + b) == Exec(Exec(s, a), b)
    decreases |a|
  {
    if a == [] {
      assert a + b == b;
    } else {
      var x, rest := a[0], a[1..];
      ConsAppend(a, b);
      UnfoldRun(s, x, rest, a);
      Concat(Apply(s, x), rest, b);
      UnfoldRun(s, x, rest + b, a + b);
    }
  }

  // ---------------------------------------------------------------- how often a row is posted

  predicate Waiting(s: State, r: RowId) {
    r < |s.rows| && (s.rows[r].status.Pending? || s.rows[r].status.Retrying?)
  }

  /** The row is done with: acknowledged, or claimed by a sender that is gone. */
  ghost predicate Done(s: State, r: RowId)
    requires Shaped(s) && r < |s.rows|
  {
    s.acked[r] || (s.rows[r].status.Delivering? && !Served(s, r))
  }

  lemma {:induction false} Then(s: State, steps: seq<Step>, t: State, step: Step) returns (u: State)
    requires Shaped(s) && ValidRun(s, steps) && t == Exec(s, steps) && Enabled(t, step)
    ensures u == Apply(t, step) && ValidRun(s, steps + [step]) && Exec(s, steps + [step]) == u
  {
    RunOne(t, step);
    Concat(s, steps, [step]);
    u := Apply(t, step);
  }

  function Others(n: nat, r: RowId): (ks: set<RowId>)
    ensures forall k: RowId :: k in ks <==> k < n && k != r
  {
    if n == 0 then {} else Others(n - 1, r) + if n - 1 == r then {} else {n - 1}
  }

  /** Wait until row r is due, with all other rows locked, and claim it. */
  lemma {:induction false} ClaimAlone(s: State, r: RowId) returns (steps: seq<Step>, t: State)
    requires Inv(s) && Waiting(s, r)
    ensures ValidRun(s, steps) && t == Exec(s, steps)
    ensures |t.senders| == |s.senders| + 1 && t.senders[|s.senders|] == Sender(r, Claimed)
    ensures |t.rows| == |s.rows| && t.rows[r].status.Delivering? && t.posts[r] == s.posts[r]
  {
    var due := match s.rows[r].nextRetry case None => s.now case Some(at) => if at < s.now then s.now else at;
    var locked := Others(|s.rows|, r);
    var s1 := Then(s, [], s, Tick(due));
    assert Claimable(s1.rows, locked, s1.now, r);
    assert IsBatch(s1.rows, locked, s1.now, BATCH, [r]);
    t := Then(s, [] + [Tick(due)], s1, Claim(locked, [r]));
    steps := [] + [Tick(due)] + [Claim(locked, [r])];
  }

  lemma {:induction false} FailOnce(s: State, r: RowId) returns (steps: seq<Step>, t: State)
    requires Inv(s) && Waiting(s, r)
    ensures ValidRun(s, steps) && t == Exec(s, steps) && Inv(t) && Waiting(t, r) && t.posts[r] == s.posts[r] + 1
  {
    var claim, t2 := ClaimAlone(s, r);
    var i := |s.senders|;
    var t3 := Then(s, claim, t2, Post(i, false));
    RunKeepsInv(s, claim + [Post(i, false)]);
    assert RowOk(t3.rows[r], t3.acked[r]);
    t := Then(s, claim + [Post(i, false)], t3, Record(i, true));
    steps := claim + [Post(i, false)] + [Record(i, true)];
    RunKeepsInv(s, steps);
  }

  lemma {:induction false} FailTimes(s: State, r: RowId, n: nat) returns (steps: seq<Step>)
    requires Inv(s) && Waiting(s, r)
    ensures ValidRun(s, steps) && Exec(s, steps).posts[r] == s.posts[r] + n && Waiting(Exec(s, steps), r)
    decreases n
  {
    if n == 0 {
      steps := [];
    } else {
      var first, t := FailOnce(s, r);
      var more := FailTimes(t, r, n - 1);
      Concat(s, first, more);
      steps := first + more;
    }
  }

  /** A row that is not done with can come to wait for its next attempt. */
  lemma {:induction false} ToWaiting(s: State, r: RowId) returns (steps: seq<Step>)
    requires Inv(s) && r < |s.rows| && !Done(s, r)
    ensures ValidRun(s, steps) && Waiting(Exec(s, steps), r) && Exec(s, steps).posts[r] >= s.posts[r]
  {
    assert RowOk(s.rows[r], s.acked[r]);
    if Waiting(s, r) {
      return [];
    }
    var i :| 0 <= i < |s.senders| && s.senders[i].Live(r);
    assert SenderOk(s, s.senders[i]);
    if s.senders[i].phase.Answered? {
      RunOne(s, Record(i, true));
      return [Record(i, true)];
    }
    RunOne(s, Post(i, false));
    var s1 := Apply(s, Post(i, false));
    var s2 := Then(s, [Post(i, false)], s1, Record(i, true));
    return [Post(i, false)] + [Record(i, true)];
  }

  lemma {:induction false} PostsUnbounded(s: State, r: RowId, n: nat) returns (steps: seq<Step>)
    requires Inv(s) && r < |s.rows| && !Done(s, r)
    ensures ValidRun(s, steps) && Exec(s, steps).posts[r] >= n
  {
    var first := ToWaiting(s, r);
    RunKeepsInv(s, first);
    var more := FailTimes(Exec(s, first), r, n);
    Concat(s, first, more);
    steps := first + more;
  }

  ghost predicate PostsWithin(s: State, r: RowId, bound: nat)
    requires Shaped(s) && r < |s.rows|
  {
    forall steps | ValidRun(s, steps) :: Exec(s, steps).posts[r] <= bound
  }

  /** The documented limit of five attempts is not enforced: `attempt` is never written. The
      number of POSTs of a row has a bound, whatever may follow, exactly when the row was
      acknowledged or its sender is gone; and then there is not one more. */
  lemma {:induction false} PostsBoundedIff(s: State, r: RowId)
    requires Inv(s) && r < |s.rows|
    ensures (exists bound :: PostsWithin(s, r, bound)) <==> Done(s, r)
    ensures Done(s, r) ==> PostsWithin(s, r, s.posts[r])
  {
    if Done(s, r) {
      forall steps | ValidRun(s, steps) ensures Exec(s, steps).posts[r] <= s.posts[r] {
        if s.acked[r] {
          NoRedelivery(s, steps, r);
        } else {
          RunKeepsStuck(s, steps, r);
        }
      }
      assert PostsWithin(s, r, s.posts[r]);
    } else {
      forall bound: nat ensures !PostsWithin(s, r, bound) {
        var steps := PostsUnbounded(s, r, bound + 1);
      }
    }
  }

  /** From an empty table: one row POSTed n times and still waiting. */
  lemma {:induction false} AttemptsUnbounded(n: nat) returns (s: State, steps: seq<Step>)
    ensures Init(s) && ValidRun(s, steps) && |Exec(s, steps).rows| > 0
    ensures Exec(s, steps).posts[0] == n && Waiting(Exec(s, steps), 0)
  {
    s := State([], [], 0, [], []);
    RunOne(s, Enqueue);
    RunKeepsInv(s, [Enqueue]);
    var more := FailTimes(Exec(s, [Enqueue]), 0, n);
    Concat(s, [Enqueue], more);
    steps := [Enqueue] + more;
  }

  // ---------------------------------------------------------------- the table does what the steps say

  /** A step of the model performed on the table. Only the choice among rows of one age is the
      table's own. */
  method Perform(store: WebhookStore, s: State, step: Step) returns (done: Step)
    requires Shaped(s) && Enabled(s, step) && store.rows == s.rows
    modifies store
    ensures Enabled(s, done) && store.rows == Apply(s, done).rows
    ensures done == step || (step.Claim? && done.Claim? && done.locked == step.locked)
      || (step.ClaimAndLose? && done.ClaimAndLose? && done.locked == step.locked)
  {
    done := step;
    match step {
      case Enqueue => store.Enqueue(s.now);
      case Claim(locked, _) =>
        var batch := store.GetPendingWebhooks(BATCH, locked, s.now);
        done := Claim(locked, batch);
      case ClaimAndLose(locked, _) =>
        var batch := store.GetPendingWebhooks(BATCH, locked, s.now);
        done := ClaimAndLose(locked, batch);
      case Record(i, stored) =>
        if stored {
          store.RecordOutcome(s.senders[i].row, s.senders[i].phase.ok, s.now);
        }
      case _ =>
    }
  }
}
