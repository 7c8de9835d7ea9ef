module WindowPlan {
  /**
    Chunked diarization, first part: the plan of overlapping windows laid over a recording.
    Times are whole milliseconds.
   */

  datatype Window = Window(start: int, end: int)

  const MIN_STEP := 60_000
  const TAIL := 15_000

  function StepOf(chunk: int, overlap: int): int {
    if chunk - overlap < MIN_STEP then MIN_STEP else chunk - overlap
  }

  /** End of the window at `start`: a chunk on, or the end when little would be left. */
  function EndOf(total: int, chunk: int, overlap: int, start: int): int {
    var end := if total < start + chunk then total else start + chunk;
    if total - end < overlap + TAIL then total else end
  }

  function Plan(total: int, chunk: int, overlap: int, start: int): seq<Window>
    decreases total - start
  {
    if start >= total then []
    else
      var end := EndOf(total, chunk, overlap, start);
      [Window(start, end)] + if end >= total then [] else Plan(total, chunk, overlap, start + StepOf(chunk, overlap))
  }

  lemma {:induction false} PlanStep(total: int, chunk: int, overlap: int, start: int, ws: seq<Window>)
    requires start < total
    ensures var end := EndOf(total, chunk, overlap, start);
      ws + Plan(total, chunk, overlap, start)
      == ws + [Window(start, end)]
         + if end >= total then [] else Plan(total, chunk, overlap, start + StepOf(chunk, overlap))
  {
    var end := EndOf(total, chunk, overlap, start);
    var rest := if end >= total then [] else Plan(total, chunk, overlap, start + StepOf(chunk, overlap));
    assert Plan(total, chunk, overlap, start) == [Window(start, end)] + rest;
  }

  method PlanWindows(total: int, chunk: int, overlap: int) returns (ws: seq<Window>)
    ensures ws == Plan(total, chunk, overlap, 0)
  {
    var step := if chunk - overlap < MIN_STEP then MIN_STEP else chunk - overlap;
    ws := [];
    var start := 0;
    while start < total
      invariant ws + Plan(total, chunk, overlap, start) == Plan(total, chunk, overlap, 0)
      decreases total - start
    {
      var end := if total < start + chunk then total else start + chunk;
      if total - end < overlap + TAIL {
        end := total;
      }
      PlanStep(total, chunk, overlap, start, ws);
      ws := ws + [Window(start, end)];
      if end >= total {
        return;
      }
      start := start + step;
    }
  }

  ghost predicate Reaches(ws: seq<Window>, j: nat, total: int)
    requires 0 < j < |ws|
  {
    ws[j - 1].start < ws[j].start <= ws[j - 1].end < total
  }

  /** Windows follow one another without a gap from `start` to exactly `total`, and each is
      shorter than a chunk, an overlap and a tail. */
  ghost predicate Contiguous(ws: seq<Window>, start: int, total: int, limit: int) {
    && ws != [] && ws[0].start == start && ws[|ws| - 1].end == total
    && (forall i :: 0 <= i < |ws| ==> 0 < ws[i].end - ws[i].start < limit)
    && (forall j: nat :: 0 < j < |ws| ==> Reaches(ws, j, total))
  }

  lemma {:induction false} PlanIsContiguous(total: int, chunk: int, overlap: int, start: int)
    requires chunk >= MIN_STEP && overlap >= 0 && start < total
    ensures Contiguous(Plan(total, chunk, overlap, start), start, total, chunk + overlap + TAIL)
    decreases total - start
  {
    var end := EndOf(total, chunk, overlap, start);
    if end < total {
      var next := start + StepOf(chunk, overlap);
      PlanIsContiguous(total, chunk, overlap, next);
      var ws, rest := Plan(total, chunk, overlap, start), Plan(total, chunk, overlap, next);
      assert ws == [Window(start, end)] + rest;
      forall j: nat | 0 < j < |ws| ensures Reaches(ws, j, total) {
        if j > 1 {
          assert Reaches(rest, j - 1, total);
          assert ws[j - 1] == rest[j - 2] && ws[j] == rest[j - 1];
        }
      }
    }
  }

  ghost predicate InSomeWindow(ws: seq<Window>, t: int) {
    exists i :: 0 <= i < |ws| && ws[i].start <= t < ws[i].end
  }

  /** Every instant lies in a window of the plan. */
  lemma {:induction false} PlanCovers(total: int, chunk: int, overlap: int, start: int, t: int)
    requires chunk >= MIN_STEP && overlap >= 0 && start <= t < total
    ensures InSomeWindow(Plan(total, chunk, overlap, start), t)
    decreases total - start
  {
    var end, ws := EndOf(total, chunk, overlap, start), Plan(total, chunk, overlap, start);
    if t < end {
      assert ws[0] == Window(start, end);
    } else {
      var next := start + StepOf(chunk, overlap);
      PlanCovers(total, chunk, overlap, next, t);
      var rest := Plan(total, chunk, overlap, next);
      var i :| 0 <= i < |rest| && rest[i].start <= t < rest[i].end;
      assert ws[i + 1] == rest[i];
    }
  }

  lemma {:induction false} StartsFrom(total: int, chunk: int, overlap: int, start: int)
    ensures forall w :: w in Plan(total, chunk, overlap, start) ==> w.start >= start
    decreases total - start
  {
    if start < total && EndOf(total, chunk, overlap, start) < total {
      StartsFrom(total, chunk, overlap, start + StepOf(chunk, overlap));
    }
  }

  /** Chunks shorter than the least step of a minute leave gaps: the plan covers the recording
      exactly when chunks reach the next start or the first window already takes in the rest. */
  lemma {:induction false} PlanCoversIff(total: int, chunk: int, overlap: int)
    requires total > 0 && chunk > 0 && overlap >= 0
    ensures (forall t :: 0 <= t < total ==> InSomeWindow(Plan(total, chunk, overlap, 0), t))
      <==> (chunk >= MIN_STEP || EndOf(total, chunk, overlap, 0) == total)
  {
    var ws := Plan(total, chunk, overlap, 0);
    if chunk >= MIN_STEP {
      forall t | 0 <= t < total ensures InSomeWindow(ws, t) {
        PlanCovers(total, chunk, overlap, 0, t);
      }
    } else if EndOf(total, chunk, overlap, 0) == total {
      assert ws[0] == Window(0, total);
    } else {
      var rest := Plan(total, chunk, overlap, MIN_STEP);
      assert EndOf(total, chunk, overlap, 0) == chunk < total;
      assert ws == [Window(0, chunk)] + rest;
      StartsFrom(total, chunk, overlap, MIN_STEP);
      assert forall i :: 0 < i < |ws| ==> ws[i] == rest[i - 1] && rest[i - 1] in rest;
      assert ws[0] == Window(0, chunk);
      assert !InSomeWindow(Plan(total, chunk, overlap, 0), chunk);
      assert 0 <= chunk < total;
    }
  }

  function Length(w: Window): int { w.end - w.start }

  /** Neighbours share exactly the overlap, and the stitch point in its middle lies in both. A
      window with another behind it is exactly a chunk long; the last of several is at least
      two overlaps and a tail long. */
  ghost predicate Neighbours(a: Window, b: Window, last: bool, chunk: int, overlap: int) {
    && a.end - b.start == overlap
    && Length(a) == chunk
    && (last ==> Length(b) >= 2 * overlap + TAIL)
    && a.start < b.start <= b.start + overlap / 2 <= a.end
    && b.start + overlap / 2 < b.end
  }

  ghost predicate ShareOverlap(ws: seq<Window>, j: nat, chunk: int, overlap: int)
    requires 0 < j < |ws|
  {
    Neighbours(ws[j - 1], ws[j], j == |ws| - 1, chunk, overlap)
  }

  ghost predicate AllShareOverlap(ws: seq<Window>, chunk: int, overlap: int) {
    forall j: nat :: 0 < j < |ws| ==> ShareOverlap(ws, j, chunk, overlap)
  }

  lemma {:induction false} OneMoreShares(w: Window, rest: seq<Window>, chunk: int, overlap: int)
    requires rest != [] && Neighbours(w, rest[0], |rest| == 1, chunk, overlap)
    requires AllShareOverlap(rest, chunk, overlap)
    ensures AllShareOverlap([w] + rest, chunk, overlap)
  {
    var ws := [w] + rest;
    forall j: nat | 0 < j < |ws| ensures ShareOverlap(ws, j, chunk, overlap) {
      if j > 1 {
        assert ShareOverlap(rest, j - 1, chunk, overlap);
        assert ws[j - 1] == rest[j - 2] && ws[j] == rest[j - 1];
      }
    }
  }

  lemma {:induction false} FirstTwoShare(total: int, chunk: int, overlap: int, start: int, rest: seq<Window>)
    requires chunk - overlap >= MIN_STEP && overlap >= 0 && start < total
    requires EndOf(total, chunk, overlap, start) < total
    requires rest == Plan(total, chunk, overlap, start + StepOf(chunk, overlap))
    ensures rest != []
    ensures Neighbours(Window(start, EndOf(total, chunk, overlap, start)), rest[0], |rest| == 1, chunk, overlap)
  {
    var next := start + StepOf(chunk, overlap);
    PlanIsContiguous(total, chunk, overlap, next);
    assert rest[0] == Window(next, EndOf(total, chunk, overlap, next));
  }

  lemma {:induction false} NeighboursShareOverlap(total: int, chunk: int, overlap: int, start: int)
    requires chunk - overlap >= MIN_STEP && overlap >= 0 && start < total
    ensures AllShareOverlap(Plan(total, chunk, overlap, start), chunk, overlap)
    decreases total - start
  {
    var end := EndOf(total, chunk, overlap, start);
    if end < total {
      var next := start + StepOf(chunk, overlap);
      var rest := Plan(total, chunk, overlap, next);
      FirstTwoShare(total, chunk, overlap, start, rest);
      NeighboursShareOverlap(total, chunk, overlap, next);
      OneMoreShares(Window(start, end), rest, chunk, overlap);
      assert Plan(total, chunk, overlap, start) == [Window(start, end)] + rest;
    }
  }

  lemma {:induction false} AtMostTwoIff(total: int, chunk: int, overlap: int)
    requires chunk - overlap >= MIN_STEP && overlap >= 0 && total > 0
    ensures |Plan(total, chunk, overlap, 0)| <= 2 <==> total < 2 * chunk + TAIL
  {
    var end := EndOf(total, chunk, overlap, 0);
    if end < total {
      var next := StepOf(chunk, overlap);
      var rest := Plan(total, chunk, overlap, next);
      PlanStep(total, chunk, overlap, 0, []);
      PlanStep(total, chunk, overlap, next, []);
      PlanIsContiguous(total, chunk, overlap, next);
      if EndOf(total, chunk, overlap, next) < total {
        PlanIsContiguous(total, chunk, overlap, next + StepOf(chunk, overlap));
      }
    }
  }

  /** Every window behind the first is at least two overlaps and a tail long. */
  ghost predicate LaterWindowsLong(ws: seq<Window>, overlap: int) {
    forall j :: 0 < j < |ws| ==> Length(ws[j]) >= 2 * overlap + TAIL
  }

  /** That is what the plan promises of its last window. For all later windows it holds exactly
      when a chunk is that long or the recording fits into two windows. */
  lemma {:induction false} LaterWindowsLongIff(total: int, chunk: int, overlap: int)
    requires chunk - overlap >= MIN_STEP && overlap >= 0 && total > 0
    ensures LaterWindowsLong(Plan(total, chunk, overlap, 0), overlap)
      <==> (chunk >= 2 * overlap + TAIL || total < 2 * chunk + TAIL)
  {
    var ws := Plan(total, chunk, overlap, 0);
    NeighboursShareOverlap(total, chunk, overlap, 0);
    AtMostTwoIff(total, chunk, overlap);
    forall j: nat | 0 < j < |ws| ensures Length(ws[j]) >= if j == |ws| - 1 then 2 * overlap + TAIL else chunk {
      assert ShareOverlap(ws, j, chunk, overlap);
      if j < |ws| - 1 {
        assert ShareOverlap(ws, j + 1, chunk, overlap);
      }
    }
    if |ws| > 2 {
      assert ShareOverlap(ws, 2, chunk, overlap);
      assert Length(ws[1]) == chunk;
    }
  }

  predicate InUse(chunk: int, overlap: int) {
    || ((chunk == 480_000 || chunk == 300_000 || chunk == 240_000) && overlap == 30_000)
    || (chunk == 120_000 && overlap == 20_000)
  }

  /** So it does for every recording in the settings in use: chunks of eight, five or four minutes
      with half a minute of overlap, and of two minutes with 20 s. */
  lemma {:induction false} SettingsInUse(total: int, chunk: int, overlap: int)
    requires total > 0
    requires InUse(chunk, overlap)
    ensures LaterWindowsLong(Plan(total, chunk, overlap, 0), overlap)
  {
    LaterWindowsLongIff(total, chunk, overlap);
  }

  /** Ten minutes in chunks of three with an overlap of two: a window of 180 s where two
      overlaps and a tail are 255 s. */
  lemma {:induction false} ShortMiddleWindow()
    ensures var ws := Plan(600_000, 180_000, 120_000, 0);
      |ws| > 2 && Length(ws[1]) == 180_000 && !LaterWindowsLong(ws, 120_000)
  {
    var ws := Plan(600_000, 180_000, 120_000, 0);
    AtMostTwoIff(600_000, 180_000, 120_000);
    NeighboursShareOverlap(600_000, 180_000, 120_000, 0);
    assert ShareOverlap(ws, 2, 180_000, 120_000);
    assert Length(ws[1]) < 2 * 120_000 + TAIL;
  }
}
