/**
  Cleaning up diarization turns: sorted by start, turns of one speaker merged across short
  pauses, speakers renamed in the order in which they are first heard. The diarizer does this
  when it consolidates fragments and once more before it attributes words.
 */
module TurnMerging {
  import opened Sequences
  import opened Chronology

  datatype Turn = Turn(start: int, end: int, speaker: int)

  const FRAGMENT_PAUSE := 400
  const MICRO_PAUSE := 300

  // ---------------------------------------------------------------- sorting by start

  ghost predicate SortedByStart(ts: seq<Turn>) {
    forall i, j :: 0 <= i < j < |ts| ==> ts[i].start <= ts[j].start
  }

  /** x goes behind every turn that starts no later: the sort is stable. */
  function InsertTurn(ts: seq<Turn>, x: Turn): seq<Turn> {
    var n := |ts| - 1;
    if ts == [] then [x]
    else if ts[n].start <= x.start then ts + [x]
    else InsertTurn(ts[..n], x) + [ts[n]]
  }

  function Sorted(ts: seq<Turn>): seq<Turn> {
    if ts == [] then [] else InsertTurn(Sorted(ts[..|ts| - 1]), ts[|ts| - 1])
  }

  lemma {:induction false} InsertKeepsTurns(ts: seq<Turn>, x: Turn)
    ensures multiset(InsertTurn(ts, x)) == multiset(ts) + multiset{x}
    decreases |ts|
  {
    if ts == [] || ts[|ts| - 1].start <= x.start {
      MultisetAppendOne(ts, x);
    } else {
      var init, last := ts[..|ts| - 1], ts[|ts| - 1];
      InsertKeepsTurns(init, x);
      MultisetSnoc(ts);
      MultisetAppendOne(InsertTurn(init, x), last);
    }
  }

  /** Sorting keeps every turn, and every repetition of one. */
  lemma {:induction false} SortedKeepsTurns(ts: seq<Turn>)
    ensures multiset(Sorted(ts)) == multiset(ts)
    decreases |ts|
  {
    if ts != [] {
      SortedKeepsTurns(ts[..|ts| - 1]);
      InsertKeepsTurns(Sorted(ts[..|ts| - 1]), ts[|ts| - 1]);
      MultisetSnoc(ts);
    }
  }

  ghost predicate StartBy(ts: seq<Turn>, t: int) { forall i :: 0 <= i < |ts| ==> ts[i].start <= t }

  lemma {:induction false} InsertStartsBy(ts: seq<Turn>, x: Turn, t: int)
    requires StartBy(ts, t) && x.start <= t
    ensures StartBy(InsertTurn(ts, x), t)
  {
    if ts != [] && ts[|ts| - 1].start > x.start {
      InsertStartsBy(ts[..|ts| - 1], x, t);
    }
  }

  lemma {:induction false} OrderedSnoc(ts: seq<Turn>, x: Turn)
    requires SortedByStart(ts) && StartBy(ts, x.start)
    ensures SortedByStart(ts + [x])
  {
  }

  lemma {:induction false} InsertKeepsOrder(ts: seq<Turn>, x: Turn)
    requires SortedByStart(ts)
    ensures SortedByStart(InsertTurn(ts, x))
  {
    if ts != [] {
      var n := |ts| - 1;
      if ts[n].start > x.start {
        InsertKeepsOrder(ts[..n], x);
        InsertStartsBy(ts[..n], x, ts[n].start);
        OrderedSnoc(InsertTurn(ts[..n], x), ts[n]);
      } else {
        OrderedSnoc(ts, x);
      }
    }
  }

  lemma {:induction false} SortedIsSorted(ts: seq<Turn>)
    ensures SortedByStart(Sorted(ts))
  {
    if ts != [] {
      SortedIsSorted(ts[..|ts| - 1]);
      InsertKeepsOrder(Sorted(ts[..|ts| - 1]), ts[|ts| - 1]);
    }
  }

  lemma {:induction false} InsertLast(ts: seq<Turn>, x: Turn)
    requires ts != [] ==> ts[|ts| - 1].start <= x.start
    ensures InsertTurn(ts, x) == ts + [x]
  {
  }

  lemma {:induction false} NothingToSort(ts: seq<Turn>)
    requires SortedByStart(ts)
    ensures Sorted(ts) == ts
    decreases |ts|
  {
    if ts != [] {
      var init, x := ts[..|ts| - 1], ts[|ts| - 1];
      NothingToSort(init);
      InsertLast(init, x);
      assert init + [x] == ts;
    }
  }

  // ---------------------------------------------------------------- merging across pauses

  /** b continues a after a pause of at most `gap`. */
  predicate Joins(a: Turn, b: Turn, gap: int) {
    a.speaker == b.speaker && b.start - a.end <= gap
  }

  function Join(a: Turn, b: Turn): Turn {
    a.(end := if a.end < b.end then b.end else a.end)
  }

  function Absorb(done: seq<Turn>, t: Turn, gap: int): (r: seq<Turn>)
    ensures r != []
  {
    var n := |done|;
    if n > 0 && Joins(done[n - 1], t, gap) then done[n - 1 := Join(done[n - 1], t)] else done + [t]
  }

  function Merged(ts: seq<Turn>, gap: int): seq<Turn> {
    if ts == [] then [] else Absorb(Merged(ts[..|ts| - 1], gap), ts[|ts| - 1], gap)
  }

  method MergeTurns(ts: seq<Turn>, gap: int) returns (done: seq<Turn>)
    ensures done == Merged(ts, gap)
  {
    done := [];
    for i := 0 to |ts|
      invariant done == Merged(ts[..i], gap)
    {
      assert ts[..i + 1][..i] == ts[..i];
      var t := ts[i];
      if done == [] {
        done := [t];
      } else {
        var last := done[|done| - 1];
        if last.speaker == t.speaker && t.start - last.end <= gap {
          done := done[|done| - 1 := last.(end := if last.end < t.end then t.end else last.end)];
        } else {
          done := done + [t];
        }
      }
    }
    assert ts[..|ts|] == ts;
  }

  /** Between two neighbours the speaker changes or the pause is longer than `gap`. */
  ghost predicate NoneJoins(ts: seq<Turn>, gap: int) {
    forall i, j :: 0 <= i < j < |ts| && j == i + 1 ==>
      ts[i].speaker != ts[j].speaker || ts[j].start - ts[i].end > gap
  }

  ghost predicate AllPositive(ts: seq<Turn>) {
    forall i :: 0 <= i < |ts| ==> ts[i].start < ts[i].end
  }

  lemma {:induction false} AbsorbInOrder(done: seq<Turn>, t: Turn, gap: int)
    requires SortedByStart(done) && (done != [] ==> done[|done| - 1].start <= t.start)
    ensures var r := Absorb(done, t, gap); SortedByStart(r) && r[|r| - 1].start <= t.start
  {
  }

  lemma {:induction false} MergedInOrder(ts: seq<Turn>, gap: int)
    requires SortedByStart(ts)
    ensures SortedByStart(Merged(ts, gap))
    ensures ts != [] ==> Merged(ts, gap) != [] && Merged(ts, gap)[|Merged(ts, gap)| - 1].start <= ts[|ts| - 1].start
  {
    if ts != [] {
      var n := |ts| - 1;
      MergedInOrder(ts[..n], gap);
      AbsorbInOrder(Merged(ts[..n], gap), ts[n], gap);
    }
  }

  lemma {:induction false} MergedPositive(ts: seq<Turn>, gap: int)
    requires AllPositive(ts)
    ensures AllPositive(Merged(ts, gap))
  {
    if ts != [] {
      MergedPositive(ts[..|ts| - 1], gap);
    }
  }

  lemma {:induction false} NoneLeft(ts: seq<Turn>, gap: int)
    ensures NoneJoins(Merged(ts, gap), gap)
  {
    if ts != [] {
      NoneLeft(ts[..|ts| - 1], gap);
    }
  }

  /** No two neighbours of the result could be merged; order and positive length are kept. */
  lemma {:induction false} MergedLeavesNone(ts: seq<Turn>, gap: int)
    ensures NoneJoins(Merged(ts, gap), gap)
    ensures SortedByStart(ts) ==> SortedByStart(Merged(ts, gap))
    ensures SortedByStart(ts) && ts != [] ==> Merged(ts, gap)[|Merged(ts, gap)| - 1].start <= ts[|ts| - 1].start
    ensures AllPositive(ts) ==> AllPositive(Merged(ts, gap))
  {
    NoneLeft(ts, gap);
    if SortedByStart(ts) {
      MergedInOrder(ts, gap);
    }
    if AllPositive(ts) {
      MergedPositive(ts, gap);
    }
  }

  lemma {:induction false} NothingToMerge(ts: seq<Turn>, gap: int, wide: int)
    requires gap <= wide && NoneJoins(ts, wide)
    ensures Merged(ts, gap) == ts
  {
    if ts != [] {
      NothingToMerge(ts[..|ts| - 1], gap, wide);
    }
  }

  /** Speaker s is heard at t, give or take a silence of less than `slack` after a turn. */
  ghost predicate HeardAt(ts: seq<Turn>, t: int, s: int, slack: int) {
    exists i :: 0 <= i < |ts| && ts[i].start <= t < ts[i].end + slack && ts[i].speaker == s
  }

  /** Merging forgets nobody and invents at most the pauses it bridges: the speaker is heard
      wherever a turn of theirs was, and only there or within `gap` after one. */
  lemma {:induction false} MergedCovers(ts: seq<Turn>, gap: int, t: int, s: int)
    requires gap >= 0 && SortedByStart(ts) && AllPositive(ts)
    ensures HeardAt(ts, t, s, 0) ==> HeardAt(Merged(ts, gap), t, s, 0)
    ensures HeardAt(Merged(ts, gap), t, s, 0) ==> HeardAt(ts, t, s, gap)
  {
    if HeardAt(ts, t, s, 0) {
      MergedCoversAll(ts, gap, t, s);
    }
    if HeardAt(Merged(ts, gap), t, s, 0) {
      MergedCoversOnly(ts, gap, t, s);
    }
  }

  lemma {:induction false} MergedCoversAll(ts: seq<Turn>, gap: int, t: int, s: int)
    requires SortedByStart(ts) && HeardAt(ts, t, s, 0)
    ensures HeardAt(Merged(ts, gap), t, s, 0)
  {
    var n := |ts| - 1;
    var done, x, r := Merged(ts[..n], gap), ts[n], Merged(ts, gap);
    if x.start <= t < x.end && x.speaker == s {
      MergedLeavesNone(ts[..n], gap);
      assert r[|r| - 1].start <= t < r[|r| - 1].end;
    } else {
      var k :| 0 <= k < |ts| && ts[k].start <= t < ts[k].end + 0 && ts[k].speaker == s;
      assert ts[..n][k] == ts[k];
      MergedCoversAll(ts[..n], gap, t, s);
      var i :| 0 <= i < |done| && done[i].start <= t < done[i].end + 0 && done[i].speaker == s;
      assert r[i].start <= t < r[i].end && r[i].speaker == s;
    }
  }

  /** A merged turn ends where one of the speaker's turns ended. */
  ghost predicate EndsLike(ts: seq<Turn>, x: Turn) {
    exists k :: 0 <= k < |ts| && ts[k].end == x.end && ts[k].speaker == x.speaker
  }

  lemma {:induction false} MergedEnds(ts: seq<Turn>, gap: int)
    ensures forall i :: 0 <= i < |Merged(ts, gap)| ==> EndsLike(ts, Merged(ts, gap)[i])
  {
    if ts != [] {
      var n := |ts| - 1;
      var done, r := Merged(ts[..n], gap), Merged(ts, gap);
      MergedEnds(ts[..n], gap);
      forall i | 0 <= i < |r| ensures EndsLike(ts, r[i]) {
        if i < |done| && r[i].end == done[i].end {
          assert EndsLike(ts[..n], done[i]);
          var k :| 0 <= k < n && ts[..n][k].end == done[i].end && ts[..n][k].speaker == done[i].speaker;
          assert ts[k].end == r[i].end;
        } else {
          assert r[i].end == ts[n].end && r[i].speaker == ts[n].speaker;
        }
      }
    }
  }

  lemma {:induction false} HeardLater(ts: seq<Turn>, n: nat, t: int, s: int, slack: int)
    requires n <= |ts| && HeardAt(ts[..n], t, s, slack)
    ensures HeardAt(ts, t, s, slack)
  {
    var k :| 0 <= k < n && ts[..n][k].start <= t < ts[..n][k].end + slack && ts[..n][k].speaker == s;
    assert ts[k].start <= t < ts[k].end + slack;
  }

  lemma {:induction false} MergedCoversOnly(ts: seq<Turn>, gap: int, t: int, s: int)
    requires gap >= 0 && AllPositive(ts) && HeardAt(Merged(ts, gap), t, s, 0)
    ensures HeardAt(ts, t, s, gap)
  {
    var n := |ts| - 1;
    var done, x, r := Merged(ts[..n], gap), ts[n], Merged(ts, gap);
    var i :| 0 <= i < |r| && r[i].start <= t < r[i].end + 0 && r[i].speaker == s;
    if i < |done| && t < done[i].end {
      assert HeardAt(done, t, s, 0);
      MergedCoversOnly(ts[..n], gap, t, s);
      HeardLater(ts, n, t, s, gap);
    } else if x.start <= t {
      assert x.start <= t < x.end + gap && x.speaker == s;
    } else {
      MergedEnds(ts[..n], gap);
      assert EndsLike(ts[..n], done[i]);
      var k :| 0 <= k < n && ts[..n][k].end == done[i].end && ts[..n][k].speaker == s;
      assert ts[k].start <= t < ts[k].end + gap;
    }
  }

  // ---------------------------------------------------------------- renaming

  function HeardTurns(ts: seq<Turn>): (r: seq<Heard>)
    ensures |r| == |ts| && forall i :: 0 <= i < |ts| ==> r[i] == Heard(ts[i].speaker, ts[i].start)
  {
    seq(|ts|, i requires 0 <= i < |ts| => Heard(ts[i].speaker, ts[i].start))
  }

  function Renamed(ts: seq<Turn>): (r: seq<Turn>)
    ensures |r| == |ts|
    ensures forall i :: 0 <= i < |ts| ==> r[i] == ts[i].(speaker := Rank(HeardTurns(ts), ts[i].speaker))
  {
    seq(|ts|, i requires 0 <= i < |ts| => ts[i].(speaker := Rank(HeardTurns(ts), ts[i].speaker)))
  }

  /** Renaming is one-to-one, so it neither opens nor closes a merge. */
  lemma {:induction false} RenamedKeeps(ts: seq<Turn>, gap: int)
    requires SortedByStart(ts) && NoneJoins(ts, gap)
    ensures SortedByStart(Renamed(ts)) && NoneJoins(Renamed(ts), gap)
    ensures AllPositive(ts) ==> AllPositive(Renamed(ts))
  {
    var hs, r := HeardTurns(ts), Renamed(ts);
    forall i, j | 0 <= i && j == i + 1 && j < |ts| ensures !Joins(r[i], r[j], gap) {
      RanksTellApart(hs, i, j);
    }
  }

  lemma {:induction false} RenamedTwice(ts: seq<Turn>)
    requires SortedByStart(ts)
    ensures Renamed(Renamed(ts)) == Renamed(ts)
  {
    var r := Renamed(ts);
    var hs, rs := HeardTurns(ts), HeardTurns(r);
    forall i | 0 <= i < |ts| ensures Renamed(r)[i] == r[i] {
      RankedStays(hs, rs, i);
    }
  }

  // ---------------------------------------------------------------- the whole clean-up

  function Cleaned(ts: seq<Turn>, gap: int): seq<Turn> {
    Renamed(Merged(Sorted(ts), gap))
  }

  method CleanTurns(ts: seq<Turn>, gap: int) returns (r: seq<Turn>)
    ensures r == Cleaned(ts, gap)
  {
    r := MergeTurns(Sorted(ts), gap);
    r := RenameTurns(r);
  }

  /** Labels are numbered in the order of the sorted first starts, then written in place. */
  method RenameTurns(ts: seq<Turn>) returns (r: seq<Turn>)
    ensures r == Renamed(ts)
  {
    var hs := HeardTurns(ts);
    r := ts;
    for i := 0 to |ts|
      invariant |r| == |ts|
      invariant forall k :: 0 <= k < i ==> r[k] == Renamed(ts)[k]
      invariant forall k :: i <= k < |ts| ==> r[k] == ts[k]
    {
      r := r[i := r[i].(speaker := Rank(hs, r[i].speaker))];
    }
  }

  ghost predicate IsClean(ts: seq<Turn>, gap: int) {
    SortedByStart(ts) && AllPositive(ts) && NoneJoins(ts, gap)
  }

  lemma {:induction false} CleanedIsClean(ts: seq<Turn>, gap: int)
    requires AllPositive(ts)
    ensures IsClean(Cleaned(ts, gap), gap)
  {
    var sorted := Sorted(ts);
    SortedKeepsTurns(ts);
    SortedIsSorted(ts);
    forall i | 0 <= i < |sorted| ensures sorted[i].start < sorted[i].end {
      assert sorted[i] in multiset(sorted);
      assert sorted[i] in ts;
    }
    MergedLeavesNone(sorted, gap);
    RenamedKeeps(Merged(sorted, gap), gap);
  }

  /** Turns cleaned with one pause come through a clean-up with the same or a shorter pause
      untouched: sorting, merging and renaming all find nothing to do. */
  lemma {:induction false} CleanedTwice(ts: seq<Turn>, wide: int, gap: int)
    requires AllPositive(ts) && gap <= wide
    ensures Cleaned(Cleaned(ts, wide), gap) == Cleaned(ts, wide)
  {
    CleanedIsClean(ts, wide);
    var m, c := Merged(Sorted(ts), wide), Cleaned(ts, wide);
    NothingToSort(c);
    NothingToMerge(c, gap, wide);
    SortedIsSorted(ts);
    MergedLeavesNone(Sorted(ts), wide);
    RenamedTwice(m);
  }

  // ---------------------------------------------------------------- consolidation

  function TotalSpeech(ts: seq<Turn>): int {
    if ts == [] then 0
    else
      var t := ts[|ts| - 1];
      TotalSpeech(ts[..|ts| - 1]) + if t.end < t.start then 0 else t.end - t.start
  }

  /** Fragments are consolidated when several speakers are heard at all. */
  function Consolidated(ts: seq<Turn>): seq<Turn> {
    if ts == [] || TotalSpeech(ts) <= 0 || |Met(HeardTurns(ts))| <= 1 then ts
    else Cleaned(ts, FRAGMENT_PAUSE)
  }

  method ConsolidateFragments(ts: seq<Turn>) returns (r: seq<Turn>)
    ensures r == Consolidated(ts)
  {
    if ts == [] {
      return ts;
    }
    var total := 0;
    for i := 0 to |ts|
      invariant total == TotalSpeech(ts[..i])
    {
      assert ts[..i + 1][..i] == ts[..i];
      total := total + if ts[i].end < ts[i].start then 0 else ts[i].end - ts[i].start;
    }
    assert ts[..|ts|] == ts;
    if total <= 0 || |Met(HeardTurns(ts))| <= 1 {
      return ts;
    }
    r := CleanTurns(ts, FRAGMENT_PAUSE);
  }

  /** Once several speakers' turns are consolidated, they are in order and no pause of 0.4 s or less
      is left between two turns of one speaker; the clean-up before word attribution and a
      second consolidation both leave them as they are. */
  lemma {:induction false} ConsolidatedStays(ts: seq<Turn>)
    requires AllPositive(ts) && |Met(HeardTurns(ts))| > 1
    ensures IsClean(Consolidated(ts), 400)
    ensures Cleaned(Consolidated(ts), MICRO_PAUSE) == Consolidated(ts)
    ensures Consolidated(Consolidated(ts)) == Consolidated(ts)
  {
    SpeechIsPositive(ts);
    CleanedIsClean(ts, FRAGMENT_PAUSE);
    CleanedTwice(ts, FRAGMENT_PAUSE, MICRO_PAUSE);
    CleanedTwice(ts, FRAGMENT_PAUSE, FRAGMENT_PAUSE);
  }

  lemma {:induction false} SpeechIsPositive(ts: seq<Turn>)
    requires AllPositive(ts)
    ensures TotalSpeech(ts) >= |ts|
  {
    if ts != [] {
      SpeechIsPositive(ts[..|ts| - 1]);
    }
  }
}
