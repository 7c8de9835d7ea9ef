module Timeline {
  /**
    Chunked diarization, third part: each chunk's turns are stitched to the timeline so far.
    The old timeline is cut at the middle of the overlap and the chunk continues from there.
   */
  import opened Options
  import opened SpeakerMap

  /** A turn; `chunk` is history: the number of the chunk that brought it. */
  datatype Turn = Turn(start: int, end: int, speaker: int, chunk: nat)

  /** A chunk: its turns (times already moved to the recording), its stitch time, and how well
      the i-th of its speakers fits a speaker heard before. */
  datatype Chunk = Chunk(turns: seq<Turn>, stitch: int, score: (nat, int) -> real)

  ghost predicate Positive(turns: seq<Turn>) {
    forall x :: x in turns ==> x.start < x.end
  }

  ghost predicate SpeaksAt(turns: seq<Turn>, t: int, s: int) {
    exists x :: x in turns && x.start <= t < x.end && x.speaker == s
  }

  // ---------------------------------------------------------------- the speakers of some turns

  ghost predicate Ascending(s: seq<int>) {
    forall i, j :: 0 <= i < j < |s| ==> s[i] < s[j]
  }

  function Insert(s: seq<int>, x: int): (r: seq<int>)
    requires Ascending(s)
    ensures Ascending(r) && r != [] && r[0] == if s == [] || x < s[0] then x else s[0]
  {
    if s == [] then [x]
    else if x == s[0] then s
    else if x < s[0] then
      AscendingCons(x, s);
      [x] + s
    else
      var rest := Insert(s[1..], x);
      AscendingCons(s[0], rest);
      [s[0]] + rest
  }

  lemma {:induction false} AscendingCons(x: int, s: seq<int>)
    requires Ascending(s) && (s != [] ==> x < s[0])
    ensures Ascending([x] + s)
  {
  }

  lemma {:induction false} InsertMembers(s: seq<int>, x: int, y: int)
    requires Ascending(s)
    ensures y in Insert(s, x) <==> y in s || y == x
    decreases |s|
  {
    if s != [] {
      assert y in s <==> y == s[0] || y in s[1..];
      if x > s[0] {
        InsertMembers(s[1..], x, y);
      }
    }
  }

  function SpeakersOf(turns: seq<Turn>): (r: seq<int>)
    ensures Ascending(r)
  {
    if turns == [] then [] else Insert(SpeakersOf(turns[..|turns| - 1]), turns[|turns| - 1].speaker)
  }

  ghost predicate Heard(turns: seq<Turn>, s: int) { exists x :: x in turns && x.speaker == s }

  lemma {:induction false} HeardConcat(a: seq<Turn>, b: seq<Turn>, s: int)
    ensures Heard(a + b, s) <==> Heard(a, s) || Heard(b, s)
  {
    assert forall x :: x in a + b <==> x in a || x in b;
  }

  lemma {:induction false} HeardIsListed(turns: seq<Turn>, s: int)
    ensures s in SpeakersOf(turns) <==> Heard(turns, s)
    decreases |turns|
  {
    if turns != [] {
      var n := |turns| - 1;
      HeardIsListed(turns[..n], s);
      InsertMembers(SpeakersOf(turns[..n]), turns[n].speaker, s);
      HeardConcat(turns[..n], [turns[n]], s);
      assert turns[..n] + [turns[n]] == turns;
    }
  }

  /** Position of a speaker among the speakers of a chunk. */
  function PositionIn(s: seq<int>, x: int): (k: nat)
    requires x in s
    ensures k < |s| && s[k] == x
  {
    if s[0] == x then 0 else 1 + PositionIn(s[1..], x)
  }

  /** The label of local speaker x; a speaker outside the map keeps its own. */
  function LabelOf(locals: seq<int>, labels: seq<int>, x: int): int
    requires |locals| == |labels|
  {
    if x in locals then labels[PositionIn(locals, x)] else x
  }

  // ---------------------------------------------------------------- one stitch

  /** What stays of a turn of the old timeline: all of it, the part before the stitch, nothing. */
  function Keep(x: Turn, stitch: int): seq<Turn> {
    if x.end <= stitch then [x] else if x.start < stitch then [x.(end := stitch)] else []
  }

  function Kept(turns: seq<Turn>, stitch: int): seq<Turn> {
    if turns == [] then []
    else Kept(turns[..|turns| - 1], stitch) + Keep(turns[|turns| - 1], stitch)
  }

  /** What a turn of the chunk adds: its part from the stitch on, relabelled. */
  function Add(x: Turn, stitch: int, locals: seq<int>, labels: seq<int>): seq<Turn>
    requires |locals| == |labels|
  {
    var start := if x.start < stitch then stitch else x.start;
    if x.end <= start then [] else [x.(start := start, speaker := LabelOf(locals, labels, x.speaker))]
  }

  function Added(turns: seq<Turn>, stitch: int, locals: seq<int>, labels: seq<int>): seq<Turn>
    requires |locals| == |labels|
  {
    if turns == [] then []
    else Added(turns[..|turns| - 1], stitch, locals, labels) + Add(turns[|turns| - 1], stitch, locals, labels)
  }

  /** The labels a chunk's speakers get against the timeline so far. */
  function Labels(line: seq<Turn>, c: Chunk): (r: seq<int>)
    ensures |r| == |SpeakersOf(c.turns)|
  {
    MapSpeakers(|SpeakersOf(c.turns)|, SpeakersOf(line), c.score).labels
  }

  function Stitched(line: seq<Turn>, c: Chunk): seq<Turn> {
    if c.turns == [] then line
    else if line == [] then c.turns
    else Kept(line, c.stitch) + Added(c.turns, c.stitch, SpeakersOf(c.turns), Labels(line, c))
  }

  /** The timeline after the first n chunks. */
  function TimelineOf(chunks: seq<Chunk>, n: nat): seq<Turn>
    requires n <= |chunks|
  {
    if n == 0 then [] else Stitched(TimelineOf(chunks, n - 1), chunks[n - 1])
  }

  method KeepBefore(turns: seq<Turn>, stitch: int) returns (kept: seq<Turn>)
    ensures kept == Kept(turns, stitch)
  {
    kept := [];
    for i := 0 to |turns|
      invariant kept == Kept(turns[..i], stitch)
    {
      assert turns[..i + 1][..i] == turns[..i];
      var x := turns[i];
      if x.end <= stitch {
        kept := kept + [x];
      } else if x.start < stitch {
        var cut := x.(end := stitch);
        if cut.end > cut.start {
          kept := kept + [cut];
        }
      }
    }
    assert turns[..|turns|] == turns;
  }

  method AddAfter(line: seq<Turn>, turns: seq<Turn>, stitch: int, locals: seq<int>, labels: seq<int>)
    returns (added: seq<Turn>)
    requires |locals| == |labels|
    ensures added == line + Added(turns, stitch, locals, labels)
  {
    added := line;
    for i := 0 to |turns|
      invariant added == line + Added(turns[..i], stitch, locals, labels)
    {
      assert turns[..i + 1][..i] == turns[..i];
      var x := turns[i];
      if x.end <= stitch {
        continue;
      }
      var start := if x.start < stitch then stitch else x.start;
      if x.end > start {
        added := added + [x.(start := start, speaker := LabelOf(locals, labels, x.speaker))];
      }
    }
    assert turns[..|turns|] == turns;
  }

  method StitchChunk(line: seq<Turn>, c: Chunk, first: bool) returns (next: seq<Turn>)
    requires first ==> line == []
    ensures next == Stitched(line, c)
  {
    next := line;
    if c.turns != [] {
      var locals := SpeakersOf(c.turns);
      if first || line == [] {
        next := line + c.turns;
      } else {
        var m := BuildSpeakerMap(|locals|, SpeakersOf(line), c.score);
        next := KeepBefore(line, c.stitch);
        next := AddAfter(next, c.turns, c.stitch, locals, m.labels);
      }
    }
  }

  method StitchChunks(chunks: seq<Chunk>) returns (line: seq<Turn>)
    ensures line == TimelineOf(chunks, |chunks|)
  {
    line := [];
    for i := 0 to |chunks|
      invariant line == TimelineOf(chunks, i)
    {
      line := StitchChunk(line, chunks[i], i == 0);
    }
  }

  // ---------------------------------------------------------------- membership

  lemma {:induction false} KeptMembers(turns: seq<Turn>, stitch: int, y: Turn)
    ensures y in Kept(turns, stitch) <==> exists x :: x in turns && y in Keep(x, stitch)
  {
    if turns != [] {
      var n := |turns| - 1;
      KeptMembers(turns[..n], stitch, y);
      assert forall x :: x in turns <==> x in turns[..n] || x == turns[n];
    }
  }

  lemma {:induction false} AddedMembers(turns: seq<Turn>, stitch: int, locals: seq<int>, labels: seq<int>, y: Turn)
    requires |locals| == |labels|
    ensures y in Added(turns, stitch, locals, labels) <==> exists x :: x in turns && y in Add(x, stitch, locals, labels)
  {
    if turns != [] {
      var n := |turns| - 1;
      AddedMembers(turns[..n], stitch, locals, labels, y);
      assert forall x :: x in turns <==> x in turns[..n] || x == turns[n];
    }
  }

  /** Two speakers of a chunk stay two speakers on the timeline, if the next numbers are free. */
  lemma {:induction false} SpeakersStayApart(line: seq<Turn>, c: Chunk, a: int, b: int)
    requires a in SpeakersOf(c.turns) && b in SpeakersOf(c.turns) && a != b
    requires NumbersFree(SpeakersOf(line), |SpeakersOf(c.turns)|)
    ensures LabelOf(SpeakersOf(c.turns), Labels(line, c), a) != LabelOf(SpeakersOf(c.turns), Labels(line, c), b)
  {
    LabelsDiffer(|SpeakersOf(c.turns)|, SpeakersOf(line), c.score);
  }

  /** Before the stitch the old timeline is as it was, after it nothing of it is left. */
  lemma {:induction false} KeptSpeaks(turns: seq<Turn>, stitch: int, t: int, s: int)
    ensures SpeaksAt(Kept(turns, stitch), t, s) <==> t < stitch && SpeaksAt(turns, t, s)
  {
    if SpeaksAt(Kept(turns, stitch), t, s) {
      var y :| y in Kept(turns, stitch) && y.start <= t < y.end && y.speaker == s;
      KeptMembers(turns, stitch, y);
      var x :| x in turns && y in Keep(x, stitch);
      assert x.start <= t < x.end && x.speaker == s;
    }
    if t < stitch && SpeaksAt(turns, t, s) {
      var x :| x in turns && x.start <= t < x.end && x.speaker == s;
      var y := if x.end <= stitch then x else x.(end := stitch);
      assert y in Keep(x, stitch);
      KeptMembers(turns, stitch, y);
    }
  }

  /** Speaker s speaks at t among the chunk's turns once its speakers are relabelled. */
  ghost predicate SpeaksAs(turns: seq<Turn>, locals: seq<int>, labels: seq<int>, t: int, s: int)
    requires |locals| == |labels|
  {
    exists l :: l in locals && SpeaksAt(turns, t, l) && LabelOf(locals, labels, l) == s
  }

  lemma {:induction false} AddedSpeaksOnly(
    turns: seq<Turn>, stitch: int, locals: seq<int>, labels: seq<int>, t: int, s: int)
    requires |locals| == |labels| && locals == SpeakersOf(turns)
    requires SpeaksAt(Added(turns, stitch, locals, labels), t, s)
    ensures stitch <= t && SpeaksAs(turns, locals, labels, t, s)
  {
    var y :| y in Added(turns, stitch, locals, labels) && y.start <= t < y.end && y.speaker == s;
    AddedMembers(turns, stitch, locals, labels, y);
    var x :| x in turns && y in Add(x, stitch, locals, labels);
    HeardIsListed(turns, x.speaker);
    assert x.speaker in locals && SpeaksAt(turns, t, x.speaker);
  }

  lemma {:induction false} AddedSpeaks(
    turns: seq<Turn>, stitch: int, locals: seq<int>, labels: seq<int>, t: int, s: int)
    requires |locals| == |labels| && locals == SpeakersOf(turns)
    ensures SpeaksAt(Added(turns, stitch, locals, labels), t, s)
      <==> stitch <= t && SpeaksAs(turns, locals, labels, t, s)
  {
    if SpeaksAt(Added(turns, stitch, locals, labels), t, s) {
      AddedSpeaksOnly(turns, stitch, locals, labels, t, s);
    } else if stitch <= t && SpeaksAs(turns, locals, labels, t, s) {
      var l :| l in locals && SpeaksAt(turns, t, l) && LabelOf(locals, labels, l) == s;
      var x :| x in turns && x.start <= t < x.end && x.speaker == l;
      var y := x.(start := if x.start < stitch then stitch else x.start, speaker := s);
      assert y in Add(x, stitch, locals, labels);
      AddedMembers(turns, stitch, locals, labels, y);
    }
  }

  lemma {:induction false} SpeaksAtConcat(a: seq<Turn>, b: seq<Turn>, t: int, s: int)
    ensures SpeaksAt(a + b, t, s) <==> SpeaksAt(a, t, s) || SpeaksAt(b, t, s)
  {
    assert forall x :: x in a + b <==> x in a || x in b;
  }

  /** One stitch, instant by instant: the old speakers before the stitch, from it on the
      chunk's speakers under their global labels. */
  lemma {:induction false} StitchedSpeaks(line: seq<Turn>, c: Chunk, t: int, s: int)
    requires c.turns != [] && line != []
    ensures SpeaksAt(Stitched(line, c), t, s)
      <==> if t < c.stitch then SpeaksAt(line, t, s)
           else SpeaksAs(c.turns, SpeakersOf(c.turns), Labels(line, c), t, s)
  {
    var locals, labels := SpeakersOf(c.turns), Labels(line, c);
    KeptSpeaks(line, c.stitch, t, s);
    AddedSpeaks(c.turns, c.stitch, locals, labels, t, s);
    SpeaksAtConcat(Kept(line, c.stitch), Added(c.turns, c.stitch, locals, labels), t, s);
  }

  // ---------------------------------------------------------------- all chunks

  /** Chunk k takes instant t over from the chunks before it. */
  ghost predicate Takes(chunks: seq<Chunk>, k: nat, t: int)
    requires k < |chunks|
  {
    chunks[k].turns != [] && (TimelineOf(chunks, k) == [] || chunks[k].stitch <= t)
  }

  /** The last of the first n chunks that takes instant t. */
  ghost function Owner(chunks: seq<Chunk>, n: nat, t: int): (r: Option<nat>)
    requires n <= |chunks|
    ensures r.Some? ==> r.value < n
  {
    if n == 0 then None
    else if Takes(chunks, n - 1, t) then Some(n - 1)
    else Owner(chunks, n - 1, t)
  }

  lemma {:induction false} OwnerTakes(chunks: seq<Chunk>, n: nat, t: int)
    requires n <= |chunks| && Owner(chunks, n, t).Some?
    ensures Takes(chunks, Owner(chunks, n, t).value, t)
  {
    if !Takes(chunks, n - 1, t) {
      OwnerTakes(chunks, n - 1, t);
    }
  }

  lemma {:induction false} NoneTakesAfter(chunks: seq<Chunk>, n: nat, t: int, j: nat)
    requires n <= |chunks| && j < n && (Owner(chunks, n, t).None? || Owner(chunks, n, t).value < j)
    ensures !Takes(chunks, j, t)
  {
    if !Takes(chunks, n - 1, t) && j < n - 1 {
      NoneTakesAfter(chunks, n - 1, t, j);
    }
  }

  /** The owner is the last taker: it takes t, and none of the chunks after it does. */
  lemma {:induction false} OwnerIsLastTaker(chunks: seq<Chunk>, n: nat, t: int, k: nat)
    requires n <= |chunks| && k < n
    ensures Owner(chunks, n, t) == Some(k)
      <==> Takes(chunks, k, t) && forall j: nat :: k < j < n ==> !Takes(chunks, j, t)
  {
    var o := Owner(chunks, n, t);
    if o.Some? {
      OwnerTakes(chunks, n, t);
    }
    if o.None? || o.value < k {
      NoneTakesAfter(chunks, n, t, k);
    } else if o.value == k {
      forall j: nat | k < j < n ensures !Takes(chunks, j, t) {
        NoneTakesAfter(chunks, n, t, j);
      }
    }
  }

  /** Who speaks at t according to chunk k alone, under the labels k got when it was stitched;
      a chunk that opens a timeline keeps its own labels. */
  ghost predicate SpeaksIn(chunks: seq<Chunk>, k: nat, t: int, s: int)
    requires k < |chunks|
  {
    var c, line := chunks[k], TimelineOf(chunks, k);
    if line == [] then SpeaksAt(c.turns, t, s)
    else SpeaksAs(c.turns, SpeakersOf(c.turns), Labels(line, c), t, s)
  }

  lemma {:induction false} NextChunkSpeaks(chunks: seq<Chunk>, n: nat, t: int, s: int)
    requires n < |chunks|
    ensures SpeaksAt(TimelineOf(chunks, n + 1), t, s)
      <==> if Takes(chunks, n, t) then SpeaksIn(chunks, n, t, s) else SpeaksAt(TimelineOf(chunks, n), t, s)
  {
    var c, line := chunks[n], TimelineOf(chunks, n);
    assert TimelineOf(chunks, n + 1) == Stitched(line, c);
    if c.turns != [] && line != [] {
      StitchedSpeaks(line, c, t, s);
    }
  }

  /** The stitched timeline is, instant by instant, exactly what the owning chunk says. */
  lemma {:induction false} TimelineSpeaks(chunks: seq<Chunk>, n: nat, t: int, s: int)
    requires n <= |chunks|
    ensures SpeaksAt(TimelineOf(chunks, n), t, s)
      <==> Owner(chunks, n, t).Some? && SpeaksIn(chunks, Owner(chunks, n, t).value, t, s)
  {
    if n > 0 {
      NextChunkSpeaks(chunks, n - 1, t, s);
      if Takes(chunks, n - 1, t) {
        assert Owner(chunks, n, t) == Some(n - 1);
      } else {
        assert Owner(chunks, n, t) == Owner(chunks, n - 1, t);
        TimelineSpeaks(chunks, n - 1, t, s);
      }
    }
  }

  /** Chunk k brought its own turns, each of positive length. */
  ghost predicate FromChunks(chunks: seq<Chunk>) {
    forall k: nat, x :: k < |chunks| && x in chunks[k].turns ==> x.chunk == k && x.start < x.end
  }

  ghost predicate Ordered(turns: seq<Turn>) {
    forall x, y :: x in turns && y in turns && x.chunk < y.chunk ==> x.end <= y.start
  }

  lemma {:induction false} StitchedIsPositive(line: seq<Turn>, c: Chunk)
    requires Positive(line) && Positive(c.turns)
    ensures Positive(Stitched(line, c))
  {
    var locals, labels := SpeakersOf(c.turns), Labels(line, c);
    forall y | y in Stitched(line, c) ensures y.start < y.end {
      KeptMembers(line, c.stitch, y);
      AddedMembers(c.turns, c.stitch, locals, labels, y);
    }
  }

  lemma {:induction false} StitchedInOrder(line: seq<Turn>, c: Chunk, k: nat)
    requires Positive(line) && Ordered(line) && forall x :: x in line ==> x.chunk < k
    requires Positive(c.turns) && forall x :: x in c.turns ==> x.chunk == k
    ensures Positive(Stitched(line, c)) && Ordered(Stitched(line, c))
    ensures forall x :: x in Stitched(line, c) ==> x.chunk < k + 1
  {
    StitchedIsPositive(line, c);
    if c.turns != [] && line != [] {
      StitchedIsOrdered(line, c, k);
    }
  }

  /** Over any number of chunks: turns of an earlier chunk end before turns of a later one start,
      and every turn has positive length. */
  lemma {:induction false} ChunksStayInOrder(chunks: seq<Chunk>, n: nat)
    requires n <= |chunks| && FromChunks(chunks)
    ensures var line := TimelineOf(chunks, n);
      Positive(line) && Ordered(line) && forall x :: x in line ==> x.chunk < n
  {
    if n > 0 {
      ChunksStayInOrder(chunks, n - 1);
      assert forall x :: x in chunks[n - 1].turns ==> x.chunk == n - 1 && x.start < x.end;
      StitchedInOrder(TimelineOf(chunks, n - 1), chunks[n - 1], n - 1);
    }
  }

  lemma {:induction false} StitchedIsOrdered(line: seq<Turn>, c: Chunk, k: nat)
    requires line != [] && c.turns != []
    requires Ordered(line) && forall x :: x in line ==> x.chunk < k
    requires forall x :: x in c.turns ==> x.chunk == k
    ensures Ordered(Stitched(line, c)) && forall x :: x in Stitched(line, c) ==> x.chunk < k + 1
  {
    KeptInOrder(line, c.stitch, k);
    AddedFrom(c.turns, c.stitch, SpeakersOf(c.turns), Labels(line, c), k);
    var kept, added := Kept(line, c.stitch), Added(c.turns, c.stitch, SpeakersOf(c.turns), Labels(line, c));
    assert forall y :: y in kept + added <==> y in kept || y in added;
  }

  lemma {:induction false} KeptInOrder(line: seq<Turn>, stitch: int, k: nat)
    requires Ordered(line) && forall x :: x in line ==> x.chunk < k
    ensures Ordered(Kept(line, stitch)) && forall y :: y in Kept(line, stitch) ==> y.chunk < k && y.end <= stitch
  {
    forall y | y in Kept(line, stitch) ensures CutFrom(line, y) && y.end <= stitch {
      KeptMembers(line, stitch, y);
    }
  }

  /** y is a turn of the line, perhaps without its end. */
  ghost predicate CutFrom(line: seq<Turn>, y: Turn) {
    exists x :: x in line && y.chunk == x.chunk && y.end <= x.end && y.start == x.start
  }

  lemma {:induction false} AddedFrom(turns: seq<Turn>, stitch: int, locals: seq<int>, labels: seq<int>, k: nat)
    requires |locals| == |labels| && forall x :: x in turns ==> x.chunk == k
    ensures forall y :: y in Added(turns, stitch, locals, labels) ==> y.chunk == k && stitch <= y.start
  {
    forall y | y in Added(turns, stitch, locals, labels) ensures y.chunk == k && stitch <= y.start {
      AddedMembers(turns, stitch, locals, labels, y);
    }
  }
}
