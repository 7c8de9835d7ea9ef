module SpeakerNumbers {
  /**
    The numbers of the speakers on the stitched timeline: when they stay 0, 1, 2, ..., so that two
    speakers of a chunk never share one, and chunks of the default plan for which they do share one.
   */
  import opened SpeakerMap
  import opened WindowPlan
  import opened Timeline

  // ---------------------------------------------------------------- who is heard

  /** Speakers are numbered 0, 1, 2, ... */
  ghost predicate Dense(s: seq<int>) { forall k :: 0 <= k < |s| ==> s[k] == k }

  /** Local speaker x says something after the stitch. */
  ghost predicate HeardLater(c: Chunk, x: int) {
    exists t :: t in c.turns && t.speaker == x && c.stitch < t.end && t.start < t.end
  }

  /** Local speaker i says something after the stitch and is labelled s. */
  ghost predicate LabelledLater(c: Chunk, locals: seq<int>, labels: seq<int>, i: nat, s: int)
    requires |locals| == |labels|
  {
    i < |locals| && HeardLater(c, locals[i]) && labels[i] == s
  }

  lemma {:induction false} AddedHeardOnly(c: Chunk, locals: seq<int>, labels: seq<int>, s: int) returns (i: nat)
    requires |locals| == |labels| && locals == SpeakersOf(c.turns)
    requires Heard(Added(c.turns, c.stitch, locals, labels), s)
    ensures LabelledLater(c, locals, labels, i, s)
  {
    var y :| y in Added(c.turns, c.stitch, locals, labels) && y.speaker == s;
    AddedMembers(c.turns, c.stitch, locals, labels, y);
    var x :| x in c.turns && y in Add(x, c.stitch, locals, labels);
    HeardIsListed(c.turns, x.speaker);
    i := PositionIn(locals, x.speaker);
    assert HeardLater(c, x.speaker);
  }

  lemma {:induction false} LaterIsAdded(c: Chunk, locals: seq<int>, labels: seq<int>, i: nat, s: int)
    requires |locals| == |labels| && locals == SpeakersOf(c.turns) && LabelledLater(c, locals, labels, i, s)
    ensures Heard(Added(c.turns, c.stitch, locals, labels), s)
  {
    var x :| x in c.turns && x.speaker == locals[i] && c.stitch < x.end && x.start < x.end;
    PositionOfItem(locals, i);
    var y := x.(start := if x.start < c.stitch then c.stitch else x.start, speaker := s);
    assert y in Add(x, c.stitch, locals, labels);
    AddedMembers(c.turns, c.stitch, locals, labels, y);
  }

  lemma {:induction false} PositionOfItem(s: seq<int>, i: nat)
    requires Ascending(s) && i < |s|
    ensures PositionIn(s, s[i]) == i
  {
    var k := PositionIn(s, s[i]);
    assert s[k] == s[i];
  }

  lemma {:induction false} KeptHeard(line: seq<Turn>, stitch: int, s: int)
    requires Heard(Kept(line, stitch), s)
    ensures Heard(line, s)
  {
    var y :| y in Kept(line, stitch) && y.speaker == s;
    KeptMembers(line, stitch, y);
    var x :| x in line && y in Keep(x, stitch);
    assert x.speaker == s;
  }

  lemma {:induction false} DenseNumbers(line: seq<Turn>, s: int)
    requires Dense(SpeakersOf(line))
    ensures Heard(line, s) <==> 0 <= s < |SpeakersOf(line)|
  {
    var g := SpeakersOf(line);
    HeardIsListed(line, s);
    if 0 <= s < |g| {
      assert g[s] == s;
    }
  }

  /** Numbers heard are not negative, and none below one that is heard is missing. */
  ghost predicate NoneMissing(turns: seq<Turn>) {
    && (forall x :: Heard(turns, x) ==> 0 <= x)
    && (forall x, y :: Heard(turns, x) && 0 <= y < x ==> Heard(turns, y))
  }

  ghost predicate NoGaps(s: seq<int>) {
    (forall x :: x in s ==> 0 <= x) && forall x, y :: x in s && 0 <= y < x ==> y in s
  }

  lemma {:induction false} GaplessAt(s: seq<int>, k: nat)
    requires Ascending(s) && NoGaps(s) && k < |s|
    ensures s[k] == k
  {
    assert s[k] in s;
    if k > 0 {
      GaplessAt(s, k - 1);
    }
    if s[k] > k {
      assert k in s;
      var m :| 0 <= m < |s| && s[m] == k;
    }
  }

  lemma {:induction false} DenseIsGapless(s: seq<int>)
    requires Dense(s)
    ensures NoGaps(s)
  {
    forall x, y | x in s && 0 <= y < x ensures y in s {
      assert s[y] == y;
    }
  }

  lemma {:induction false} DenseIff(turns: seq<Turn>)
    ensures Dense(SpeakersOf(turns)) <==> NoneMissing(turns)
  {
    var s := SpeakersOf(turns);
    forall x ensures x in s <==> Heard(turns, x) {
      HeardIsListed(turns, x);
    }
    if Dense(s) {
      DenseIsGapless(s);
    } else if NoneMissing(turns) {
      forall k | 0 <= k < |s| ensures s[k] == k {
        GaplessAt(s, k);
      }
    }
  }

  // ---------------------------------------------------------------- one stitch

  /** Nobody on the timeline is cut out of it. */
  ghost predicate NoneLost(line: seq<Turn>, next: seq<Turn>) { AllHeard(line) <= AllHeard(next) }

  ghost function AllHeard(turns: seq<Turn>): set<int> { set x | x in turns :: x.speaker }

  lemma {:induction false} AmongAllHeard(turns: seq<Turn>, s: int)
    ensures s in AllHeard(turns) <==> Heard(turns, s)
  {
  }

  /** Local speaker i gets a new number and is heard after the stitch. */
  ghost predicate Joins(line: seq<Turn>, c: Chunk, i: nat)
    requires i < |SpeakersOf(c.turns)|
  {
    Labels(line, c)[i] == |SpeakersOf(line)| + i && HeardLater(c, SpeakersOf(c.turns)[i])
  }

  /** The speakers that join come before all others of the chunk. */
  ghost predicate NewFirst(line: seq<Turn>, c: Chunk) {
    forall i: nat, j: nat :: i < j < |SpeakersOf(c.turns)| && Joins(line, c, j) ==> Joins(line, c, i)
  }

  lemma {:induction false} DenseIsFree(s: seq<int>, count: nat)
    requires Dense(s)
    ensures NumbersFree(s, count)
  {
  }

  /** A label is a number in use or the next number plus the position of its speaker. */
  lemma {:induction false} LabelIs(line: seq<Turn>, c: Chunk, i: nat)
    requires Dense(SpeakersOf(line)) && i < |SpeakersOf(c.turns)|
    ensures var l, g := Labels(line, c)[i], |SpeakersOf(line)|; 0 <= l < g || l == g + i
  {
    var locals, s := SpeakersOf(c.turns), SpeakersOf(line);
    DenseIsFree(s, |locals|);
    LabelIsUsedOrNew(|locals|, s, c.score, i);
  }

  /** Who is heard after a stitch: those kept, and the chunk's speakers heard from it on. */
  lemma {:induction false} HeardNext(line: seq<Turn>, c: Chunk, s: int)
    requires line != [] && c.turns != []
    ensures Heard(Stitched(line, c), s) <==>
      Heard(Kept(line, c.stitch), s) || Heard(Added(c.turns, c.stitch, SpeakersOf(c.turns), Labels(line, c)), s)
  {
    HeardConcat(Kept(line, c.stitch), Added(c.turns, c.stitch, SpeakersOf(c.turns), Labels(line, c)), s);
  }

  /** Whoever is heard with a number not in use before the stitch joins with it. */
  lemma {:induction false} OldOrJoins(line: seq<Turn>, c: Chunk, s: int) returns (i: nat)
    requires line != [] && c.turns != [] && Dense(SpeakersOf(line)) && Heard(Stitched(line, c), s)
    ensures var g := |SpeakersOf(line)|;
      0 <= s < g || (i < |SpeakersOf(c.turns)| && s == g + i && Joins(line, c, i))
  {
    HeardNext(line, c, s);
    DenseNumbers(line, s);
    if Heard(Kept(line, c.stitch), s) {
      KeptHeard(line, c.stitch, s);
      i := 0;
    } else {
      i := AddedHeardOnly(c, SpeakersOf(c.turns), Labels(line, c), s);
      LabelIs(line, c, i);
    }
  }

  lemma {:induction false} JoinsIsHeard(line: seq<Turn>, c: Chunk, i: nat)
    requires line != [] && c.turns != [] && i < |SpeakersOf(c.turns)| && Joins(line, c, i)
    ensures Heard(Stitched(line, c), |SpeakersOf(line)| + i)
  {
    var s := |SpeakersOf(line)| + i;
    HeardNext(line, c, s);
    LaterIsAdded(c, SpeakersOf(c.turns), Labels(line, c), i, s);
  }

  /** With nobody lost, speakers stay numbered 0, 1, 2, ... exactly when those that join come
      first: a new number also counts the speakers matched before it. */
  lemma {:induction false} StitchStaysDense(line: seq<Turn>, c: Chunk)
    requires line != [] && c.turns != [] && Dense(SpeakersOf(line)) && NoneLost(line, Stitched(line, c))
    ensures Dense(SpeakersOf(Stitched(line, c))) <==> NewFirst(line, c)
  {
    if NewFirst(line, c) {
      StaysDense(line, c);
    } else {
      SkipsNumber(line, c);
    }
  }

  lemma {:induction false} StaysDense(line: seq<Turn>, c: Chunk)
    requires line != [] && c.turns != [] && Dense(SpeakersOf(line)) && NoneLost(line, Stitched(line, c))
    requires NewFirst(line, c)
    ensures Dense(SpeakersOf(Stitched(line, c)))
  {
    var next := Stitched(line, c);
    forall x | Heard(next, x) ensures 0 <= x {
      var i := OldOrJoins(line, c, x);
    }
    forall x, y | Heard(next, x) && 0 <= y < x ensures Heard(next, y) {
      NoneBelowMissing(line, c, x, y);
    }
    DenseIff(next);
  }

  lemma {:induction false} SkipsNumber(line: seq<Turn>, c: Chunk)
    requires line != [] && c.turns != [] && Dense(SpeakersOf(line)) && !NewFirst(line, c)
    ensures !Dense(SpeakersOf(Stitched(line, c)))
  {
    var next, g := Stitched(line, c), |SpeakersOf(line)|;
    var i: nat, j: nat :| i < j < |SpeakersOf(c.turns)| && Joins(line, c, j) && !Joins(line, c, i);
    JoinsIsHeard(line, c, j);
    DenseIff(next);
    if Heard(next, g + i) {
      var k := OldOrJoins(line, c, g + i);
    }
  }

  lemma {:induction false} NoneBelowMissing(line: seq<Turn>, c: Chunk, x: int, y: int)
    requires line != [] && c.turns != [] && Dense(SpeakersOf(line)) && NoneLost(line, Stitched(line, c))
    requires NewFirst(line, c) && Heard(Stitched(line, c), x) && 0 <= y < x
    ensures Heard(Stitched(line, c), y)
  {
    var g := |SpeakersOf(line)|;
    if y < g {
      DenseNumbers(line, y);
      AmongAllHeard(line, y);
      AmongAllHeard(Stitched(line, c), y);
    } else {
      var j := OldOrJoins(line, c, x);
      var i: nat := y - g;
      assert Joins(line, c, i);
      JoinsIsHeard(line, c, i);
    }
  }

  // ---------------------------------------------------------------- all chunks

  /** The timeline before chunk k and after it. */
  ghost predicate NoneLostAt(chunks: seq<Chunk>, k: nat)
    requires k < |chunks|
  {
    NoneLost(TimelineOf(chunks, k), TimelineOf(chunks, k + 1))
  }

  /** Chunk k numbers its speakers so that no number is skipped: a chunk that opens the timeline
      has speakers 0, 1, 2, ..., in a later one those that join come first. */
  ghost predicate NumbersOn(chunks: seq<Chunk>, k: nat)
    requires k < |chunks|
  {
    var line, c := TimelineOf(chunks, k), chunks[k];
    c.turns == [] || if line == [] then Dense(SpeakersOf(c.turns)) else NewFirst(line, c)
  }

  ghost predicate DenseAt(chunks: seq<Chunk>, k: nat)
    requires k <= |chunks|
  {
    Dense(SpeakersOf(TimelineOf(chunks, k)))
  }

  lemma {:induction false} NextDenseIff(chunks: seq<Chunk>, k: nat)
    requires k < |chunks| && NoneLostAt(chunks, k) && DenseAt(chunks, k)
    ensures DenseAt(chunks, k + 1) <==> NumbersOn(chunks, k)
  {
    var line, c := TimelineOf(chunks, k), chunks[k];
    if c.turns != [] && line != [] {
      StitchStaysDense(line, c);
    }
  }

  lemma {:induction false} NobodyIsDense(chunks: seq<Chunk>, n: nat)
    requires n == 0
    ensures DenseAt(chunks, n)
  {
    assert TimelineOf(chunks, n) == [];
    assert SpeakersOf([]) == [];
  }

  lemma {:induction false} SteadyStaysDense(chunks: seq<Chunk>, k: nat, n: nat)
    requires k < |chunks| && n == k + 1 && NoneLostAt(chunks, k) && NumbersOn(chunks, k)
    requires DenseAt(chunks, k)
    ensures DenseAt(chunks, n)
  {
    NextDenseIff(chunks, k);
  }

  /** The first n chunks cut nobody out and skip no number. */
  ghost predicate SteadyTo(chunks: seq<Chunk>, n: nat)
    requires n <= |chunks|
  {
    n == 0 || (SteadyTo(chunks, n - 1) && NoneLostAt(chunks, n - 1) && NumbersOn(chunks, n - 1))
  }

  lemma {:induction false} SteadyFrom(chunks: seq<Chunk>, n: nat)
    requires n <= |chunks|
    requires forall k: nat :: k < n ==> NoneLostAt(chunks, k)
    requires forall k: nat :: k < n ==> NumbersOn(chunks, k)
    ensures SteadyTo(chunks, n)
    decreases n
  {
    if n > 0 {
      SteadyFrom(chunks, n - 1);
    }
  }

  lemma {:induction false} DenseFrom(chunks: seq<Chunk>, n: nat)
    requires n <= |chunks| && SteadyTo(chunks, n)
    ensures DenseAt(chunks, n)
    decreases n
  {
    if n == 0 {
      NobodyIsDense(chunks, n);
    } else {
      DenseFrom(chunks, n - 1);
      SteadyStaysDense(chunks, n - 1, n);
    }
  }

  /** Over any number of chunks that cut nobody out, the speakers of the timeline are 0, 1, 2, ...
      throughout exactly when every chunk numbers on without skipping. */
  lemma {:induction false} DenseThroughoutIff(chunks: seq<Chunk>, n: nat)
    requires n <= |chunks| && forall k: nat :: k < n ==> NoneLostAt(chunks, k)
    ensures (forall k: nat :: k <= n ==> DenseAt(chunks, k)) <==> forall k: nat :: k < n ==> NumbersOn(chunks, k)
  {
    if forall k: nat :: k < n ==> NumbersOn(chunks, k) {
      forall k: nat | k <= n ensures DenseAt(chunks, k) {
        SteadyFrom(chunks, k);
        DenseFrom(chunks, k);
      }
    } else {
      var k: nat :| k < n && !NumbersOn(chunks, k);
      if DenseAt(chunks, k) {
        NextDenseIff(chunks, k);
      }
    }
  }

  /** And then the speakers of every chunk stay apart. */
  lemma {:induction false} ApartThroughout(chunks: seq<Chunk>, n: nat, k: nat, a: int, b: int)
    requires k < n <= |chunks|
    requires forall j: nat :: j < n ==> NoneLostAt(chunks, j)
    requires forall j: nat :: j < n ==> NumbersOn(chunks, j)
    requires a in SpeakersOf(chunks[k].turns) && b in SpeakersOf(chunks[k].turns) && a != b
    ensures var locals, labels := SpeakersOf(chunks[k].turns), Labels(TimelineOf(chunks, k), chunks[k]);
      LabelOf(locals, labels, a) != LabelOf(locals, labels, b)
  {
    SteadyFrom(chunks, k);
    DenseFrom(chunks, k);
    DenseIsFree(SpeakersOf(TimelineOf(chunks, k)), |SpeakersOf(chunks[k].turns)|);
    SpeakersStayApart(TimelineOf(chunks, k), chunks[k], a, b);
  }

  // ---------------------------------------------------------------- two speakers, one label

  /** Speaker 1 is heard only after the stitch with the second chunk, which has one unmatched
      speaker; of the third chunk's two speakers the first is unmatched and the second is
      matched to that one. */
  function ThreeChunks(): seq<Chunk> {
    [ Chunk([Turn(0, 100_000, 0, 0), Turn(470_000, 478_000, 1, 0)], 15_000, OnlyMatch(1, 0)),
      Chunk([Turn(500_000, 600_000, 0, 1)], 465_000, OnlyMatch(1, 0)),
      Chunk([Turn(920_000, 930_000, 0, 2), Turn(930_000, 940_000, 1, 2)], 915_000, OnlyMatch(1, 2)) ]
  }

  /** The chunk comes from window w: its turns lie in it and it is stitched in the middle of the
      overlap w begins with. */
  ghost predicate LaidOn(c: Chunk, w: Window, overlap: int) {
    c.stitch == w.start + overlap / 2 && forall x :: x in c.turns ==> w.start <= x.start < x.end <= w.end
  }

  /** They are chunks of the default plan: eight minutes with half a minute of overlap. */
  lemma {:induction false} ThreeChunksOfPlan()
    ensures var ws := Plan(1_400_000, 480_000, 30_000, 0);
      |ws| == 3 && forall k :: 0 <= k < 3 ==> LaidOn(ThreeChunks()[k], ws[k], 30_000)
  {
    var third := Plan(1_400_000, 480_000, 30_000, 900_000);
    var second := Plan(1_400_000, 480_000, 30_000, 450_000);
    assert third == [Window(900_000, 1_400_000)];
    assert second == [Window(450_000, 930_000)] + third;
    assert Plan(1_400_000, 480_000, 30_000, 0) == [Window(0, 480_000)] + second;
  }

  lemma {:induction false} OneSpeakerOf(x: Turn)
    ensures SpeakersOf([x]) == [x.speaker]
  {
    assert [x][..0] == [];
  }

  lemma {:induction false} TwoSpeakersOf(x: Turn, y: Turn)
    requires x.speaker < y.speaker
    ensures SpeakersOf([x, y]) == [x.speaker, y.speaker]
  {
    OneSpeakerOf(x);
    assert [x, y][..1] == [x];
    assert [x.speaker][1..] == [];
    assert Insert([], y.speaker) == [y.speaker];
    assert Insert([x.speaker], y.speaker) == [x.speaker] + [y.speaker];
  }

  lemma {:induction false} KeptTwo(x: Turn, y: Turn, stitch: int)
    ensures Kept([x, y], stitch) == Keep(x, stitch) + Keep(y, stitch)
  {
    assert [x, y][..1] == [x] && [x][..0] == [];
    assert Kept([x], stitch) == Keep(x, stitch);
  }

  lemma {:induction false} AddedOne(x: Turn, stitch: int, locals: seq<int>, labels: seq<int>)
    requires |locals| == |labels|
    ensures Added([x], stitch, locals, labels) == Add(x, stitch, locals, labels)
  {
    assert [x][..0] == [];
  }

  /** The labels when only local speaker j is matched, to g. */
  lemma {:induction false} LabelsOfOneMatch(line: seq<Turn>, c: Chunk, j: nat, g: int, i: nat)
    requires g in SpeakersOf(line) && c.score == OnlyMatch(j, g) && i < |SpeakersOf(c.turns)|
    ensures Labels(line, c)[i] == if i == j then g else |SpeakersOf(line)| + i
  {
    OnlyMatchLabels(|SpeakersOf(c.turns)|, SpeakersOf(line), j, g);
  }

  lemma {:induction false} TwoAndOne(line: seq<Turn>, c: Chunk, x: Turn, y: Turn, z: Turn, l: int)
    requires line == [x, y] && c.turns == [z] && Labels(line, c) == [l]
    ensures Stitched(line, c) == Keep(x, c.stitch) + Keep(y, c.stitch) + Add(z, c.stitch, [z.speaker], [l])
  {
    OneSpeakerOf(z);
    KeptTwo(x, y, c.stitch);
    AddedOne(z, c.stitch, [z.speaker], [l]);
  }

  lemma {:induction false} SecondLabel(line: seq<Turn>)
    requires line == ThreeChunks()[0].turns
    ensures Labels(line, ThreeChunks()[1]) == [2]
  {
    TwoSpeakersOf(line[0], line[1]);
    OneSpeakerOf(ThreeChunks()[1].turns[0]);
    LabelsOfOneMatch(line, ThreeChunks()[1], 1, 0, 0);
  }

  /** After two chunks the speakers are 0 and 2, although there are two of them. */
  lemma {:induction false} NumberSkipped()
    ensures TimelineOf(ThreeChunks(), 2) == [Turn(0, 100_000, 0, 0), Turn(500_000, 600_000, 2, 1)]
    ensures SpeakersOf(TimelineOf(ThreeChunks(), 2)) == [0, 2]
  {
    AfterTwo(ThreeChunks(), 2);
  }

  lemma {:induction false} AfterTwo(chunks: seq<Chunk>, n: nat)
    requires chunks == ThreeChunks() && n == 2
    ensures TimelineOf(chunks, n) == [Turn(0, 100_000, 0, 0), Turn(500_000, 600_000, 2, 1)]
    ensures SpeakersOf(TimelineOf(chunks, n)) == [0, 2]
  {
    var x, y, z := Turn(0, 100_000, 0, 0), Turn(470_000, 478_000, 1, 0), Turn(500_000, 600_000, 0, 1);
    var line, c := TimelineOf(chunks, n - 1), chunks[n - 1];
    assert TimelineOf(chunks, n - 2) == [] && line == [x, y];
    SecondLabel(line);
    TwoAndOne(line, c, x, y, z, 2);
    assert TimelineOf(chunks, n) == Stitched(line, c);
    TwoSpeakersOf(x, z.(speaker := 2));
  }

  /** So the third chunk's unmatched speaker gets number 2, which its other speaker is matched to. */
  lemma {:induction false} TwoSpeakersOneLabel()
    ensures SpeakersOf(ThreeChunks()[2].turns) == [0, 1]
    ensures Labels(TimelineOf(ThreeChunks(), 2), ThreeChunks()[2]) == [2, 2]
  {
    var chunks := ThreeChunks();
    NumberSkipped();
    TwoSpeakersOf(chunks[2].turns[0], chunks[2].turns[1]);
    LabelsOfOneMatch(TimelineOf(chunks, 2), chunks[2], 1, 2, 0);
    LabelsOfOneMatch(TimelineOf(chunks, 2), chunks[2], 1, 2, 1);
  }

  // ---------------------------------------------------------------- a number skipped with nobody lost

  /** Of the second chunk's speakers the first is matched and the second is new. */
  function TwoChunks(): seq<Chunk> {
    [ Chunk([Turn(0, 470_000, 0, 0)], 15_000, OnlyMatch(0, 0)),
      Chunk([Turn(455_000, 600_000, 0, 1), Turn(600_000, 700_000, 1, 1)], 465_000, OnlyMatch(0, 0)) ]
  }

  lemma {:induction false} TwoChunksOfPlan()
    ensures forall k :: 0 <= k < 2 ==> LaidOn(TwoChunks()[k], Plan(1_400_000, 480_000, 30_000, 0)[k], 30_000)
  {
    ThreeChunksOfPlan();
  }

  /** The new speaker gets number 2 where 1 was next, although nobody is cut out. */
  lemma {:induction false} MatchedCounts()
    ensures NoneLostAt(TwoChunks(), 0) && NoneLostAt(TwoChunks(), 1)
    ensures DenseAt(TwoChunks(), 1) && !DenseAt(TwoChunks(), 2)
  {
    var chunks := TwoChunks();
    var x := Turn(0, 470_000, 0, 0);
    assert TimelineOf(chunks, 0) == [];
    assert TimelineOf(chunks, 1) == [x];
    OneSpeakerOf(x);
    NobodyIsLostFirst(chunks);
    SecondSkips([x], chunks[1], x);
    assert TimelineOf(chunks, 2) == Stitched([x], chunks[1]);
  }

  lemma {:induction false} NobodyIsLostFirst(chunks: seq<Chunk>)
    requires chunks != []
    ensures NoneLostAt(chunks, 0)
  {
    assert TimelineOf(chunks, 0) == [];
  }

  lemma {:induction false} SecondSkips(line: seq<Turn>, c: Chunk, x: Turn)
    requires line == [x] && SpeakersOf(line) == [0] && x.speaker == 0 && x.start < c.stitch
    requires |c.turns| == 2 && c.turns[0].speaker == 0 && c.turns[1].speaker == 1 && c.score == OnlyMatch(0, 0)
    requires c.stitch < c.turns[1].end && c.turns[1].start < c.turns[1].end
    ensures NoneLost(line, Stitched(line, c)) && !Dense(SpeakersOf(Stitched(line, c)))
  {
    FirstIsKept(line, c, x);
    SecondJoins(line, c);
    StitchStaysDense(line, c);
  }

  lemma {:induction false} OneHeard(x: Turn)
    ensures AllHeard([x]) == {x.speaker}
  {
    forall s ensures s in AllHeard([x]) <==> s == x.speaker {
      AmongAllHeard([x], s);
    }
  }

  lemma {:induction false} StartIsKept(line: seq<Turn>, c: Chunk, x: Turn)
    requires x in line && c.turns != [] && x.start < c.stitch
    ensures Heard(Stitched(line, c), x.speaker)
  {
    var y := if x.end <= c.stitch then x else x.(end := c.stitch);
    assert y in Keep(x, c.stitch);
    KeptMembers(line, c.stitch, y);
    HeardNext(line, c, x.speaker);
  }

  lemma {:induction false} FirstIsKept(line: seq<Turn>, c: Chunk, x: Turn)
    requires line == [x] && c.turns != [] && x.start < c.stitch
    ensures NoneLost(line, Stitched(line, c))
  {
    OneHeard(x);
    StartIsKept(line, c, x);
    AmongAllHeard(Stitched(line, c), x.speaker);
  }

  lemma {:induction false} SecondJoins(line: seq<Turn>, c: Chunk)
    requires SpeakersOf(line) == [0] && c.score == OnlyMatch(0, 0)
    requires |c.turns| == 2 && c.turns[0].speaker == 0 && c.turns[1].speaker == 1
    requires c.stitch < c.turns[1].end && c.turns[1].start < c.turns[1].end
    ensures !NewFirst(line, c)
  {
    assert c.turns == [c.turns[0], c.turns[1]];
    TwoSpeakersOf(c.turns[0], c.turns[1]);
    LabelsOfOneMatch(line, c, 0, 0, 0);
    LabelsOfOneMatch(line, c, 0, 0, 1);
    assert HeardLater(c, 1) by {
      assert c.turns[1] in c.turns;
    }
    assert Joins(line, c, 1) && !Joins(line, c, 0);
  }
}
