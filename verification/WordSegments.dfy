module WordSegments {
  /**
    The end of word attribution: words grouped into segments by speaker, pause, sentence end and
    length, and the whole of speaker assignment put together.
   */
  import opened Options
  import opened TurnMerging
  import opened WordAttribution
  import opened HonorificPairs
  import opened Shares

  const LONG_PAUSE := 1200
  const SHORT_PAUSE := 400
  const FULL_TURN := 6000
  const MAX_SPAN := 20_000

  /** w does not continue the group of words before it. */
  predicate Splits(ends: string -> bool, group: seq<Said>, w: Said)
    requires group != []
  {
    var last := group[|group| - 1];
    var gap, span := w.start - last.end, w.end - group[0].start;
    || w.speaker != group[0].speaker
    || gap >= LONG_PAUSE
    || (ends(last.text) && (span >= FULL_TURN || gap >= SHORT_PAUSE))
    || span >= MAX_SPAN
  }

  predicate NonEmpty(groups: seq<seq<Said>>) { forall i :: 0 <= i < |groups| ==> groups[i] != [] }

  function AddWord(ends: string -> bool, groups: seq<seq<Said>>, w: Said): (r: seq<seq<Said>>)
    requires NonEmpty(groups)
    ensures NonEmpty(r)
  {
    var n := |groups|;
    if n == 0 || Splits(ends, groups[n - 1], w) then groups + [[w]]
    else groups[n - 1 := groups[n - 1] + [w]]
  }

  function Grouped(ends: string -> bool, ws: seq<Said>): (r: seq<seq<Said>>)
    ensures NonEmpty(r)
  {
    if ws == [] then [] else AddWord(ends, Grouped(ends, ws[..|ws| - 1]), ws[|ws| - 1])
  }

  method GroupWords(ends: string -> bool, ws: seq<Said>) returns (groups: seq<seq<Said>>)
    ensures groups == Grouped(ends, ws)
  {
    groups := [];
    var group: seq<Said> := [];
    for i := 0 to |ws|
      invariant (group == []) == (i == 0)
      invariant i == 0 ==> groups == []
      invariant i > 0 ==> groups + [group] == Grouped(ends, ws[..i])
    {
      assert ws[..i + 1][..i] == ws[..i];
      if i == 0 {
        group := [ws[i]];
      } else if Splits(ends, group, ws[i]) {
        groups := groups + [group];
        group := [ws[i]];
      } else {
        ghost var was := groups + [group];
        group := group + [ws[i]];
        assert was[|was| - 1 := group] == groups + [group];
      }
    }
    assert ws[..|ws|] == ws;
    if group != [] {
      groups := groups + [group];
    }
  }

  // ---------------------------------------------------------------- what the groups are

  function Flat(groups: seq<seq<Said>>): seq<Said> {
    if groups == [] then [] else Flat(groups[..|groups| - 1]) + groups[|groups| - 1]
  }

  /** Inside a group every word continues the words before it. */
  ghost predicate Unbroken(ends: string -> bool, g: seq<Said>) {
    g != [] && forall k :: 0 < k < |g| ==> !Splits(ends, g[..k], g[k])
  }

  /** There is a reason to start group i. */
  ghost predicate Cut(ends: string -> bool, groups: seq<seq<Said>>, i: nat)
    requires 0 < i < |groups| && groups[i - 1] != [] && groups[i] != []
  {
    Splits(ends, groups[i - 1], groups[i][0])
  }

  /** A partition of the words into unbroken groups with a reason to split between any two. */
  ghost predicate Segmentation(ends: string -> bool, groups: seq<seq<Said>>, ws: seq<Said>) {
    && (forall i :: 0 <= i < |groups| ==> Unbroken(ends, groups[i]))
    && NonEmpty(groups)
    && (forall i: nat :: 0 < i < |groups| ==> Cut(ends, groups, i))
    && Flat(groups) == ws
  }

  lemma {:induction false} AddWordExtends(ends: string -> bool, groups: seq<seq<Said>>, ws: seq<Said>, w: Said)
    requires Segmentation(ends, groups, ws)
    ensures Segmentation(ends, AddWord(ends, groups, w), ws + [w])
  {
    var n, r := |groups|, AddWord(ends, groups, w);
    if n == 0 || Splits(ends, groups[n - 1], w) {
      assert r[..n] == groups;
      assert Unbroken(ends, [w]);
      forall i: nat | 0 < i < |r| ensures Cut(ends, r, i) {
        assert i < n ==> Cut(ends, groups, i);
      }
    } else {
      var g := groups[n - 1];
      assert r[..n - 1] == groups[..n - 1];
      assert Flat(groups) == Flat(groups[..n - 1]) + g;
      UnbrokenSnoc(ends, g, w);
      forall i: nat | 0 < i < |r| ensures Cut(ends, r, i) {
        assert Cut(ends, groups, i);
      }
    }
  }

  lemma {:induction false} UnbrokenSnoc(ends: string -> bool, g: seq<Said>, w: Said)
    requires g != []
    ensures Unbroken(ends, g + [w]) <==> Unbroken(ends, g) && !Splits(ends, g, w)
  {
    var r := g + [w];
    assert forall k :: 0 < k < |g| ==> r[..k] == g[..k] && r[k] == g[k];
    assert r[..|g|] == g;
    if Unbroken(ends, r) {
      forall k | 0 < k < |g| ensures !Splits(ends, g[..k], g[k]) {
        assert !Splits(ends, r[..k], r[k]);
      }
      assert !Splits(ends, r[..|g|], r[|g|]);
    }
  }

  lemma {:induction false} GroupedIsSegmentation(ends: string -> bool, ws: seq<Said>)
    ensures Segmentation(ends, Grouped(ends, ws), ws)
  {
    if ws != [] {
      var n := |ws| - 1;
      GroupedIsSegmentation(ends, ws[..n]);
      AddWordExtends(ends, Grouped(ends, ws[..n]), ws[..n], ws[n]);
      assert ws[..n] + [ws[n]] == ws;
    }
  }

  /** The groups without their last word. */
  function DropLast(groups: seq<seq<Said>>): seq<seq<Said>>
    requires groups != [] && groups[|groups| - 1] != []
  {
    var n := |groups|;
    var g := groups[n - 1];
    if |g| == 1 then groups[..n - 1] else groups[n - 1 := g[..|g| - 1]]
  }

  lemma {:induction false} LastOfFlat(groups: seq<seq<Said>>, ws: seq<Said>)
    requires groups != [] && groups[|groups| - 1] != [] && Flat(groups) == ws
    ensures ws != [] && Flat(DropLast(groups)) == ws[..|ws| - 1]
    ensures var g := groups[|groups| - 1]; g[|g| - 1] == ws[|ws| - 1]
  {
    var n, r := |groups|, DropLast(groups);
    var g := groups[n - 1];
    assert Flat(groups) == Flat(groups[..n - 1]) + g;
    if |g| > 1 {
      assert r[..n - 1] == groups[..n - 1];
      assert Flat(r) == Flat(groups[..n - 1]) + g[..|g| - 1];
    }
  }

  lemma {:induction false} DropLastUnbroken(ends: string -> bool, groups: seq<seq<Said>>)
    requires groups != [] && NonEmpty(groups) && forall i :: 0 <= i < |groups| ==> Unbroken(ends, groups[i])
    ensures forall i :: 0 <= i < |DropLast(groups)| ==> Unbroken(ends, DropLast(groups)[i])
  {
    var g := groups[|groups| - 1];
    if |g| > 1 {
      assert g == g[..|g| - 1] + [g[|g| - 1]];
      UnbrokenSnoc(ends, g[..|g| - 1], g[|g| - 1]);
    }
  }

  lemma {:induction false} DropLastCut(ends: string -> bool, groups: seq<seq<Said>>)
    requires groups != [] && NonEmpty(groups) && forall i: nat :: 0 < i < |groups| ==> Cut(ends, groups, i)
    ensures NonEmpty(DropLast(groups)) && forall i: nat :: 0 < i < |DropLast(groups)| ==> Cut(ends, DropLast(groups), i)
  {
    var r := DropLast(groups);
    forall i: nat | 0 < i < |r| ensures Cut(ends, r, i) {
      assert Cut(ends, groups, i);
      assert r[i - 1] == groups[i - 1] && r[i][0] == groups[i][0];
    }
  }

  lemma {:induction false} LoneWordAdded(ends: string -> bool, groups: seq<seq<Said>>, w: Said)
    requires groups != [] && NonEmpty(groups) && groups[|groups| - 1] == [w]
    requires |groups| > 1 ==> Cut(ends, groups, |groups| - 1)
    ensures AddWord(ends, groups[..|groups| - 1], w) == groups
  {
    assert groups[..|groups| - 1] + [[w]] == groups;
  }

  lemma {:induction false} NextWordAdded(ends: string -> bool, groups: seq<seq<Said>>, g: seq<Said>, w: Said)
    requires groups != [] && NonEmpty(groups) && groups[|groups| - 1] == g + [w] && g != []
    requires !Splits(ends, g, w)
    ensures AddWord(ends, groups[|groups| - 1 := g], w) == groups
  {
    assert groups[|groups| - 1 := g][|groups| - 1 := g + [w]] == groups;
  }

  lemma {:induction false} LastWordAdded(ends: string -> bool, groups: seq<seq<Said>>, w: Said)
    requires groups != [] && NonEmpty(groups) && NonEmpty(DropLast(groups))
    requires var g := groups[|groups| - 1]; g[|g| - 1] == w && Unbroken(ends, g)
    requires |groups| > 1 ==> Cut(ends, groups, |groups| - 1)
    ensures AddWord(ends, DropLast(groups), w) == groups
  {
    var g := groups[|groups| - 1];
    var k := |g| - 1;
    if k == 0 {
      LoneWordAdded(ends, groups, w);
    } else {
      assert g == g[..k] + [w];
      NextWordAdded(ends, groups, g[..k], w);
    }
  }

  /** The greedy grouping is the only segmentation there is. */
  lemma {:induction false} SegmentationUnique(ends: string -> bool, groups: seq<seq<Said>>, ws: seq<Said>)
    requires Segmentation(ends, groups, ws)
    ensures groups == Grouped(ends, ws)
    decreases |ws|
  {
    if groups != [] {
      LastOfFlat(groups, ws);
      DropLastUnbroken(ends, groups);
      DropLastCut(ends, groups);
      LastWordAdded(ends, groups, ws[|ws| - 1]);
      SegmentationUnique(ends, DropLast(groups), ws[..|ws| - 1]);
    }
  }

  /** A group has one speaker, pauses under 1.2 s, and under 20 s from its start to any later
      word's end. */
  lemma {:induction false} GroupIsOneUtterance(ends: string -> bool, g: seq<Said>, k: nat)
    requires Unbroken(ends, g) && k < |g|
    ensures g[k].speaker == g[0].speaker
    ensures k > 0 ==> g[k].start - g[k - 1].end < LONG_PAUSE && g[k].end - g[0].start < MAX_SPAN
  {
    if k > 0 {
      assert !Splits(ends, g[..k], g[k]);
      assert g[..k][0] == g[0] && g[..k][k - 1] == g[k - 1];
    }
  }

  /** w goes on with the group: one speaker, a pause under 1.2 s, under 20 s from its start; after
      the end of a sentence a pause under 0.4 s and under 6 s from its start. */
  ghost predicate GoesOn(ends: string -> bool, g: seq<Said>, w: Said) {
    && g != [] && w.speaker == g[0].speaker
    && w.start - g[|g| - 1].end < 1200 && w.end - g[0].start < 20_000
    && (ends(g[|g| - 1].text) ==> w.start - g[|g| - 1].end < 400 && w.end - g[0].start < 6000)
  }

  /** Every word of the group goes on with those before it. */
  ghost predicate Utterance(ends: string -> bool, g: seq<Said>) {
    g != [] && forall k :: 0 < k < |g| ==> GoesOn(ends, g[..k], g[k])
  }

  lemma {:induction false} UtteranceIff(ends: string -> bool, g: seq<Said>)
    ensures Unbroken(ends, g) <==> Utterance(ends, g)
  {
    if g != [] {
      forall k | 0 < k < |g| ensures Splits(ends, g[..k], g[k]) <==> !GoesOn(ends, g[..k], g[k]) {
      }
    }
  }

  /** The groups partition the words into utterances, and none goes on with the one before it. */
  lemma {:induction false} GroupedInUtterances(ends: string -> bool, ws: seq<Said>)
    ensures var groups := Grouped(ends, ws);
      && Flat(groups) == ws
      && (forall i :: 0 <= i < |groups| ==> Utterance(ends, groups[i]))
      && (forall i, j :: 0 <= i < j < |groups| && j == i + 1 ==> !GoesOn(ends, groups[i], groups[j][0]))
  {
    var groups := Grouped(ends, ws);
    GroupedIsSegmentation(ends, ws);
    forall i | 0 <= i < |groups| ensures Utterance(ends, groups[i]) {
      UtteranceIff(ends, groups[i]);
    }
    forall i, j | 0 <= i < j < |groups| && j == i + 1 ensures !GoesOn(ends, groups[i], groups[j][0]) {
      assert Cut(ends, groups, j);
    }
  }

  // ---------------------------------------------------------------- the speakers counted

  ghost predicate SaidBy(ws: seq<Said>, s: Option<int>) {
    exists k :: 0 <= k < |ws| && ws[k].speaker == s
  }

  function GroupSpeakers(groups: seq<seq<Said>>): (r: set<Option<int>>)
    requires NonEmpty(groups)
  {
    set i | 0 <= i < |groups| :: groups[i][0].speaker
  }

  function SpeakersIn(ws: seq<Said>): (r: set<Option<int>>)
    ensures forall s :: s in r <==> SaidBy(ws, s)
  {
    set i | 0 <= i < |ws| :: ws[i].speaker
  }

  lemma {:induction false} FlatMember(groups: seq<seq<Said>>, i: nat)
    requires i < |groups|
    ensures forall w :: w in groups[i] ==> w in Flat(groups)
  {
    if i < |groups| - 1 {
      FlatMember(groups[..|groups| - 1], i);
    }
  }

  lemma {:induction false} FlatOrigin(groups: seq<seq<Said>>, w: Said) returns (i: nat, k: nat)
    requires w in Flat(groups)
    ensures i < |groups| && k < |groups[i]| && groups[i][k] == w
  {
    var n := |groups| - 1;
    if w in groups[n] {
      i := n;
      k :| k < |groups[n]| && groups[n][k] == w;
    } else {
      i, k := FlatOrigin(groups[..n], w);
    }
  }

  /** The number of speakers reported is the number of speakers of the words. */
  lemma {:induction false} CountIsExact(ends: string -> bool, ws: seq<Said>)
    ensures GroupSpeakers(Grouped(ends, ws)) == SpeakersIn(ws)
  {
    var groups := Grouped(ends, ws);
    GroupedIsSegmentation(ends, ws);
    forall s | s in GroupSpeakers(groups) ensures SaidBy(ws, s) {
      var i :| 0 <= i < |groups| && groups[i][0].speaker == s;
      FlatMember(groups, i);
      assert groups[i][0] in ws;
    }
    forall s | SaidBy(ws, s) ensures s in GroupSpeakers(groups) {
      var k :| 0 <= k < |ws| && ws[k].speaker == s;
      var i, j := FlatOrigin(groups, ws[k]);
      GroupIsOneUtterance(ends, groups[i], j);
    }
  }

  // ---------------------------------------------------------------- speaker assignment as a whole

  /** A segment of the transcript; segments come in without a speaker, and some without words.
      `tokens` are the tokens of its text; of a segment made here, the texts of its words. */
  datatype Part = Part(start: int, end: int, speaker: Option<int>, tokens: seq<string>, words: seq<Said>)

  const LEAST_PART := 100

  function PartLength(p: Part): nat {
    if p.end - p.start < LEAST_PART then LEAST_PART else p.end - p.start
  }

  /** The tokens of the text as words of equal length. */
  function EvenWords(p: Part, share: (int, nat, nat) -> int): (r: seq<Said>)
    ensures |r| == |p.tokens|
  {
    var dur, n := PartLength(p), |p.tokens|;
    seq(n, i requires 0 <= i < n =>
      Said(p.tokens[i], p.start + share(dur, i, n), p.start + share(dur, i + 1, n), Some(0), false))
  }

  /** A segment without words says the tokens of its text. */
  function Spoken(p: Part, share: (int, nat, nat) -> int): seq<Said> {
    if p.words == [] then EvenWords(p, share) else p.words
  }

  /** The words made for a segment have its tokens in order and share out its time, at least
      100 ms, without gap or overlap. */
  lemma {:induction false} EvenWordsTile(p: Part, share: (int, nat, nat) -> int, i: nat)
    requires SharesOut(share) && i < |p.tokens|
    ensures var r := EvenWords(p, share);
      && r[i].text == p.tokens[i] && r[i].start <= r[i].end
      && (if i == 0 then r[i].start == p.start else r[i].start == r[i - 1].end)
      && (i == |r| - 1 ==> r[i].end == if p.end - p.start < 100 then p.start + 100 else p.end)
  {
    var dur, n := PartLength(p), |p.tokens|;
    assert share(dur, 0, n) == 0 && share(dur, n, n) == dur;
    assert share(dur, i, n) <= share(dur, i + 1, n);
  }

  function ValidTurns(ts: seq<Turn>): (r: seq<Turn>)
    ensures AllPositive(r) && forall t :: t in r <==> t in ts && t.start < t.end
  {
    if ts == [] then []
    else ValidTurns(ts[..|ts| - 1]) + if ts[|ts| - 1].end > ts[|ts| - 1].start then [ts[|ts| - 1]] else []
  }

  function WordsOf(parts: seq<Part>, share: (int, nat, nat) -> int): seq<Said> {
    if parts == [] then [] else WordsOf(parts[..|parts| - 1], share) + Spoken(parts[|parts| - 1], share)
  }

  method FlattenWords(parts: seq<Part>, share: (int, nat, nat) -> int) returns (words: seq<Said>)
    ensures words == WordsOf(parts, share)
  {
    words := [];
    for i := 0 to |parts|
      invariant words == WordsOf(parts[..i], share)
    {
      assert parts[..i + 1][..i] == parts[..i];
      var said := parts[i].words;
      if said == [] && parts[i].tokens != [] {
        said := EvenWords(parts[i], share);
      }
      words := words + said;
    }
    assert parts[..|parts|] == parts;
  }

  function Labelled(ws: seq<Said>, s: int): seq<Said> {
    seq(|ws|, k requires 0 <= k < |ws| => ws[k].(speaker := Some(s)))
  }

  /** Without turns everybody is SPEAKER_00. */
  function AllFirst(parts: seq<Part>): (r: seq<Part>)
    ensures |r| == |parts|
  {
    seq(|parts|, i requires 0 <= i < |parts| =>
      parts[i].(speaker := Some(0), words := Labelled(parts[i].words, 0)))
  }

  /** SPEAKER_00 says every segment and every word; nothing else changes. */
  ghost predicate EverybodyFirst(a: seq<Part>, b: seq<Part>) {
    && |b| == |a|
    && forall i :: 0 <= i < |a| ==>
         b[i] == a[i].(speaker := Some(0), words := b[i].words) && SameSaid(a[i].words, b[i].words)
         && forall k :: 0 <= k < |b[i].words| ==> b[i].words[k].speaker == Some(0)
  }

  /** The words with their final labels: attributed, filled, joined, numbered. */
  function LabelledWords(h: Titles, ws: seq<Said>, ts: seq<Turn>, weight: int -> real): (r: seq<Said>)
    requires AllPositive(ts) && PositiveWeights(weight)
    ensures |r| == |ws| && AllKnown(r)
  {
    var joined := Joined(h, Filled(Chosen(ws, ts, weight), 0));
    JoinedKnown(h, Filled(Chosen(ws, ts, weight), 0));
    Numbered(joined)
  }

  lemma {:induction false} JoinedKnown(h: Titles, ws: seq<Said>)
    requires AllKnown(ws)
    ensures AllKnown(Joined(h, ws))
  {
    SweptKnown(h, ws, if |ws| == 0 then 0 else |ws| - 1);
  }

  lemma {:induction false} SweptKnown(h: Titles, ws: seq<Said>, n: nat)
    requires AllKnown(ws) && (n < |ws| || n == 0)
    ensures AllKnown(Swept(h, ws, n))
  {
    if n > 0 {
      SweptKnown(h, ws, n - 1);
    }
  }

  function TokensOf(g: seq<Said>): seq<string> { seq(|g|, i requires 0 <= i < |g| => g[i].text) }

  function PartOf(g: seq<Said>): Part
    requires g != []
  {
    Part(g[0].start, g[|g| - 1].end, g[0].speaker, TokensOf(g), g)
  }

  function PartsOf(groups: seq<seq<Said>>): (r: seq<Part>)
    requires NonEmpty(groups)
    ensures |r| == |groups| && forall i :: 0 <= i < |groups| ==> r[i] == PartOf(groups[i])
  {
    seq(|groups|, i requires 0 <= i < |groups| => PartOf(groups[i]))
  }

  /** The segments and the number of speakers, or everybody as SPEAKER_00. */
  function Assigned(
    h: Titles, ends: string -> bool, parts: seq<Part>, turns: seq<Turn>,
    weight: int -> real, share: (int, nat, nat) -> int): (seq<Part>, nat)
    requires PositiveWeights(weight)
  {
    var valid := ValidTurns(turns);
    if parts == [] then ([], 0)
    else if valid == [] then (AllFirst(parts), 1)
    else if WordsOf(parts, share) == [] then (parts, 1)
    else
      CleanedIsClean(valid, MICRO_PAUSE);
      var groups := Grouped(ends, LabelledWords(h, WordsOf(parts, share), Cleaned(valid, MICRO_PAUSE), weight));
      (PartsOf(groups), |GroupSpeakers(groups)|)
  }

  /** Steps 5 to 7d on the flat list of words. */
  method LabelWords(h: Titles, words: seq<Said>, ts: seq<Turn>, weight: int -> real) returns (r: seq<Said>)
    requires AllPositive(ts) && PositiveWeights(weight)
    ensures r == LabelledWords(h, words, ts, weight)
  {
    var ws := new Said[|words|](i requires 0 <= i < |words| => words[i]);
    assert ws[..] == words;
    ChooseSpeakers(ws, ts, weight);
    assert ws[..] == Chosen(words, ts, weight);
    FillSpeakers(ws, 0);
    JoinedKnown(h, ws[..]);
    JoinTitles(h, ws);
    NumberSpeakers(ws);
    r := ws[..];
  }

  method AssignSpeakers(
    h: Titles, ends: string -> bool, parts: seq<Part>, turns: seq<Turn>,
    weight: int -> real, share: (int, nat, nat) -> int)
    returns (r: seq<Part>, count: nat)
    requires PositiveWeights(weight)
    ensures (r, count) == Assigned(h, ends, parts, turns, weight, share)
    ensures parts == [] ==> r == [] && count == 0
    ensures parts != [] && ValidTurns(turns) == [] ==> count == 1 && EverybodyFirst(parts, r)
    ensures parts != [] && ValidTurns(turns) != [] && WordsOf(parts, share) == [] ==> r == parts && count == 1
  {
    if parts == [] {
      return [], 0;
    }
    var valid := ValidTurns(turns);
    if valid == [] {
      return AllFirst(parts), 1;
    }
    var ts := CleanTurns(valid, MICRO_PAUSE);
    var flat := FlattenWords(parts, share);
    if flat == [] {
      return parts, 1;
    }
    CleanedIsClean(valid, MICRO_PAUSE);
    var words := LabelWords(h, flat, ts, weight);
    var groups := GroupWords(ends, words);
    GroupedIsSegmentation(ends, words);
    r, count := PartsOf(groups), |GroupSpeakers(groups)|;
  }

  /** Nothing but the label and the note of how it was found changes on a word. */
  ghost predicate SameSaid(a: seq<Said>, b: seq<Said>) {
    && |a| == |b|
    && forall i :: 0 <= i < |a| ==> a[i].text == b[i].text && a[i].start == b[i].start && a[i].end == b[i].end
  }

  lemma {:induction false} SweptSame(h: Titles, ws: seq<Said>, n: nat)
    requires n < |ws| || n == 0
    ensures SameSaid(ws, Swept(h, ws, n))
  {
    if n > 0 {
      SweptSame(h, ws, n - 1);
    }
  }

  lemma {:induction false} NumberedSame(ws: seq<Said>)
    requires AllKnown(ws)
    ensures SameSaid(ws, Numbered(ws))
    ensures ws != [] ==> Numbered(ws)[0].speaker == Some(0)
  {
    if ws != [] {
      NumberedByFirstWord(ws, 0, 0);
      assert HeardWords(ws)[..0] == [];
    }
  }

  lemma {:induction false} FilledSame(ws: seq<Said>, ts: seq<Turn>, weight: int -> real, first: int)
    requires AllPositive(ts) && PositiveWeights(weight)
    ensures SameSaid(ws, Filled(Chosen(ws, ts, weight), first))
  {
    assert SameSaid(ws, Chosen(ws, ts, weight));
  }

  lemma {:induction false} JoinedNumberedSame(h: Titles, ws: seq<Said>)
    requires AllKnown(ws)
    ensures AllKnown(Joined(h, ws)) && SameSaid(ws, Numbered(Joined(h, ws)))
    ensures ws != [] ==> Numbered(Joined(h, ws))[0].speaker == Some(0)
  {
    SweptSame(h, ws, if |ws| == 0 then 0 else |ws| - 1);
    JoinedKnown(h, ws);
    NumberedSame(Joined(h, ws));
  }

  lemma {:induction false} LabelledSame(h: Titles, ws: seq<Said>, ts: seq<Turn>, weight: int -> real)
    requires AllPositive(ts) && PositiveWeights(weight)
    ensures SameSaid(ws, LabelledWords(h, ws, ts, weight))
    ensures ws != [] ==> LabelledWords(h, ws, ts, weight)[0].speaker == Some(0)
  {
    FilledSame(ws, ts, weight, 0);
    JoinedNumberedSame(h, Filled(Chosen(ws, ts, weight), 0));
  }

  lemma {:induction false} PairStays(h: Titles, a: seq<Said>, b: seq<Said>, i: nat)
    requires SameSaid(a, b)
    ensures PairAt(h, a, i) <==> PairAt(h, b, i)
  {
  }

  lemma {:induction false} JoinedPairNumbered(h: Titles, ws: seq<Said>, i: nat)
    requires Apart(h) && AllKnown(ws) && i + 1 < |ws| && PairAt(h, ws, i)
    ensures AllKnown(Joined(h, ws)) && Numbered(Joined(h, ws))[i].speaker == Numbered(Joined(h, ws))[i + 1].speaker
  {
    JoinedKnown(h, ws);
    TitlesStayTogether(h, ws, i);
    NumberedByFirstWord(Joined(h, ws), i, i + 1);
  }

  /** In the final labels, too, the two words of every honorific pair have one speaker. */
  lemma {:induction false} PairsShareSpeaker(h: Titles, ws: seq<Said>, ts: seq<Turn>, weight: int -> real, i: nat)
    requires AllPositive(ts) && PositiveWeights(weight) && Apart(h) && i + 1 < |ws| && PairAt(h, ws, i)
    ensures LabelledWords(h, ws, ts, weight)[i].speaker == LabelledWords(h, ws, ts, weight)[i + 1].speaker
  {
    var filled := Filled(Chosen(ws, ts, weight), 0);
    FilledSame(ws, ts, weight, 0);
    PairStays(h, ws, filled, i);
    JoinedPairNumbered(h, filled, i);
  }

  /** The segment has the words of the group, its texts, its speaker and its times. */
  ghost predicate Presents(p: Part, g: seq<Said>) {
    && g != [] && p.words == g && p.speaker == g[0].speaker && p.start == g[0].start && p.end == g[|g| - 1].end
    && |p.tokens| == |g| && forall k :: 0 <= k < |g| ==> p.tokens[k] == g[k].text
  }

  lemma {:induction false} AllPresented(groups: seq<seq<Said>>)
    requires NonEmpty(groups)
    ensures forall i :: 0 <= i < |groups| ==> Presents(PartsOf(groups)[i], groups[i])
  {
  }

  /** With turns given and something said, the turns are cleaned and the segments hold exactly the
      words that came in or were made for texts without words, in order and with their times; they
      are the one segmentation of the labelled words, the first speaker is SPEAKER_00, and the
      count is that of the speakers. */
  lemma {:induction false} AssignmentKeepsWords(
    h: Titles, ends: string -> bool, parts: seq<Part>, turns: seq<Turn>,
    weight: int -> real, share: (int, nat, nat) -> int)
    returns (ts: seq<Turn>, words: seq<Said>, groups: seq<seq<Said>>, r: seq<Part>)
    requires PositiveWeights(weight) && ValidTurns(turns) != [] && WordsOf(parts, share) != []
    ensures ts == Cleaned(ValidTurns(turns), 300) && IsClean(ts, 300)
    ensures words == LabelledWords(h, WordsOf(parts, share), ts, weight)
    ensures SameSaid(WordsOf(parts, share), words) && words[0].speaker == Some(0)
    ensures Segmentation(ends, groups, words) && forall i :: 0 <= i < |groups| ==> Utterance(ends, groups[i])
    ensures Assigned(h, ends, parts, turns, weight, share) == (r, |SpeakersIn(words)|)
    ensures |r| == |groups| && forall i :: 0 <= i < |r| ==> Presents(r[i], groups[i])
  {
    var valid := ValidTurns(turns);
    CleanedIsClean(valid, MICRO_PAUSE);
    ts := Cleaned(valid, MICRO_PAUSE);
    words, groups := AssignedGroups(h, ends, WordsOf(parts, share), ts, weight);
    AllPresented(groups);
    r := PartsOf(groups);
  }

  lemma {:induction false} AssignedGroups(
    h: Titles, ends: string -> bool, ws: seq<Said>, ts: seq<Turn>, weight: int -> real)
    returns (words: seq<Said>, groups: seq<seq<Said>>)
    requires AllPositive(ts) && PositiveWeights(weight) && ws != []
    ensures words == LabelledWords(h, ws, ts, weight) && groups == Grouped(ends, words)
    ensures SameSaid(ws, words) && words[0].speaker == Some(0)
    ensures Segmentation(ends, groups, words) && GroupSpeakers(groups) == SpeakersIn(words)
    ensures forall i :: 0 <= i < |groups| ==> Utterance(ends, groups[i])
  {
    words := LabelledWords(h, ws, ts, weight);
    groups := Grouped(ends, words);
    LabelledSame(h, ws, ts, weight);
    GroupedIsSegmentation(ends, words);
    GroupedInUtterances(ends, words);
    CountIsExact(ends, words);
  }
}
