/**
  Between stages 1 and 2: phrases are rewritten on the words of all segments at once, and the
  words are gathered into segments again, each with one speaker.
 */
module Regrouping {
  import opened Options
  import opened Words
  import opened Segments
  import opened Sequences
  import N = NormalizedSegment

  /** A word of the stream and the segment it came from; rewritten words came from none. */
  datatype Placed = Placed(word: Word, origin: Option<nat>)

  /** A segment being gathered, with the origin of its first word. */
  datatype Gathered = Gathered(seg: Segment, origin: Option<nat>)

  /** p continues the last segment. */
  predicate Joins(g: Gathered, p: Placed) {
    g.seg.speaker == p.word.speaker && (g.origin == p.origin || p.origin == None)
  }

  function Opened(p: Placed): Gathered {
    Gathered(Segment(p.word.speaker, p.word.start, p.word.end, p.word.text, [p.word]), p.origin)
  }

  function Grown(join: seq<string> -> string, g: Gathered, p: Placed): Gathered {
    var ws := g.seg.words + [p.word];
    g.(seg := g.seg.(words := ws, end := p.word.end, text := join(Texts(ws))))
  }

  function Gather(join: seq<string> -> string, gs: seq<Gathered>, p: Placed): seq<Gathered> {
    var n := |gs|;
    if n > 0 && Joins(gs[n - 1], p) then gs[n - 1 := Grown(join, gs[n - 1], p)] else gs + [Opened(p)]
  }

  function GatheredAll(join: seq<string> -> string, ps: seq<Placed>): seq<Gathered> {
    if ps == [] then [] else Gather(join, GatheredAll(join, ps[..|ps| - 1]), ps[|ps| - 1])
  }

  function SegmentsOf(gs: seq<Gathered>): (r: seq<Segment>)
    ensures |r| == |gs| && forall i :: 0 <= i < |gs| ==> r[i] == gs[i].seg
  {
    seq(|gs|, i requires 0 <= i < |gs| => gs[i].seg)
  }

  function Regrouped(join: seq<string> -> string, ps: seq<Placed>): seq<Segment> {
    SegmentsOf(GatheredAll(join, ps))
  }

  method Regroup(join: seq<string> -> string, ps: seq<Placed>) returns (segs: seq<Segment>)
    ensures segs == Regrouped(join, ps)
  {
    var gs: seq<Gathered> := [];
    for i := 0 to |ps|
      invariant gs == GatheredAll(join, ps[..i])
    {
      assert ps[..i + 1][..i] == ps[..i];
      var p := ps[i];
      if gs == [] {
        gs := [Opened(p)];
      } else {
        var last := gs[|gs| - 1];
        if last.seg.speaker == p.word.speaker && (last.origin == p.origin || p.origin.None?) {
          gs := gs[|gs| - 1 := Grown(join, last, p)];
        } else {
          gs := gs + [Opened(p)];
        }
      }
    }
    assert ps[..|ps|] == ps;
    segs := SegmentsOf(gs);
  }

  function WordsOf(ps: seq<Placed>): (r: seq<Word>)
    ensures |r| == |ps| && forall i :: 0 <= i < |ps| ==> r[i] == ps[i].word
  {
    seq(|ps|, i requires 0 <= i < |ps| => ps[i].word)
  }

  /** Replacing the last segment by one with one more word. */
  lemma {:induction false} LastGrows(segs: seq<Segment>, s: Segment, w: Word)
    requires segs != [] && NoEmpty(segs) && AllTidy(segs)
    requires s.words == segs[|segs| - 1].words + [w] && Tidy(s)
    ensures var r := segs[|segs| - 1 := s];
      NoEmpty(r) && AllTidy(r) && Speech(r) == Speech(segs) + [w]
  {
    var n := |segs|;
    assert segs[n - 1 := s][..n - 1] == segs[..n - 1];
  }

  lemma {:induction false} GatherKeeps(join: seq<string> -> string, gs: seq<Gathered>, p: Placed)
    requires NoEmpty(SegmentsOf(gs)) && AllTidy(SegmentsOf(gs))
    ensures var r := SegmentsOf(Gather(join, gs, p));
      NoEmpty(r) && AllTidy(r) && Speech(r) == Speech(SegmentsOf(gs)) + [p.word]
  {
    var n, segs := |gs|, SegmentsOf(gs);
    if n > 0 && Joins(gs[n - 1], p) {
      var g := Grown(join, gs[n - 1], p);
      assert Tidy(segs[n - 1]);
      assert SegmentsOf(Gather(join, gs, p)) == segs[n - 1 := g.seg];
      LastGrows(segs, g.seg, p.word);
    } else {
      assert SegmentsOf(Gather(join, gs, p)) == segs + [Opened(p).seg];
      SpeechSnoc(segs, Opened(p).seg);
    }
  }

  /** The segments hold exactly the words of the stream, none is empty, and each has the times
      of its words and one speaker. */
  lemma {:induction false} RegroupedKeeps(join: seq<string> -> string, ps: seq<Placed>)
    ensures var r := Regrouped(join, ps);
      Speech(r) == WordsOf(ps) && NoEmpty(r) && AllTidy(r)
  {
    if ps != [] {
      var n := |ps| - 1;
      RegroupedKeeps(join, ps[..n]);
      GatherKeeps(join, GatheredAll(join, ps[..n]), ps[n]);
      assert WordsOf(ps) == WordsOf(ps[..n]) + [ps[n].word];
    }
  }

  // ---------------------------------------------------------------- where segments begin

  /** One speaker; words that come from a segment come from the one the first word came from. */
  ghost predicate Together(block: seq<Placed>) {
    && block != []
    && forall k :: 0 < k < |block| ==>
         block[k].word.speaker == block[0].word.speaker && block[k].origin in {None, block[0].origin}
  }

  /** p has another speaker, or comes from another segment than the first word. */
  ghost predicate Leaves(block: seq<Placed>, p: Placed) {
    && block != []
    && (p.word.speaker != block[0].word.speaker || p.origin !in {None, block[0].origin})
  }

  /** The segment of a block: its speaker, its times, its words and their texts. */
  ghost predicate Holds(join: seq<string> -> string, block: seq<Placed>, g: Gathered) {
    && block != [] && g.origin == block[0].origin
    && g.seg == Segment(
         block[0].word.speaker, block[0].word.start, block[|block| - 1].word.end,
         if |block| == 1 then block[0].word.text else join(Texts(WordsOf(block))), WordsOf(block))
  }

  ghost predicate AllTogether(join: seq<string> -> string, blocks: seq<seq<Placed>>, gs: seq<Gathered>) {
    |gs| == |blocks| && forall i :: 0 <= i < |blocks| ==> Together(blocks[i]) && Holds(join, blocks[i], gs[i])
  }

  ghost predicate Follows(a: seq<Placed>, b: seq<Placed>) { b != [] && Leaves(a, b[0]) }

  ghost predicate AllLeave(blocks: seq<seq<Placed>>) {
    forall i, j :: 0 <= i < j < |blocks| && j == i + 1 ==> Follows(blocks[i], blocks[j])
  }

  /** The stream falls into blocks of words that belong together, each of which leaves the one
      before, and gs holds them. */
  ghost predicate GatheredInBlocks(
    join: seq<string> -> string, ps: seq<Placed>, blocks: seq<seq<Placed>>, gs: seq<Gathered>)
  {
    Concat(blocks) == ps && AllTogether(join, blocks, gs) && AllLeave(blocks)
  }

  lemma {:induction false} OneMoreWord(join: seq<string> -> string, block: seq<Placed>, g: Gathered, p: Placed)
    requires Together(block) && Holds(join, block, g)
    ensures Joins(g, p) <==> !Leaves(block, p)
    ensures Joins(g, p) ==> Together(block + [p]) && Holds(join, block + [p], Grown(join, g, p))
  {
    assert WordsOf(block + [p]) == WordsOf(block) + [p.word];
  }

  lemma {:induction false} FirstWord(join: seq<string> -> string, block: seq<Placed>, p: Placed)
    requires |block| == 1 && block[0] == p
    ensures Together(block) && Holds(join, block, Opened(p))
  {
    assert WordsOf(block) == [p.word];
  }

  lemma {:induction false} LeaveSnoc(blocks: seq<seq<Placed>>, block: seq<Placed>)
    requires AllLeave(blocks) && (blocks != [] ==> Follows(blocks[|blocks| - 1], block))
    ensures AllLeave(blocks + [block])
  {
    var all := blocks + [block];
    forall i, j | 0 <= i < j < |all| && j == i + 1 ensures Follows(all[i], all[j]) {
      assert j < |blocks| ==> Follows(blocks[i], blocks[j]);
    }
  }

  lemma {:induction false} TogetherSnoc(
    join: seq<string> -> string, blocks: seq<seq<Placed>>, gs: seq<Gathered>, block: seq<Placed>, g: Gathered)
    requires AllTogether(join, blocks, gs) && Together(block) && Holds(join, block, g)
    ensures AllTogether(join, blocks + [block], gs + [g])
  {
  }

  lemma {:induction false} TogetherButLast(
    join: seq<string> -> string, blocks: seq<seq<Placed>>, gs: seq<Gathered>, n: nat)
    requires AllTogether(join, blocks, gs) && n == |blocks| - 1
    ensures AllTogether(join, blocks[..n], gs[..n]) && Together(blocks[n]) && Holds(join, blocks[n], gs[n])
  {
  }

  lemma {:induction false} LeaveButLast(blocks: seq<seq<Placed>>, n: nat)
    requires AllLeave(blocks) && n == |blocks| - 1
    ensures AllLeave(blocks[..n]) && (n > 0 ==> Follows(blocks[..n][n - 1], blocks[n]))
  {
    forall i, j | 0 <= i < j < n && j == i + 1 ensures Follows(blocks[..n][i], blocks[..n][j]) {
      assert Follows(blocks[i], blocks[j]);
    }
    if n > 0 {
      assert Follows(blocks[n - 1], blocks[n]);
    }
  }

  ghost predicate InBlocks(join: seq<string> -> string, ps: seq<Placed>, gs: seq<Gathered>) {
    exists blocks :: GatheredInBlocks(join, ps, blocks, gs)
  }

  lemma {:induction false} BlockOpens(
    join: seq<string> -> string, ps: seq<Placed>, blocks: seq<seq<Placed>>, gs: seq<Gathered>,
    p: Placed, all: seq<Placed>, block: seq<Placed>)
    requires GatheredInBlocks(join, ps, blocks, gs) && all == ps + [p] && block == [p]
    requires blocks != [] ==> Leaves(blocks[|blocks| - 1], p)
    ensures InBlocks(join, all, gs + [Opened(p)])
  {
    FirstWord(join, block, p);
    TogetherSnoc(join, blocks, gs, block, Opened(p));
    LeaveSnoc(blocks, block);
    ConcatSnoc(blocks, block);
    assert GatheredInBlocks(join, all, blocks + [block], gs + [Opened(p)]);
  }

  lemma {:induction false} BlockGrows(
    join: seq<string> -> string, ps: seq<Placed>, blocks: seq<seq<Placed>>, gs: seq<Gathered>,
    p: Placed, all: seq<Placed>, n: nat)
    requires GatheredInBlocks(join, ps, blocks, gs) && all == ps + [p] && n == |blocks| - 1
    requires Joins(gs[n], p)
    ensures InBlocks(join, all, gs[n := Grown(join, gs[n], p)])
  {
    var block, g := blocks[n] + [p], Grown(join, gs[n], p);
    TogetherButLast(join, blocks, gs, n);
    OneMoreWord(join, blocks[n], gs[n], p);
    TogetherSnoc(join, blocks[..n], gs[..n], block, g);
    LeaveButLast(blocks, n);
    LeaveSnoc(blocks[..n], block);
    ConcatSnoc(blocks[..n], block);
    AppendAssoc(Concat(blocks[..n]), blocks[n], [p]);
    assert gs[n := g] == gs[..n] + [g];
    assert GatheredInBlocks(join, all, blocks[..n] + [block], gs[n := g]);
  }

  lemma {:induction false} GatherLaw(
    join: seq<string> -> string, ps: seq<Placed>, gs: seq<Gathered>, p: Placed, all: seq<Placed>)
    requires InBlocks(join, ps, gs) && all == ps + [p]
    ensures InBlocks(join, all, Gather(join, gs, p))
  {
    var blocks :| GatheredInBlocks(join, ps, blocks, gs);
    var n := |blocks| - 1;
    if blocks != [] {
      TogetherButLast(join, blocks, gs, n);
      OneMoreWord(join, blocks[n], gs[n], p);
      if Joins(gs[n], p) {
        BlockGrows(join, ps, blocks, gs, p, all, n);
        return;
      }
    }
    BlockOpens(join, ps, blocks, gs, p, all, [p]);
  }

  lemma {:induction false} NothingGathered(join: seq<string> -> string, ps: seq<Placed>)
    requires ps == []
    ensures InBlocks(join, ps, [])
  {
    assert GatheredInBlocks(join, ps, [], []);
  }

  /** Regrouping, exactly: a segment begins where the speaker or the origin changes, and only
      there. */
  lemma {:induction false} GatheredLaw(join: seq<string> -> string, ps: seq<Placed>)
    ensures InBlocks(join, ps, GatheredAll(join, ps)) && Regrouped(join, ps) == SegmentsOf(GatheredAll(join, ps))
    decreases |ps|
  {
    if ps == [] {
      NothingGathered(join, ps);
    } else {
      var before, p := ps[..|ps| - 1], ps[|ps| - 1];
      GatheredLaw(join, before);
      GatherLaw(join, before, GatheredAll(join, before), p, ps);
    }
  }

  /** Each segment's words normalized. */
  function NormalizedAll(t: N.Tables, segs: seq<Segment>): (r: seq<Segment>)
    requires N.P.NoEmptySide(t.phrases.rules)
    ensures |r| == |segs| && forall i :: 0 <= i < |segs| ==> r[i] == segs[i].(words := N.Normalized(t, segs[i].words))
  {
    seq(|segs|, i requires 0 <= i < |segs| => segs[i].(words := N.Normalized(t, segs[i].words)))
  }

  /** What stage 2 starts from: segments that are not empty, start with their first word, and
      whose words are labelled like them. */
  lemma {:induction false} StageTwoInput(join: seq<string> -> string, t: N.Tables, ps: seq<Placed>)
    requires N.P.SoundPhrases(t.phrases)
    ensures var r := NormalizedAll(t, Regrouped(join, ps));
      NoEmpty(r) && UniformSegments(r) && AllStarted(r) && (ps != [] ==> r != [])
  {
    var segs := Regrouped(join, ps);
    RegroupedKeeps(join, ps);
    forall i | 0 <= i < |segs|
      ensures N.Normalized(t, segs[i].words) != [] && Labelled(N.Normalized(t, segs[i].words), segs[i].speaker)
      ensures N.Normalized(t, segs[i].words)[0].start == segs[i].start
    {
      N.NormalizedKeepsTime(t, segs[i].words, segs[i].speaker);
    }
  }
}
