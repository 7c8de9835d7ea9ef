module StitchingLaws {
  /**
    Which segments end up stitched together at the end of stage 2, said without the function that
    stitches: consecutive blocks of one speaker, each as long as it can be.
   */
  import opened Words
  import opened Segments
  import opened Sequences
  import opened Consolidation

  /** Segment s goes on with the words ws of the speaker: after at most 0.85 s in the middle of a
      sentence, or after at most 0.45 s if either has at most four words. */
  ghost predicate GoesOn(lex: Lexicon, speaker: int, ws: seq<Word>, s: Segment) {
    && ws != [] && s.speaker == speaker
    && var last := ws[|ws| - 1];
      || (s.start - last.end <= 850 && !lex.endsTerminal(last.text))
      || (s.start - last.end <= 450 && (|ws| <= 4 || |s.words| <= 4))
  }

  /** In the block every segment goes on with what the ones before it say. */
  ghost predicate OneBlock(lex: Lexicon, block: seq<Segment>) {
    && block != [] && NoEmpty(block)
    && forall k :: 0 < k < |block| ==> GoesOn(lex, block[0].speaker, Speech(block[..k]), block[k])
  }

  /** out says the words of the block, under its speaker, with times and text of its own. */
  ghost predicate SaysBlock(lex: Lexicon, block: seq<Segment>, out: Segment) {
    && block != [] && out.speaker == block[0].speaker
    && SameTokens(out.words, Speech(block)) && InOrder(lex, out)
  }

  ghost predicate AllBlocks(lex: Lexicon, blocks: seq<seq<Segment>>) {
    forall i :: 0 <= i < |blocks| ==> OneBlock(lex, blocks[i])
  }

  ghost predicate AllSaid(lex: Lexicon, blocks: seq<seq<Segment>>, r: seq<Segment>) {
    |r| == |blocks| && forall i :: 0 <= i < |blocks| ==> SaysBlock(lex, blocks[i], r[i])
  }

  /** s does not go on with the block. */
  ghost predicate Ends(lex: Lexicon, block: seq<Segment>, s: Segment) {
    block != [] && !GoesOn(lex, block[0].speaker, Speech(block), s)
  }

  ghost predicate Apart(lex: Lexicon, a: seq<Segment>, b: seq<Segment>) { b != [] && Ends(lex, a, b[0]) }

  ghost predicate BlocksApart(lex: Lexicon, blocks: seq<seq<Segment>>) {
    forall i, j :: 0 <= i < j < |blocks| && j == i + 1 ==> Apart(lex, blocks[i], blocks[j])
  }

  /** The segments that have words fall into blocks, no block goes on with the one before, and r
      says them block by block. */
  ghost predicate StitchedInBlocks(lex: Lexicon, segs: seq<Segment>, blocks: seq<seq<Segment>>, r: seq<Segment>) {
    && Concat(blocks) == DropEmpty(segs)
    && AllBlocks(lex, blocks) && AllSaid(lex, blocks, r) && BlocksApart(lex, blocks)
  }

  ghost predicate Stitched(lex: Lexicon, segs: seq<Segment>, r: seq<Segment>) {
    exists blocks :: StitchedInBlocks(lex, segs, blocks, r)
  }

  lemma {:induction false} RebuiltSays(lex: Lexicon, s: Segment)
    ensures InOrder(lex, Rebuilt(lex, s)) && SameTokens(Rebuilt(lex, s).words, s.words)
  {
    assert Texts(Relabel(s.words, s.speaker)) == Texts(s.words);
  }

  lemma {:induction false} ContinuesIff(lex: Lexicon, block: seq<Segment>, p: Segment, s: Segment)
    requires SaysBlock(lex, block, p) && p.words != []
    ensures Continues(lex, p, s) <==> GoesOn(lex, block[0].speaker, Speech(block), s)
  {
    var n := |p.words| - 1;
    assert SameToken(p.words[n], Speech(block)[n]);
  }

  lemma {:induction false} LongerBlock(lex: Lexicon, block: seq<Segment>, s: Segment)
    requires OneBlock(lex, block) && s.words != [] && GoesOn(lex, block[0].speaker, Speech(block), s)
    ensures OneBlock(lex, block + [s])
  {
    var b := block + [s];
    forall k | 0 < k < |b| ensures GoesOn(lex, b[0].speaker, Speech(b[..k]), b[k]) {
      if k < |block| {
        assert b[..k] == block[..k];
      } else {
        assert b[..k] == block;
      }
    }
  }

  lemma {:induction false} LongerSays(lex: Lexicon, block: seq<Segment>, p: Segment, s: Segment)
    requires SaysBlock(lex, block, p)
    ensures SaysBlock(lex, block + [s], Rebuilt(lex, p.(words := p.words + s.words)))
  {
    SpeechSnoc(block, s);
    RebuiltSays(lex, p.(words := p.words + s.words));
  }

  lemma {:induction false} LoneBlock(lex: Lexicon, block: seq<Segment>)
    requires |block| == 1 && block[0].words != []
    ensures OneBlock(lex, block)
  {
  }

  lemma {:induction false} LoneSays(lex: Lexicon, block: seq<Segment>, s: Segment)
    requires |block| == 1 && block[0] == s
    ensures SaysBlock(lex, block, Rebuilt(lex, s))
  {
    SpeechOne(s);
    assert block == [s];
    RebuiltSays(lex, s);
  }

  lemma {:induction false} DropEmptySnoc(segs: seq<Segment>, s: Segment)
    requires s.words != []
    ensures DropEmpty(segs + [s]) == DropEmpty(segs) + [s]
  {
    assert (segs + [s])[..|segs|] == segs;
  }

  lemma {:induction false} ApartSnoc(lex: Lexicon, blocks: seq<seq<Segment>>, block: seq<Segment>)
    requires BlocksApart(lex, blocks) && (blocks != [] ==> Apart(lex, blocks[|blocks| - 1], block))
    ensures BlocksApart(lex, blocks + [block])
  {
    var all := blocks + [block];
    forall i, j | 0 <= i < j < |all| && j == i + 1 ensures Apart(lex, all[i], all[j]) {
      assert j < |blocks| ==> Apart(lex, blocks[i], blocks[j]);
    }
  }

  /** One more block behind the others. */
  lemma {:induction false} BlocksSnoc(
    lex: Lexicon, blocks: seq<seq<Segment>>, r: seq<Segment>, block: seq<Segment>, out: Segment)
    requires AllBlocks(lex, blocks) && AllSaid(lex, blocks, r)
    requires OneBlock(lex, block) && SaysBlock(lex, block, out)
    ensures AllBlocks(lex, blocks + [block]) && AllSaid(lex, blocks + [block], r + [out])
  {
  }

  lemma {:induction false} NewBlock(
    lex: Lexicon, segs: seq<Segment>, blocks: seq<seq<Segment>>, r: seq<Segment>,
    s: Segment, more: seq<Segment>, block: seq<Segment>)
    requires StitchedInBlocks(lex, segs, blocks, r) && s.words != [] && more == segs + [s] && block == [s]
    requires blocks != [] ==> Ends(lex, blocks[|blocks| - 1], s)
    ensures Stitched(lex, more, r + [Rebuilt(lex, s)])
  {
    LoneBlock(lex, block);
    LoneSays(lex, block, s);
    ApartSnoc(lex, blocks, block);
    BlocksSnoc(lex, blocks, r, block, Rebuilt(lex, s));
    ConcatSnoc(blocks, block);
    DropEmptySnoc(segs, s);
    assert StitchedInBlocks(lex, more, blocks + [block], r + [Rebuilt(lex, s)]);
  }

  lemma {:induction false} ButLast(lex: Lexicon, blocks: seq<seq<Segment>>, r: seq<Segment>, n: nat)
    requires AllBlocks(lex, blocks) && AllSaid(lex, blocks, r) && n == |blocks| - 1
    ensures AllBlocks(lex, blocks[..n]) && AllSaid(lex, blocks[..n], r[..n])
    ensures OneBlock(lex, blocks[n]) && SaysBlock(lex, blocks[n], r[n])
    ensures Concat(blocks) == Concat(blocks[..n]) + blocks[n]
  {
  }

  lemma {:induction false} ApartButLast(lex: Lexicon, blocks: seq<seq<Segment>>, n: nat)
    requires BlocksApart(lex, blocks) && n == |blocks| - 1
    ensures BlocksApart(lex, blocks[..n])
    ensures n > 0 ==> Apart(lex, blocks[..n][n - 1], blocks[n])
  {
    forall i, j | 0 <= i < j < n && j == i + 1 ensures Apart(lex, blocks[..n][i], blocks[..n][j]) {
      assert Apart(lex, blocks[i], blocks[j]);
    }
    if n > 0 {
      assert Apart(lex, blocks[n - 1], blocks[n]);
    }
  }

  lemma {:induction false} SameBeginning(lex: Lexicon, a: seq<Segment>, b: seq<Segment>, s: Segment)
    requires Apart(lex, a, b)
    ensures Apart(lex, a, b + [s])
  {
  }

  lemma {:induction false} GrownBlock(
    lex: Lexicon, segs: seq<Segment>, blocks: seq<seq<Segment>>, r: seq<Segment>, s: Segment, n: nat, out: Segment)
    returns (grown: seq<seq<Segment>>)
    requires StitchedInBlocks(lex, segs, blocks, r) && s.words != [] && n == |blocks| - 1
    requires GoesOn(lex, blocks[n][0].speaker, Speech(blocks[n]), s)
    requires out == Rebuilt(lex, r[n].(words := r[n].words + s.words))
    ensures StitchedInBlocks(lex, segs + [s], grown, r[..n] + [out])
  {
    var block := blocks[n] + [s];
    ButLast(lex, blocks, r, n);
    ApartButLast(lex, blocks, n);
    if n > 0 {
      SameBeginning(lex, blocks[..n][n - 1], blocks[n], s);
    }
    LongerBlock(lex, blocks[n], s);
    LongerSays(lex, blocks[n], r[n], s);
    ApartSnoc(lex, blocks[..n], block);
    BlocksSnoc(lex, blocks[..n], r[..n], block, out);
    ConcatSnoc(blocks[..n], block);
    AppendAssoc(Concat(blocks[..n]), blocks[n], [s]);
    DropEmptySnoc(segs, s);
    grown := blocks[..n] + [block];
  }

  lemma {:induction false} LastReplaced<T>(r: seq<T>, n: nat, x: T)
    requires n == |r| - 1
    ensures r[n := x] == r[..n] + [x]
  {
  }

  lemma {:induction false} HasBlocks(
    lex: Lexicon, segs: seq<Segment>, more: seq<Segment>, blocks: seq<seq<Segment>>, r: seq<Segment>, r': seq<Segment>)
    requires StitchedInBlocks(lex, segs, blocks, r) && more == segs && r' == r
    ensures Stitched(lex, more, r')
  {
    assert StitchedInBlocks(lex, more, blocks, r');
  }

  lemma {:induction false} LastGrows(
    lex: Lexicon, segs: seq<Segment>, blocks: seq<seq<Segment>>, r: seq<Segment>,
    s: Segment, more: seq<Segment>, n: nat)
    requires StitchedInBlocks(lex, segs, blocks, r) && s.words != [] && more == segs + [s] && n == |blocks| - 1
    requires GoesOn(lex, blocks[n][0].speaker, Speech(blocks[n]), s)
    ensures Stitched(lex, more, r[n := Rebuilt(lex, r[n].(words := r[n].words + s.words))])
  {
    var out := Rebuilt(lex, r[n].(words := r[n].words + s.words));
    var grown := GrownBlock(lex, segs, blocks, r, s, n, out);
    LastReplaced(r, n, out);
    HasBlocks(lex, segs + [s], more, grown, r[..n] + [out], r[n := out]);
  }

  lemma {:induction false} NothingSaid(
    lex: Lexicon, segs: seq<Segment>, blocks: seq<seq<Segment>>, r: seq<Segment>, s: Segment, more: seq<Segment>)
    requires StitchedInBlocks(lex, segs, blocks, r) && s.words == [] && more == segs + [s]
    ensures Stitched(lex, more, r)
  {
    assert more[..|segs|] == segs;
    assert StitchedInBlocks(lex, more, blocks, r);
  }

  lemma {:induction false} StitchOne(
    lex: Lexicon, segs: seq<Segment>, blocks: seq<seq<Segment>>, r: seq<Segment>, s: Segment, more: seq<Segment>)
    requires NoEmpty(r) && StitchedInBlocks(lex, segs, blocks, r) && more == segs + [s]
    ensures Stitched(lex, more, Stitch(lex, r, s))
  {
    var n := |blocks| - 1;
    if s.words == [] {
      NothingSaid(lex, segs, blocks, r, s, more);
      return;
    }
    if blocks != [] {
      ContinuesIff(lex, blocks[n], r[n], s);
      if Continues(lex, r[n], s) {
        LastGrows(lex, segs, blocks, r, s, more, n);
        return;
      }
    }
    NewBlock(lex, segs, blocks, r, s, more, [s]);
  }

  lemma {:induction false} StitchLaw(
    lex: Lexicon, segs: seq<Segment>, r: seq<Segment>, s: Segment, more: seq<Segment>)
    requires NoEmpty(r) && Stitched(lex, segs, r) && more == segs + [s]
    ensures Stitched(lex, more, Stitch(lex, r, s))
  {
    var blocks :| StitchedInBlocks(lex, segs, blocks, r);
    StitchOne(lex, segs, blocks, r, s, more);
  }

  lemma {:induction false} NothingStitched(lex: Lexicon, segs: seq<Segment>)
    requires segs == []
    ensures Stitched(lex, segs, [])
  {
    assert StitchedInBlocks(lex, segs, [], []);
  }

  /** Consolidation, exactly. */
  lemma {:induction false} ConsolidatedLaw(lex: Lexicon, segs: seq<Segment>)
    ensures Stitched(lex, segs, Consolidated(lex, segs))
    decreases |segs|
  {
    if segs == [] {
      NothingStitched(lex, segs);
    } else {
      var before, s := segs[..|segs| - 1], segs[|segs| - 1];
      ConsolidatedLaw(lex, before);
      StitchLaw(lex, before, Consolidated(lex, before), s, segs);
    }
  }
}
