module Consolidation {
  /**
    The end of stage 2 and stage 3: adjacent fragments of one speaker are stitched together, and
    speakers are renamed in the order in which they are first heard.
   */
  import opened Words
  import opened Segments
  import opened BoundaryHealing
  import opened Chronology

  /** s continues p: one speaker, a short gap, and no sentence end or a short piece. */
  predicate Continues(lex: Lexicon, p: Segment, s: Segment)
    requires p.words != []
  {
    var gap := s.start - p.end;
    && p.speaker == s.speaker
    && ((gap <= 850 && !lex.Terminal(LastWord(p)))
        || (gap <= 450 && (|p.words| <= 4 || |s.words| <= 4)))
  }

  function Stitch(lex: Lexicon, done: seq<Segment>, s: Segment): seq<Segment>
    requires NoEmpty(done)
  {
    var n := |done|;
    if s.words == [] then done
    else if n > 0 && Continues(lex, done[n - 1], s) then
      done[n - 1 := Rebuilt(lex, done[n - 1].(words := done[n - 1].words + s.words))]
    else done + [Rebuilt(lex, s)]
  }

  function Consolidated(lex: Lexicon, segs: seq<Segment>): (r: seq<Segment>)
    ensures NoEmpty(r) && AllTidy(r)
  {
    if segs == [] then [] else Stitch(lex, Consolidated(lex, segs[..|segs| - 1]), segs[|segs| - 1])
  }

  method StitchNext(lex: Lexicon, done0: seq<Segment>, s: Segment) returns (done: seq<Segment>)
    requires NoEmpty(done0)
    ensures done == Stitch(lex, done0, s)
  {
    done := done0;
    if s.words != [] {
      if done == [] {
        done := [Rebuilt(lex, s)];
      } else {
        var prev := done[|done| - 1];
        if Continues(lex, prev, s) {
          done := done[|done| - 1 := Rebuilt(lex, prev.(words := prev.words + s.words))];
        } else {
          done := done + [Rebuilt(lex, s)];
        }
      }
    }
  }

  method Consolidate(lex: Lexicon, segs: seq<Segment>) returns (done: seq<Segment>)
    ensures done == Consolidated(lex, segs)
  {
    done := [];
    for i := 0 to |segs|
      invariant done == Consolidated(lex, segs[..i])
    {
      assert segs[..i + 1][..i] == segs[..i];
      done := StitchNext(lex, done, segs[i]);
    }
    assert segs[..|segs|] == segs;
  }

  // ---------------------------------------------------------------- what it keeps

  lemma {:induction false} ReplaceLastSpeech(done: seq<Segment>, s: Segment, ws: seq<Word>)
    requires done != [] && SameTokens(done[|done| - 1].words + ws, s.words)
    ensures SameTokens(Speech(done) + ws, Speech(done[|done| - 1 := s]))
  {
    var n := |done| - 1;
    assert done[n := s][..n] == done[..n];
    assert Speech(done) + ws == Speech(done[..n]) + (done[n].words + ws);
  }

  lemma {:induction false} StitchKeepsSpeech(lex: Lexicon, done: seq<Segment>, s: Segment)
    requires NoEmpty(done)
    ensures SameTokens(Speech(done) + s.words, Speech(Stitch(lex, done, s)))
  {
    var n := |done|;
    if s.words == [] {
      assert Speech(done) + [] == Speech(done);
    } else if n > 0 && Continues(lex, done[n - 1], s) {
      var grown := Rebuilt(lex, done[n - 1].(words := done[n - 1].words + s.words));
      ReplaceLastSpeech(done, grown, s.words);
      assert Stitch(lex, done, s) == done[n - 1 := grown];
    } else {
      SpeechSnoc(done, Rebuilt(lex, s));
      assert Stitch(lex, done, s) == done + [Rebuilt(lex, s)];
    }
  }

  lemma {:induction false} StitchWithin(lex: Lexicon, done: seq<Segment>, s: Segment, S: set<int>)
    requires NoEmpty(done) && Within(done, S) && s.speaker in S
    ensures Within(Stitch(lex, done, s), S)
  {
  }

  lemma {:induction false} SameTokensSnoc(a: seq<Word>, b: seq<Word>, w: seq<Word>, c: seq<Word>)
    requires SameTokens(a, b) && SameTokens(b + w, c)
    ensures SameTokens(a + w, c)
  {
    forall i | 0 <= i < |c| ensures SameToken((a + w)[i], c[i]) {
      assert SameToken((b + w)[i], c[i]);
    }
  }

  /** Stitching keeps the speech word for word, and the segments it leaves are non-empty and
      agree with their words in times and speaker. */
  lemma {:induction false} ConsolidatedKeeps(lex: Lexicon, segs: seq<Segment>, S: set<int>)
    requires Within(segs, S)
    ensures var r := Consolidated(lex, segs);
      SameTokens(Speech(segs), Speech(r)) && Within(r, S) && NoEmpty(r) && AllTidy(r)
    decreases |segs|
  {
    if segs != [] {
      var n := |segs| - 1;
      var done := Consolidated(lex, segs[..n]);
      ConsolidatedKeeps(lex, segs[..n], S);
      StitchKeepsSpeech(lex, done, segs[n]);
      StitchWithin(lex, done, segs[n], S);
      SameTokensSnoc(Speech(segs[..n]), Speech(done), segs[n].words, Speech(Stitch(lex, done, segs[n])));
    }
  }

  ghost predicate NoneContinues(lex: Lexicon, segs: seq<Segment>)
    requires NoEmpty(segs)
  {
    forall i, j :: 0 <= i < j < |segs| && j == i + 1 ==> !Continues(lex, segs[i], segs[j])
  }

  /** A segment that does not continue p does not do so when it grows at its end. */
  lemma {:induction false} GrowthKeepsBreak(lex: Lexicon, p: Segment, s: Segment, t: Segment)
    requires p.words != [] && !Continues(lex, p, s)
    requires t.speaker == s.speaker && t.start == s.start && |t.words| >= |s.words|
    ensures !Continues(lex, p, t)
  {
  }

  lemma {:induction false} StitchLeavesBreaks(lex: Lexicon, done: seq<Segment>, s: Segment)
    requires NoEmpty(done) && AllTidy(done) && NoneContinues(lex, done) && Started(s)
    ensures NoneContinues(lex, Stitch(lex, done, s))
  {
    var n, r := |done|, Stitch(lex, done, s);
    if s.words != [] && n > 1 && Continues(lex, done[n - 1], s) {
      GrowthKeepsBreak(lex, done[n - 2], done[n - 1], r[n - 1]);
    }
  }

  /** Text, times and labels are those of the words. */
  ghost predicate Rendered(lex: Lexicon, segs: seq<Segment>) {
    forall i :: 0 <= i < |segs| ==> Rebuilt(lex, segs[i]) == segs[i]
  }

  lemma {:induction false} RebuiltTwice(lex: Lexicon, s: Segment)
    ensures Rebuilt(lex, Rebuilt(lex, s)) == Rebuilt(lex, s)
  {
    var r := Rebuilt(lex, s);
    assert Relabel(r.words, r.speaker) == r.words;
    assert Texts(r.words) == Texts(s.words);
  }

  lemma {:induction false} StitchRenders(lex: Lexicon, done: seq<Segment>, s: Segment)
    requires NoEmpty(done) && Rendered(lex, done)
    ensures Rendered(lex, Stitch(lex, done, s))
  {
    RebuiltTwice(lex, s);
    if done != [] {
      RebuiltTwice(lex, done[|done| - 1].(words := done[|done| - 1].words + s.words));
    }
  }

  lemma {:induction false} ConsolidatedBreaks(lex: Lexicon, segs: seq<Segment>)
    requires AllStarted(segs)
    ensures var r := Consolidated(lex, segs); NoneContinues(lex, r) && Rendered(lex, r)
    decreases |segs|
  {
    if segs != [] {
      var n := |segs| - 1;
      var done, s := Consolidated(lex, segs[..n]), segs[n];
      ConsolidatedBreaks(lex, segs[..n]);
      StitchLeavesBreaks(lex, done, s);
      StitchRenders(lex, done, s);
    }
  }

  lemma {:induction false} StitchAppends(lex: Lexicon, done: seq<Segment>, s: Segment)
    requires NoEmpty(done) && s.words != [] && Rebuilt(lex, s) == s
    requires done == [] || !Continues(lex, done[|done| - 1], s)
    ensures Stitch(lex, done, s) == done + [s]
  {
  }

  lemma {:induction false} ConsolidatedSnoc(lex: Lexicon, p: seq<Segment>, s: Segment)
    requires Consolidated(lex, p) == p && s.words != [] && Rebuilt(lex, s) == s && NoEmpty(p)
    requires p == [] || !Continues(lex, p[|p| - 1], s)
    ensures Consolidated(lex, p + [s]) == p + [s]
  {
    assert (p + [s])[..|p|] == p;
    StitchAppends(lex, p, s);
  }

  lemma {:induction false} StandsAlone(lex: Lexicon, segs: seq<Segment>, n: nat)
    requires n < |segs| && NoEmpty(segs) && NoneContinues(lex, segs) && Rendered(lex, segs)
    ensures NoEmpty(segs[..n]) && segs[n].words != [] && Rebuilt(lex, segs[n]) == segs[n]
    ensures n > 0 ==> !Continues(lex, segs[..n][n - 1], segs[n])
  {
    assert n > 0 ==> !Continues(lex, segs[n - 1], segs[n]);
  }

  lemma {:induction false} NothingToStitch(lex: Lexicon, segs: seq<Segment>, n: nat)
    requires n <= |segs| && NoEmpty(segs) && NoneContinues(lex, segs) && Rendered(lex, segs)
    ensures Consolidated(lex, segs[..n]) == segs[..n]
  {
    if n > 0 {
      NothingToStitch(lex, segs, n - 1);
      StandsAlone(lex, segs, n - 1);
      var p, s := segs[..n - 1], segs[n - 1];
      ConsolidatedSnoc(lex, p, s);
      assert segs[..n] == p + [s];
    }
  }

  /** Stitching is complete in one go, whatever labels the words still carry: no two neighbours of
      the result could be stitched, so doing it again changes nothing. */
  lemma {:induction false} ConsolidationIdempotent(lex: Lexicon, segs: seq<Segment>)
    requires AllStarted(segs)
    ensures var r := Consolidated(lex, segs); NoneContinues(lex, r) && Consolidated(lex, r) == r
  {
    ConsolidatedBreaks(lex, segs);
    var r := Consolidated(lex, segs);
    NothingToStitch(lex, r, |r|);
    assert r[..|r|] == r;
  }

  // ---------------------------------------------------------------- stage 3

  function HeardIn(segs: seq<Segment>): (r: seq<Heard>)
    ensures |r| == |segs| && forall i :: 0 <= i < |segs| ==> r[i] == Heard(segs[i].speaker, segs[i].start)
  {
    seq(|segs|, i requires 0 <= i < |segs| => Heard(segs[i].speaker, segs[i].start))
  }

  function Renumbered(segs: seq<Segment>): (r: seq<Segment>)
    ensures |r| == |segs|
    ensures forall i :: 0 <= i < |segs| ==>
      r[i] == segs[i].(speaker := Rank(HeardIn(segs), segs[i].speaker),
                       words := Relabel(segs[i].words, Rank(HeardIn(segs), segs[i].speaker)))
  {
    seq(|segs|, i requires 0 <= i < |segs| =>
      segs[i].(speaker := Rank(HeardIn(segs), segs[i].speaker),
               words := Relabel(segs[i].words, Rank(HeardIn(segs), segs[i].speaker))))
  }

  /** chrono_map is built once, then applied to segments and words. */
  method RenumberSpeakers(segs0: seq<Segment>) returns (segs: seq<Segment>)
    requires UniformSegments(segs0)
    ensures segs == Renumbered(segs0)
  {
    var heard := HeardIn(segs0);
    var met := Met(heard);
    var chrono: map<int, int> := map[];
    for k := 0 to |met|
      invariant forall s :: s in chrono <==> s in met[..k]
      invariant forall s :: s in chrono ==> chrono[s] == Rank(heard, s)
    {
      assert met[..k + 1] == met[..k] + [met[k]];
      chrono := chrono[met[k] := Rank(heard, met[k])];
    }
    assert met[..|met|] == met;
    segs := segs0;
    for i := 0 to |segs0|
      invariant |segs| == |segs0|
      invariant forall k :: 0 <= k < i ==> segs[k] == Renumbered(segs0)[k]
      invariant forall k :: i <= k < |segs0| ==> segs[k] == segs0[k]
    {
      assert heard[i].speaker == segs0[i].speaker;
      segs := segs[i := segs[i].(speaker := chrono[segs[i].speaker], words := Mapped(segs[i].words, chrono))];
      assert Mapped(segs0[i].words, chrono) == Relabel(segs0[i].words, chrono[segs0[i].speaker]);
    }
  }

  function Mapped(ws: seq<Word>, m: map<int, int>): (r: seq<Word>)
    ensures |r| == |ws|
    ensures forall i :: 0 <= i < |ws| ==>
      r[i] == if ws[i].speaker in m then ws[i].(speaker := m[ws[i].speaker]) else ws[i]
  {
    seq(|ws|, i requires 0 <= i < |ws| =>
      if ws[i].speaker in m then ws[i].(speaker := m[ws[i].speaker]) else ws[i])
  }

  lemma {:induction false} RenumberingKeepsSpeech(segs: seq<Segment>)
    ensures SameTokens(Speech(segs), Speech(Renumbered(segs)))
  {
    SpeechOfSameWords(segs, Renumbered(segs));
  }

  lemma {:induction false} RenamedIsTidy(s: Segment, speaker: int)
    requires Tidy(s)
    ensures Tidy(s.(speaker := speaker, words := Relabel(s.words, speaker)))
  {
  }

  lemma {:induction false} RenumberingKeepsTidy(segs: seq<Segment>)
    requires AllTidy(segs)
    ensures AllTidy(Renumbered(segs)) && (NoEmpty(segs) ==> NoEmpty(Renumbered(segs)))
  {
    var r := Renumbered(segs);
    forall i | 0 <= i < |segs| ensures Tidy(r[i]) && (segs[i].words != [] ==> r[i].words != []) {
      RenamedIsTidy(segs[i], Rank(HeardIn(segs), segs[i].speaker));
    }
  }

  lemma {:induction false} RenumberedApart(segs: seq<Segment>, i: nat, j: nat)
    requires i < |segs| && j < |segs|
    ensures var r := Renumbered(segs);
      && (r[i].speaker == r[j].speaker <==> segs[i].speaker == segs[j].speaker)
      && 0 <= r[i].speaker < |Met(HeardIn(segs))|
  {
    var hs := HeardIn(segs);
    assert hs[i].speaker == segs[i].speaker && hs[j].speaker == segs[j].speaker;
    RankIsInjective(hs, segs[i].speaker, segs[j].speaker);
  }

  /** Stage 3 is a one-to-one renaming onto 0 .. n-1 that touches nothing else. */
  lemma {:induction false} RenumberingIsOneToOne(segs: seq<Segment>, i: nat, j: nat)
    requires i < |segs| && j < |segs|
    ensures var r := Renumbered(segs);
      && (r[i].speaker == r[j].speaker <==> segs[i].speaker == segs[j].speaker)
      && 0 <= r[i].speaker < |Met(HeardIn(segs))|
      && SameTokens(Speech(segs), Speech(r))
      && (AllTidy(segs) ==> AllTidy(r))
  {
    RenumberedApart(segs, i, j);
    RenumberingKeepsSpeech(segs);
    if AllTidy(segs) {
      RenumberingKeepsTidy(segs);
    }
  }

  /** With nondecreasing starts, SPEAKER_00 is who speaks first and labels appear in order. */
  lemma {:induction false} LabelsAppearInOrder(segs: seq<Segment>, i: nat, j: nat)
    requires forall a, b :: 0 <= a < b < |segs| ==> segs[a].start <= segs[b].start
    requires i < |segs| && j < |segs|
    requires forall k :: 0 <= k < i ==> segs[k].speaker != segs[i].speaker
    requires forall k :: 0 <= k < j ==> segs[k].speaker != segs[j].speaker
    ensures Renumbered(segs)[i].speaker < Renumbered(segs)[j].speaker <==> i < j
    ensures i == 0 ==> Renumbered(segs)[i].speaker == 0
  {
    RankInOrderOfAppearance(HeardIn(segs), i, j);
  }
}
