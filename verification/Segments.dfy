/**
  Transcript segments, the speech they hold, and the relations between the speech before and
  after a pass.
 */
module Segments {
  import opened Words
  import opened Sequences

  datatype Segment = Segment(speaker: int, start: int, end: int, text: string, words: seq<Word>)

  function Texts(ws: seq<Word>): seq<string> {
    seq(|ws|, i requires 0 <= i < |ws| => ws[i].text)
  }

  /** _rebuild_seg: times and text follow the words, word labels follow the segment. */
  function Rebuilt(lex: Lexicon, s: Segment): (r: Segment)
    ensures r.speaker == s.speaker && r.words == Relabel(s.words, s.speaker)
  {
    if s.words == [] then s
    else s.(start := s.words[0].start, end := s.words[|s.words| - 1].end,
            text := lex.render(Texts(s.words)), words := Relabel(s.words, s.speaker))
  }

  lemma {:induction false} RebuiltIsTidy(lex: Lexicon, s: Segment)
    ensures Tidy(Rebuilt(lex, s))
  {
  }

  /** Times agree with the words and every word carries the segment's speaker. */
  ghost predicate Tidy(s: Segment) {
    && Labelled(s.words, s.speaker)
    && (s.words != [] ==> s.start == s.words[0].start && s.end == s.words[|s.words| - 1].end)
  }

  /** Every word carries the segment's speaker, and times and text are those of its words. */
  ghost predicate InOrder(lex: Lexicon, s: Segment) {
    s.words != [] ==>
      Labelled(s.words, s.speaker) && s.start == s.words[0].start && s.end == s.words[|s.words| - 1].end
      && s.text == lex.render(Texts(s.words))
  }

  ghost predicate AllTidy(segs: seq<Segment>) { forall i :: 0 <= i < |segs| ==> Tidy(segs[i]) }

  /** The segment starts with its first word, whatever labels the words carry. */
  predicate Started(s: Segment) { s.words != [] ==> s.start == s.words[0].start }

  predicate AllStarted(segs: seq<Segment>) { forall i :: 0 <= i < |segs| ==> Started(segs[i]) }

  predicate NoEmpty(segs: seq<Segment>) { forall i :: 0 <= i < |segs| ==> segs[i].words != [] }

  ghost predicate UniformSegments(segs: seq<Segment>) {
    forall i :: 0 <= i < |segs| ==> Labelled(segs[i].words, segs[i].speaker)
  }

  ghost predicate Within(segs: seq<Segment>, speakers: set<int>) {
    forall i :: 0 <= i < |segs| ==> segs[i].speaker in speakers
  }

  ghost predicate SameSpeakers(a: seq<Segment>, b: seq<Segment>) {
    |a| == |b| && forall i :: 0 <= i < |a| ==> a[i].speaker == b[i].speaker
  }

  // ---------------------------------------------------------------- the flat word sequence

  function Speech(segs: seq<Segment>): seq<Word> {
    if segs == [] then [] else Speech(segs[..|segs| - 1]) + segs[|segs| - 1].words
  }

  lemma {:induction false} SpeechSnoc(segs: seq<Segment>, s: Segment)
    ensures Speech(segs + [s]) == Speech(segs) + s.words
  {
    assert (segs + [s])[..|segs|] == segs;
  }

  lemma {:induction false} SpeechConcat(a: seq<Segment>, b: seq<Segment>)
    ensures Speech(a + b) == Speech(a) + Speech(b)
    decreases |b|
  {
    if b == [] {
      assert a + b == a;
    } else {
      var c, s := b[..|b| - 1], b[|b| - 1];
      SpeechConcat(a, c);
      AppendSnoc(a, b);
      SpeechSnoc(a + c, s);
      AppendAssoc(Speech(a), Speech(c), s.words);
    }
  }

  lemma {:induction false} SpeechOne(s: Segment)
    ensures Speech([s]) == s.words
  {
    assert [s][..0] == [];
  }

  lemma {:induction false} SpeechTwo(a: Segment, b: Segment)
    ensures Speech([a, b]) == a.words + b.words
  {
    SpeechSnoc([a], b);
    SpeechOne(a);
  }

  lemma {:induction false} SpeechThree(a: Segment, b: Segment, c: Segment)
    ensures Speech([a, b, c]) == a.words + b.words + c.words
  {
    SpeechTwo(a, b);
    SpeechSnoc([a, b], c);
    assert [a, b] + [c] == [a, b, c];
  }

  function DropEmpty(segs: seq<Segment>): (r: seq<Segment>)
    ensures NoEmpty(r) && forall s :: s in r ==> s in segs
  {
    if segs == [] then []
    else DropEmpty(segs[..|segs| - 1]) + if segs[|segs| - 1].words == [] then [] else [segs[|segs| - 1]]
  }

  lemma {:induction false} DropEmptyKeeps(segs: seq<Segment>, S: set<int>)
    ensures var r := DropEmpty(segs);
      && (Within(segs, S) ==> Within(r, S)) && (AllTidy(segs) ==> AllTidy(r)) && (AllStarted(segs) ==> AllStarted(r))
  {
    var r := DropEmpty(segs);
    forall i | 0 <= i < |r|
      ensures Within(segs, S) ==> r[i].speaker in S
      ensures (AllTidy(segs) ==> Tidy(r[i])) && (AllStarted(segs) ==> Started(r[i]))
    {
      assert r[i] in r;
    }
  }

  lemma {:induction false} DropEmptyKeepsSpeech(segs: seq<Segment>)
    ensures Speech(DropEmpty(segs)) == Speech(segs)
    decreases |segs|
  {
    if segs != [] {
      var n := |segs| - 1;
      DropEmptyKeepsSpeech(segs[..n]);
      if segs[n].words == [] {
        assert DropEmpty(segs) == DropEmpty(segs[..n]);
      } else {
        SpeechSnoc(DropEmpty(segs[..n]), segs[n]);
      }
    }
  }

  lemma {:induction false} NothingToDrop(segs: seq<Segment>)
    requires NoEmpty(segs)
    ensures DropEmpty(segs) == segs
    decreases |segs|
  {
    if segs != [] {
      NothingToDrop(segs[..|segs| - 1]);
    }
  }

  // ---------------------------------------------------------------- what a pass may do to the speech

  /** The four spellings the passes write, each for one cleaned token. */
  ghost predicate Respelling(lex: Lexicon, a: string, b: string) {
    || (lex.clean(a) == "my" && b == "My")
    || (lex.clean(a) == "your" && b == "Your")
    || (lex.clean(a) == "lord" && b == "Lord.")
    || (lex.clean(a) == "says" && b == "Yes.")
  }

  /** A word keeps its times, and its text unless that is one of the four. */
  ghost predicate Edited(lex: Lexicon, a: Word, b: Word) {
    && a.start == b.start && a.end == b.end
    && (b.text == a.text || Respelling(lex, a.text, b.text))
  }

  /** The same words in the same order with the same times, up to labels and respelling. */
  ghost predicate Respelled(lex: Lexicon, a: seq<Word>, b: seq<Word>) {
    |a| == |b| && forall i :: 0 <= i < |a| ==> Edited(lex, a[i], b[i])
  }

  lemma {:induction false} RespelledConcat(lex: Lexicon, a: seq<Word>, b: seq<Word>, c: seq<Word>, d: seq<Word>)
    requires Respelled(lex, a, b) && Respelled(lex, c, d)
    ensures Respelled(lex, a + c, b + d)
  {
  }

  lemma {:induction false} RespelledTrans(lex: Lexicon, a: seq<Word>, b: seq<Word>, c: seq<Word>)
    requires SoundSpelling(lex) && Respelled(lex, a, b) && Respelled(lex, b, c)
    ensures Respelled(lex, a, c)
  {
    forall i | 0 <= i < |a| ensures Edited(lex, a[i], c[i]) {
      assert Edited(lex, a[i], b[i]) && Edited(lex, b[i], c[i]);
    }
  }

  /** Relabelling afterwards. */
  lemma {:induction false} RespelledThenSame(lex: Lexicon, a: seq<Word>, b: seq<Word>, c: seq<Word>)
    requires Respelled(lex, a, b) && SameTokens(b, c)
    ensures Respelled(lex, a, c)
  {
    forall i | 0 <= i < |a| ensures Edited(lex, a[i], c[i]) {
      assert Edited(lex, a[i], b[i]) && SameToken(b[i], c[i]);
    }
  }

  lemma {:induction false} SameTokensRespelled(lex: Lexicon, a: seq<Word>, b: seq<Word>)
    requires SameTokens(a, b)
    ensures Respelled(lex, a, b)
  {
    forall i | 0 <= i < |a| ensures Edited(lex, a[i], b[i]) {
      assert SameToken(a[i], b[i]);
    }
  }

  /** Replacing a stretch of segments by one holding the same words. */
  lemma {:induction false} SpeechReplaced(
    lex: Lexicon, pre: seq<Segment>, a: seq<Segment>, b: seq<Segment>, post: seq<Segment>)
    requires Respelled(lex, Speech(a), Speech(b))
    ensures Respelled(lex, Speech(pre + a + post), Speech(pre + b + post))
  {
    SpeechConcat(pre + a, post);
    SpeechConcat(pre, a);
    SpeechConcat(pre + b, post);
    SpeechConcat(pre, b);
    SameTokensRespelled(lex, Speech(pre), Speech(pre));
    SameTokensRespelled(lex, Speech(post), Speech(post));
    RespelledConcat(lex, Speech(pre), Speech(pre), Speech(a), Speech(b));
    RespelledConcat(lex, Speech(pre) + Speech(a), Speech(pre) + Speech(b), Speech(post), Speech(post));
  }

  /** Changing labels and times of segments, not their words. */
  lemma {:induction false} SpeechOfSameWords(a: seq<Segment>, b: seq<Segment>)
    requires |a| == |b| && forall i :: 0 <= i < |a| ==> SameTokens(a[i].words, b[i].words)
    ensures SameTokens(Speech(a), Speech(b))
    decreases |a|
  {
    if a != [] {
      SpeechOfSameWords(a[..|a| - 1], b[..|b| - 1]);
    }
  }
}
