/**
  Normalizing the words of a segment: tokens respelled, numbers and letters merged, slashed words
  merged, phrases rewritten, casing and court numbers adjusted.
 */
module NormalizedSegment {
  import opened Words
  import opened Blocks
  import N = NumberLetters
  import S = SlashMerging
  import P = PhraseRules

  /** How single tokens are cleaned at the start and recased, in context, at the end. */
  datatype Spelling = Spelling(clean: string -> string, recase: (seq<string>, nat) -> string)

  datatype Tables = Tables(spelling: Spelling, numbers: N.Numbers, slashes: S.Slashes, phrases: P.Phrases)

  function Cleaned(sp: Spelling, ws: seq<Word>): (r: seq<Word>)
    ensures |r| == |ws| && forall i :: 0 <= i < |ws| ==> r[i] == ws[i].(text := sp.clean(ws[i].text))
  {
    seq(|ws|, i requires 0 <= i < |ws| => ws[i].(text := sp.clean(ws[i].text)))
  }

  function TextsOf(ws: seq<Word>): (r: seq<string>)
    ensures |r| == |ws|
  {
    seq(|ws|, i requires 0 <= i < |ws| => ws[i].text)
  }

  function Recased(sp: Spelling, ws: seq<Word>): (r: seq<Word>)
    ensures |r| == |ws| && forall i :: 0 <= i < |ws| ==> r[i] == ws[i].(text := sp.recase(TextsOf(ws), i))
  {
    seq(|ws|, i requires 0 <= i < |ws| => ws[i].(text := sp.recase(TextsOf(ws), i)))
  }

  /** The tokens that phrases are looked for in. */
  function Tokens(t: Tables, ws: seq<Word>): seq<Word> {
    S.Merged(t.slashes, N.Merged(t.numbers, Cleaned(t.spelling, ws)))
  }

  function Normalized(t: Tables, ws: seq<Word>): seq<Word>
    requires P.NoEmptySide(t.phrases.rules)
  {
    Recased(t.spelling, P.Stream(t.phrases, Tokens(t, ws)))
  }

  method NormalizeWords(t: Tables, ws: seq<Word>) returns (r: seq<Word>)
    requires P.NoEmptySide(t.phrases.rules)
    ensures r == Normalized(t, ws)
  {
    r := N.MergeNumberLetters(t.numbers, Cleaned(t.spelling, ws));
    r := S.MergeSlashed(t.slashes, r);
    r := P.NormalizeStream(t.phrases, r);
    r := Recased(t.spelling, r);
  }

  /** Times and labels of two streams agree; their texts may differ. */
  ghost predicate SameTimes(a: seq<Word>, b: seq<Word>) {
    && |a| == |b|
    && forall i :: 0 <= i < |a| ==> a[i].start == b[i].start && a[i].end == b[i].end && a[i].speaker == b[i].speaker
  }

  lemma {:induction false} SameTimesKeep(a: seq<Word>, b: seq<Word>, s: int)
    requires SameTimes(a, b)
    ensures NoOverlap(a) <==> NoOverlap(b)
    ensures OneSpeaker(a, s) <==> OneSpeaker(b, s)
  {
  }

  lemma {:induction false} TokensKeep(t: Tables, ws: seq<Word>, s: int)
    ensures var r := Tokens(t, ws);
      && (ws == []) == (r == [])
      && (ws != [] ==> r[0].start == ws[0].start && r[|r| - 1].end == ws[|ws| - 1].end)
      && (NoOverlap(ws) ==> NoOverlap(r)) && (OneSpeaker(ws, s) ==> OneSpeaker(r, s))
  {
    var a := Cleaned(t.spelling, ws);
    var b := N.Merged(t.numbers, a);
    SameTimesKeep(ws, a, s);
    N.MergedEnvelops(t.numbers, a);
    EnvelopedEnds(a, b);
    S.MergedEnvelops(t.slashes, b);
    EnvelopedEnds(b, S.Merged(t.slashes, b));
    if NoOverlap(ws) {
      EnvelopedNoOverlap(a, b);
      EnvelopedNoOverlap(b, S.Merged(t.slashes, b));
    }
    if OneSpeaker(ws, s) {
      EnvelopedOneSpeaker(a, b, s);
      EnvelopedOneSpeaker(b, S.Merged(t.slashes, b), s);
    }
  }

  lemma {:induction false} NormalizedOneSpeaker(t: Tables, ws: seq<Word>, s: int)
    requires P.SoundPhrases(t.phrases) && OneSpeaker(ws, s)
    ensures OneSpeaker(Normalized(t, ws), s)
  {
    TokensKeep(t, ws, s);
    P.StreamOneSpeaker(t.phrases, Tokens(t, ws), s);
  }

  lemma {:induction false} NormalizedNoOverlap(t: Tables, ws: seq<Word>)
    requires P.SoundPhrases(t.phrases) && NoOverlap(ws)
    ensures NoOverlap(Normalized(t, ws)) <==> P.PhrasesFit(t.phrases, Tokens(t, ws))
    ensures P.LongPhrases(t.phrases, Tokens(t, ws)) ==> NoOverlap(Normalized(t, ws))
  {
    var tokens := Tokens(t, ws);
    TokensKeep(t, ws, 0);
    P.NoOverlapIff(t.phrases, tokens);
    SameTimesKeep(P.Stream(t.phrases, tokens), Normalized(t, ws), 0);
    if P.LongPhrases(t.phrases, tokens) {
      P.LongPhrasesFit(t.phrases, tokens);
    }
  }

  lemma {:induction false} NormalizedEnvelope(t: Tables, ws: seq<Word>)
    requires P.SoundPhrases(t.phrases) && ws != []
    ensures var r := Normalized(t, ws);
      && r != [] && r[|r| - 1].end >= ws[|ws| - 1].end
      && (P.LongPhrases(t.phrases, Tokens(t, ws)) ==> r[|r| - 1].end == ws[|ws| - 1].end)
      && r[0].start == ws[0].start
  {
    TokensKeep(t, ws, 0);
    var r := P.StreamEnds(t.phrases, Tokens(t, ws));
    P.StreamStarts(t.phrases, Tokens(t, ws));
  }

  /** Normalizing keeps a segment's time envelope and its one speaker; words that did not overlap
      still do not exactly when every rewritten phrase, padded to 50 ms, ends before the word
      after it. */
  lemma {:induction false} NormalizedKeepsTime(t: Tables, ws: seq<Word>, s: int)
    requires P.SoundPhrases(t.phrases) && ws != []
    ensures var r := Normalized(t, ws);
      && r != [] && r[0].start == ws[0].start && r[|r| - 1].end >= ws[|ws| - 1].end
      && (P.LongPhrases(t.phrases, Tokens(t, ws)) ==> r[|r| - 1].end == ws[|ws| - 1].end)
    ensures OneSpeaker(ws, s) ==> OneSpeaker(Normalized(t, ws), s)
    ensures NoOverlap(ws) ==> (NoOverlap(Normalized(t, ws)) <==> P.PhrasesFit(t.phrases, Tokens(t, ws)))
    ensures NoOverlap(ws) && P.LongPhrases(t.phrases, Tokens(t, ws)) ==> NoOverlap(Normalized(t, ws))
  {
    NormalizedEnvelope(t, ws);
    if OneSpeaker(ws, s) {
      NormalizedOneSpeaker(t, ws, s);
    }
    if NoOverlap(ws) {
      NormalizedNoOverlap(t, ws);
    }
  }
}
