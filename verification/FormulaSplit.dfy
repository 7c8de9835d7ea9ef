/**
  Pass 1C: a segment that mixes the judge's speech with a formula of counsel is cut at the
  formula, up to three times over the transcript.
 */
module FormulaSplit {
  import opened Options
  import opened Words
  import opened Segments

  /** Where to cut: Pair gives [..at] to the judge and the rest to counsel, dropping the word
      at + 3 when it doubles "lord"; Triple gives len words to counsel and the rest back. */
  datatype Cut = Pair(at: nat, dedup: bool) | Triple(at: nat, len: nat)

  /** Token p is the doubled "lord" of "yes my lord lord". */
  predicate DoubledLord(lex: Lexicon, ws: seq<Word>, p: nat) {
    3 <= p < |ws| && lex.Tokens(ws[p - 3..p + 1]) == lex.doubled
  }

  predicate CutFits(lex: Lexicon, ws: seq<Word>, c: Cut) {
    match c
    case Pair(at, dedup) => 0 < at < |ws| && (dedup ==> DoubledLord(lex, ws, at + 3))
    case Triple(at, len) => 0 < at && 0 < len && at + len < |ws|
  }

  // ---------------------------------------------------------------- where to cut

  /** "... ? Sir? ..." inside a judge's segment. */
  predicate LoneSir(lex: Lexicon, ws: seq<Word>, i: nat) {
    && 1 <= i < |ws| - 1
    && lex.Token(ws[i]) == "sir" && lex.Terminal(ws[i]) && lex.Terminal(ws[i - 1])
  }

  /** What formula f at word i asks for, if it is there. */
  function FormulaCut(lex: Lexicon, judge: int, s: Segment, f: Formula, i: nat): Option<Cut>
    requires 1 <= i && i + |f.tokens| <= |s.words|
  {
    var ws, n := s.words, |f.tokens|;
    if lex.Tokens(ws[i..i + n]) != f.tokens then None
    else if f.kind.MyLord? then
      if i + n == |ws| && s.speaker == judge && !lex.notBeforeMyLord(lex.Token(ws[i - 1])) then Some(Pair(i, false))
      else None
    else if f.kind.YesMyLord? && lex.benchInquiry(lex.render(lex.Tokens(ws[..i]))) then
      Some(Pair(i, f.kind.doubled))
    else if i + n < |ws| && (s.speaker == judge || lex.fileMotion(lex.render(lex.Tokens(ws[..i])))) then
      Some(Triple(i, n))
    else None
  }

  /** The first cut asked for by formula f at word i or later. */
  function FirstForFormula(lex: Lexicon, judge: int, s: Segment, f: Formula, i: nat): Option<Cut>
    requires 1 <= i
    decreases |s.words| - i
  {
    if i + |f.tokens| > |s.words| || i >= |s.words| then None
    else
      var c := FormulaCut(lex, judge, s, f, i);
      if c.Some? then c else FirstForFormula(lex, judge, s, f, i + 1)
  }

  function FirstFormulaCut(lex: Lexicon, judge: int, s: Segment, fs: seq<Formula>): Option<Cut> {
    if fs == [] then None
    else
      var c := FirstForFormula(lex, judge, s, fs[0], 1);
      if c.Some? then c else FirstFormulaCut(lex, judge, s, fs[1..])
  }

  function FirstSir(lex: Lexicon, ws: seq<Word>, i: nat): Option<Cut>
    requires 1 <= i
    decreases |ws| - i
  {
    if i + 1 >= |ws| then None
    else if LoneSir(lex, ws, i) then Some(Triple(i, 1))
    else FirstSir(lex, ws, i + 1)
  }

  function CutOf(lex: Lexicon, judge: int, s: Segment): Option<Cut> {
    if |s.words| < 4 then None
    else
      var sir := if s.speaker == judge then FirstSir(lex, s.words, 1) else None;
      if sir.Some? then sir else FirstFormulaCut(lex, judge, s, lex.formulas)
  }

  // ---------------------------------------------------------------- cutting

  /** The words without the one at p. */
  function Without(a: seq<Word>, p: nat): (r: seq<Word>)
    requires p < |a|
    ensures |r| == |a| - 1
    ensures forall i :: 0 <= i < |r| ==> r[i] == a[if i < p then i else i + 1]
  {
    a[..p] + a[p + 1..]
  }

  /** The words a pair is made of: all, or all but a doubled "lord". */
  function Left(ws: seq<Word>, at: nat, dedup: bool): seq<Word>
    requires dedup ==> at + 3 < |ws|
  {
    if dedup then Without(ws, at + 3) else ws
  }

  /** The stretches of words a cut makes. */
  function PartsOf(lex: Lexicon, ws: seq<Word>, c: Cut): (ps: seq<seq<Word>>)
    requires CutFits(lex, ws, c)
    ensures |ps| >= 2 && forall i :: 0 <= i < |ps| ==> ps[i] != []
  {
    match c
    case Pair(at, dedup) => [Left(ws, at, dedup)[..at], Left(ws, at, dedup)[at..]]
    case Triple(at, len) => [ws[..at], ws[at..at + len], ws[at + len..]]
  }

  function Piece(lex: Lexicon, s: Segment, ws: seq<Word>, speaker: int): Segment {
    Rebuilt(lex, s.(words := ws, speaker := speaker))
  }

  /** The second stretch is counsel's, the others are the judge's. */
  function Pieces(lex: Lexicon, judge: int, counsel: int, s: Segment, ps: seq<seq<Word>>): (r: seq<Segment>)
    ensures |r| == |ps|
  {
    seq(|ps|, i requires 0 <= i < |ps| => Piece(lex, s, ps[i], if i == 1 then counsel else judge))
  }

  function CutUp(lex: Lexicon, judge: int, counsel: int, s: Segment, c: Cut): (r: seq<Segment>)
    requires CutFits(lex, s.words, c)
    ensures |r| >= 2
  {
    Pieces(lex, judge, counsel, s, PartsOf(lex, s.words, c))
  }

  function SplitOne(lex: Lexicon, judge: int, counsel: int, s: Segment): seq<Segment>
    requires SoundFormulas(lex)
  {
    var c := CutOf(lex, judge, s);
    if c.None? then [s]
    else
      CutOfFits(lex, judge, s);
      CutUp(lex, judge, counsel, s, c.value)
  }

  function SplitAll(lex: Lexicon, judge: int, counsel: int, segs: seq<Segment>): seq<Segment>
    requires SoundFormulas(lex)
  {
    if segs == [] then []
    else SplitAll(lex, judge, counsel, segs[..|segs| - 1]) + SplitOne(lex, judge, counsel, segs[|segs| - 1])
  }

  const ROUNDS: nat := 3

  /** At most `rounds` sweeps, fewer when one splits nothing. */
  function SplitRounds(lex: Lexicon, judge: int, counsel: int, segs: seq<Segment>, rounds: nat): seq<Segment>
    requires SoundFormulas(lex)
    decreases rounds
  {
    if rounds == 0 then segs
    else
      var next := SplitAll(lex, judge, counsel, segs);
      if |next| > |segs| then SplitRounds(lex, judge, counsel, next, rounds - 1) else next
  }

  method FindSir(lex: Lexicon, ws: seq<Word>) returns (c: Option<Cut>)
    requires |ws| >= 2
    ensures c == FirstSir(lex, ws, 1)
  {
    var i := 1;
    while i < |ws| - 1
      invariant 1 <= i && FirstSir(lex, ws, i) == FirstSir(lex, ws, 1)
    {
      if lex.Token(ws[i]) == "sir" && lex.Terminal(ws[i]) && lex.Terminal(ws[i - 1]) {
        return Some(Triple(i, 1));
      }
      i := i + 1;
    }
    c := None;
  }

  method FindFormula(lex: Lexicon, judge: int, s: Segment, f: Formula) returns (c: Option<Cut>)
    ensures c == FirstForFormula(lex, judge, s, f, 1)
  {
    var ws, i := s.words, 1;
    while i + |f.tokens| <= |ws| && i < |ws|
      invariant 1 <= i && FirstForFormula(lex, judge, s, f, i) == FirstForFormula(lex, judge, s, f, 1)
      decreases |ws| - i
    {
      c := FormulaCut(lex, judge, s, f, i);
      if c.Some? {
        return;
      }
      i := i + 1;
    }
    c := None;
  }

  method FindCut(lex: Lexicon, judge: int, s: Segment) returns (c: Option<Cut>)
    ensures c == CutOf(lex, judge, s)
  {
    if |s.words| < 4 {
      return None;
    }
    if s.speaker == judge {
      c := FindSir(lex, s.words);
      if c.Some? {
        return;
      }
    }
    for k := 0 to |lex.formulas|
      invariant FirstFormulaCut(lex, judge, s, lex.formulas[k..]) == CutOf(lex, judge, s)
    {
      assert lex.formulas[k..][1..] == lex.formulas[k + 1..];
      c := FindFormula(lex, judge, s, lex.formulas[k]);
      if c.Some? {
        return;
      }
    }
    c := None;
  }

  method SplitSegment(lex: Lexicon, judge: int, counsel: int, s: Segment) returns (pieces: seq<Segment>, split: bool)
    requires SoundFormulas(lex)
    ensures pieces == SplitOne(lex, judge, counsel, s)
    ensures |pieces| >= 1 && (split <==> |pieces| > 1)
  {
    var c := FindCut(lex, judge, s);
    split := c.Some?;
    if split {
      CutOfFits(lex, judge, s);
      pieces := CutUp(lex, judge, counsel, s, c.value);
    } else {
      pieces := [s];
    }
  }

  method SplitNext(lex: Lexicon, judge: int, counsel: int, segs: seq<Segment>, k: nat)
    returns (pieces: seq<Segment>, split: bool)
    requires SoundFormulas(lex) && k < |segs|
    ensures SplitAll(lex, judge, counsel, segs[..k + 1]) == SplitAll(lex, judge, counsel, segs[..k]) + pieces
    ensures |pieces| >= 1 && (split <==> |pieces| > 1)
  {
    assert segs[..k + 1][..k] == segs[..k];
    pieces, split := SplitSegment(lex, judge, counsel, segs[k]);
  }

  method SplitSweep(lex: Lexicon, judge: int, counsel: int, segs: seq<Segment>)
    returns (expanded: seq<Segment>, anySplit: bool)
    requires SoundFormulas(lex)
    ensures expanded == SplitAll(lex, judge, counsel, segs) && anySplit == (|expanded| > |segs|)
  {
    expanded, anySplit := [], false;
    for k := 0 to |segs|
      invariant expanded == SplitAll(lex, judge, counsel, segs[..k])
      invariant |expanded| >= k && (anySplit <==> |expanded| > k)
    {
      var pieces, split := SplitNext(lex, judge, counsel, segs, k);
      expanded := expanded + pieces;
      anySplit := anySplit || split;
    }
    assert segs[..|segs|] == segs;
  }

  lemma {:induction false} NextRound(lex: Lexicon, judge: int, counsel: int, segs: seq<Segment>, rounds: nat)
    requires SoundFormulas(lex) && rounds > 0
    ensures var next := SplitAll(lex, judge, counsel, segs);
      SplitRounds(lex, judge, counsel, segs, rounds)
      == if |next| > |segs| then SplitRounds(lex, judge, counsel, next, rounds - 1) else next
  {
  }

  /** A sweep makes more segments exactly when some segment has a cut. */
  lemma {:induction false} MoreIffSomeCut(lex: Lexicon, judge: int, counsel: int, segs: seq<Segment>)
    requires SoundFormulas(lex)
    ensures |SplitAll(lex, judge, counsel, segs)| >= |segs|
    ensures |SplitAll(lex, judge, counsel, segs)| > |segs| <==> SomeCut(lex, judge, segs)
    decreases |segs|
  {
    if segs != [] {
      var k := |segs| - 1;
      MoreIffSomeCut(lex, judge, counsel, segs[..k]);
      PiecesCount(lex, judge, counsel, segs[k]);
      SomeCutSnoc(lex, judge, segs);
    }
  }

  ghost predicate SomeCut(lex: Lexicon, judge: int, segs: seq<Segment>) {
    exists i :: 0 <= i < |segs| && CutOf(lex, judge, segs[i]).Some?
  }

  lemma {:induction false} SomeCutSnoc(lex: Lexicon, judge: int, segs: seq<Segment>)
    requires segs != []
    ensures var k := |segs| - 1;
      SomeCut(lex, judge, segs) <==> SomeCut(lex, judge, segs[..k]) || CutOf(lex, judge, segs[k]).Some?
  {
    var k := |segs| - 1;
    assert forall i :: 0 <= i < k ==> segs[..k][i] == segs[i];
  }

  lemma {:induction false} PiecesCount(lex: Lexicon, judge: int, counsel: int, s: Segment)
    requires SoundFormulas(lex)
    ensures |SplitOne(lex, judge, counsel, s)| >= 1
    ensures |SplitOne(lex, judge, counsel, s)| > 1 <==> CutOf(lex, judge, s).Some?
  {
  }

  method SplitFormulas(lex: Lexicon, judge: int, counsel: int, segs0: seq<Segment>) returns (segs: seq<Segment>)
    requires SoundFormulas(lex)
    ensures segs == SplitRounds(lex, judge, counsel, segs0, ROUNDS)
  {
    segs := segs0;
    ghost var rounds := ROUNDS;
    ghost var goal := SplitRounds(lex, judge, counsel, segs0, rounds);
    for round := 0 to ROUNDS
      invariant SplitRounds(lex, judge, counsel, segs, ROUNDS - round) == goal
    {
      NextRound(lex, judge, counsel, segs, ROUNDS - round);
      var expanded, anySplit := SplitSweep(lex, judge, counsel, segs);
      if !anySplit {
        return expanded;
      }
      segs := expanded;
    }
  }

  // ---------------------------------------------------------------- every cut is inside the segment

  predicate SoundFormula(lex: Lexicon, f: Formula) {
    |lex.doubled| == 4 && |f.tokens| > 0 && (f.kind == YesMyLord(true) ==> f.tokens == lex.doubled)
  }

  lemma {:induction false} FormulaCutFits(lex: Lexicon, judge: int, s: Segment, f: Formula, i: nat)
    requires 1 <= i && i + |f.tokens| <= |s.words| && SoundFormula(lex, f)
    ensures var c := FormulaCut(lex, judge, s, f, i); c.Some? ==> CutFits(lex, s.words, c.value)
  {
  }

  lemma {:induction false} FirstForFormulaFits(lex: Lexicon, judge: int, s: Segment, f: Formula, i: nat)
    requires 1 <= i && SoundFormula(lex, f)
    ensures var c := FirstForFormula(lex, judge, s, f, i); c.Some? ==> CutFits(lex, s.words, c.value)
    decreases |s.words| - i
  {
    if i + |f.tokens| <= |s.words| && i < |s.words| {
      FormulaCutFits(lex, judge, s, f, i);
      if FormulaCut(lex, judge, s, f, i).None? {
        FirstForFormulaFits(lex, judge, s, f, i + 1);
      }
    }
  }

  lemma {:induction false} FirstFormulaCutFits(lex: Lexicon, judge: int, s: Segment, fs: seq<Formula>)
    requires SoundFormulas(lex) && forall f :: f in fs ==> f in lex.formulas
    ensures var c := FirstFormulaCut(lex, judge, s, fs); c.Some? ==> CutFits(lex, s.words, c.value)
  {
    if fs != [] {
      assert fs[0] in lex.formulas;
      FirstForFormulaFits(lex, judge, s, fs[0], 1);
      FirstFormulaCutFits(lex, judge, s, fs[1..]);
    }
  }

  lemma {:induction false} FirstSirFits(lex: Lexicon, ws: seq<Word>, i: nat)
    requires 1 <= i
    ensures var c := FirstSir(lex, ws, i); c.Some? ==> CutFits(lex, ws, c.value)
    decreases |ws| - i
  {
    if i + 1 < |ws| && !LoneSir(lex, ws, i) {
      FirstSirFits(lex, ws, i + 1);
    }
  }

  lemma {:induction false} CutOfFits(lex: Lexicon, judge: int, s: Segment)
    requires SoundFormulas(lex)
    ensures var c := CutOf(lex, judge, s); c.Some? ==> CutFits(lex, s.words, c.value)
  {
    FirstSirFits(lex, s.words, 1);
    FirstFormulaCutFits(lex, judge, s, lex.formulas);
  }

  // ---------------------------------------------------------------- what splitting keeps

  /** b is a without n doubled "lord" tokens, each one doubled in what was left before it. */
  ghost predicate Thinned(lex: Lexicon, a: seq<Word>, b: seq<Word>, n: nat) {
    if n == 0 then SameTokens(a, b)
    else exists p: nat :: DoubledLord(lex, a, p) && Thinned(lex, Without(a, p), b, n - 1)
  }

  lemma {:induction false} SameTokenTexts(lex: Lexicon, a: seq<Word>, b: seq<Word>)
    requires SameTokens(a, b)
    ensures lex.Tokens(a) == lex.Tokens(b)
  {
    forall i | 0 <= i < |a| ensures lex.Token(a[i]) == lex.Token(b[i]) {
      assert SameToken(a[i], b[i]);
    }
  }

  lemma {:induction false} ThinnedRelabelled(lex: Lexicon, a: seq<Word>, a': seq<Word>, b: seq<Word>, n: nat)
    requires SameTokens(a', a) && Thinned(lex, a, b, n)
    ensures Thinned(lex, a', b, n)
    decreases n
  {
    if n == 0 {
      forall i | 0 <= i < |a| ensures SameToken(a'[i], b[i]) {
        assert SameToken(a'[i], a[i]) && SameToken(a[i], b[i]);
      }
    } else {
      var p: nat :| DoubledLord(lex, a, p) && Thinned(lex, Without(a, p), b, n - 1);
      SameTokenTexts(lex, a'[p - 3..p + 1], a[p - 3..p + 1]);
      ThinnedRelabelled(lex, Without(a, p), Without(a', p), b, n - 1);
      assert DoubledLord(lex, a', p);
    }
  }

  lemma {:induction false} WithoutInside(a: seq<Word>, p: nat, x: seq<Word>, y: seq<Word>)
    requires p < |a|
    ensures Without(x + a + y, |x| + p) == x + Without(a, p) + y
  {
  }

  lemma {:induction false} ThinnedInside(lex: Lexicon, a: seq<Word>, b: seq<Word>, n: nat, x: seq<Word>, y: seq<Word>)
    requires Thinned(lex, a, b, n)
    ensures Thinned(lex, x + a + y, x + b + y, n)
    decreases n
  {
    if n == 0 {
      assert forall i :: 0 <= i < |a| ==> SameToken(a[i], b[i]);
    } else {
      var p: nat :| DoubledLord(lex, a, p) && Thinned(lex, Without(a, p), b, n - 1);
      assert (x + a + y)[|x| + p - 3..|x| + p + 1] == a[p - 3..p + 1];
      WithoutInside(a, p, x, y);
      ThinnedInside(lex, Without(a, p), b, n - 1, x, y);
      assert DoubledLord(lex, x + a + y, |x| + p);
    }
  }

  lemma {:induction false} ThinnedTrans(lex: Lexicon, a: seq<Word>, b: seq<Word>, c: seq<Word>, m: nat, n: nat)
    requires Thinned(lex, a, b, m) && Thinned(lex, b, c, n)
    ensures Thinned(lex, a, c, m + n)
    decreases m
  {
    if m == 0 {
      ThinnedRelabelled(lex, b, a, c, n);
    } else {
      var p: nat :| DoubledLord(lex, a, p) && Thinned(lex, Without(a, p), b, m - 1);
      ThinnedTrans(lex, Without(a, p), b, c, m - 1, n);
    }
  }

  lemma {:induction false} ThinnedConcat(
    lex: Lexicon, a: seq<Word>, b: seq<Word>, m: nat, c: seq<Word>, d: seq<Word>, n: nat)
    requires Thinned(lex, a, b, m) && Thinned(lex, c, d, n)
    ensures Thinned(lex, a + c, b + d, m + n)
  {
    ThinnedInside(lex, a, b, m, [], c);
    ThinnedInside(lex, c, d, n, b, []);
    assert [] + a + c == a + c && [] + b + c == b + c;
    assert b + c + [] == b + c && b + d + [] == b + d;
    ThinnedTrans(lex, a + c, b + c, b + d, m, n);
  }

  function Flat(ps: seq<seq<Word>>): seq<Word> {
    if ps == [] then [] else Flat(ps[..|ps| - 1]) + ps[|ps| - 1]
  }

  lemma {:induction false} FlatTwo(a: seq<Word>, b: seq<Word>)
    ensures Flat([a, b]) == a + b
  {
    assert [a, b][..1] == [a] && [a][..0] == [];
    assert Flat([a]) == a;
  }

  lemma {:induction false} FlatThree(a: seq<Word>, b: seq<Word>, c: seq<Word>)
    ensures Flat([a, b, c]) == a + b + c
  {
    assert [a, b, c][..2] == [a, b];
    FlatTwo(a, b);
  }

  lemma {:induction false} FlatParts(lex: Lexicon, ws: seq<Word>, c: Cut)
    requires CutFits(lex, ws, c)
    ensures Flat(PartsOf(lex, ws, c)) == if c.Pair? then Left(ws, c.at, c.dedup) else ws
  {
    match c
    case Pair(at, dedup) =>
      var left := Left(ws, at, dedup);
      FlatTwo(left[..at], left[at..]);
    case Triple(at, len) =>
      FlatThree(ws[..at], ws[at..at + len], ws[at + len..]);
  }

  lemma {:induction false} PieceTokens(lex: Lexicon, s: Segment, ws: seq<Word>, speaker: int)
    ensures SameTokens(ws, Piece(lex, s, ws, speaker).words)
  {
  }

  lemma {:induction false} SameTokensAppend(a: seq<Word>, b: seq<Word>, c: seq<Word>, d: seq<Word>)
    requires SameTokens(a, b) && SameTokens(c, d)
    ensures SameTokens(a + c, b + d)
  {
  }

  lemma {:induction false} PiecesSnoc(
    lex: Lexicon, judge: int, counsel: int, s: Segment, ps: seq<seq<Word>>) returns (before: seq<Segment>, p: Segment)
    requires ps != []
    ensures before == Pieces(lex, judge, counsel, s, ps[..|ps| - 1])
    ensures Pieces(lex, judge, counsel, s, ps) == before + [p] && SameTokens(ps[|ps| - 1], p.words)
  {
    var n := |ps| - 1;
    before := Pieces(lex, judge, counsel, s, ps[..n]);
    p := Piece(lex, s, ps[n], if n == 1 then counsel else judge);
    PieceTokens(lex, s, ps[n], if n == 1 then counsel else judge);
    assert Pieces(lex, judge, counsel, s, ps) == before + [p];
  }

  /** Pieces say what their stretches say. */
  lemma {:induction false} PiecesSpeech(lex: Lexicon, judge: int, counsel: int, s: Segment, ps: seq<seq<Word>>)
    ensures SameTokens(Flat(ps), Speech(Pieces(lex, judge, counsel, s, ps)))
    decreases |ps|
  {
    if ps != [] {
      var n := |ps| - 1;
      PiecesSpeech(lex, judge, counsel, s, ps[..n]);
      var before, p := PiecesSnoc(lex, judge, counsel, s, ps);
      SpeechSnoc(before, p);
      SameTokensAppend(Flat(ps[..n]), Speech(before), ps[n], p.words);
    }
  }

  lemma {:induction false} CutUpThins(lex: Lexicon, judge: int, counsel: int, s: Segment, c: Cut)
    requires CutFits(lex, s.words, c)
    ensures Thinned(lex, s.words, Speech(CutUp(lex, judge, counsel, s, c)), if c.Pair? && c.dedup then 1 else 0)
  {
    var r := Speech(CutUp(lex, judge, counsel, s, c));
    PiecesSpeech(lex, judge, counsel, s, PartsOf(lex, s.words, c));
    FlatParts(lex, s.words, c);
    if c.Pair? && c.dedup {
      OneDropped(lex, s.words, c.at + 3, r);
    } else {
      NoneDropped(lex, s.words, r);
    }
  }

  lemma {:induction false} NoneDropped(lex: Lexicon, ws: seq<Word>, r: seq<Word>)
    requires SameTokens(ws, r)
    ensures Thinned(lex, ws, r, 0)
  {
  }

  lemma {:induction false} OneDropped(lex: Lexicon, ws: seq<Word>, p: nat, r: seq<Word>)
    requires DoubledLord(lex, ws, p) && SameTokens(Without(ws, p), r)
    ensures Thinned(lex, ws, r, 1)
  {
    assert Thinned(lex, Without(ws, p), r, 0);
  }

  ghost predicate ThinnedBySome(lex: Lexicon, a: seq<Word>, b: seq<Word>) {
    exists n: nat :: Thinned(lex, a, b, n)
  }

  lemma {:induction false} ThinnedBySomeConcat(lex: Lexicon, a: seq<Word>, b: seq<Word>, c: seq<Word>, d: seq<Word>)
    requires ThinnedBySome(lex, a, b) && ThinnedBySome(lex, c, d)
    ensures ThinnedBySome(lex, a + c, b + d)
  {
    var m: nat :| Thinned(lex, a, b, m);
    var n: nat :| Thinned(lex, c, d, n);
    ThinnedConcat(lex, a, b, m, c, d, n);
  }

  lemma {:induction false} ThinnedBySomeTrans(lex: Lexicon, a: seq<Word>, b: seq<Word>, c: seq<Word>)
    requires ThinnedBySome(lex, a, b) && ThinnedBySome(lex, b, c)
    ensures ThinnedBySome(lex, a, c)
  {
    var m: nat :| Thinned(lex, a, b, m);
    var n: nat :| Thinned(lex, b, c, n);
    ThinnedTrans(lex, a, b, c, m, n);
  }

  lemma {:induction false} NotThinned(lex: Lexicon, a: seq<Word>)
    ensures ThinnedBySome(lex, a, a)
  {
    assert Thinned(lex, a, a, 0);
  }

  /** One segment's cut drops one word or none. */
  lemma {:induction false} SplitOneThins(lex: Lexicon, judge: int, counsel: int, s: Segment)
    requires SoundFormulas(lex)
    ensures ThinnedBySome(lex, s.words, Speech(SplitOne(lex, judge, counsel, s)))
  {
    var c := CutOf(lex, judge, s);
    if c.None? {
      SpeechOne(s);
      NotThinned(lex, s.words);
    } else {
      CutOfFits(lex, judge, s);
      CutUpThins(lex, judge, counsel, s, c.value);
    }
  }

  /** Not empty, one label, starting with its first word. */
  ghost predicate CleanPiece(p: Segment, judge: int, counsel: int) {
    p.words != [] && Labelled(p.words, p.speaker) && Started(p) && p.speaker in {judge, counsel}
  }

  ghost predicate CleanPieces(r: seq<Segment>, judge: int, counsel: int) {
    forall i :: 0 <= i < |r| ==> CleanPiece(r[i], judge, counsel)
  }

  lemma {:induction false} PieceClean(lex: Lexicon, s: Segment, ws: seq<Word>, speaker: int, judge: int, counsel: int)
    requires ws != [] && (speaker == judge || speaker == counsel)
    ensures CleanPiece(Piece(lex, s, ws, speaker), judge, counsel)
  {
  }

  lemma {:induction false} CutUpPieces(lex: Lexicon, judge: int, counsel: int, s: Segment, c: Cut)
    requires CutFits(lex, s.words, c)
    ensures CleanPieces(CutUp(lex, judge, counsel, s, c), judge, counsel)
  {
    PiecesClean(lex, judge, counsel, s, PartsOf(lex, s.words, c));
  }

  lemma {:induction false} PiecesClean(lex: Lexicon, judge: int, counsel: int, s: Segment, ps: seq<seq<Word>>)
    requires forall i :: 0 <= i < |ps| ==> ps[i] != []
    ensures CleanPieces(Pieces(lex, judge, counsel, s, ps), judge, counsel)
  {
    forall i | 0 <= i < |ps| ensures CleanPiece(Pieces(lex, judge, counsel, s, ps)[i], judge, counsel) {
      PieceClean(lex, s, ps[i], if i == 1 then counsel else judge, judge, counsel);
    }
  }
 lemma {:induction false} SplitAllThins(lex: Lexicon, judge: int, counsel: int, segs: seq<Segment>)
    requires SoundFormulas(lex)
    ensures ThinnedBySome(lex, Speech(segs), Speech(SplitAll(lex, judge, counsel, segs)))
    decreases |segs|
  {
    if segs == [] {
      NotThinned(lex, []);
    } else {
      var k := |segs| - 1;
      SplitAllThins(lex, judge, counsel, segs[..k]);
      SplitOneThins(lex, judge, counsel, segs[k]);
      SpeechConcat(SplitAll(lex, judge, counsel, segs[..k]), SplitOne(lex, judge, counsel, segs[k]));
      ThinnedBySomeConcat(lex, Speech(segs[..k]), Speech(SplitAll(lex, judge, counsel, segs[..k])),
                          segs[k].words, Speech(SplitOne(lex, judge, counsel, segs[k])));
    }
  }

  /** Pass 1C keeps every word, in order and with its times, except doubled "lord" tokens. */
  lemma {:induction false} SplitRoundsThin(lex: Lexicon, judge: int, counsel: int, segs: seq<Segment>, rounds: nat)
    requires SoundFormulas(lex)
    ensures ThinnedBySome(lex, Speech(segs), Speech(SplitRounds(lex, judge, counsel, segs, rounds)))
    decreases rounds
  {
    if rounds == 0 {
      NotThinned(lex, Speech(segs));
    } else {
      SplitAllThins(lex, judge, counsel, segs);
      var next := SplitAll(lex, judge, counsel, segs);
      if |next| > |segs| {
        SplitRoundsThin(lex, judge, counsel, next, rounds - 1);
        ThinnedBySomeTrans(lex, Speech(segs), Speech(next), Speech(SplitRounds(lex, judge, counsel, next, rounds - 1)));
      }
    }
  }

  /** What a segment may have: a speaker of some set, words, one label, the start of its words. */
  datatype Aspect = Inside(speakers: set<int>) | HasWords | OneLabel | Starts

  ghost predicate Has(p: Aspect, s: Segment) {
    match p
    case Inside(speakers) => s.speaker in speakers
    case HasWords => s.words != []
    case OneLabel => Labelled(s.words, s.speaker)
    case Starts => Started(s)
  }

  ghost predicate AllHave(p: Aspect, segs: seq<Segment>) { forall i :: 0 <= i < |segs| ==> Has(p, segs[i]) }

  /** Judge and counsel may speak, as far as speakers matter. */
  ghost predicate Admits(p: Aspect, judge: int, counsel: int) {
    p.Inside? ==> judge in p.speakers && counsel in p.speakers
  }

  lemma {:induction false} SplitOneKeeps(lex: Lexicon, judge: int, counsel: int, s: Segment, p: Aspect)
    requires SoundFormulas(lex) && Admits(p, judge, counsel) && Has(p, s)
    ensures AllHave(p, SplitOne(lex, judge, counsel, s))
  {
    var c := CutOf(lex, judge, s);
    if c.Some? {
      CutOfFits(lex, judge, s);
      CutUpPieces(lex, judge, counsel, s, c.value);
      CleanPiecesHave(CutUp(lex, judge, counsel, s, c.value), judge, counsel, p);
    }
  }

  lemma {:induction false} CleanPiecesHave(r: seq<Segment>, judge: int, counsel: int, p: Aspect)
    requires CleanPieces(r, judge, counsel) && Admits(p, judge, counsel)
    ensures AllHave(p, r)
  {
    forall i | 0 <= i < |r| ensures Has(p, r[i]) {
      assert CleanPiece(r[i], judge, counsel);
    }
  }

  lemma {:induction false} SplitAllKeeps(lex: Lexicon, judge: int, counsel: int, segs: seq<Segment>, p: Aspect)
    requires SoundFormulas(lex) && Admits(p, judge, counsel) && AllHave(p, segs)
    ensures AllHave(p, SplitAll(lex, judge, counsel, segs))
    decreases |segs|
  {
    if segs != [] {
      SplitAllKeeps(lex, judge, counsel, segs[..|segs| - 1], p);
      SplitOneKeeps(lex, judge, counsel, segs[|segs| - 1], p);
    }
  }

  lemma {:induction false} RoundsKeep(
    lex: Lexicon, judge: int, counsel: int, segs: seq<Segment>, rounds: nat, p: Aspect) returns (r: seq<Segment>)
    requires SoundFormulas(lex) && Admits(p, judge, counsel) && AllHave(p, segs)
    ensures r == SplitRounds(lex, judge, counsel, segs, rounds) && AllHave(p, r)
    decreases rounds
  {
    if rounds == 0 {
      return segs;
    }
    var next := SplitAll(lex, judge, counsel, segs);
    SplitAllKeeps(lex, judge, counsel, segs, p);
    r := AfterRound(lex, judge, counsel, segs, next, rounds);
    if |next| > |segs| {
      r := RoundsKeep(lex, judge, counsel, next, rounds - 1, p);
    }
  }

  lemma {:induction false} AfterRound(
    lex: Lexicon, judge: int, counsel: int, segs: seq<Segment>, next: seq<Segment>, rounds: nat)
    returns (r: seq<Segment>)
    requires SoundFormulas(lex) && rounds > 0 && next == SplitAll(lex, judge, counsel, segs)
    ensures r == SplitRounds(lex, judge, counsel, segs, rounds)
    ensures |next| > |segs| ==> r == SplitRounds(lex, judge, counsel, next, rounds - 1)
    ensures |next| <= |segs| ==> r == next
  {
    r := SplitRounds(lex, judge, counsel, segs, rounds);
  }

  lemma {:induction false} Aspects(segs: seq<Segment>, S: set<int>)
    ensures Within(segs, S) <==> AllHave(Inside(S), segs)
    ensures NoEmpty(segs) <==> AllHave(HasWords, segs)
    ensures UniformSegments(segs) <==> AllHave(OneLabel, segs)
    ensures AllStarted(segs) <==> AllHave(Starts, segs)
  {
  }

  /** If segs has no speaker outside S, r has none; and so for empty segments, uniform labels and
      agreement with the starts of the words. */
  ghost predicate StaysSound(segs: seq<Segment>, r: seq<Segment>, S: set<int>) {
    && (Within(segs, S) ==> Within(r, S))
    && (NoEmpty(segs) ==> NoEmpty(r))
    && (UniformSegments(segs) ==> UniformSegments(r))
    && (AllStarted(segs) ==> AllStarted(r))
  }

  /** Pass 1C introduces no speaker, empties no segment, and leaves labels uniform and starts in
      agreement with the words. */
  lemma {:induction false} SplitRoundsKeep(
    lex: Lexicon, judge: int, counsel: int, segs: seq<Segment>, rounds: nat, S: set<int>)
    requires SoundFormulas(lex) && judge in S && counsel in S
    ensures StaysSound(segs, SplitRounds(lex, judge, counsel, segs, rounds), S)
  {
    var r := SplitRounds(lex, judge, counsel, segs, rounds);
    forall p | Admits(p, judge, counsel) && AllHave(p, segs) ensures AllHave(p, r) {
      var _ := RoundsKeep(lex, judge, counsel, segs, rounds, p);
    }
    Aspects(segs, S);
    Aspects(r, S);
    assert Admits(Inside(S), judge, counsel);
  }
}
