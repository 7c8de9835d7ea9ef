module CutLaws {
  /**
    Where pass 1C cuts a segment and whose each piece is, said without the functions that search
    and cut: the judge speaks before the cut, counsel says the formula, and after a formula that
    was cut out the judge goes on.
   */
  import opened Options
  import opened Words
  import opened Segments
  import opened Sequences
  import opened FormulaSplit

  // ---------------------------------------------------------------- what asks for a cut

  ghost predicate TokensAt(lex: Lexicon, ws: seq<Word>, f: Formula, i: nat) {
    i + |f.tokens| <= |ws| && forall j :: 0 <= j < |f.tokens| ==> lex.clean(ws[i + j].text) == f.tokens[j]
  }

  /** The judge's speech holds a "Sir?" of its own, neither first nor last, after a sentence end. */
  ghost predicate SirAt(lex: Lexicon, judge: int, s: Segment, i: nat) {
    && s.speaker == judge && 1 <= i && i + 1 < |s.words|
    && lex.clean(s.words[i].text) == "sir"
    && lex.endsTerminal(s.words[i].text) && lex.endsTerminal(s.words[i - 1].text)
  }

  /** "My Lord" at the very end of the judge's speech, not after "yes", "no" and the like. */
  ghost predicate Closing(lex: Lexicon, judge: int, s: Segment, f: Formula, i: nat) {
    && f.kind.MyLord? && 1 <= i <= |s.words| && i + |f.tokens| == |s.words| && s.speaker == judge
    && !lex.notBeforeMyLord(lex.clean(s.words[i - 1].text))
  }

  /** "Yes, my Lord" after an inquiry of the bench. */
  ghost predicate Answering(lex: Lexicon, s: Segment, f: Formula, i: nat) {
    f.kind.YesMyLord? && i <= |s.words| && lex.benchInquiry(lex.render(lex.Tokens(s.words[..i])))
  }

  /** Any other formula with words after it, in the judge's speech or after "file a motion". */
  ghost predicate Embedded(lex: Lexicon, judge: int, s: Segment, f: Formula, i: nat) {
    && !f.kind.MyLord? && !Answering(lex, s, f, i) && i + |f.tokens| < |s.words|
    && (s.speaker == judge || lex.fileMotion(lex.render(lex.Tokens(s.words[..i]))))
  }

  ghost predicate FormulaAt(lex: Lexicon, judge: int, s: Segment, f: Formula, i: nat) {
    && 1 <= i && TokensAt(lex, s.words, f, i)
    && (Closing(lex, judge, s, f, i) || Answering(lex, s, f, i) || Embedded(lex, judge, s, f, i))
  }

  // ---------------------------------------------------------------- whose the pieces are

  /** These words, said by this speaker, with times and text of their own. */
  ghost predicate Says(lex: Lexicon, p: Segment, speaker: int, ws: seq<Word>) {
    ws != [] && p.speaker == speaker && SameTokens(p.words, ws) && InOrder(lex, p)
  }

  /** Judge, counsel, and the judge again. */
  ghost predicate InThree(lex: Lexicon, judge: int, counsel: int, ws: seq<Word>, i: nat, n: nat, r: seq<Segment>) {
    && i + n <= |ws| && |r| == 3
    && Says(lex, r[0], judge, ws[..i]) && Says(lex, r[1], counsel, ws[i..i + n])
    && Says(lex, r[2], judge, ws[i + n..])
  }

  /** Judge, then counsel. */
  ghost predicate InTwo(
    lex: Lexicon, judge: int, counsel: int, lead: seq<Word>, rest: seq<Word>, r: seq<Segment>)
  {
    |r| == 2 && Says(lex, r[0], judge, lead) && Says(lex, r[1], counsel, rest)
  }

  /** The formula at i is counsel's, and so is what follows it if it answers an inquiry, without
      the doubled "lord"; otherwise the judge has what follows. */
  ghost predicate CutThere(
    lex: Lexicon, judge: int, counsel: int, s: Segment, f: Formula, i: nat, r: seq<Segment>)
  {
    && i + |f.tokens| <= |s.words|
    && (Closing(lex, judge, s, f, i) ==> InTwo(lex, judge, counsel, s.words[..i], s.words[i..], r))
    && (Answering(lex, s, f, i) ==>
          i + (if f.kind.doubled then 4 else 0) <= |s.words|
          && InTwo(lex, judge, counsel, s.words[..i], AnswerFrom(s.words, i, f.kind.doubled), r))
    && (Embedded(lex, judge, s, f, i) ==> InThree(lex, judge, counsel, s.words, i, |f.tokens|, r))
  }

  ghost function AnswerFrom(ws: seq<Word>, i: nat, doubled: bool): seq<Word>
    requires i + (if doubled then 4 else 0) <= |ws|
  {
    if doubled then ws[i..i + 3] + ws[i + 4..] else ws[i..]
  }

  // ---------------------------------------------------------------- one segment

  ghost predicate NoSir(lex: Lexicon, judge: int, s: Segment, i: nat, n: nat) {
    forall j: nat :: i <= j < n ==> !SirAt(lex, judge, s, j)
  }

  ghost predicate NoFormula(lex: Lexicon, judge: int, s: Segment, f: Formula, i: nat, n: nat) {
    forall j: nat :: i <= j < n ==> !FormulaAt(lex, judge, s, f, j)
  }

  /** None of the formulas from m to n - 1 asks for a cut. */
  ghost predicate NoneOf(lex: Lexicon, judge: int, s: Segment, m: nat, n: nat) {
    n <= |lex.formulas| && forall k :: m <= k < n ==> NoFormula(lex, judge, s, lex.formulas[k], 0, |s.words|)
  }

  ghost predicate CutAtSir(lex: Lexicon, judge: int, counsel: int, s: Segment, i: nat, r: seq<Segment>) {
    SirAt(lex, judge, s, i) && NoSir(lex, judge, s, 0, i) && InThree(lex, judge, counsel, s.words, i, 1, r)
  }

  ghost predicate CutAtFormula(
    lex: Lexicon, judge: int, counsel: int, s: Segment, k: nat, i: nat, r: seq<Segment>)
  {
    && NoSir(lex, judge, s, 0, |s.words|) && k < |lex.formulas| && NoneOf(lex, judge, s, 0, k)
    && FormulaAt(lex, judge, s, lex.formulas[k], i) && NoFormula(lex, judge, s, lex.formulas[k], 0, i)
    && CutThere(lex, judge, counsel, s, lex.formulas[k], i, r)
  }

  /** A segment of four words or more is cut at its first "Sir?"; without one, at the first place
      of the first formula that asks for it; without that it stays. */
  ghost predicate SplitAsAsked(lex: Lexicon, judge: int, counsel: int, s: Segment, r: seq<Segment>) {
    || (r == [s]
        && (|s.words| < 4 || (NoSir(lex, judge, s, 0, |s.words|) && NoneOf(lex, judge, s, 0, |lex.formulas|))))
    || (|s.words| >= 4 && exists i: nat :: CutAtSir(lex, judge, counsel, s, i, r))
    || (|s.words| >= 4 && exists k: nat, i: nat :: CutAtFormula(lex, judge, counsel, s, k, i, r))
  }

  // ---------------------------------------------------------------- what the searches find

  lemma {:induction false} SirFound(lex: Lexicon, judge: int, s: Segment, i: nat) returns (k: nat)
    requires 1 <= i <= |s.words| && s.speaker == judge
    ensures k <= |s.words| && NoSir(lex, judge, s, i, k)
    ensures if k == |s.words| then FirstSir(lex, s.words, i) == None
            else SirAt(lex, judge, s, k) && FirstSir(lex, s.words, i) == Some(Triple(k, 1))
    decreases |s.words| - i
  {
    if i + 1 >= |s.words| {
      k := |s.words|;
    } else if LoneSir(lex, s.words, i) {
      k := i;
    } else {
      k := SirFound(lex, judge, s, i + 1);
    }
  }

  lemma {:induction false} FormulaAtIff(lex: Lexicon, judge: int, s: Segment, f: Formula, i: nat) returns (b: bool)
    requires 1 <= i && i + |f.tokens| <= |s.words|
    ensures b == FormulaAt(lex, judge, s, f, i)
    ensures b == FormulaCut(lex, judge, s, f, i).Some?
  {
    var toks := lex.Tokens(s.words[i..i + |f.tokens|]);
    assert forall j :: 0 <= j < |f.tokens| ==> toks[j] == lex.clean(s.words[i + j].text);
    assert toks == f.tokens <==> TokensAt(lex, s.words, f, i);
    b := FormulaCut(lex, judge, s, f, i).Some?;
  }

  lemma {:induction false} NoRoom(lex: Lexicon, judge: int, s: Segment, f: Formula, i: nat, n: nat)
    requires i + |f.tokens| > |s.words|
    ensures NoFormula(lex, judge, s, f, i, n)
  {
  }

  lemma {:induction false} OneMoreWithout(lex: Lexicon, judge: int, s: Segment, f: Formula, i: nat, m: nat, n: nat)
    requires m == i + 1 && !FormulaAt(lex, judge, s, f, i) && NoFormula(lex, judge, s, f, m, n)
    ensures NoFormula(lex, judge, s, f, i, n)
  {
  }

  lemma {:induction false} SearchStep(lex: Lexicon, judge: int, s: Segment, f: Formula, i: nat, m: nat)
    returns (b: bool)
    requires 1 <= i && m == i + 1 && |f.tokens| > 0 && i + |f.tokens| <= |s.words|
    ensures b == FormulaAt(lex, judge, s, f, i)
    ensures b ==> FormulaCut(lex, judge, s, f, i).Some?
    ensures FirstForFormula(lex, judge, s, f, i)
         == if b then FormulaCut(lex, judge, s, f, i) else FirstForFormula(lex, judge, s, f, m)
  {
    b := FormulaAtIff(lex, judge, s, f, i);
  }

  lemma {:induction false} FormulaFound(lex: Lexicon, judge: int, s: Segment, f: Formula, i: nat)
    returns (k: nat, c: Option<Cut>)
    requires 1 <= i <= |s.words| && |f.tokens| > 0
    ensures c == FirstForFormula(lex, judge, s, f, i)
    ensures k <= |s.words| && NoFormula(lex, judge, s, f, i, k)
    ensures if k == |s.words| then c == None else CutFound(lex, judge, s, f, k, c)
    decreases |s.words| - i
  {
    if i + |f.tokens| > |s.words| {
      NoRoom(lex, judge, s, f, i, |s.words|);
      return |s.words|, None;
    }
    var m := i + 1;
    var b := SearchStep(lex, judge, s, f, i, m);
    if b {
      return i, FormulaCut(lex, judge, s, f, i);
    }
    k, c := FormulaFound(lex, judge, s, f, m);
    OneMoreWithout(lex, judge, s, f, i, m, k);
  }

  /** The formula asks for cut c at k. */
  ghost predicate CutFound(lex: Lexicon, judge: int, s: Segment, f: Formula, k: nat, c: Option<Cut>) {
    && 1 <= k && k + |f.tokens| <= |s.words|
    && FormulaAt(lex, judge, s, f, k) && c.Some? && c == FormulaCut(lex, judge, s, f, k)
  }

  lemma {:induction false} NotFirstWord(lex: Lexicon, judge: int, s: Segment, f: Formula, n: nat)
    requires NoFormula(lex, judge, s, f, 1, n)
    ensures NoFormula(lex, judge, s, f, 0, n)
  {
  }

  lemma {:induction false} FirstFound(lex: Lexicon, judge: int, s: Segment, m: nat)
    returns (k: nat, i: nat, c: Option<Cut>)
    requires SoundFormulas(lex) && |s.words| >= 4 && m <= |lex.formulas|
    ensures c == FirstFormulaCut(lex, judge, s, lex.formulas[m..])
    ensures m <= k && NoneOf(lex, judge, s, m, k)
    ensures if k == |lex.formulas| then c == None
            else CutFound(lex, judge, s, lex.formulas[k], i, c) && NoFormula(lex, judge, s, lex.formulas[k], 0, i)
    decreases |lex.formulas| - m
  {
    if m == |lex.formulas| {
      return m, 0, None;
    }
    assert lex.formulas[m..][1..] == lex.formulas[m + 1..];
    var f := lex.formulas[m];
    i, c := FormulaFound(lex, judge, s, f, 1);
    NotFirstWord(lex, judge, s, f, i);
    if i < |s.words| {
      return m, i, c;
    }
    k, i, c := FirstFound(lex, judge, s, m + 1);
  }

  // ---------------------------------------------------------------- what the cut makes

  lemma {:induction false} PieceSays(lex: Lexicon, s: Segment, ws: seq<Word>, speaker: int)
    requires ws != []
    ensures Says(lex, Piece(lex, s, ws, speaker), speaker, ws)
  {
    assert Texts(Piece(lex, s, ws, speaker).words) == Texts(ws);
  }

  lemma {:induction false} PieceAt(
    lex: Lexicon, judge: int, counsel: int, s: Segment, ps: seq<seq<Word>>, j: nat, speaker: int)
    requires j < |ps| && ps[j] != [] && speaker == if j == 1 then counsel else judge
    ensures Says(lex, Pieces(lex, judge, counsel, s, ps)[j], speaker, ps[j])
  {
    PieceSays(lex, s, ps[j], speaker);
  }

  lemma {:induction false} TripleMakes(lex: Lexicon, judge: int, counsel: int, s: Segment, i: nat, n: nat)
    requires 0 < i && 0 < n && i + n < |s.words|
    ensures InThree(lex, judge, counsel, s.words, i, n, CutUp(lex, judge, counsel, s, Triple(i, n)))
  {
    var ps := PartsOf(lex, s.words, Triple(i, n));
    PieceAt(lex, judge, counsel, s, ps, 0, judge);
    PieceAt(lex, judge, counsel, s, ps, 1, counsel);
    PieceAt(lex, judge, counsel, s, ps, 2, judge);
  }

  lemma {:induction false} PairMakes(lex: Lexicon, judge: int, counsel: int, s: Segment, i: nat, dedup: bool)
    requires CutFits(lex, s.words, Pair(i, dedup)) && i + (if dedup then 4 else 0) <= |s.words|
    ensures InTwo(lex, judge, counsel, s.words[..i], AnswerFrom(s.words, i, dedup),
                  CutUp(lex, judge, counsel, s, Pair(i, dedup)))
  {
    var left := Left(s.words, i, dedup);
    assert left[..i] == s.words[..i];
    assert left[i..] == AnswerFrom(s.words, i, dedup);
    var ps := PartsOf(lex, s.words, Pair(i, dedup));
    PieceAt(lex, judge, counsel, s, ps, 0, judge);
    PieceAt(lex, judge, counsel, s, ps, 1, counsel);
  }

  lemma {:induction false} CutMakes(lex: Lexicon, judge: int, counsel: int, s: Segment, f: Formula, i: nat, c: Cut)
    requires SoundFormula(lex, f) && CutFound(lex, judge, s, f, i, Some(c)) && CutFits(lex, s.words, c)
    ensures CutThere(lex, judge, counsel, s, f, i, CutUp(lex, judge, counsel, s, c))
  {
    match c
    case Pair(at, dedup) =>
      PairMakes(lex, judge, counsel, s, at, dedup);
    case Triple(at, n) =>
      TripleMakes(lex, judge, counsel, s, at, n);
  }

  /** One segment, exactly: where it is cut and whose the pieces are. */
  lemma {:induction false} SplitOneLaw(lex: Lexicon, judge: int, counsel: int, s: Segment)
    requires SoundFormulas(lex)
    ensures SplitAsAsked(lex, judge, counsel, s, SplitOne(lex, judge, counsel, s))
  {
    var r := SplitOne(lex, judge, counsel, s);
    if |s.words| >= 4 {
      if s.speaker == judge {
        var i := SirFound(lex, judge, s, 1);
        if i < |s.words| {
          TripleMakes(lex, judge, counsel, s, i, 1);
          assert CutAtSir(lex, judge, counsel, s, i, r);
          return;
        }
      }
      FormulaLaw(lex, judge, counsel, s);
    }
  }

  lemma {:induction false} FormulaLaw(lex: Lexicon, judge: int, counsel: int, s: Segment)
    requires SoundFormulas(lex) && |s.words| >= 4 && NoSir(lex, judge, s, 0, |s.words|)
    requires CutOf(lex, judge, s) == FirstFormulaCut(lex, judge, s, lex.formulas)
    ensures SplitAsAsked(lex, judge, counsel, s, SplitOne(lex, judge, counsel, s))
  {
    var r := SplitOne(lex, judge, counsel, s);
    assert lex.formulas[0..] == lex.formulas;
    var k, i, c := FirstFound(lex, judge, s, 0);
    if k < |lex.formulas| {
      CutOfFits(lex, judge, s);
      CutMakes(lex, judge, counsel, s, lex.formulas[k], i, c.value);
      assert CutAtFormula(lex, judge, counsel, s, k, i, r);
    }
  }

  // ---------------------------------------------------------------- the transcript

  /** r holds, segment by segment, what each was cut into. */
  ghost predicate EachSplit(
    lex: Lexicon, judge: int, counsel: int, segs: seq<Segment>, parts: seq<seq<Segment>>, r: seq<Segment>)
  {
    && |parts| == |segs| && r == Concat(parts)
    && forall i :: 0 <= i < |segs| ==> SplitAsAsked(lex, judge, counsel, segs[i], parts[i])
  }

  /** One sweep turns segs into r. */
  ghost predicate SweptInto(lex: Lexicon, judge: int, counsel: int, segs: seq<Segment>, r: seq<Segment>) {
    exists parts :: EachSplit(lex, judge, counsel, segs, parts, r)
  }

  lemma {:induction false} EachSplitSnoc(
    lex: Lexicon, judge: int, counsel: int, segs: seq<Segment>, r: seq<Segment>,
    s: Segment, last: seq<Segment>, all: seq<Segment>)
    requires SweptInto(lex, judge, counsel, segs, r) && SplitAsAsked(lex, judge, counsel, s, last)
    requires all == segs + [s]
    ensures SweptInto(lex, judge, counsel, all, r + last)
  {
    var parts :| EachSplit(lex, judge, counsel, segs, parts, r);
    var split := parts + [last];
    ConcatSnoc(parts, last);
    forall i | 0 <= i < |all| ensures SplitAsAsked(lex, judge, counsel, all[i], split[i]) {
      if i < |segs| {
        assert SplitAsAsked(lex, judge, counsel, segs[i], parts[i]);
      }
    }
    assert EachSplit(lex, judge, counsel, all, split, r + last);
  }

  lemma {:induction false} NothingSwept(lex: Lexicon, judge: int, counsel: int, segs: seq<Segment>)
    requires segs == []
    ensures SweptInto(lex, judge, counsel, segs, [])
  {
    assert EachSplit(lex, judge, counsel, segs, [], []);
  }

  lemma {:induction false} SplitAllLaw(lex: Lexicon, judge: int, counsel: int, segs: seq<Segment>)
    requires SoundFormulas(lex)
    ensures SweptInto(lex, judge, counsel, segs, SplitAll(lex, judge, counsel, segs))
    decreases |segs|
  {
    if segs == [] {
      NothingSwept(lex, judge, counsel, segs);
    } else {
      var before, s := segs[..|segs| - 1], segs[|segs| - 1];
      SplitAllLaw(lex, judge, counsel, before);
      SplitOneLaw(lex, judge, counsel, s);
      var r, last := SplitAll(lex, judge, counsel, before), SplitOne(lex, judge, counsel, s);
      EachSplitSnoc(lex, judge, counsel, before, r, s, last, segs);
    }
  }

  /** Each state is swept into the next; every sweep but the last made more segments. */
  ghost predicate SweptInTurn(lex: Lexicon, judge: int, counsel: int, states: seq<seq<Segment>>) {
    && (forall i :: 0 < i < |states| ==> SweptInto(lex, judge, counsel, states[i - 1], states[i]))
    && (forall i :: 0 < i < |states| - 1 ==> |states[i - 1]| < |states[i]|)
  }

  lemma {:induction false} OneMoreSweep(
    lex: Lexicon, judge: int, counsel: int, segs: seq<Segment>, states: seq<seq<Segment>>)
    returns (all: seq<seq<Segment>>)
    requires |states| >= 1 && SweptInTurn(lex, judge, counsel, states)
    requires SweptInto(lex, judge, counsel, segs, states[0])
    requires |states| == 1 || |segs| < |states[0]|
    ensures |all| == |states| + 1 && all[0] == segs && all[|all| - 1] == states[|states| - 1]
    ensures SweptInTurn(lex, judge, counsel, all)
    ensures |states| > 1 && EndsQuiet(states) ==> EndsQuiet(all)
    ensures |states| == 1 && |states[0]| <= |segs| ==> EndsQuiet(all)
  {
    all := [segs] + states;
    forall i | 0 < i < |all| ensures SweptInto(lex, judge, counsel, all[i - 1], all[i]) {
      if i > 1 {
        assert SweptInto(lex, judge, counsel, states[i - 2], states[i - 1]);
      }
    }
    forall i | 0 < i < |all| - 1 ensures |all[i - 1]| < |all[i]| {
      if i > 1 {
        assert |states[i - 2]| < |states[i - 1]|;
      }
    }
  }

  /** The last sweep made no more segments. */
  ghost predicate EndsQuiet(states: seq<seq<Segment>>) {
    |states| >= 2 && |states[|states| - 1]| <= |states[|states| - 2]|
  }

  /** Pass 1C sweeps the transcript the given number of times, or until a sweep cuts nothing. */
  lemma {:induction false} SplitRoundsLaw(lex: Lexicon, judge: int, counsel: int, segs: seq<Segment>, rounds: nat)
    returns (states: seq<seq<Segment>>)
    requires SoundFormulas(lex) && rounds > 0
    ensures 2 <= |states| <= rounds + 1 && states[0] == segs
    ensures SplitRounds(lex, judge, counsel, segs, rounds) == states[|states| - 1]
    ensures SweptInTurn(lex, judge, counsel, states)
    ensures |states| == rounds + 1 || EndsQuiet(states)
    decreases rounds
  {
    var next := SplitAll(lex, judge, counsel, segs);
    SplitAllLaw(lex, judge, counsel, segs);
    var less := rounds - 1;
    if |next| > |segs| && less > 0 {
      RoundGoesOn(lex, judge, counsel, segs, next, less, rounds);
      var rest := SplitRoundsLaw(lex, judge, counsel, next, less);
      states := OneMoreSweep(lex, judge, counsel, segs, rest);
    } else {
      LastRound(lex, judge, counsel, segs, next, rounds);
      states := OneMoreSweep(lex, judge, counsel, segs, [next]);
    }
  }

  lemma {:induction false} RoundGoesOn(
    lex: Lexicon, judge: int, counsel: int, segs: seq<Segment>, next: seq<Segment>, less: nat, rounds: nat)
    requires SoundFormulas(lex) && rounds == less + 1 && next == SplitAll(lex, judge, counsel, segs)
    requires |next| > |segs|
    ensures SplitRounds(lex, judge, counsel, segs, rounds) == SplitRounds(lex, judge, counsel, next, less)
  {
    NextRound(lex, judge, counsel, segs, rounds);
  }

  lemma {:induction false} LastRound(
    lex: Lexicon, judge: int, counsel: int, segs: seq<Segment>, next: seq<Segment>, rounds: nat)
    requires SoundFormulas(lex) && rounds > 0 && next == SplitAll(lex, judge, counsel, segs)
    requires rounds == 1 || |next| <= |segs|
    ensures SplitRounds(lex, judge, counsel, segs, rounds) == next
  {
  }

  // ---------------------------------------------------------------- an instance

  /** "prayer? Sir? Can I see the order?", all of it labelled as the judge's. */
  function PrayerAndOrder(): Segment {
    var prayer, sir, can := Word("prayer?", 0, 400, 0), Word("Sir?", 500, 800, 0), Word("Can", 900, 1000, 0);
    var i, see := Word("I", 1000, 1100, 0), Word("see", 1100, 1300, 0);
    var the, order := Word("the", 1300, 1400, 0), Word("order?", 1400, 1800, 0);
    Segment(0, 0, 1800, "prayer? Sir? Can I see the order?", [prayer, sir, can, i, see, the, order])
  }

  /** "Sir?" is counsel's, and the judge asks before and after it. */
  lemma {:induction false} SirIsCounsels(lex: Lexicon, s: Segment)
    requires SoundFormulas(lex) && s == PrayerAndOrder()
    requires lex.clean("Sir?") == "sir" && lex.clean("Can") == "can" && lex.clean("prayer?") == "prayer"
    requires lex.endsTerminal("prayer?") && lex.endsTerminal("Sir?")
    ensures var r := SplitOne(lex, 0, 1, s);
      && |r| == 3 && r[0].speaker == 0 && r[1].speaker == 1 && r[2].speaker == 0
      && Texts(r[0].words) == ["prayer?"] && Texts(r[1].words) == ["Sir?"]
      && Texts(r[2].words) == ["Can", "I", "see", "the", "order?"]
  {
    SplitOneLaw(lex, 0, 1, s);
    assert SirAt(lex, 0, s, 1);
    SirThere(lex, s, SplitOne(lex, 0, 1, s), 1);
    ThreeTexts(lex, s, SplitOne(lex, 0, 1, s), 1);
  }

  lemma {:induction false} ThreeTexts(lex: Lexicon, s: Segment, r: seq<Segment>, one: nat)
    requires s == PrayerAndOrder() && one == 1 && InThree(lex, 0, 1, s.words, one, 1, r)
    ensures |r| == 3 && r[0].speaker == 0 && r[1].speaker == 1 && r[2].speaker == 0
    ensures Texts(r[0].words) == ["prayer?"] && Texts(r[1].words) == ["Sir?"]
    ensures Texts(r[2].words) == ["Can", "I", "see", "the", "order?"]
  {
  }

  lemma {:induction false} SirThere(lex: Lexicon, s: Segment, r: seq<Segment>, one: nat)
    requires s == PrayerAndOrder() && one == 1 && SirAt(lex, 0, s, one) && SplitAsAsked(lex, 0, 1, s, r)
    ensures InThree(lex, 0, 1, s.words, one, 1, r)
  {
    assert !NoSir(lex, 0, s, 0, |s.words|);
    var i: nat :| CutAtSir(lex, 0, 1, s, i, r);
    assert i <= one;
  }
}
