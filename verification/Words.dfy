/**
  Transcript words, and the vocabulary the passes consult. Times are integer milliseconds,
  speakers are the numbers of the SPEAKER_nn labels.
 */
module Words {

  datatype Word = Word(text: string, start: int, end: int, speaker: int)

  /** A courtroom formula spoken by counsel, and what pass 1C may do where it occurs. */
  datatype Formula = Formula(tokens: seq<string>, kind: FormulaKind)

  /** MyLord splits only at the end of a judge's segment; YesMyLord may open counsel's answer,
      its variant with a doubled last token losing the double; Plain is cut out. */
  datatype FormulaKind = MyLord | YesMyLord(doubled: bool) | Plain

  /**
    The word lists and compiled patterns of the pipeline. Every result holds whatever they
    contain; CourtVocabulary spells out the word lists.
   */
  datatype Lexicon = Lexicon(
    clean: string -> string,            // lower-cased, edge punctuation stripped
    endsTerminal: string -> bool,       // text ends in . ? ! after stripping blanks
    endsClause: string -> bool,         // text ends in . ? !
    startsUpper: string -> bool,
    render: seq<string> -> string,      // non-blank texts joined by single blanks
    formulaEnd: string -> bool,         // cleaned token closes a courtroom formula
    backchannel: string -> bool,        // cleaned token is a backchannel by itself
    lordTitle: string -> bool,          // lord, lordship, ladyship
    affirmation: string -> bool,        // text is a one-word answer
    formulas: seq<Formula>,             // tried in this order
    doubled: seq<string>,               // yes my lord lord
    notBeforeMyLord: string -> bool,    // yes, no, grateful, sorry, objection
    fileMotion: string -> bool,         // contains "file a motion"
    honorificTail: string -> bool,      // completes "my" or "your"
    takesFor: string -> bool,           // asked, prayed, ...
    takesOf: string -> bool,            // address, service, ...
    opensTurn: string -> bool,          // my, as, i'm, file, ...
    formulaPair: (string, string) -> bool,
    severed: (seq<string>, seq<string>, bool) -> bool, // tail tokens, head tokens, tail is the judge's
    onset: string -> bool,              // tokens that open a turn after a full stop
    bare: string -> string,             // lower-cased, edge punctuation and blanks stripped
    counselHonorific: string -> bool,   // patterns, ignoring case: on whole texts, in pass 2 on bare ones
    benchInquiry: string -> bool,
    judgeAuthority: string -> bool,
    judgeDirective: string -> bool,
    submission: string -> bool,
    clarification: string -> bool,
    counselArgument: string -> bool,
    shortAffirmation: string -> bool,
    danglingEnd: string -> bool)        // last token is a dangling conjunction
  {
    predicate Terminal(w: Word) { endsTerminal(w.text) }

    function Token(w: Word): string { clean(w.text) }

    /** A sentence or a courtroom formula ends here. */
    predicate Boundary(w: Word) { Terminal(w) || formulaEnd(Token(w)) }

    function Tokens(ws: seq<Word>): (r: seq<string>)
      ensures |r| == |ws| && forall i :: 0 <= i < |ws| ==> r[i] == Token(ws[i])
    {
      seq(|ws|, i requires 0 <= i < |ws| => Token(ws[i]))
    }

    /** Tokens that the one at position j shows to be backchannel: the interval [lo, hi]. */
    function BackchannelAt(toks: seq<string>, j: nat): (r: (int, int))
      requires j < |toks|
      ensures r.0 <= r.1 ==> 0 <= r.0 && r.1 < |toks|
    {
      var t, n := toks[j], |toks|;
      if backchannel(t) then (j, j)
      else if t == "my" && j + 1 < n && lordTitle(toks[j + 1]) then (j, j + 1)
      else if lordTitle(t) && j > 0 && (toks[j - 1] == "my" || toks[j - 1] == "your") then (j - 1, j)
      else if (t == "i'm" || t == "am") && j + 1 < n && toks[j + 1] == "grateful" then (j, j + 1)
      else if t == "as" && j + 3 < n && toks[j..j + 4] == ["as", "the", "court", "pleases"] then (j, j + 3)
      else (1, 0)
    }

    /** First and last backchannel position among those shown by the first n tokens. */
    function BackchannelSpan(toks: seq<string>, n: nat): (r: (int, int))
      requires n <= |toks|
      ensures r.0 <= r.1 ==> 0 <= r.0 && r.1 < |toks|
    {
      if n == 0 then (1, 0)
      else
        var before, here := BackchannelSpan(toks, n - 1), BackchannelAt(toks, n - 1);
        if here.0 > here.1 then before
        else if before.0 > before.1 then here
        else (if here.0 < before.0 then here.0 else before.0, if here.1 < before.1 then before.1 else here.1)
    }

    function Backchannels(ws: seq<Word>): (r: (int, int))
      ensures r.0 <= r.1 ==> 0 <= r.0 && r.1 < |ws|
    {
      BackchannelSpan(Tokens(ws), |ws|)
    }
  }

  /** Formulas have tokens, and the only one to lose a token is the doubled one. */
  ghost predicate SoundFormulas(lex: Lexicon) {
    && |lex.doubled| == 4
    && (forall f :: f in lex.formulas ==> |f.tokens| > 0)
    && (forall f :: f in lex.formulas && f.kind == YesMyLord(true) ==> f.tokens == lex.doubled)
  }

  /** The spellings the passes write clean back to the tokens they stand for. */
  ghost predicate SoundSpelling(lex: Lexicon) {
    && lex.clean("My") == "my" && lex.clean("Your") == "your" && lex.clean("Lord.") == "lord"
    && lex.clean("Yes.") == "yes"
  }

  // ---------------------------------------------------------------- word sequences

  /** The same word, whoever is said to have spoken it. */
  predicate SameToken(a: Word, b: Word) {
    a.text == b.text && a.start == b.start && a.end == b.end
  }

  ghost predicate SameTokens(a: seq<Word>, b: seq<Word>) {
    |a| == |b| && forall i :: 0 <= i < |a| ==> SameToken(a[i], b[i])
  }

  function Relabel(ws: seq<Word>, speaker: int): (r: seq<Word>)
    ensures |r| == |ws| && forall i :: 0 <= i < |ws| ==> r[i] == ws[i].(speaker := speaker)
  {
    seq(|ws|, i requires 0 <= i < |ws| => ws[i].(speaker := speaker))
  }

  ghost predicate Labelled(ws: seq<Word>, speaker: int) {
    forall i :: 0 <= i < |ws| ==> ws[i].speaker == speaker
  }
}
