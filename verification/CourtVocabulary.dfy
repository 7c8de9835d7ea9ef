/**
  The part of the vocabulary the results depend on, spelled out: the formulas of pass 1C, and how
  a token is cleaned, for letters without accents.
 */
module CourtVocabulary {
  import NumberTexts
  import opened Texts
  import opened Words

  function Formulas(): seq<Formula> {
    [ Formula(["no", "no", "no", "my", "lord"], Plain),
      Formula(["no", "no", "my", "lord"], Plain),
      Formula(Doubled(), YesMyLord(true)),
      Formula(["yes", "my", "lord"], YesMyLord(false)),
      Formula(["no", "my", "lord"], Plain),
      Formula(["as", "the", "court", "pleases"], Plain),
      Formula(["i'm", "grateful", "my", "lord"], Plain),
      Formula(["am", "grateful", "my", "lord"], Plain),
      Formula(["i'm", "grateful"], Plain),
      Formula(["am", "grateful"], Plain),
      Formula(["my", "lord"], MyLord) ]
  }

  function Doubled(): seq<string> { ["yes", "my", "lord", "lord"] }

  /** The characters stripped by the pipeline: those of the normalizer and the blank. */
  predicate IsEdge(c: char) { c == ' ' || NumberTexts.IsPunctuation(c) }

  /** Lower-cased, without punctuation and blanks at either end. */
  function Clean(s: string): string {
    Stripped(IsEdge, Lower(s))
  }

  /** The lexicon uses these formulas and this cleaning; its patterns and other lists are open. */
  ghost predicate InCourt(lex: Lexicon) {
    lex.formulas == Formulas() && lex.doubled == Doubled() && forall s :: lex.clean(s) == Clean(s)
  }

  lemma {:induction false} NothingStripped(s: string)
    requires s != "" && !IsEdge(s[0]) && !IsEdge(s[|s| - 1])
    ensures Stripped(IsEdge, s) == s
  {
  }

  lemma {:induction false} DotStripped(s: string)
    requires s != "" && !IsEdge(s[0]) && !IsEdge(s[|s| - 1])
    ensures Stripped(IsEdge, s + ".") == s
  {
    assert StripLeft(IsEdge, s + ".") == s + ".";
    StripRightDrops(IsEdge, s, ".");
  }

  lemma {:induction false} LetterStays(c: char)
    requires 'a' <= c <= 'z'
    ensures !IsEdge(c)
  {
  }

  lemma {:induction false} CleanMy()
    ensures Clean("My") == "my" && Clean("Your") == "your"
  {
    assert Lower("My") == "my";
    assert Lower("Your") == "your";
    LetterStays('m');
    LetterStays('y');
    LetterStays('r');
    NothingStripped("my");
    NothingStripped("your");
  }

  lemma {:induction false} CleanAnswers()
    ensures Clean("Lord.") == "lord" && Clean("Yes.") == "yes"
  {
    assert Lower("Lord.") == "lord" + ".";
    assert Lower("Yes.") == "yes" + ".";
    LetterStays('l');
    LetterStays('d');
    LetterStays('y');
    LetterStays('s');
    DotStripped("lord");
    DotStripped("yes");
  }

  /** What the results about pass 1C and the whole stage ask of a lexicon holds in court. */
  lemma {:induction false} CourtIsSound(lex: Lexicon)
    requires InCourt(lex)
    ensures SoundFormulas(lex) && SoundSpelling(lex)
  {
    CleanMy();
    CleanAnswers();
    var fs := Formulas();
    forall f | f in fs ensures |f.tokens| > 0 && (f.kind == YesMyLord(true) ==> f.tokens == lex.doubled) {
      var i :| 0 <= i < |fs| && fs[i] == f;
    }
  }
}
