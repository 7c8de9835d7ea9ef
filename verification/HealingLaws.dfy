module HealingLaws {
  /**
    Which words move at a boundary, said without the functions that move them: first the honorific,
    then the preposition, then the longest tail that bleeds.
   */
  import opened Options
  import opened Words
  import opened Segments
  import opened BoundaryHealing

  /** The two sides hold these words, up to labels, and both are in order. */
  ghost predicate SidesHold(lex: Lexicon, x: Sides, y: Sides, p: seq<Word>, c: seq<Word>) {
    && y.prev.speaker == x.prev.speaker && y.curr.speaker == x.curr.speaker
    && SameTokens(y.prev.words, p) && SameTokens(y.curr.words, c)
    && InOrder(lex, y.prev) && InOrder(lex, y.curr)
  }

  lemma {:induction false} RegroupedHold(lex: Lexicon, x: Sides, p: seq<Word>, c: seq<Word>)
    ensures SidesHold(lex, x, Regrouped(lex, x, p, c), p, c)
  {
    var y := Regrouped(lex, x, p, c);
    assert p != [] ==> Texts(y.prev.words) == Texts(p);
    assert c != [] ==> Texts(y.curr.words) == Texts(c);
  }

  // ---------------------------------------------------------------- the three repairs

  /** prev ends in "my" or "your" and curr begins with a word that completes it. */
  ghost predicate HonorificCut(lex: Lexicon, x: Sides) {
    && x.prev.words != [] && x.curr.words != []
    && lex.clean(x.prev.words[|x.prev.words| - 1].text) in {"my", "your"}
    && lex.honorificTail(lex.clean(x.curr.words[0].text))
  }

  ghost function Capitalised(lex: Lexicon, text: string): string {
    if lex.clean(text) == "lord" && !lex.endsTerminal(text) then "Lord." else text
  }

  /** If an honorific is cut, its second word ends prev and the first is capitalised; an
      unpunctuated "lord" gets its capital and a full stop. */
  ghost predicate HonorificHealed(lex: Lexicon, x: Sides, y: Sides) {
    if !HonorificCut(lex, x) then y == x
    else
      var p, c := x.prev.words, x.curr.words;
      exists a, b ::
        && SidesHold(lex, x, y, p[..|p| - 1] + [a, b], c[1..])
        && a == p[|p| - 1].(text := if lex.clean(p[|p| - 1].text) == "my" then "My" else "Your")
        && b == c[0].(text := Capitalised(lex, c[0].text))
  }

  /** prev ends in the middle of a sentence on a word that asks for the preposition curr begins
      with, and what follows the preposition is another turn. */
  ghost predicate PrepositionCut(lex: Lexicon, x: Sides) {
    && x.prev.words != [] && |x.curr.words| >= 2
    && var last, c := x.prev.words[|x.prev.words| - 1], x.curr.words;
      && !lex.endsTerminal(last.text)
      && (|| (lex.takesFor(lex.clean(last.text)) && lex.clean(c[0].text) == "for")
          || (lex.takesOf(lex.clean(last.text)) && lex.clean(c[0].text) == "of"))
      && (lex.backchannel(lex.clean(c[1].text)) || lex.opensTurn(lex.clean(c[1].text)) || lex.endsTerminal(c[0].text))
  }

  ghost predicate PrepositionHealed(lex: Lexicon, x: Sides, y: Sides) {
    if !PrepositionCut(lex, x) then y == x
    else SidesHold(lex, x, y, x.prev.words + [x.curr.words[0]], x.curr.words[1..])
  }

  /** The last n words of prev make no sense without the first three of curr. */
  ghost predicate Severed(lex: Lexicon, roles: Roles, x: Sides, n: nat)
    requires n <= |x.prev.words|
  {
    var p, c := x.prev.words, x.curr.words;
    lex.severed(lex.Tokens(p[|p| - n..]), lex.Tokens(c[..if |c| < 3 then |c| else 3]),
                roles.judge == Some(x.prev.speaker))
  }

  /** Counsel says at most six words that end in a formula before the last n, and the judge is next. */
  ghost predicate FormulaBefore(lex: Lexicon, roles: Roles, x: Sides, n: nat)
    requires n < |x.prev.words|
  {
    var p := x.prev.words;
    var at := |p| - n;
    && at <= 6 && x.prev.speaker == roles.counsel && roles.judge == Some(x.curr.speaker)
    && (|| lex.formulaEnd(lex.clean(p[at - 1].text))
        || (at >= 2 && lex.formulaPair(lex.clean(p[at - 2].text), lex.clean(p[at - 1].text))))
  }

  /** A sentence ends before the last n words, at most five, and curr is short, goes on in lower
      case, or the last n words start as the onset of a turn. */
  ghost predicate SentenceBefore(lex: Lexicon, x: Sides, n: nat)
    requires 0 < n < |x.prev.words| && x.curr.words != []
  {
    var p, c := x.prev.words, x.curr.words;
    && n <= 5 && lex.endsTerminal(p[|p| - n - 1].text)
    && (|c| <= 4 || !lex.startsUpper(c[0].text) || lex.onset(lex.clean(p[|p| - n].text)))
  }

  /** The last n words of prev, one to seven but not all of them, belong to curr. */
  ghost predicate TailBleeds(lex: Lexicon, roles: Roles, x: Sides, n: nat) {
    && 0 < n <= 7 && n < |x.prev.words| && x.curr.words != []
    && (|| Severed(lex, roles, x, n)
        || (!lex.endsTerminal(x.prev.words[|x.prev.words| - 1].text)
            && (FormulaBefore(lex, roles, x, n) || SentenceBefore(lex, x, n))))
  }

  ghost predicate LongestBleeds(lex: Lexicon, roles: Roles, x: Sides, n: nat) {
    TailBleeds(lex, roles, x, n) && forall m: nat :: TailBleeds(lex, roles, x, m) ==> m <= n
  }

  /** Exactly the longest bleeding tail is put in front of curr's words; if none bleeds, nothing
      moves. */
  ghost predicate BleedHealed(lex: Lexicon, roles: Roles, x: Sides, y: Sides) {
    || (y == x && forall n: nat :: !TailBleeds(lex, roles, x, n))
    || LongestMoved(lex, roles, x, y)
  }

  ghost predicate LongestMoved(lex: Lexicon, roles: Roles, x: Sides, y: Sides) {
    exists n: nat :: LongestBleeds(lex, roles, x, n) && TailMoved(lex, x, y, n)
  }

  ghost predicate TailMoved(lex: Lexicon, x: Sides, y: Sides, n: nat) {
    var p := x.prev.words;
    n <= |p| && SidesHold(lex, x, y, p[..|p| - n], p[|p| - n..] + x.curr.words)
  }

  lemma {:induction false} HonorificLaw(lex: Lexicon, x: Sides)
    requires x.prev.words != [] && x.curr.words != []
    ensures HonorificHealed(lex, x, AfterHonorific(lex, x))
  {
    assert SplitHonorific(lex, x) <==> HonorificCut(lex, x);
    if HonorificCut(lex, x) {
      var p, c := x.prev.words, x.curr.words;
      var a := p[|p| - 1].(text := if lex.clean(p[|p| - 1].text) == "my" then "My" else "Your");
      var b := c[0].(text := Capitalised(lex, c[0].text));
      var joined := p[..|p| - 1] + [a] + [b];
      assert joined == p[..|p| - 1] + [a, b];
      RegroupedHold(lex, x, joined, c[1..]);
    }
  }

  lemma {:induction false} PrepositionLaw(lex: Lexicon, x: Sides)
    requires x.prev.words != [] && x.curr.words != []
    ensures PrepositionHealed(lex, x, AfterPreposition(lex, x))
  {
    assert DanglingPreposition(lex, x) <==> PrepositionCut(lex, x);
    RegroupedHold(lex, x, x.prev.words + [x.curr.words[0]], x.curr.words[1..]);
  }

  lemma {:induction false} FormulaIff(lex: Lexicon, roles: Roles, x: Sides, n: nat)
    requires 0 < n < |x.prev.words|
    ensures AfterFormula(lex, roles, x, n) <==> FormulaBefore(lex, roles, x, n)
  {
    var p := x.prev.words;
    assert p[..|p| - n][|p| - n - 1] == p[|p| - n - 1];
    if |p| - n >= 2 {
      assert p[..|p| - n][|p| - n - 2] == p[|p| - n - 2];
    }
  }

  lemma {:induction false} SentenceIff(lex: Lexicon, x: Sides, n: nat)
    requires 0 < n < |x.prev.words| && x.curr.words != []
    ensures AfterSentence(lex, x, n) <==> SentenceBefore(lex, x, n)
  {
    var p := x.prev.words;
    assert p[..|p| - n][|p| - n - 1] == p[|p| - n - 1] && p[|p| - n..][0] == p[|p| - n];
  }

  lemma {:induction false} BleedsIff(lex: Lexicon, roles: Roles, x: Sides, n: nat)
    requires 0 < n <= 7 && n < |x.prev.words| && x.curr.words != []
    ensures Bleeds(lex, roles, x, n) <==> TailBleeds(lex, roles, x, n)
  {
    FormulaIff(lex, roles, x, n);
    SentenceIff(lex, x, n);
  }

  /** Whether the last n words are found to bleed. */
  ghost predicate Found(lex: Lexicon, roles: Roles, x: Sides, n: nat)
    requires 0 < n <= 7 && x.curr.words != []
  {
    n < |x.prev.words| && Bleeds(lex, roles, x, n)
  }

  lemma {:induction false} FoundIff(lex: Lexicon, roles: Roles, x: Sides, n: nat) returns (b: bool)
    requires 0 < n <= 7 && x.curr.words != []
    ensures b == Found(lex, roles, x, n) && b == TailBleeds(lex, roles, x, n)
  {
    b := Found(lex, roles, x, n);
    if n < |x.prev.words| {
      BleedsIff(lex, roles, x, n);
    }
  }

  lemma {:induction false} FoundHere(lex: Lexicon, roles: Roles, x: Sides, n: nat)
    requires 0 < n <= 7 && x.curr.words != [] && Found(lex, roles, x, n)
    ensures BleedLength(lex, roles, x, n) == n
  {
  }

  lemma {:induction false} NotHere(lex: Lexicon, roles: Roles, x: Sides, k: nat, n: nat)
    requires n == k + 1 && n <= 7 && x.curr.words != [] && !Found(lex, roles, x, n)
    ensures BleedLength(lex, roles, x, n) == BleedLength(lex, roles, x, k)
  {
  }

  lemma {:induction false} PassedOver(lex: Lexicon, roles: Roles, x: Sides, k: nat, n: nat)
    returns (shorter: nat, b: bool)
    requires x.curr.words != [] && n == k + 1 && n <= 7
    ensures shorter == BleedLength(lex, roles, x, k) && b == TailBleeds(lex, roles, x, n)
    ensures BleedLength(lex, roles, x, n) == if b then n else shorter
  {
    shorter := BleedLength(lex, roles, x, k);
    b := FoundIff(lex, roles, x, n);
    if b {
      FoundHere(lex, roles, x, n);
    } else {
      NotHere(lex, roles, x, k, n);
    }
  }

  lemma {:induction false} ChosenBleeds(lex: Lexicon, roles: Roles, x: Sides, k: nat, n: nat)
    returns (v: nat, b: bool)
    requires x.curr.words != [] && n == k + 1 && n <= 7
    ensures v == BleedLength(lex, roles, x, n)
    ensures b == TailBleeds(lex, roles, x, v)
    ensures v == 0 || b
    decreases n
  {
    var shorter, found := PassedOver(lex, roles, x, k, n);
    if found {
      v, b := n, found;
    } else if k == 0 {
      v, b := shorter, TailBleeds(lex, roles, x, shorter);
    } else {
      v, b := ChosenBleeds(lex, roles, x, k - 1, k);
    }
  }

  lemma {:induction false} LongerDoesNot(lex: Lexicon, roles: Roles, x: Sides, k: nat, n: nat, m: nat)
    returns (b: bool)
    requires x.curr.words != [] && n == k + 1 && m <= n <= 7 && m > 0
    ensures b == TailBleeds(lex, roles, x, m)
    ensures m <= BleedLength(lex, roles, x, n) || !b
    decreases n
  {
    var shorter, found := PassedOver(lex, roles, x, k, n);
    if m == n {
      b := found;
    } else {
      b := LongerDoesNot(lex, roles, x, k - 1, k, m);
    }
  }

  lemma {:induction false} NeverBleeds(lex: Lexicon, roles: Roles, x: Sides, m: nat)
    requires m == 0 || m > LEFT
    ensures !TailBleeds(lex, roles, x, m)
  {
  }

  lemma {:induction false} LongestBleed(lex: Lexicon, roles: Roles, x: Sides) returns (k: nat)
    requires x.curr.words != []
    ensures k == BleedLength(lex, roles, x, LEFT)
    ensures k > 0 ==> LongestBleeds(lex, roles, x, k)
    ensures k == 0 ==> forall m: nat :: !TailBleeds(lex, roles, x, m)
  {
    var b;
    k, b := ChosenBleeds(lex, roles, x, LEFT - 1, LEFT);
    forall m: nat | m > k || m == 0 ensures !TailBleeds(lex, roles, x, m) {
      if 0 < m <= LEFT {
        var _ := LongerDoesNot(lex, roles, x, LEFT - 1, LEFT, m);
      } else {
        NeverBleeds(lex, roles, x, m);
      }
    }
  }

  lemma {:induction false} MovedTail(lex: Lexicon, x: Sides, k: nat)
    requires k <= |x.prev.words|
    ensures TailMoved(lex, x, MoveTail(lex, x, k), k)
  {
    var p := x.prev.words;
    RegroupedHold(lex, x, p[..|p| - k], p[|p| - k..] + x.curr.words);
  }

  lemma {:induction false} TailMoves(lex: Lexicon, roles: Roles, x: Sides, k: nat, y: Sides)
    requires LongestBleeds(lex, roles, x, k) && TailMoved(lex, x, y, k)
    ensures LongestMoved(lex, roles, x, y)
  {
  }

  lemma {:induction false} NothingMoves(lex: Lexicon, roles: Roles, x: Sides)
    requires forall m: nat :: !TailBleeds(lex, roles, x, m)
    ensures BleedHealed(lex, roles, x, x)
  {
  }

  lemma {:induction false} BleedLaw(lex: Lexicon, roles: Roles, x: Sides) returns (y: Sides)
    requires x.curr.words != []
    ensures y == AfterBleed(lex, roles, x) && BleedHealed(lex, roles, x, y)
  {
    var k := LongestBleed(lex, roles, x);
    if k > 0 {
      y := MoveTail(lex, x, k);
      MovedTail(lex, x, k);
      TailMoves(lex, roles, x, k, y);
    } else {
      y := x;
      NothingMoves(lex, roles, x);
    }
  }

  // ---------------------------------------------------------------- one boundary

  /** y comes of x by the three repairs in turn; the others are left out once curr is used up. */
  ghost predicate BoundaryHealed(lex: Lexicon, roles: Roles, x: Sides, y: Sides) {
    if x.prev.words == [] || x.curr.words == [] || x.prev.speaker == x.curr.speaker then y == x
    else
      exists a :: HonorificHealed(lex, x, a) && RestHealed(lex, roles, a, y)
  }

  ghost predicate RestHealed(lex: Lexicon, roles: Roles, a: Sides, y: Sides) {
    if a.curr.words == [] then y == a
    else exists b :: PrepositionHealed(lex, a, b) && BleedHealed(lex, roles, b, y)
  }

  lemma {:induction false} RestLaw(lex: Lexicon, roles: Roles, a: Sides)
    requires a.prev.words != [] && a.curr.words != []
    ensures RestHealed(lex, roles, a, AfterBleed(lex, roles, AfterPreposition(lex, a)))
  {
    var b := AfterPreposition(lex, a);
    PrepositionLaw(lex, a);
    var y := BleedLaw(lex, roles, b);
    assert PrepositionHealed(lex, a, b) && BleedHealed(lex, roles, b, y);
  }

  lemma {:induction false} HealedLaw(lex: Lexicon, roles: Roles, x: Sides)
    ensures BoundaryHealed(lex, roles, x, Healed(lex, roles, x))
  {
    if x.prev.words != [] && x.curr.words != [] && x.prev.speaker != x.curr.speaker {
      var a := AfterHonorific(lex, x);
      HonorificLaw(lex, x);
      if a.curr.words != [] {
        RestLaw(lex, roles, a);
      }
      assert HonorificHealed(lex, x, a) && RestHealed(lex, roles, a, Healed(lex, roles, x));
    }
  }

  // ---------------------------------------------------------------- the sweep

  /** Boundary i of a is healed in b; the other segments stay. */
  ghost predicate HealedThere(lex: Lexicon, roles: Roles, a: seq<Segment>, b: seq<Segment>, i: nat) {
    && 0 < i < |a| == |b| && BoundaryHealed(lex, roles, Sides(a[i - 1], a[i]), Sides(b[i - 1], b[i]))
    && forall k :: 0 <= k < |a| && k != i - 1 && k != i ==> b[k] == a[k]
  }

  /** The boundaries are healed from left to right, each on what the one before left. */
  ghost predicate HealedInTurn(lex: Lexicon, roles: Roles, states: seq<seq<Segment>>) {
    forall i :: 0 < i < |states| ==> HealedThere(lex, roles, states[i - 1], states[i], i)
  }

  lemma {:induction false} HealedThereLaw(lex: Lexicon, roles: Roles, segs: seq<Segment>, i: nat, n: nat)
    requires 0 < i < |segs| && n == i + 1
    ensures HealedThere(lex, roles, HealedTo(lex, roles, segs, i), HealedTo(lex, roles, segs, n), i)
  {
    var s := HealedTo(lex, roles, segs, i);
    HealedLaw(lex, roles, Sides(s[i - 1], s[i]));
    assert HealedTo(lex, roles, segs, n) == PutSides(s, i, Healed(lex, roles, Sides(s[i - 1], s[i])));
  }

  lemma {:induction false} SweepStates(lex: Lexicon, roles: Roles, segs: seq<Segment>, n: nat)
    returns (states: seq<seq<Segment>>)
    requires 0 < n <= |segs|
    ensures |states| == n && states[0] == segs && states[n - 1] == HealedTo(lex, roles, segs, n)
    ensures HealedInTurn(lex, roles, states)
  {
    if n == 1 {
      states := [segs];
    } else {
      var before := SweepStates(lex, roles, segs, n - 1);
      HealedThereLaw(lex, roles, segs, n - 1, n);
      states := before + [HealedTo(lex, roles, segs, n)];
    }
  }

  /** Pass 1E is the sweep over all boundaries, less the segments it emptied. */
  lemma {:induction false} Pass1ELaw(lex: Lexicon, roles: Roles, segs: seq<Segment>)
    returns (states: seq<seq<Segment>>)
    requires segs != []
    ensures |states| == |segs| && states[0] == segs && HealedInTurn(lex, roles, states)
    ensures Pass1E(lex, roles, segs) == DropEmpty(states[|segs| - 1])
  {
    states := SweepStates(lex, roles, segs, |segs|);
  }

  // ---------------------------------------------------------------- an instance

  /** The judge's "It was heard. Yes" and counsel's "my Lord.". */
  function YesMyLordApart(): Sides {
    var it, was, heard, yes := Word("It", 0, 200, 0), Word("was", 200, 400, 0), Word("heard.", 400, 800, 0),
      Word("Yes", 900, 1200, 0);
    var my, lord := Word("my", 1300, 1500, 1), Word("Lord.", 1500, 1900, 1);
    Sides(Segment(0, 0, 1200, "It was heard. Yes", [it, was, heard, yes]),
          Segment(1, 1300, 1900, "my Lord.", [my, lord]))
  }

  /** What the lexicon of the code says of these words. */
  ghost predicate HearsYes(lex: Lexicon) {
    && lex.clean("It") == "it" && lex.clean("was") == "was" && lex.clean("heard.") == "heard"
    && lex.clean("Yes") == "yes" && lex.clean("my") == "my" && lex.clean("Lord.") == "lord"
    && lex.endsTerminal("heard.") && !lex.endsTerminal("It") && !lex.endsTerminal("was") && !lex.endsTerminal("Yes")
    && !lex.severed(["heard", "yes"], ["my", "lord"], true)
    && !lex.severed(["was", "heard", "yes"], ["my", "lord"], true)
  }

  lemma {:induction false} OnlyYesBleeds(lex: Lexicon, x: Sides, n: nat)
    requires x == YesMyLordApart() && HearsYes(lex)
    ensures TailBleeds(lex, Roles(Some(0), 1), x, n) <==> n == 1
  {
    var p := x.prev.words;
    assert lex.Tokens(p[2..]) == ["heard", "yes"];
    assert lex.Tokens(p[1..]) == ["was", "heard", "yes"];
    assert lex.Tokens(x.curr.words[..2]) == ["my", "lord"];
  }

  /** "Yes" is handed on, and counsel says "Yes my Lord.". */
  lemma {:induction false} YesHandedOn(lex: Lexicon, x: Sides)
    requires x == YesMyLordApart() && HearsYes(lex)
    ensures var y := Healed(lex, Roles(Some(0), 1), x);
      && Texts(y.prev.words) == ["It", "was", "heard."] && Labelled(y.prev.words, 0)
      && Texts(y.curr.words) == ["Yes", "my", "Lord."] && Labelled(y.curr.words, 1)
  {
    var roles := Roles(Some(0), 1);
    HealedLaw(lex, roles, x);
    YesMoves(lex, roles, x, Healed(lex, roles, x));
    YesTexts(lex, x, Healed(lex, roles, x));
  }

  lemma {:induction false} YesTexts(lex: Lexicon, x: Sides, y: Sides)
    requires x == YesMyLordApart()
    requires SidesHold(lex, x, y, x.prev.words[..3], x.prev.words[3..] + x.curr.words)
    ensures Texts(y.prev.words) == ["It", "was", "heard."] && Labelled(y.prev.words, 0)
    ensures Texts(y.curr.words) == ["Yes", "my", "Lord."] && Labelled(y.curr.words, 1)
  {
  }

  lemma {:induction false} YesMoves(lex: Lexicon, roles: Roles, x: Sides, y: Sides)
    requires x == YesMyLordApart() && HearsYes(lex) && roles == Roles(Some(0), 1)
    requires BoundaryHealed(lex, roles, x, y)
    ensures SidesHold(lex, x, y, x.prev.words[..3], x.prev.words[3..] + x.curr.words)
  {
    OnlyYesBleeds(lex, x, 1);
    assert !HonorificCut(lex, x) && !PrepositionCut(lex, x);
    assert BleedHealed(lex, roles, x, y);
    var n: nat :| LongestBleeds(lex, roles, x, n) && TailMoved(lex, x, y, n);
    OnlyYesBleeds(lex, x, n);
  }
}
