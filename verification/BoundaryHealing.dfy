module BoundaryHealing {
  /**
    Pass 1E: at every boundary between two segments of different speakers, complete an honorific
    or a preposition that was cut off, then hand back a tail that belongs to the next speaker.
   */
  import opened Options
  import opened Words
  import opened Segments
  import opened Sequences

  /** Who the bench and counsel are; a recording may have no judge. */
  datatype Roles = Roles(judge: Option<int>, counsel: int)

  /** A boundary moves at most so many words to the right, and to the left. */
  const RIGHT := 2
  const LEFT := 7

  datatype Sides = Sides(prev: Segment, curr: Segment)

  function LastWord(s: Segment): Word
    requires s.words != []
  {
    s.words[|s.words| - 1]
  }

  /** Words regrouped over the boundary; both segments are rebuilt. */
  function Regrouped(lex: Lexicon, x: Sides, p: seq<Word>, c: seq<Word>): Sides {
    Sides(Rebuilt(lex, x.prev.(words := p)), Rebuilt(lex, x.curr.(words := c)))
  }

  // ---------------------------------------------------------------- 0. honorific completion

  predicate SplitHonorific(lex: Lexicon, x: Sides)
    requires x.prev.words != [] && x.curr.words != []
  {
    var t := lex.Token(LastWord(x.prev));
    (t == "my" || t == "your") && lex.honorificTail(lex.Token(x.curr.words[0]))
  }

  /** The first word of curr, respelled, joins prev. */
  function JoinHonorific(lex: Lexicon, x: Sides): Sides
    requires x.prev.words != [] && x.curr.words != []
  {
    var p, c := x.prev.words, x.curr.words;
    var last, moved := LastWord(x.prev), c[0];
    var last' := last.(text := if lex.Token(last) == "my" then "My" else "Your");
    var moved' := if !lex.Terminal(moved) && lex.Token(moved) == "lord" then moved.(text := "Lord.") else moved;
    Regrouped(lex, x, p[..|p| - 1] + [last'] + [moved'], c[1..])
  }

  // ---------------------------------------------------------------- 1. preposition completion

  predicate DanglingPreposition(lex: Lexicon, x: Sides)
    requires x.prev.words != [] && x.curr.words != []
  {
    var c, last := x.curr.words, LastWord(x.prev);
    && !lex.Terminal(last) && |c| >= 2
    && ((lex.takesFor(lex.Token(last)) && lex.Token(c[0]) == "for")
        || (lex.takesOf(lex.Token(last)) && lex.Token(c[0]) == "of"))
    && (lex.backchannel(lex.Token(c[1])) || lex.opensTurn(lex.Token(c[1])) || lex.Terminal(c[0]))
  }

  function JoinPreposition(lex: Lexicon, x: Sides): Sides
    requires x.curr.words != []
  {
    Regrouped(lex, x, x.prev.words + [x.curr.words[0]], x.curr.words[1..])
  }

  // ---------------------------------------------------------------- 2. trailing bleed

  /** The last n words of prev and the first of curr are two halves of a phrase. */
  predicate SeversPhrase(lex: Lexicon, roles: Roles, x: Sides, n: nat)
    requires 0 < n < |x.prev.words|
  {
    var p, c := x.prev.words, x.curr.words;
    lex.severed(lex.Tokens(p[|p| - n..]), lex.Tokens(c[..if |c| < 3 then |c| else 3]),
                roles.judge == Some(x.prev.speaker))
  }

  /** Counsel ends with a formula before the last n words of prev, and curr is the judge's. */
  predicate AfterFormula(lex: Lexicon, roles: Roles, x: Sides, n: nat)
    requires 0 < n < |x.prev.words|
  {
    var lead := x.prev.words[..|x.prev.words| - n];
    var before := lead[|lead| - 1];
    var formula := lex.formulaEnd(lex.Token(before))
      || (|lead| >= 2 && lex.formulaPair(lex.Token(lead[|lead| - 2]), lex.Token(before)));
    formula && |lead| <= 6 && x.prev.speaker == roles.counsel && roles.judge == Some(x.curr.speaker)
  }

  /** A sentence ends before the last n words of prev, and they look like the onset of curr. */
  predicate AfterSentence(lex: Lexicon, x: Sides, n: nat)
    requires 0 < n < |x.prev.words| && x.curr.words != []
  {
    var p, c := x.prev.words, x.curr.words;
    var lead, trail := p[..|p| - n], p[|p| - n..];
    && lex.Terminal(lead[|lead| - 1]) && n <= 5
    && (|c| <= 4 || !lex.startsUpper(c[0].text) || lex.onset(lex.Token(trail[0])))
  }

  /** The last n words of prev belong to curr. */
  predicate Bleeds(lex: Lexicon, roles: Roles, x: Sides, n: nat)
    requires 0 < n < |x.prev.words| && x.curr.words != []
  {
    || SeversPhrase(lex, roles, x, n)
    || (!lex.Terminal(LastWord(x.prev)) && (AfterFormula(lex, roles, x, n) || AfterSentence(lex, x, n)))
  }

  function MoveTail(lex: Lexicon, x: Sides, n: nat): Sides
    requires n <= |x.prev.words|
  {
    var p := x.prev.words;
    Regrouped(lex, x, p[..|p| - n], p[|p| - n..] + x.curr.words)
  }

  /** The longest bleeding tail of at most n words, 0 if there is none. */
  function BleedLength(lex: Lexicon, roles: Roles, x: Sides, n: nat): (k: nat)
    requires x.curr.words != []
    ensures k <= n && (k > 0 ==> k < |x.prev.words|)
  {
    if n == 0 then 0
    else if |x.prev.words| > n && Bleeds(lex, roles, x, n) then n
    else BleedLength(lex, roles, x, n - 1)
  }

  // ---------------------------------------------------------------- one boundary

  function AfterHonorific(lex: Lexicon, x: Sides): (y: Sides)
    requires x.prev.words != [] && x.curr.words != []
    ensures y.prev.words != []
  {
    if SplitHonorific(lex, x) then JoinHonorific(lex, x) else x
  }

  function AfterPreposition(lex: Lexicon, x: Sides): (y: Sides)
    requires x.prev.words != [] && x.curr.words != []
    ensures y.prev.words != [] && y.curr.words != []
  {
    if DanglingPreposition(lex, x) then JoinPreposition(lex, x) else x
  }

  function AfterBleed(lex: Lexicon, roles: Roles, x: Sides): Sides
    requires x.curr.words != []
  {
    var n := BleedLength(lex, roles, x, LEFT);
    if n > 0 then MoveTail(lex, x, n) else x
  }

  function Healed(lex: Lexicon, roles: Roles, x: Sides): Sides {
    if x.prev.words == [] || x.curr.words == [] || x.prev.speaker == x.curr.speaker then x
    else
      var y := AfterHonorific(lex, x);
      if y.curr.words == [] then y
      else AfterBleed(lex, roles, AfterPreposition(lex, y))
  }

  // ---------------------------------------------------------------- the sweep

  function HealedAt(lex: Lexicon, roles: Roles, segs: seq<Segment>, i: nat): (r: seq<Segment>)
    requires 0 < i < |segs|
    ensures |r| == |segs|
  {
    PutSides(segs, i, Healed(lex, roles, Sides(segs[i - 1], segs[i])))
  }

  /** Boundaries 1..i-1 handled. */
  function HealedTo(lex: Lexicon, roles: Roles, segs: seq<Segment>, i: nat): (r: seq<Segment>)
    requires i <= |segs|
    ensures |r| == |segs|
  {
    if i <= 1 then segs else HealedAt(lex, roles, HealedTo(lex, roles, segs, i - 1), i - 1)
  }

  function Pass1E(lex: Lexicon, roles: Roles, segs: seq<Segment>): seq<Segment> {
    DropEmpty(HealedTo(lex, roles, segs, |segs|))
  }

  method HealBoundary(lex: Lexicon, roles: Roles, prev: Segment, curr: Segment) returns (p: Segment, c: Segment)
    ensures Sides(p, c) == Healed(lex, roles, Sides(prev, curr))
  {
    p, c := prev, curr;
    if p.words == [] || c.words == [] || p.speaker == c.speaker {
      return;
    }
    if SplitHonorific(lex, Sides(p, c)) {
      var y := JoinHonorific(lex, Sides(p, c));
      p, c := y.prev, y.curr;
      if c.words == [] {
        return;
      }
    }
    if DanglingPreposition(lex, Sides(p, c)) {
      var y := JoinPreposition(lex, Sides(p, c));
      p, c := y.prev, y.curr;
    }
    var n := FindBleed(lex, roles, Sides(p, c));
    if n > 0 {
      var y := MoveTail(lex, Sides(p, c), n);
      p, c := y.prev, y.curr;
    }
  }

  /** Tail lengths are tried from seven down. */
  method FindBleed(lex: Lexicon, roles: Roles, x: Sides) returns (n: nat)
    requires x.curr.words != []
    ensures n == BleedLength(lex, roles, x, LEFT)
  {
    n := LEFT;
    ghost var longest := BleedLength(lex, roles, x, n);
    while n > 0
      invariant BleedLength(lex, roles, x, n) == longest
    {
      if |x.prev.words| > n && Bleeds(lex, roles, x, n) {
        return;
      }
      n := n - 1;
    }
  }

  method HealBoundaries(lex: Lexicon, roles: Roles, segs0: seq<Segment>) returns (segs: seq<Segment>)
    ensures segs == Pass1E(lex, roles, segs0)
  {
    segs := segs0;
    var i := 1;
    while i < |segs|
      invariant |segs| == |segs0| && 1 <= i && (i <= |segs| || |segs| == 0)
      invariant i <= |segs| ==> segs == HealedTo(lex, roles, segs0, i)
      invariant |segs| == 0 ==> segs == segs0
    {
      var p, c := HealBoundary(lex, roles, segs[i - 1], segs[i]);
      segs := segs[i - 1 := p][i := c];
      i := i + 1;
    }
    segs := DropEmpty(segs);
  }

  // ---------------------------------------------------------------- what one boundary keeps

  /** The words of both sides, in order, up to labels and respelling; prev gained at most two
      words or lost at most seven. */
  ghost predicate SidesKept(lex: Lexicon, x: Sides, y: Sides, left: int, right: int) {
    && y.prev.speaker == x.prev.speaker && y.curr.speaker == x.curr.speaker
    && Respelled(lex, x.prev.words + x.curr.words, y.prev.words + y.curr.words)
    && -left <= |y.prev.words| - |x.prev.words| <= right
    && (x.prev.words != [] ==> y.prev.words != [])
    && (Tidy(x.prev) && Tidy(x.curr) ==> Tidy(y.prev) && Tidy(y.curr))
    && (Started(x.prev) && Started(x.curr) ==> Started(y.prev) && Started(y.curr))
  }

  lemma {:induction false} SidesKeptTrans(lex: Lexicon, x: Sides, y: Sides, z: Sides, l: int, r: int, l': int, r': int)
    requires SoundSpelling(lex) && SidesKept(lex, x, y, l, r) && SidesKept(lex, y, z, l', r')
    ensures SidesKept(lex, x, z, l + l', r + r')
  {
    RespelledTrans(lex, x.prev.words + x.curr.words, y.prev.words + y.curr.words, z.prev.words + z.curr.words);
  }

  lemma {:induction false} RegroupedKeeps(lex: Lexicon, x: Sides, p: seq<Word>, c: seq<Word>, left: int, right: int)
    requires Respelled(lex, x.prev.words + x.curr.words, p + c)
    requires -left <= |p| - |x.prev.words| <= right && p != []
    ensures SidesKept(lex, x, Regrouped(lex, x, p, c), left, right)
  {
    var y := Regrouped(lex, x, p, c);
    RespelledThenSame(lex, x.prev.words + x.curr.words, p + c, y.prev.words + y.curr.words);
  }

  lemma {:induction false} RespelledSelf(lex: Lexicon, ws: seq<Word>)
    ensures Respelled(lex, ws, ws)
  {
  }

  lemma {:induction false} HonorificKeeps(lex: Lexicon, x: Sides)
    requires SoundSpelling(lex) && x.prev.words != [] && x.curr.words != []
    ensures SidesKept(lex, x, AfterHonorific(lex, x), 0, 1)
  {
    if SplitHonorific(lex, x) {
      var p, c := x.prev.words, x.curr.words;
      var last, moved := LastWord(x.prev), c[0];
      var last' := last.(text := if lex.Token(last) == "my" then "My" else "Your");
      var moved' := if !lex.Terminal(moved) && lex.Token(moved) == "lord" then moved.(text := "Lord.") else moved;
      assert Edited(lex, last, last') && Edited(lex, moved, moved');
      HonorificWords(lex, p, c, last', moved');
      RegroupedKeeps(lex, x, p[..|p| - 1] + [last'] + [moved'], c[1..], 0, 1);
    } else {
      RespelledSelf(lex, x.prev.words + x.curr.words);
    }
  }

  lemma {:induction false} HonorificWords(lex: Lexicon, p: seq<Word>, c: seq<Word>, last: Word, moved: Word)
    requires p != [] && c != [] && Edited(lex, p[|p| - 1], last) && Edited(lex, c[0], moved)
    ensures Respelled(lex, p + c, p[..|p| - 1] + [last] + [moved] + c[1..])
  {
  }

  lemma {:induction false} PrepositionKeeps(lex: Lexicon, x: Sides)
    requires x.prev.words != [] && x.curr.words != []
    ensures SidesKept(lex, x, AfterPreposition(lex, x), 0, 1)
  {
    var p, c := x.prev.words, x.curr.words;
    RespelledSelf(lex, p + c);
    if DanglingPreposition(lex, x) {
      assert p + [c[0]] + c[1..] == p + c;
      RegroupedKeeps(lex, x, p + [c[0]], c[1..], 0, 1);
    }
  }

  lemma {:induction false} MoveTailKeeps(lex: Lexicon, x: Sides, n: nat)
    requires n <= LEFT && n < |x.prev.words|
    ensures SidesKept(lex, x, MoveTail(lex, x, n), LEFT, 0)
  {
    var p, c := x.prev.words, x.curr.words;
    RespelledSelf(lex, p + c);
    assert p[..|p| - n] + (p[|p| - n..] + c) == p + c;
    RegroupedKeeps(lex, x, p[..|p| - n], p[|p| - n..] + c, LEFT, 0);
  }

  lemma {:induction false} BleedKeeps(lex: Lexicon, roles: Roles, x: Sides)
    requires x.prev.words != [] && x.curr.words != []
    ensures SidesKept(lex, x, AfterBleed(lex, roles, x), LEFT, 0)
  {
    var n := BleedLength(lex, roles, x, LEFT);
    if n > 0 {
      MoveTailKeeps(lex, x, n);
    } else {
      RespelledSelf(lex, x.prev.words + x.curr.words);
    }
  }

  lemma {:induction false} HealedKeeps(lex: Lexicon, roles: Roles, x: Sides)
    requires SoundSpelling(lex)
    ensures SidesKept(lex, x, Healed(lex, roles, x), LEFT, RIGHT)
  {
    if x.prev.words == [] || x.curr.words == [] || x.prev.speaker == x.curr.speaker {
      RespelledSelf(lex, x.prev.words + x.curr.words);
    } else {
      HonorificKeeps(lex, x);
      var y := AfterHonorific(lex, x);
      if y.curr.words != [] {
        PrepositionKeeps(lex, y);
        var z := AfterPreposition(lex, y);
        BleedKeeps(lex, roles, z);
        SidesKeptTrans(lex, x, y, z, 0, 1, 0, 1);
        SidesKeptTrans(lex, x, z, AfterBleed(lex, roles, z), 0, 2, LEFT, 0);
      }
    }
  }

  // ---------------------------------------------------------------- what the sweep keeps

  /** Position in the speech at which segment k starts. */
  function CutBefore(segs: seq<Segment>, k: nat): nat
    requires k <= |segs|
  {
    |Speech(segs[..k])|
  }

  function PutSides(segs: seq<Segment>, i: nat, y: Sides): (r: seq<Segment>)
    requires 0 < i < |segs|
    ensures |r| == |segs|
  {
    segs[i - 1 := y.prev][i := y.curr]
  }

  lemma {:induction false} PutSidesSpeech(lex: Lexicon, segs: seq<Segment>, i: nat, y: Sides, k: nat)
    requires 0 < i < k <= |segs|
    requires Respelled(lex, segs[i - 1].words + segs[i].words, y.prev.words + y.curr.words)
    ensures Respelled(lex, Speech(segs[..k]), Speech(PutSides(segs, i, y)[..k]))
  {
    var r := PutSides(segs, i, y);
    SpeechTwo(segs[i - 1], segs[i]);
    SpeechTwo(y.prev, y.curr);
    SpeechReplaced(lex, segs[..i - 1], [segs[i - 1], segs[i]], [y.prev, y.curr], segs[i + 1..k]);
    assert segs[..k] == segs[..i - 1] + [segs[i - 1], segs[i]] + segs[i + 1..k];
    assert r[..k] == segs[..i - 1] + [y.prev, y.curr] + segs[i + 1..k];
  }

  lemma {:induction false} PutSidesKeeps(lex: Lexicon, segs: seq<Segment>, i: nat, y: Sides)
    requires 0 < i < |segs| && SidesKept(lex, Sides(segs[i - 1], segs[i]), y, LEFT, RIGHT)
    ensures var r := PutSides(segs, i, y);
      && SameSpeakers(segs, r)
      && Respelled(lex, Speech(segs), Speech(r))
      && (AllTidy(segs) ==> AllTidy(r)) && (AllStarted(segs) ==> AllStarted(r))
  {
    var r := PutSides(segs, i, y);
    PutSidesSpeech(lex, segs, i, y, |segs|);
    assert segs[..|segs|] == segs && r[..|segs|] == r;
  }

  lemma {:induction false} PutSidesCuts(lex: Lexicon, segs: seq<Segment>, i: nat, y: Sides, k: nat)
    requires 0 < i < |segs| && SidesKept(lex, Sides(segs[i - 1], segs[i]), y, LEFT, RIGHT) && k <= |segs|
    ensures var d := CutBefore(PutSides(segs, i, y), k) - CutBefore(segs, k);
      if k == i then -LEFT <= d <= RIGHT else d == 0
  {
    var r := PutSides(segs, i, y);
    if k < i {
      assert r[..k] == segs[..k];
    } else if k == i {
      assert r[..i][..i - 1] == segs[..i][..i - 1];
    } else {
      PutSidesSpeech(lex, segs, i, y, k);
    }
  }

  /** Between a and b: the same speakers and speech, and what held of the segments. */
  ghost predicate Healthy(lex: Lexicon, a: seq<Segment>, b: seq<Segment>) {
    && SameSpeakers(a, b) && Respelled(lex, Speech(a), Speech(b))
    && (AllTidy(a) ==> AllTidy(b)) && (AllStarted(a) ==> AllStarted(b))
  }

  lemma {:induction false} HealthyTrans(lex: Lexicon, a: seq<Segment>, b: seq<Segment>, c: seq<Segment>)
    requires SoundSpelling(lex) && Healthy(lex, a, b) && Healthy(lex, b, c)
    ensures Healthy(lex, a, c)
  {
    RespelledTrans(lex, Speech(a), Speech(b), Speech(c));
  }

  /** One more boundary: nothing but the cut at it moves. */
  lemma {:induction false} HealedStep(lex: Lexicon, roles: Roles, segs: seq<Segment>, i: nat, n: nat, k: nat)
    requires SoundSpelling(lex) && 0 < i < |segs| && n == i + 1 && k <= |segs|
    ensures var s, r := HealedTo(lex, roles, segs, i), HealedTo(lex, roles, segs, n);
      && Healthy(lex, s, r)
      && -LEFT <= CutBefore(r, k) - CutBefore(s, k) <= RIGHT
      && (k != i ==> CutBefore(r, k) == CutBefore(s, k))
  {
    var s := HealedTo(lex, roles, segs, i);
    var x := Sides(s[i - 1], s[i]);
    var y := Healed(lex, roles, x);
    HealedKeeps(lex, roles, x);
    PutSidesKeeps(lex, s, i, y);
    PutSidesCuts(lex, s, i, y, k);
    assert HealedTo(lex, roles, segs, n) == PutSides(s, i, y);
  }

  /** Pass 1E is local: segments keep their speakers and their order, the speech keeps its
      words and times, and no boundary moves by more than two words right or seven left. */
  lemma {:induction false} HealingIsLocal(lex: Lexicon, roles: Roles, segs: seq<Segment>, i: nat, k: nat)
    requires SoundSpelling(lex) && i <= |segs| && k <= |segs|
    ensures var r := HealedTo(lex, roles, segs, i);
      && Healthy(lex, segs, r)
      && -LEFT <= CutBefore(r, k) - CutBefore(segs, k) <= RIGHT
      && (k == 0 || k >= i ==> CutBefore(r, k) == CutBefore(segs, k))
    decreases i
  {
    if i > 1 {
      HealingIsLocal(lex, roles, segs, i - 1, k);
      HealedStep(lex, roles, segs, i - 1, i, k);
      HealthyTrans(lex, segs, HealedTo(lex, roles, segs, i - 1), HealedTo(lex, roles, segs, i));
    } else {
      RespelledSelf(lex, Speech(segs));
    }
  }

  // ---------------------------------------------------------------- which segments vanish

  /** All of the right side is a word that completes the left side's honorific. */
  ghost predicate Swallows(lex: Lexicon, x: Sides) {
    x.prev.words != [] && |x.curr.words| == 1 && x.prev.speaker != x.curr.speaker && SplitHonorific(lex, x)
  }

  /** Segment k has no words, or is swallowed by the one before it, if that one is there. */
  ghost predicate Vanishes(lex: Lexicon, segs: seq<Segment>, k: nat)
    requires k < |segs|
  {
    segs[k].words == [] || (k > 0 && Swallows(lex, Sides(segs[k - 1], segs[k])) && !Vanishes(lex, segs, k - 1))
  }

  /** The last word is the same but for its label. */
  ghost predicate SameLast(a: Segment, b: Segment) {
    a.words != [] && b.words != [] && SameToken(LastWord(a), LastWord(b))
  }

  /** One boundary empties its right side only by completing an honorific, and never changes
      what the right side ends with. */
  lemma {:induction false} HealedRight(lex: Lexicon, roles: Roles, x: Sides)
    ensures var y := Healed(lex, roles, x);
      && (y.prev.words == []) == (x.prev.words == [])
      && (y.curr.words == [] <==> x.curr.words == [] || Swallows(lex, x))
      && (y.curr.words != [] ==> SameLast(x.curr, y.curr))
  {
    if x.prev.words != [] && x.curr.words != [] && x.prev.speaker != x.curr.speaker {
      HonorificRight(lex, x);
      var y := AfterHonorific(lex, x);
      if y.curr.words != [] {
        PrepositionRight(lex, y);
        BleedRight(lex, roles, AfterPreposition(lex, y));
      }
    }
  }

  lemma {:induction false} SwallowsSame(lex: Lexicon, x: Sides, y: Sides)
    requires x.curr == y.curr && x.prev.speaker == y.prev.speaker && SameLast(x.prev, y.prev)
    ensures Swallows(lex, x) <==> Swallows(lex, y)
  {
  }

  lemma {:induction false} HonorificRight(lex: Lexicon, x: Sides)
    requires x.prev.words != [] && x.curr.words != []
    ensures var y := AfterHonorific(lex, x);
      && (y.curr.words == [] <==> |x.curr.words| == 1 && SplitHonorific(lex, x))
      && (y.curr.words != [] ==> SameLast(x.curr, y.curr))
  {
  }

  lemma {:induction false} PrepositionRight(lex: Lexicon, x: Sides)
    requires x.prev.words != [] && x.curr.words != []
    ensures SameLast(x.curr, AfterPreposition(lex, x).curr)
  {
  }

  lemma {:induction false} BleedRight(lex: Lexicon, roles: Roles, x: Sides)
    requires x.prev.words != [] && x.curr.words != []
    ensures var y := AfterBleed(lex, roles, x); y.prev.words != [] && SameLast(x.curr, y.curr)
  {
  }

  lemma {:induction false} HealedToUntouched(lex: Lexicon, roles: Roles, segs: seq<Segment>, i: nat, k: nat)
    requires i <= k < |segs|
    ensures HealedTo(lex, roles, segs, i)[k] == segs[k]
  {
    if i > 1 {
      HealedToUntouched(lex, roles, segs, i - 1, k);
    }
  }

  /** One more boundary, as far as speakers are concerned. */
  lemma {:induction false} SpeakersStep(
    lex: Lexicon, roles: Roles, segs: seq<Segment>, i: nat, n: nat, k: nat)
    requires 0 < i < |segs| && n == i + 1 && k < |segs|
    ensures HealedTo(lex, roles, segs, n)[k].speaker == HealedTo(lex, roles, segs, i)[k].speaker
  {
    var s := HealedTo(lex, roles, segs, i);
    HealedSpeakers(lex, roles, Sides(s[i - 1], s[i]));
    assert HealedTo(lex, roles, segs, n) == HealedAt(lex, roles, s, i);
  }

  lemma {:induction false} HealedToSpeaker(lex: Lexicon, roles: Roles, segs: seq<Segment>, i: nat, k: nat)
    requires i <= |segs| && k < |segs|
    ensures HealedTo(lex, roles, segs, i)[k].speaker == segs[k].speaker
    decreases i
  {
    if i > 1 {
      HealedToSpeaker(lex, roles, segs, i - 1, k);
      SpeakersStep(lex, roles, segs, i - 1, i, k);
    }
  }

  lemma {:induction false} HealedSpeakers(lex: Lexicon, roles: Roles, x: Sides)
    ensures var y := Healed(lex, roles, x); y.prev.speaker == x.prev.speaker && y.curr.speaker == x.curr.speaker
  {
  }

  /** Once its left boundary is healed, segment k is empty exactly if it was or if it vanishes. */
  lemma {:induction false} EmptyAfterTurn(lex: Lexicon, roles: Roles, segs: seq<Segment>, k: nat)
    requires k < |segs|
    ensures var s := HealedTo(lex, roles, segs, k + 1)[k];
      && (s.words == [] <==> Vanishes(lex, segs, k))
      && (s.words != [] ==> SameLast(segs[k], s))
  {
    if k > 0 {
      EmptyAfterTurn(lex, roles, segs, k - 1);
      HealedToUntouched(lex, roles, segs, k, k);
      HealedToSpeaker(lex, roles, segs, k, k - 1);
      var s := HealedTo(lex, roles, segs, k);
      HealedRight(lex, roles, Sides(s[k - 1], s[k]));
      if s[k - 1].words != [] {
        SwallowsSame(lex, Sides(s[k - 1], segs[k]), Sides(segs[k - 1], segs[k]));
      }
    }
  }

  /** Later boundaries neither empty nor fill it. */
  lemma {:induction false} EmptyIff(lex: Lexicon, roles: Roles, segs: seq<Segment>, i: nat, k: nat)
    requires k < i <= |segs|
    ensures HealedTo(lex, roles, segs, i)[k].words == [] <==> Vanishes(lex, segs, k)
    decreases i
  {
    if i == k + 1 {
      EmptyAfterTurn(lex, roles, segs, k);
    } else {
      EmptyIff(lex, roles, segs, i - 1, k);
      LaterTurn(lex, roles, segs, i - 1, i, k);
    }
  }

  /** One more boundary does not change whether its left side is empty. */
  lemma {:induction false} LeftStep(lex: Lexicon, roles: Roles, segs: seq<Segment>, i: nat, n: nat)
    returns (s: seq<Segment>, y: Sides)
    requires 0 < i < |segs| && n == i + 1
    ensures s == HealedTo(lex, roles, segs, i) && HealedTo(lex, roles, segs, n) == PutSides(s, i, y)
    ensures (y.prev.words == []) == (s[i - 1].words == [])
  {
    s := HealedTo(lex, roles, segs, i);
    y := Healed(lex, roles, Sides(s[i - 1], s[i]));
    HealedRight(lex, roles, Sides(s[i - 1], s[i]));
  }

  lemma {:induction false} LaterTurn(lex: Lexicon, roles: Roles, segs: seq<Segment>, i: nat, n: nat, k: nat)
    requires k < i < |segs| && n == i + 1
    ensures HealedTo(lex, roles, segs, n)[k].words == [] <==> HealedTo(lex, roles, segs, i)[k].words == []
  {
    var s, y := LeftStep(lex, roles, segs, i, n);
  }

  /** The positions, among the first n, of segments that do not vanish. */
  ghost function Staying(lex: Lexicon, segs: seq<Segment>, n: nat): (ks: seq<nat>)
    requires n <= |segs|
  {
    if n == 0 then [] else Staying(lex, segs, n - 1) + if Vanishes(lex, segs, n - 1) then [] else [n - 1]
  }

  ghost predicate Rising(ks: seq<nat>) { forall i, j :: 0 <= i < j < |ks| ==> ks[i] < ks[j] }

  lemma {:induction false} RisingOne(ks: seq<nat>, k: nat)
    requires Rising(ks) && forall i :: 0 <= i < |ks| ==> ks[i] < k
    ensures Rising(ks + [k]) && forall i :: 0 <= i < |ks + [k]| ==> (ks + [k])[i] < k + 1
  {
  }

  lemma {:induction false} StayingRises(lex: Lexicon, segs: seq<Segment>, n: nat)
    requires n <= |segs|
    ensures var ks := Staying(lex, segs, n); Rising(ks) && forall i :: 0 <= i < |ks| ==> ks[i] < n
  {
    if n > 0 {
      StayingRises(lex, segs, n - 1);
      RisingOne(Staying(lex, segs, n - 1), n - 1);
    }
  }

  lemma {:induction false} StayingIff(lex: Lexicon, segs: seq<Segment>, n: nat, k: nat)
    requires n <= |segs|
    ensures k in Staying(lex, segs, n) <==> k < n && !Vanishes(lex, segs, k)
  {
    if n > 0 {
      StayingIff(lex, segs, n - 1, k);
    }
  }

  lemma {:induction false} DropEmptySnoc(h: seq<Segment>, k: nat, n: nat)
    requires k < |h| && n == k + 1
    ensures DropEmpty(h[..n]) == DropEmpty(h[..k]) + if h[k].words == [] then [] else [h[k]]
  {
    assert h[..n][..k] == h[..k];
  }

  /** The positions, among the first n, of segments that have words. */
  function Filled(h: seq<Segment>, n: nat): (ks: seq<nat>)
    requires n <= |h|
  {
    if n == 0 then [] else Filled(h, n - 1) + if h[n - 1].words == [] then [] else [n - 1]
  }

  lemma {:induction false} FilledAreStaying(lex: Lexicon, segs: seq<Segment>, h: seq<Segment>, n: nat)
    requires n <= |h| == |segs|
    requires forall k :: 0 <= k < n ==> (h[k].words == [] <==> Vanishes(lex, segs, k))
    ensures Filled(h, n) == Staying(lex, segs, n)
  {
    if n > 0 {
      FilledAreStaying(lex, segs, h, n - 1);
    }
  }

  lemma {:induction false} KeptCount(h: seq<Segment>, n: nat)
    requires n <= |h|
    ensures |DropEmpty(h[..n])| == |Filled(h, n)|
    decreases n
  {
    if n > 0 {
      KeptCount(h, n - 1);
      DropEmptySnoc(h, n - 1, n);
    }
  }

  lemma {:induction false} KeptEarlier(h: seq<Segment>, k: nat, n: nat, j: nat)
    requires k < |h| && n == k + 1 && j < |DropEmpty(h[..k])|
    ensures var r, r' := DropEmpty(h[..k]), DropEmpty(h[..n]);
      j < |r'| && r'[j] == r[j] && CutBefore(r', j) == CutBefore(r, j)
    ensures j < |Filled(h, k)| && j < |Filled(h, n)| && Filled(h, n)[j] == Filled(h, k)[j]
  {
    KeptCount(h, k);
    DropEmptySnoc(h, k, n);
    TakeOfAppend(DropEmpty(h[..k]), if h[k].words == [] then [] else [h[k]], j);
  }

  lemma {:induction false} KeptLast(h: seq<Segment>, k: nat, n: nat, j: nat)
    requires k < |h| && n == k + 1 && |DropEmpty(h[..k])| <= j < |DropEmpty(h[..n])|
    ensures DropEmpty(h[..n])[j] == h[k] && CutBefore(DropEmpty(h[..n]), j) == CutBefore(h, k)
    ensures j < |Filled(h, n)| && Filled(h, n)[j] == k
  {
    KeptCount(h, k);
    DropEmptySnoc(h, k, n);
    DropEmptyKeepsSpeech(h[..k]);
    assert DropEmpty(h[..n])[..j] == DropEmpty(h[..k]);
  }

  /** What is kept of the first n segments are those that have words, each with as much speech
      before it as there was. */
  lemma {:induction false} KeptAt(h: seq<Segment>, n: nat, j: nat)
    requires n <= |h| && j < |DropEmpty(h[..n])|
    ensures j < |Filled(h, n)| && Filled(h, n)[j] < |h|
    ensures DropEmpty(h[..n])[j] == h[Filled(h, n)[j]]
    ensures CutBefore(DropEmpty(h[..n]), j) == CutBefore(h, Filled(h, n)[j])
    decreases n
  {
    if j < |DropEmpty(h[..n - 1])| {
      KeptAt(h, n - 1, j);
      KeptEarlier(h, n - 1, n, j);
    } else {
      KeptLast(h, n - 1, n, j);
    }
  }

  lemma {:induction false} HealedAreStaying(lex: Lexicon, roles: Roles, segs: seq<Segment>)
    ensures Filled(HealedTo(lex, roles, segs, |segs|), |segs|) == Staying(lex, segs, |segs|)
  {
    var h := HealedTo(lex, roles, segs, |segs|);
    forall k | 0 <= k < |segs| ensures h[k].words == [] <==> Vanishes(lex, segs, k) {
      EmptyIff(lex, roles, segs, |segs|, k);
    }
    FilledAreStaying(lex, segs, h, |segs|);
  }

  /** Pass 1E, exactly: what is left are the segments that do not vanish, in their order and
      with their speakers; each still begins within seven words to the left and two to the right
      of where it began. */
  lemma {:induction false} Pass1ELeaves(lex: Lexicon, roles: Roles, segs: seq<Segment>, j: nat)
    requires SoundSpelling(lex)
    ensures |Pass1E(lex, roles, segs)| == |Staying(lex, segs, |segs|)|
    ensures j < |Pass1E(lex, roles, segs)| ==>
      var k := Staying(lex, segs, |segs|)[j];
      && k < |segs| && Pass1E(lex, roles, segs)[j].speaker == segs[k].speaker
      && -LEFT <= CutBefore(Pass1E(lex, roles, segs), j) - CutBefore(segs, k) <= RIGHT
  {
    var h := HealedTo(lex, roles, segs, |segs|);
    HealedAreStaying(lex, roles, segs);
    assert h[..|segs|] == h;
    KeptCount(h, |segs|);
    if j < |Pass1E(lex, roles, segs)| {
      KeptAt(h, |segs|, j);
      HealingIsLocal(lex, roles, segs, |segs|, Staying(lex, segs, |segs|)[j]);
    }
  }

  /** Dropping the segments it emptied, pass 1E keeps the speech and adds no speaker. */
  lemma {:induction false} Pass1EKeeps(lex: Lexicon, roles: Roles, segs: seq<Segment>, S: set<int>)
    requires SoundSpelling(lex) && Within(segs, S)
    ensures var r := Pass1E(lex, roles, segs);
      && NoEmpty(r) && Within(r, S) && (AllTidy(segs) ==> AllTidy(r)) && (AllStarted(segs) ==> AllStarted(r))
      && Respelled(lex, Speech(segs), Speech(r))
  {
    var h := HealedTo(lex, roles, segs, |segs|);
    HealingIsLocal(lex, roles, segs, |segs|, 0);
    DropEmptyKeepsSpeech(h);
    DropEmptyKeeps(h, S);
  }
}
