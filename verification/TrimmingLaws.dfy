module TrimmingLaws {
  /**
    What pass 1D makes of a short segment between two segments of one other speaker, said without
    the functions that trim: which words stay, which go to a neighbour, and who has the rest.
   */
  import opened Words
  import opened Segments
  import opened BoundaryHealing
  import opened SandwichTrim
  import opened IsolationLaws

  /** Between two segments of one other speaker, at most nine words. */
  ghost predicate Between(x: Three) {
    x.prev.speaker == x.next.speaker != x.curr.speaker && 1 <= |x.curr.words| <= 9
  }

  /** These words, said by the speaker of s. */
  ghost predicate Holds(lex: Lexicon, r: Segment, s: Segment, ws: seq<Word>) {
    r.speaker == s.speaker && SameTokens(r.words, ws) && InOrder(lex, r)
  }

  ghost predicate HasBackchannel(lex: Lexicon, ws: seq<Word>) { exists k :: IsShown(lex, ws, k) }

  /** An answer word, then at least three words without backchannel, the last of them in the
      middle of a sentence. */
  ghost predicate AnswerAndMore(lex: Lexicon, c: seq<Word>) {
    && |c| >= 4 && lex.clean(c[0].text) in {"says", "yes", "yeah"}
    && !lex.endsTerminal(c[|c| - 1].text) && !HasBackchannel(lex, c[1..])
  }

  /** Only the answer word stays, a "says" as "Yes."; the others begin the next segment. */
  ghost predicate AnswerKept(lex: Lexicon, x: Three, y: Three) {
    && y.prev == x.prev && x.curr.words != []
    && var c := x.curr.words;
      && Holds(lex, y.curr, x.curr, [c[0].(text := if lex.clean(c[0].text) == "says" then "Yes." else c[0].text)])
      && Holds(lex, y.next, x.next, c[1..] + x.next.words)
  }

  /** Words from f to l stay. Those before go to prev if it ended at most 1.2 s before them, those
      after to next if it starts at most 1.2 s after them; otherwise they stay, too. */
  ghost predicate CoreKept(lex: Lexicon, x: Three, y: Three, f: nat, l: nat) {
    && f <= l < |x.curr.words|
    && var c := x.curr.words;
      var lo := if c[0].start - x.prev.end <= 1200 then f else 0;
      var hi := if x.next.start - c[|c| - 1].end <= 1200 then l + 1 else |c|;
      && Holds(lex, y.curr, x.curr, c[lo..hi])
      && (if lo > 0 then Holds(lex, y.prev, x.prev, x.prev.words + c[..lo]) else y.prev == x.prev)
      && (if hi < |c| then Holds(lex, y.next, x.next, c[hi..] + x.next.words) else y.next == x.next)
  }

  /** At most three words right after prev, which does not end a sentence. */
  ghost predicate StrayFragment(lex: Lexicon, x: Three) {
    && x.prev.words != [] && |x.curr.words| <= 3 && x.curr.start - x.prev.end <= 600
    && !lex.endsTerminal(x.prev.words[|x.prev.words| - 1].text)
  }

  ghost predicate GivenBack(lex: Lexicon, x: Three, y: Three) {
    && y.prev == x.prev && y.next == x.next && y.curr.speaker == x.prev.speaker
    && SameTokens(y.curr.words, x.curr.words) && InOrder(lex, y.curr)
  }

  /** A stray fragment goes back; anything else without backchannel stays. */
  ghost predicate FragmentTrimmed(lex: Lexicon, x: Three, y: Three) {
    if StrayFragment(lex, x) then GivenBack(lex, x, y) else y == x
  }

  /** The words from the first to the last backchannel stay. */
  ghost predicate BackchannelKept(lex: Lexicon, x: Three, y: Three) {
    exists f: nat, l: nat :: FirstAndLast(lex, x.curr.words, f, l) && CoreKept(lex, x, y, f, l)
  }

  /** y comes of x by trimming its middle. */
  ghost predicate TrimmedRight(lex: Lexicon, x: Three, y: Three) {
    if !Between(x) then y == x
    else if AnswerAndMore(lex, x.curr.words) then AnswerKept(lex, x, y)
    else if |x.curr.words| > 5 then y == x
    else if HasBackchannel(lex, x.curr.words) then BackchannelKept(lex, x, y)
    else FragmentTrimmed(lex, x, y)
  }

  lemma {:induction false} RebuiltHolds(lex: Lexicon, s: Segment, ws: seq<Word>)
    ensures Holds(lex, Rebuilt(lex, s.(words := ws)), s, ws)
  {
    assert Texts(Relabel(ws, s.speaker)) == Texts(ws);
  }

  lemma {:induction false} SpanIff(lex: Lexicon, ws: seq<Word>) returns (b: (int, int))
    ensures b == lex.Backchannels(ws) && (b.0 <= b.1 <==> HasBackchannel(lex, ws))
    ensures b.0 <= b.1 ==> FirstAndLast(lex, ws, b.0, b.1)
  {
    b := lex.Backchannels(ws);
    HasHull(lex, ws);
    if b.0 <= b.1 {
      assert IsShown(lex, ws, b.0);
    }
  }

  lemma {:induction false} AnswerIff(lex: Lexicon, x: Three)
    requires x.curr.words != []
    ensures AnswerThenBleed(lex, x) <==> AnswerAndMore(lex, x.curr.words)
  {
    var b := SpanIff(lex, x.curr.words[1..]);
  }

  lemma {:induction false} AnswerLaw(lex: Lexicon, x: Three)
    requires x.curr.words != []
    ensures AnswerKept(lex, x, KeepAnswer(lex, x))
  {
    var c := x.curr.words;
    var first := c[0].(text := if lex.clean(c[0].text) == "says" then "Yes." else c[0].text);
    RebuiltHolds(lex, x.curr, [first]);
    RebuiltHolds(lex, x.next, c[1..] + x.next.words);
  }

  lemma {:induction false} BetweenLaw(lex: Lexicon, x: Three, lo: nat, hi: nat)
    requires lo <= hi <= |x.curr.words|
    ensures var c, y := x.curr.words, KeepBetween(lex, x, lo, hi);
      && Holds(lex, y.curr, x.curr, c[lo..hi])
      && (if lo > 0 then Holds(lex, y.prev, x.prev, x.prev.words + c[..lo]) else y.prev == x.prev)
      && (if hi < |c| then Holds(lex, y.next, x.next, c[hi..] + x.next.words) else y.next == x.next)
  {
    var c := x.curr.words;
    RebuiltHolds(lex, x.curr, c[lo..hi]);
    RebuiltHolds(lex, x.prev, x.prev.words + c[..lo]);
    RebuiltHolds(lex, x.next, c[hi..] + x.next.words);
  }

  lemma {:induction false} CoreLaw(lex: Lexicon, x: Three, f: nat, l: nat)
    requires f <= l < |x.curr.words|
    ensures CoreKept(lex, x, KeepCore(lex, x, f, l + 1), f, l)
  {
    BetweenLaw(lex, x, LeadGiven(x, f), TailGiven(x, l + 1));
  }

  lemma {:induction false} ReturnedLaw(lex: Lexicon, x: Three)
    ensures GivenBack(lex, x, Returned(lex, x))
  {
    RebuiltHolds(lex, x.curr.(speaker := x.prev.speaker), x.curr.words);
    assert x.curr.(speaker := x.prev.speaker).(words := x.curr.words) == x.curr.(speaker := x.prev.speaker);
  }

  lemma {:induction false} KeptLaw(lex: Lexicon, x: Three, f: int, l: int)
    requires FirstAndLast(lex, x.curr.words, f, l)
    ensures BackchannelKept(lex, x, KeepCore(lex, x, f, l + 1))
  {
    CoreLaw(lex, x, f, l);
    assert CoreKept(lex, x, KeepCore(lex, x, f, l + 1), f, l);
  }

  lemma {:induction false} FragmentLaw(lex: Lexicon, x: Three)
    requires x.prev.words != []
    ensures FragmentTrimmed(lex, x, ReturnedFragment(lex, x))
  {
    ReturnedLaw(lex, x);
  }

  lemma {:induction false} ShortLaw(lex: Lexicon, x: Three) returns (b: (int, int), y: Three)
    requires x.prev.words != [] && x.curr.words != []
    ensures b == lex.Backchannels(x.curr.words) && y == TrimmedShort(lex, x, b.0, b.1)
    ensures if HasBackchannel(lex, x.curr.words) then BackchannelKept(lex, x, y) else FragmentTrimmed(lex, x, y)
  {
    b := SpanIff(lex, x.curr.words);
    if b.0 <= b.1 {
      KeptLaw(lex, x, b.0, b.1);
      y := KeepCore(lex, x, b.0, b.1 + 1);
    } else {
      FragmentLaw(lex, x);
      y := ReturnedFragment(lex, x);
    }
  }

  /** One sandwich, exactly. */
  lemma {:induction false} TrimmedLaw(lex: Lexicon, x: Three)
    requires x.prev.words != []
    ensures TrimmedRight(lex, x, Trimmed(lex, x))
  {
    if Between(x) {
      AnswerIff(lex, x);
      if AnswerAndMore(lex, x.curr.words) {
        AnswerLaw(lex, x);
      } else if |x.curr.words| <= 5 {
        var b, y := ShortLaw(lex, x);
      }
    }
  }

  // ---------------------------------------------------------------- the sweep

  /** Segment i of a is trimmed in b; segments further away stay. */
  ghost predicate TrimmedThere(lex: Lexicon, a: seq<Segment>, b: seq<Segment>, i: nat) {
    && 0 < i < |a| - 1 && |b| == |a|
    && TrimmedRight(lex, Three(a[i - 1], a[i], a[i + 1]), Three(b[i - 1], b[i], b[i + 1]))
    && forall k :: 0 <= k < |a| && k != i - 1 && k != i && k != i + 1 ==> b[k] == a[k]
  }

  /** The segments are trimmed from left to right, each on what the one before left. */
  ghost predicate TrimmedInTurn(lex: Lexicon, states: seq<seq<Segment>>) {
    forall i :: 0 < i < |states| ==> TrimmedThere(lex, states[i - 1], states[i], i)
  }

  lemma {:induction false} TrimmedThereLaw(lex: Lexicon, segs: seq<Segment>, i: nat, n: nat)
    requires NoEmpty(segs) && 0 < i < |segs| - 1 && n == i + 1
    ensures TrimmedThere(lex, TrimmedTo(lex, segs, i), TrimmedTo(lex, segs, n), i)
  {
    var s := TrimmedTo(lex, segs, i);
    TrimmedLaw(lex, Three(s[i - 1], s[i], s[i + 1]));
    assert TrimmedTo(lex, segs, n) == PutThree(s, i, Trimmed(lex, Three(s[i - 1], s[i], s[i + 1])));
  }

  lemma {:induction false} SweepStates(lex: Lexicon, segs: seq<Segment>, n: nat) returns (states: seq<seq<Segment>>)
    requires NoEmpty(segs) && 0 < n < |segs|
    ensures |states| == n && states[0] == segs && states[n - 1] == TrimmedTo(lex, segs, n)
    ensures TrimmedInTurn(lex, states)
  {
    if n == 1 {
      states := [segs];
    } else {
      var before := SweepStates(lex, segs, n - 1);
      TrimmedThereLaw(lex, segs, n - 1, n);
      states := before + [TrimmedTo(lex, segs, n)];
    }
  }

  /** Pass 1D is the sweep over all segments but the first and the last. */
  lemma {:induction false} Pass1DLaw(lex: Lexicon, segs: seq<Segment>) returns (states: seq<seq<Segment>>)
    requires NoEmpty(segs) && |segs| >= 2
    ensures |states| == |segs| - 1 && states[0] == segs && TrimmedInTurn(lex, states)
    ensures Pass1D(lex, segs) == states[|segs| - 2]
  {
    states := SweepStates(lex, segs, |segs| - 1);
    NothingToDrop(states[|segs| - 2]);
  }
}
