/**
  Pass 1D: a short segment between two segments of one other speaker is trimmed to its
  backchannel, or, being a fragment without one, returned to that speaker.
 */
module SandwichTrim {
  import opened Words
  import opened Segments
  import opened Sequences
  import opened BoundaryHealing

  datatype Three = Three(prev: Segment, curr: Segment, next: Segment)

  predicate Sandwiched(x: Three) {
    && x.prev.speaker == x.next.speaker && x.curr.speaker != x.prev.speaker
    && 1 <= |x.curr.words| <= 9
  }

  /** "says put it in writing ...": an answer word followed by the neighbour's speech. */
  predicate AnswerThenBleed(lex: Lexicon, x: Three)
    requires x.curr.words != []
  {
    var c := x.curr.words;
    var t := lex.Token(c[0]);
    && (t == "says" || t == "yes" || t == "yeah") && |c| >= 4
    && !lex.Terminal(LastWord(x.curr))
    && lex.Backchannels(c[1..]).0 > lex.Backchannels(c[1..]).1
  }

  function KeepAnswer(lex: Lexicon, x: Three): Three
    requires x.curr.words != []
  {
    var c := x.curr.words;
    var first := if lex.Token(c[0]) == "says" then c[0].(text := "Yes.") else c[0];
    Three(x.prev, Rebuilt(lex, x.curr.(words := [first])), Rebuilt(lex, x.next.(words := c[1..] + x.next.words)))
  }

  /** Words before position lo are given to prev if it ended at most 1.2 s before them. */
  function LeadGiven(x: Three, lo: nat): (n: nat)
    requires lo <= |x.curr.words|
    ensures n <= lo
  {
    if lo > 0 && x.curr.words[0].start - x.prev.end <= 1200 then lo else 0
  }

  /** Words from position hi on are given to next if it starts at most 1.2 s after them. */
  function TailGiven(x: Three, hi: nat): (n: nat)
    requires hi <= |x.curr.words|
    ensures hi <= n <= |x.curr.words|
  {
    var c := x.curr.words;
    if hi < |c| && x.next.start - c[|c| - 1].end <= 1200 then hi else |c|
  }

  /** curr keeps words lo..hi-1; what surrounds them goes to the neighbours. */
  function KeepBetween(lex: Lexicon, x: Three, lo: nat, hi: nat): Three
    requires lo <= hi <= |x.curr.words|
  {
    var c := x.curr.words;
    Three(
      if lo > 0 then Rebuilt(lex, x.prev.(words := x.prev.words + c[..lo])) else x.prev,
      Rebuilt(lex, x.curr.(words := c[lo..hi])),
      if hi < |c| then Rebuilt(lex, x.next.(words := c[hi..] + x.next.words)) else x.next)
  }

  /** curr keeps words lo..hi-1 and what its neighbours are too far away for. */
  function KeepCore(lex: Lexicon, x: Three, lo: nat, hi: nat): Three
    requires lo <= hi <= |x.curr.words|
  {
    KeepBetween(lex, x, LeadGiven(x, lo), TailGiven(x, hi))
  }

  predicate Fragment(lex: Lexicon, x: Three)
    requires x.prev.words != []
  {
    |x.curr.words| <= 3 && !lex.Terminal(LastWord(x.prev)) && x.curr.start - x.prev.end <= 600
  }

  /** curr goes back to the neighbours' speaker. */
  function Returned(lex: Lexicon, x: Three): Three {
    x.(curr := Rebuilt(lex, x.curr.(speaker := x.prev.speaker)))
  }

  function ReturnedFragment(lex: Lexicon, x: Three): Three
    requires x.prev.words != []
  {
    if Fragment(lex, x) then Returned(lex, x) else x
  }

  /** At most five words, with their backchannel from first to last if they have one. */
  function TrimmedShort(lex: Lexicon, x: Three, first: int, last: int): Three
    requires x.prev.words != [] && (first <= last ==> 0 <= first && last < |x.curr.words|)
  {
    if first <= last then KeepCore(lex, x, first, last + 1) else ReturnedFragment(lex, x)
  }

  function Trimmed(lex: Lexicon, x: Three): Three
    requires x.prev.words != []
  {
    if !Sandwiched(x) then x
    else if AnswerThenBleed(lex, x) then KeepAnswer(lex, x)
    else if |x.curr.words| > 5 then x
    else TrimmedShort(lex, x, lex.Backchannels(x.curr.words).0, lex.Backchannels(x.curr.words).1)
  }

  // ---------------------------------------------------------------- the sweep

  function PutThree(segs: seq<Segment>, i: nat, y: Three): (r: seq<Segment>)
    requires 0 < i < |segs| - 1
    ensures |r| == |segs|
  {
    segs[i - 1 := y.prev][i := y.curr][i + 1 := y.next]
  }

  /** Positions 1..i-1 handled. */
  function TrimmedTo(lex: Lexicon, segs: seq<Segment>, i: nat): (r: seq<Segment>)
    requires i < |segs| && NoEmpty(segs)
    ensures |r| == |segs| && NoEmpty(r)
  {
    if i <= 1 then segs
    else
      var s := TrimmedTo(lex, segs, i - 1);
      var x := Three(s[i - 2], s[i - 1], s[i]);
      TrimmedNonEmpty(lex, x);
      PutThree(s, i - 1, Trimmed(lex, x))
  }

  function Pass1D(lex: Lexicon, segs: seq<Segment>): seq<Segment>
    requires NoEmpty(segs)
  {
    if segs == [] then [] else DropEmpty(TrimmedTo(lex, segs, |segs| - 1))
  }

  /** The words of curr that stay, and what the neighbours become. */
  method TrimToCore(lex: Lexicon, x: Three, lo: nat, hi: nat) returns (y: Three)
    requires lo <= hi <= |x.curr.words|
    ensures y == KeepCore(lex, x, lo, hi)
  {
    var c := x.curr.words;
    var lead, core, trail := c[..lo], c[lo..hi], c[hi..];
    var from, to := LeadGiven(x, lo), TailGiven(x, hi);
    var prev, next := x.prev, x.next;
    SliceJoin(c, 0, lo, hi);
    SliceJoin(c, from, hi, |c|);
    if from > 0 {
      prev := Rebuilt(lex, x.prev.(words := x.prev.words + lead));
    } else if lead != [] {
      core := lead + core;
    }
    assert core == c[from..hi];
    if to < |c| {
      next := Rebuilt(lex, x.next.(words := trail + x.next.words));
    } else if trail != [] {
      core := core + trail;
    }
    assert core == c[from..to];
    y := Three(prev, Rebuilt(lex, x.curr.(words := core)), next);
  }

  method TrimShort(lex: Lexicon, x: Three, first: int, last: int) returns (y: Three)
    requires x.prev.words != [] && (first <= last ==> 0 <= first && last < |x.curr.words|)
    ensures y == TrimmedShort(lex, x, first, last)
  {
    if first <= last {
      y := TrimToCore(lex, x, first, last + 1);
    } else {
      y := ReturnedFragment(lex, x);
    }
  }

  method TrimSegment(lex: Lexicon, x: Three) returns (y: Three)
    requires x.prev.words != []
    ensures y == Trimmed(lex, x)
  {
    y := x;
    if Sandwiched(x) {
      if AnswerThenBleed(lex, x) {
        y := KeepAnswer(lex, x);
      } else if |x.curr.words| <= 5 {
        var span := lex.Backchannels(x.curr.words);
        y := TrimShort(lex, x, span.0, span.1);
      }
    }
  }

  method TrimAt(lex: Lexicon, segs: seq<Segment>, i: nat) returns (r: seq<Segment>)
    requires 0 < i < |segs| - 1 && NoEmpty(segs)
    ensures r == PutThree(segs, i, Trimmed(lex, Three(segs[i - 1], segs[i], segs[i + 1])))
  {
    var y := TrimSegment(lex, Three(segs[i - 1], segs[i], segs[i + 1]));
    r := segs[i - 1 := y.prev][i := y.curr][i + 1 := y.next];
  }

  method TrimSandwiches(lex: Lexicon, segs0: seq<Segment>) returns (segs: seq<Segment>)
    requires NoEmpty(segs0)
    ensures segs == Pass1D(lex, segs0)
  {
    segs := segs0;
    if |segs| >= 2 {
      for i := 1 to |segs0| - 1
        invariant |segs| == |segs0| && segs == TrimmedTo(lex, segs0, i)
      {
        segs := TrimAt(lex, segs, i);
      }
    }
    segs := DropEmpty(segs);
  }

  // ---------------------------------------------------------------- what it keeps

  lemma {:induction false} TrimmedNonEmpty(lex: Lexicon, x: Three)
    requires x.prev.words != [] && x.curr.words != [] && x.next.words != []
    ensures var y := Trimmed(lex, x); y.prev.words != [] && y.curr.words != [] && y.next.words != []
  {
  }

  ghost predicate ThreeKept(lex: Lexicon, x: Three, y: Three) {
    && Respelled(lex, x.prev.words + x.curr.words + x.next.words, y.prev.words + y.curr.words + y.next.words)
    && y.prev.speaker == x.prev.speaker && y.next.speaker == x.next.speaker
    && (y.curr.speaker == x.curr.speaker || y.curr.speaker == x.prev.speaker)
    && (Tidy(x.prev) && Tidy(x.curr) && Tidy(x.next) ==> Tidy(y.prev) && Tidy(y.curr) && Tidy(y.next))
    && (Started(x.prev) && Started(x.curr) && Started(x.next) ==> Started(y.prev) && Started(y.curr) && Started(y.next))
  }

  /** Rebuilding after a move keeps words that were only regrouped and respelled. */
  lemma {:induction false} RegroupedThree(
    lex: Lexicon, all: seq<Word>, a: seq<Word>, b: seq<Word>, c: seq<Word>, y: Three)
    requires Respelled(lex, all, a + b + c)
    requires SameTokens(a, y.prev.words) && SameTokens(b, y.curr.words) && SameTokens(c, y.next.words)
    ensures Respelled(lex, all, y.prev.words + y.curr.words + y.next.words)
  {
    RespelledThenSame(lex, all, a + b + c, y.prev.words + y.curr.words + y.next.words);
  }

  lemma {:induction false} KeepAnswerKeeps(lex: Lexicon, x: Three)
    requires SoundSpelling(lex) && x.curr.words != []
    ensures ThreeKept(lex, x, KeepAnswer(lex, x))
  {
    var p, c, q := x.prev.words, x.curr.words, x.next.words;
    var first := if lex.Token(c[0]) == "says" then c[0].(text := "Yes.") else c[0];
    assert Edited(lex, c[0], first);
    assert p + [first] + (c[1..] + q) == p + ([first] + c[1..]) + q;
    assert Respelled(lex, p + c + q, p + [first] + (c[1..] + q));
    RegroupedThree(lex, p + c + q, p, [first], c[1..] + q, KeepAnswer(lex, x));
  }

  lemma {:induction false} CutTwice(p: seq<Word>, c: seq<Word>, q: seq<Word>, lo: nat, hi: nat)
    requires lo <= hi <= |c|
    ensures p + c[..lo] + c[lo..hi] + (c[hi..] + q) == p + c + q
  {
  }

  lemma {:induction false} KeepBetweenRegroups(lex: Lexicon, x: Three, lo: nat, hi: nat)
    requires lo <= hi <= |x.curr.words|
    ensures var y := KeepBetween(lex, x, lo, hi);
      Respelled(lex, x.prev.words + x.curr.words + x.next.words, y.prev.words + y.curr.words + y.next.words)
  {
    var p, c, q := x.prev.words, x.curr.words, x.next.words;
    CutTwice(p, c, q, lo, hi);
    RespelledSelf(lex, p + c + q);
    RegroupedThree(lex, p + c + q, p + c[..lo], c[lo..hi], c[hi..] + q, KeepBetween(lex, x, lo, hi));
  }

  lemma {:induction false} KeepBetweenKeeps(lex: Lexicon, x: Three, lo: nat, hi: nat)
    requires lo <= hi <= |x.curr.words|
    ensures ThreeKept(lex, x, KeepBetween(lex, x, lo, hi))
  {
    var c := x.curr.words;
    KeepBetweenRegroups(lex, x, lo, hi);
    RebuiltIsTidy(lex, x.prev.(words := x.prev.words + c[..lo]));
    RebuiltIsTidy(lex, x.curr.(words := c[lo..hi]));
    RebuiltIsTidy(lex, x.next.(words := c[hi..] + x.next.words));
  }

  lemma {:induction false} ReturnedKeeps(lex: Lexicon, x: Three)
    requires x.curr.words != []
    ensures ThreeKept(lex, x, Returned(lex, x))
  {
    var p, c, q := x.prev.words, x.curr.words, x.next.words;
    RespelledSelf(lex, p + c + q);
    RegroupedThree(lex, p + c + q, p, c, q, Returned(lex, x));
  }

  lemma {:induction false} UntouchedKeeps(lex: Lexicon, x: Three)
    ensures ThreeKept(lex, x, x)
  {
    RespelledSelf(lex, x.prev.words + x.curr.words + x.next.words);
  }

  lemma {:induction false} TrimmedShortKeeps(lex: Lexicon, x: Three, first: int, last: int)
    requires x.prev.words != [] && x.curr.words != []
    requires first <= last ==> 0 <= first && last < |x.curr.words|
    ensures ThreeKept(lex, x, TrimmedShort(lex, x, first, last))
  {
    if first <= last {
      var lo, hi := LeadGiven(x, first), TailGiven(x, last + 1);
      KeepBetweenKeeps(lex, x, lo, hi);
      assert TrimmedShort(lex, x, first, last) == KeepCore(lex, x, first, last + 1) == KeepBetween(lex, x, lo, hi);
    } else if Fragment(lex, x) {
      ReturnedKeeps(lex, x);
    } else {
      UntouchedKeeps(lex, x);
    }
  }

  lemma {:induction false} TrimmedKeeps(lex: Lexicon, x: Three)
    requires SoundSpelling(lex) && x.prev.words != []
    ensures ThreeKept(lex, x, Trimmed(lex, x))
  {
    if !Sandwiched(x) {
      UntouchedKeeps(lex, x);
    } else if AnswerThenBleed(lex, x) {
      KeepAnswerKeeps(lex, x);
    } else if |x.curr.words| > 5 {
      UntouchedKeeps(lex, x);
    } else {
      TrimmedShortKeeps(lex, x, lex.Backchannels(x.curr.words).0, lex.Backchannels(x.curr.words).1);
    }
  }

  lemma {:induction false} PutThreeKeeps(lex: Lexicon, segs: seq<Segment>, i: nat, y: Three, S: set<int>)
    requires 0 < i < |segs| - 1 && ThreeKept(lex, Three(segs[i - 1], segs[i], segs[i + 1]), y)
    requires Within(segs, S)
    ensures var r := PutThree(segs, i, y);
      && Within(r, S)
      && Respelled(lex, Speech(segs), Speech(r))
      && (AllTidy(segs) ==> AllTidy(r)) && (AllStarted(segs) ==> AllStarted(r))
  {
    var r := PutThree(segs, i, y);
    SpeechThree(segs[i - 1], segs[i], segs[i + 1]);
    SpeechThree(y.prev, y.curr, y.next);
    SpeechReplaced(lex, segs[..i - 1], [segs[i - 1], segs[i], segs[i + 1]], [y.prev, y.curr, y.next], segs[i + 2..]);
    assert segs == segs[..i - 1] + [segs[i - 1], segs[i], segs[i + 1]] + segs[i + 2..];
    assert r == segs[..i - 1] + [y.prev, y.curr, y.next] + segs[i + 2..];
  }

  lemma {:induction false} TrimmedToKeeps(lex: Lexicon, segs: seq<Segment>, i: nat, S: set<int>)
    requires SoundSpelling(lex) && i < |segs| && NoEmpty(segs) && Within(segs, S)
    ensures var r := TrimmedTo(lex, segs, i);
      && Within(r, S)
      && Respelled(lex, Speech(segs), Speech(r))
      && (AllTidy(segs) ==> AllTidy(r)) && (AllStarted(segs) ==> AllStarted(r))
  {
    RespelledSelf(lex, Speech(segs));
    if i > 1 {
      TrimmedToKeeps(lex, segs, i - 1, S);
      var s := TrimmedTo(lex, segs, i - 1);
      var x := Three(s[i - 2], s[i - 1], s[i]);
      TrimmedKeeps(lex, x);
      PutThreeKeeps(lex, s, i - 1, Trimmed(lex, x), S);
      RespelledTrans(lex, Speech(segs), Speech(s), Speech(TrimmedTo(lex, segs, i)));
    }
  }

  /** Pass 1D keeps the speech and empties no segment: its closing filter drops nothing. */
  lemma {:induction false} Pass1DKeeps(lex: Lexicon, segs: seq<Segment>, S: set<int>)
    requires SoundSpelling(lex) && NoEmpty(segs) && Within(segs, S)
    ensures var r := Pass1D(lex, segs);
      && |r| == |segs| && NoEmpty(r) && Within(r, S)
      && (AllTidy(segs) ==> AllTidy(r)) && (AllStarted(segs) ==> AllStarted(r))
      && Respelled(lex, Speech(segs), Speech(r))
  {
    if segs == [] {
    } else {
      TrimmedToKeeps(lex, segs, |segs| - 1, S);
      NothingToDrop(TrimmedTo(lex, segs, |segs| - 1));
    }
  }
}
