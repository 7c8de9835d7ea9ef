module IsolationLaws {
  /**
    What isolating a sandwiched backchannel does to the runs, said without the functions that do
    it: which words are backchannel, which of them stay, and where the others go.
   */
  import opened Words
  import opened SpeakerRuns
  import opened JitterSmoothing

  // ---------------------------------------------------------------- which words are backchannel

  /** Token j, alone or with its neighbours, shows the one at k to be backchannel. */
  ghost predicate Shows(lex: Lexicon, ts: seq<string>, j: nat, k: int) {
    j < |ts| && lex.BackchannelAt(ts, j).0 <= k <= lex.BackchannelAt(ts, j).1
  }

  ghost predicate Shown(lex: Lexicon, ts: seq<string>, n: nat, k: int) {
    exists j: nat :: j < n && Shows(lex, ts, j, k)
  }

  /** The word lists do not meddle: no title and no opening word is a backchannel by itself. */
  ghost predicate ListsApart(lex: Lexicon) {
    && (forall t :: t in {"my", "your", "i'm", "am", "as"} ==> !lex.backchannel(t) && !lex.lordTitle(t))
    && (forall t :: lex.lordTitle(t) ==> !lex.backchannel(t))
  }

  /** Yes, no, sir and their like; my lord and your lordship; I'm grateful; as the court pleases. */
  ghost predicate InBackchannel(lex: Lexicon, ts: seq<string>, k: int) {
    && 0 <= k < |ts|
    && (|| lex.backchannel(ts[k])
        || (lex.lordTitle(ts[k]) && k > 0 && ts[k - 1] in {"my", "your"})
        || (ts[k] in {"my", "your"} && k + 1 < |ts| && lex.lordTitle(ts[k + 1]))
        || (ts[k] in {"i'm", "am"} && k + 1 < |ts| && ts[k + 1] == "grateful")
        || (ts[k] == "grateful" && k > 0 && ts[k - 1] in {"i'm", "am"})
        || InPleases(ts, k))
  }

  ghost predicate PleasesAt(ts: seq<string>, m: nat) {
    m + 4 <= |ts| && ts[m..m + 4] == ["as", "the", "court", "pleases"]
  }

  ghost predicate InPleases(ts: seq<string>, k: int) { exists m: nat :: m <= k < m + 4 && PleasesAt(ts, m) }

  lemma {:induction false} ShownIsBackchannel(lex: Lexicon, ts: seq<string>, j: nat, k: int)
    requires ListsApart(lex) && Shows(lex, ts, j, k)
    ensures InBackchannel(lex, ts, k)
  {
    var t := ts[j];
    if !lex.backchannel(t) && t == "as" {
      assert PleasesAt(ts, j);
    }
  }

  lemma {:induction false} BackchannelIsShown(lex: Lexicon, ts: seq<string>, k: int)
    requires ListsApart(lex) && InBackchannel(lex, ts, k)
    ensures Shown(lex, ts, |ts|, k)
  {
    if lex.backchannel(ts[k]) || (lex.lordTitle(ts[k]) && k > 0 && ts[k - 1] in {"my", "your"})
       || (ts[k] in {"i'm", "am"} && k + 1 < |ts| && ts[k + 1] == "grateful") {
      assert Shows(lex, ts, k, k);
    } else if ts[k] in {"my", "your"} && k + 1 < |ts| && lex.lordTitle(ts[k + 1]) {
      assert Shows(lex, ts, k + 1, k);
    } else if ts[k] == "grateful" && k > 0 && ts[k - 1] in {"i'm", "am"} {
      assert Shows(lex, ts, k - 1, k);
    } else {
      var m: nat :| m <= k < m + 4 && PleasesAt(ts, m);
      PleasesShows(lex, ts, m, k);
    }
  }

  lemma {:induction false} PleasesShows(lex: Lexicon, ts: seq<string>, m: nat, k: int)
    requires ListsApart(lex) && m <= k < m + 4 && PleasesAt(ts, m)
    ensures Shows(lex, ts, m, k)
  {
    assert ts[m] == ts[m..m + 4][0] == "as";
  }

  /** The words the search shows are the backchannel words. */
  lemma {:induction false} ShownIff(lex: Lexicon, ts: seq<string>, k: int)
    requires ListsApart(lex)
    ensures Shown(lex, ts, |ts|, k) <==> InBackchannel(lex, ts, k)
  {
    if Shown(lex, ts, |ts|, k) {
      var j: nat :| j < |ts| && Shows(lex, ts, j, k);
      ShownIsBackchannel(lex, ts, j, k);
    } else if InBackchannel(lex, ts, k) {
      BackchannelIsShown(lex, ts, k);
    }
  }

  /** From the first to the last of the positions shown by the first n tokens. */
  ghost predicate Hull(lex: Lexicon, ts: seq<string>, n: nat, lo: int, hi: int) {
    && Shown(lex, ts, n, lo) && Shown(lex, ts, n, hi)
    && forall k :: Shown(lex, ts, n, k) ==> lo <= k <= hi
  }

  lemma {:induction false} ShownSnoc(lex: Lexicon, ts: seq<string>, n: nat, k: int)
    requires n < |ts|
    ensures Shown(lex, ts, n + 1, k) <==> Shown(lex, ts, n, k) || Shows(lex, ts, n, k)
  {
  }

  /** (lo, hi) is the hull of what the first n tokens show, or empty. */
  ghost predicate IsSpan(lex: Lexicon, ts: seq<string>, n: nat, r: (int, int)) {
    if r.0 <= r.1 then Hull(lex, ts, n, r.0, r.1) else forall k :: !Shown(lex, ts, n, k)
  }

  lemma {:induction false} SpanSnoc(lex: Lexicon, ts: seq<string>, n: nat, before: (int, int), r: (int, int))
    requires n < |ts| && IsSpan(lex, ts, n, before)
    requires var here := lex.BackchannelAt(ts, n);
      r == if here.0 > here.1 then before else if before.0 > before.1 then here
           else (if here.0 < before.0 then here.0 else before.0, if here.1 < before.1 then before.1 else here.1)
    ensures IsSpan(lex, ts, n + 1, r)
  {
    var here, m := lex.BackchannelAt(ts, n), n + 1;
    if here.0 <= here.1 {
      assert Shows(lex, ts, n, here.0) && Shows(lex, ts, n, here.1);
    }
    ShownSnoc(lex, ts, n, r.0);
    ShownSnoc(lex, ts, n, r.1);
    forall k | Shown(lex, ts, m, k) ensures r.0 <= k <= r.1 {
      ShownSnoc(lex, ts, n, k);
    }
  }

  lemma {:induction false} SpanIsHull(lex: Lexicon, ts: seq<string>, n: nat)
    requires n <= |ts|
    ensures IsSpan(lex, ts, n, lex.BackchannelSpan(ts, n))
    decreases n
  {
    if n > 0 {
      SpanIsHull(lex, ts, n - 1);
      SpanSnoc(lex, ts, n - 1, lex.BackchannelSpan(ts, n - 1), lex.BackchannelSpan(ts, n));
    }
  }

  // ---------------------------------------------------------------- one run between two others

  /** A word of ws is backchannel. */
  ghost predicate IsShown(lex: Lexicon, ws: seq<Word>, k: int) { Shown(lex, lex.Tokens(ws), |ws|, k) }

  /** Run i is an interjection: at most five words between two runs of one other speaker, with
      backchannel among them. */
  ghost predicate Interjection(lex: Lexicon, runs: seq<Run>, i: nat) {
    && 0 < i < |runs| - 1 && 1 <= |runs[i].words| <= 5
    && runs[i - 1].speaker == runs[i + 1].speaker != runs[i].speaker
    && exists k :: IsShown(lex, runs[i].words, k)
  }

  /** f and l are the first and the last backchannel word. */
  ghost predicate FirstAndLast(lex: Lexicon, ws: seq<Word>, f: int, l: int) {
    && 0 <= f <= l < |ws| && IsShown(lex, ws, f) && IsShown(lex, ws, l)
    && forall k :: IsShown(lex, ws, k) ==> f <= k <= l
  }

  /** The words are those of ws, said by the speaker. */
  ghost predicate SaidBy(r: seq<Word>, ws: seq<Word>, speaker: int) { SameTokens(r, ws) && Labelled(r, speaker) }

  /** r is s with run i reduced to its words f to l; those before are at the end of the run before,
      those after at the start of the run after, said by its speaker. */
  ghost predicate Reduced(s: seq<Run>, r: seq<Run>, i: nat, f: nat, l: nat) {
    && 0 < i < |s| - 1 && |r| == |s| && f <= l < |s[i].words|
    && (forall k :: 0 <= k < |s| ==> r[k].speaker == s[k].speaker)
    && (forall k :: 0 <= k < |s| && k != i - 1 && k != i && k != i + 1 ==> r[k] == s[k])
    && r[i].words == s[i].words[f..l + 1]
    && |r[i - 1].words| == |s[i - 1].words| + f && r[i - 1].words[..|s[i - 1].words|] == s[i - 1].words
    && SaidBy(r[i - 1].words[|s[i - 1].words|..], s[i].words[..f], s[i - 1].speaker)
    && |r[i + 1].words| == |s[i].words| - (l + 1) + |s[i + 1].words|
    && r[i + 1].words[|s[i].words| - (l + 1)..] == s[i + 1].words
    && SaidBy(r[i + 1].words[..|s[i].words| - (l + 1)], s[i].words[l + 1..], s[i + 1].speaker)
  }

  lemma {:induction false} HasHull(lex: Lexicon, ws: seq<Word>)
    ensures var b := lex.Backchannels(ws);
      if b.0 <= b.1 then FirstAndLast(lex, ws, b.0, b.1) else forall k :: !IsShown(lex, ws, k)
  {
    SpanIsHull(lex, lex.Tokens(ws), |ws|);
  }

  lemma {:induction false} SandwichIff(lex: Lexicon, runs: seq<Run>, i: nat)
    ensures Sandwich(lex, runs, i) <==> Interjection(lex, runs, i)
  {
    if 0 < i < |runs| - 1 {
      HasHull(lex, runs[i].words);
      var b := lex.Backchannels(runs[i].words);
      assert b.0 <= b.1 ==> IsShown(lex, runs[i].words, b.0);
    }
  }

  lemma {:induction false} TrimReduces(runs: seq<Run>, i: nat, f: nat, l: nat)
    requires 0 < i < |runs| - 1 && f <= l < |runs[i].words|
    ensures Reduced(runs, TrimAround(runs, i, f, l + 1), i, f, l)
  {
  }

  /** Run i keeps exactly the words from its first to its last backchannel. */
  ghost predicate CoreKept(lex: Lexicon, s: seq<Run>, r: seq<Run>, i: nat)
    requires i < |s|
  {
    exists f: nat, l: nat :: FirstAndLast(lex, s[i].words, f, l) && Reduced(s, r, i, f, l)
  }

  /** What becomes of run i: an interjection is reduced, any other run is left alone. */
  ghost predicate Isolates(lex: Lexicon, s: seq<Run>, r: seq<Run>, i: nat) {
    if Interjection(lex, s, i) then CoreKept(lex, s, r, i) else r == s
  }

  lemma {:induction false} TrimKeepsCore(lex: Lexicon, s: seq<Run>, r: seq<Run>, i: nat, f: nat, l: nat)
    requires 0 < i < |s| - 1 && FirstAndLast(lex, s[i].words, f, l) && r == TrimAround(s, i, f, l + 1)
    ensures CoreKept(lex, s, r, i)
  {
    TrimReduces(s, i, f, l);
  }

  lemma {:induction false} CoreOf(lex: Lexicon, ws: seq<Word>) returns (f: nat, l: nat)
    requires lex.Backchannels(ws).0 <= lex.Backchannels(ws).1
    ensures FirstAndLast(lex, ws, f, l)
    ensures lex.Backchannels(ws) == (f as int, l as int)
  {
    HasHull(lex, ws);
    f, l := lex.Backchannels(ws).0, lex.Backchannels(ws).1;
  }

  lemma {:induction false} SandwichTrimmed(lex: Lexicon, s: seq<Run>, i: nat, f: nat, l: nat)
    requires i < |s| && Sandwich(lex, s, i) && lex.Backchannels(s[i].words) == (f as int, l as int)
    ensures IsolateAt(lex, s, i) == TrimAround(s, i, f, l + 1)
  {
  }

  lemma {:induction false} IsolateAtLaw(lex: Lexicon, s: seq<Run>, i: nat)
    requires i < |s|
    ensures Isolates(lex, s, IsolateAt(lex, s, i), i)
  {
    SandwichIff(lex, s, i);
    if Sandwich(lex, s, i) {
      var f, l := CoreOf(lex, s[i].words);
      SandwichTrimmed(lex, s, i, f, l);
      TrimKeepsCore(lex, s, IsolateAt(lex, s, i), i, f, l);
    }
  }

  /** The sweep isolates run after run, each as the runs before have left it. */
  lemma {:induction false} SweepIsolates(lex: Lexicon, runs: seq<Run>, i: nat)
    requires i < |runs|
    ensures IsolatedTo(lex, runs, 0) == runs
    ensures Isolates(lex, IsolatedTo(lex, runs, i), IsolatedTo(lex, runs, i + 1), i)
  {
    IsolateAtLaw(lex, IsolatedTo(lex, runs, i), i);
  }

  // ---------------------------------------------------------------- a whole segment of three runs

  lemma {:induction false} NothingAbsorbed(lex: Lexicon, runs: seq<Run>, i: nat)
    requires i <= |runs| && NonEmptyRuns(runs) && forall k :: 0 <= k < i ==> !Absorbable(lex, runs, k)
    ensures SmoothTo(lex, runs, i) == Pass(runs, runs[..i], false)
  {
    if i > 0 {
      NothingAbsorbed(lex, runs, i - 1);
    }
  }

  lemma {:induction false} NothingToSmooth(lex: Lexicon, runs: seq<Run>)
    requires NonEmptyRuns(runs) && Alternating(runs) && forall k :: 0 <= k < |runs| ==> !Absorbable(lex, runs, k)
    ensures Smoothed(lex, runs) == runs
  {
    NothingAbsorbed(lex, runs, |runs|);
    assert runs[..|runs|] == runs;
    NothingToJoin(runs);
  }

  /** With no boundary before its last run, a segment is split at its changes of speaker. */
  lemma {:induction false} NothingSnapped(lex: Lexicon, ws: seq<Word>, last: nat, m: nat, n: nat)
    requires m < |ws| && n <= |ws| && last <= |ws|
    requires forall i :: 0 <= i < last ==> !lex.Boundary(ws[i])
    requires forall k :: last < k < |ws| ==> ws[k - 1].speaker == ws[k].speaker
    ensures Snapped(lex, ws, m, n) == ws[m].speaker
  {
    SnapIsLocal(lex, ws, m, n);
  }

  lemma {:induction false} GroupedAsTheyAre(lex: Lexicon, runs: seq<Run>, ws: seq<Word>, last: nat)
    requires RunsOf(runs, ws) && last <= |ws|
    requires forall i :: 0 <= i < last ==> !lex.Boundary(ws[i])
    requires forall k :: last < k < |ws| ==> ws[k - 1].speaker == ws[k].speaker
    ensures Grouped(SnappedTo(lex, ws, |ws|)) == runs
  {
    forall m | 0 <= m < |ws| ensures Snapped(lex, ws, m, |ws|) == ws[m].speaker {
      NothingSnapped(lex, ws, last, m, |ws|);
    }
    assert SnappedTo(lex, ws, |ws|) == ws;
    RunsOfUnique(runs, ws);
  }

  lemma {:induction false} ThreeIsolated(lex: Lexicon, runs: seq<Run>, n: nat) returns (r: seq<Run>)
    requires n == |runs| == 3
    ensures r == IsolatedTo(lex, runs, n) && Isolates(lex, runs, r, 1)
  {
    SweepIsolates(lex, runs, 0);
    SweepIsolates(lex, runs, n - 2);
    SweepIsolates(lex, runs, n - 1);
    r := IsolatedTo(lex, runs, n);
  }

  /** ws consists of these three runs, with no boundary before the last. */
  ghost predicate ThreeRuns(lex: Lexicon, runs: seq<Run>, ws: seq<Word>) {
    && |runs| == 3 && RunsOf(runs, ws)
    && forall i :: 0 <= i < |ws| && i < |runs[0].words| + |runs[1].words| ==> !lex.Boundary(ws[i])
  }

  lemma {:induction false} ThreeGrouped(lex: Lexicon, runs: seq<Run>, ws: seq<Word>)
    requires ThreeRuns(lex, runs, ws)
    ensures Grouped(SnappedTo(lex, ws, |ws|)) == runs
  {
    var last := |runs[0].words| + |runs[1].words|;
    FlattenThree(runs);
    forall k | last < k < |ws| ensures ws[k - 1].speaker == ws[k].speaker {
      assert ws[k - 1] == runs[2].words[k - 1 - last] && ws[k] == runs[2].words[k - last];
      assert Labelled(runs[2].words, runs[2].speaker);
    }
    GroupedAsTheyAre(lex, runs, ws, last);
  }

  /** A segment of three runs with an interjection in the middle, no boundary before its last run,
      and nothing in the reduced runs that could be absorbed as jitter: split, it has exactly the
      reduced runs. */
  lemma {:induction false} SplitIsolates(lex: Lexicon, runs: seq<Run>, ws: seq<Word>) returns (r: seq<Run>)
    requires ThreeRuns(lex, runs, ws)
    ensures Isolates(lex, runs, r, 1) && NonEmptyRuns(r)
    ensures (forall k :: 0 <= k < |r| ==> !Absorbable(lex, r, k)) ==> Split(lex, ws) == r
  {
    ThreeGrouped(lex, runs, ws);
    r := ThreeIsolated(lex, runs, |runs|);
    IsolationKeeps(lex, runs, |runs|);
    if forall k :: 0 <= k < |r| ==> !Absorbable(lex, r, k) {
      NothingToSmooth(lex, r);
    }
  }

  // ---------------------------------------------------------------- "the order you asked for yes not talk about it"

  function Said(text: string, start: int, speaker: int): Word { Word(text, start, start + 200, speaker) }

  /** "for yes" is said by the other speaker. */
  function ForYes(): seq<Run> {
    [ Run(0, [Said("the", 0, 0), Said("order", 200, 0), Said("you", 400, 0), Said("asked", 600, 0)]),
      Run(1, [Said("for", 800, 1), Said("yes", 1000, 1)]),
      Run(0, [Said("not", 1200, 0), Said("talk", 1400, 0), Said("about", 1600, 0), Said("it", 1800, 0)]) ]
  }

  function Opening(): seq<string> { ["the", "order", "you", "asked", "for", "yes"] }

  /** In the word lists "yes" is a backchannel and an answer, "for" is neither, and none of the
      first six words ends a sentence or a formula. */
  ghost predicate KnowsYes(lex: Lexicon) {
    && ListsApart(lex) && lex.clean("for") == "for" && lex.clean("yes") == "yes"
    && lex.backchannel("yes") && !lex.backchannel("for") && !lex.lordTitle("for") && lex.affirmation("yes")
    && forall i :: 0 <= i < 6 ==> !lex.endsTerminal(Opening()[i]) && !lex.formulaEnd(lex.clean(Opening()[i]))
  }

  lemma {:induction false} OnlyYes(lex: Lexicon, k: int)
    requires KnowsYes(lex)
    ensures IsShown(lex, ForYes()[1].words, k) <==> k == 1
  {
    var ts := lex.Tokens(ForYes()[1].words);
    assert ts[0] == "for" && ts[1] == "yes" && |ts| == 2;
    ShownIff(lex, ts, k);
  }

  lemma {:induction false} ForYesRuns(lex: Lexicon)
    requires KnowsYes(lex)
    ensures ThreeRuns(lex, ForYes(), Flatten(ForYes())) && Interjection(lex, ForYes(), 1)
  {
    var runs := ForYes();
    var ws := Flatten(runs);
    FlattenThree(runs);
    OnlyYes(lex, 1);
    forall i | 0 <= i < 6 ensures !lex.Boundary(ws[i]) {
      assert ws[i].text == Opening()[i];
    }
  }

  /** A sandwiched run with one backchannel word, at i. */
  lemma {:induction false} OneWordStays(lex: Lexicon, runs: seq<Run>, ws: seq<Word>, i: nat) returns (r: seq<Run>)
    requires ThreeRuns(lex, runs, ws) && Interjection(lex, runs, 1)
    requires forall k :: IsShown(lex, runs[1].words, k) <==> k == i
    ensures i < |runs[1].words| && Reduced(runs, r, 1, i, i) && NonEmptyRuns(r)
    ensures (forall k :: 0 <= k < |r| ==> !Absorbable(lex, r, k)) ==> Split(lex, ws) == r
  {
    r := SplitIsolates(lex, runs, ws);
    var f: nat, l: nat :| FirstAndLast(lex, runs[1].words, f, l) && Reduced(runs, r, 1, f, l);
  }

  /** "for" goes to the speaker before, "yes" stays. */
  lemma {:induction false} ForYesIsolated(lex: Lexicon, ws: seq<Word>) returns (r: seq<Run>)
    requires KnowsYes(lex) && ws == Flatten(ForYes())
    ensures r == Split(lex, ws) && |r| == 3 && r[0].speaker == r[2].speaker == 0 && r[1].speaker == 1
    ensures |r[0].words| == 5 && r[0].words[4] == Said("for", 800, 0)
    ensures r[1].words == [Said("yes", 1000, 1)] && r[2] == ForYes()[2]
  {
    ForYesRuns(lex);
    forall k ensures IsShown(lex, ForYes()[1].words, k) <==> k == 1 {
      OnlyYes(lex, k);
    }
    r := OneWordStays(lex, ForYes(), ws, 1);
    YesStays(lex, r);
  }

  lemma {:induction false} YesStays(lex: Lexicon, r: seq<Run>)
    requires KnowsYes(lex) && NonEmptyRuns(r) && Reduced(ForYes(), r, 1, 1, 1)
    ensures r[1].words == [Said("yes", 1000, 1)] && r[2] == ForYes()[2]
    ensures |r[0].words| == 5 && r[0].words[4] == Said("for", 800, 0)
    ensures forall k :: 0 <= k < |r| ==> !Absorbable(lex, r, k)
  {
    var n := |ForYes()[0].words|;
    assert r[0].words[n..][0] == r[0].words[n];
    assert r[2].words[0..] == r[2].words;
  }
}
