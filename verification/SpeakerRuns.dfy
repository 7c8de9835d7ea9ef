module SpeakerRuns {
  /**
    Splitting one Whisper segment into speaker runs: snap speaker changes back to the sentence
    boundary before them, group words by speaker, isolate sandwiched backchannels, and absorb
    one-word jitter until nothing changes.
   */
  import opened Options
  import opened Words

  // ---------------------------------------------------------------- 0. pre-snap

  ghost predicate NoTerminal(lex: Lexicon, ws: seq<Word>, lo: int, hi: int) {
    forall i :: 0 <= lo <= i < hi <= |ws| ==> !lex.Terminal(ws[i])
  }

  const LOOKBACK := 6

  /** Words p..k-1 may be handed to the speaker of k: they follow a boundary and end no sentence. */
  ghost predicate CanSnap(lex: Lexicon, ws: seq<Word>, p: int, k: int) {
    1 <= p < k <= |ws| && k - p <= LOOKBACK && lex.Boundary(ws[p - 1]) && NoTerminal(lex, ws, p, k)
  }

  /** The boundary the search settles on is the nearest one. */
  ghost predicate IsSnap(lex: Lexicon, ws: seq<Word>, k: int, p: int) {
    CanSnap(lex, ws, p, k) && forall q: int :: p < q ==> !CanSnap(lex, ws, q, k)
  }

  method TerminalWithin(lex: Lexicon, ws: seq<Word>, lo: nat, hi: nat) returns (found: bool)
    requires lo <= hi <= |ws|
    ensures found <==> !NoTerminal(lex, ws, lo, hi)
  {
    for i := lo to hi
      invariant NoTerminal(lex, ws, lo, i)
    {
      if lex.Terminal(ws[i]) {
        return true;
      }
    }
    return false;
  }

  method FindSnap(lex: Lexicon, ws: seq<Word>, k: nat) returns (snap: Option<nat>)
    requires 1 <= k < |ws|
    ensures snap.None? ==> forall p: int :: !CanSnap(lex, ws, p, k)
    ensures snap.Some? ==> IsSnap(lex, ws, k, snap.value)
  {
    var lookback := 1;
    while lookback < 7 && lookback < k + 1
      invariant 1 <= lookback <= 7 && lookback <= k + 1
      invariant forall p: int :: k - lookback < p ==> !CanSnap(lex, ws, p, k)
    {
      if k - lookback - 1 >= 0 && lex.Boundary(ws[k - lookback - 1]) {
        var ends := TerminalWithin(lex, ws, k - lookback, k);
        if !ends {
          return Some(k - lookback);
        }
      }
      lookback := lookback + 1;
    }
    return None;
  }

  /** The speaker changes at k without a sentence end before it. */
  predicate MidSentenceChange(lex: Lexicon, ws: seq<Word>, k: int) {
    1 <= k < |ws| && ws[k - 1].speaker != ws[k].speaker && !lex.Terminal(ws[k - 1])
  }

  /** The change at k claims word m: m lies between the nearest boundary and k. */
  ghost predicate Claims(lex: Lexicon, ws: seq<Word>, k: int, m: int) {
    MidSentenceChange(lex, ws, k) && exists p: int :: IsSnap(lex, ws, k, p) && p <= m < k
  }

  /** Speaker of word m once the changes before position n are handled: that of the last
      change claiming m, where every change is judged on the ORIGINAL labels. */
  ghost function Snapped(lex: Lexicon, ws: seq<Word>, m: nat, n: nat): int
    requires m < |ws| && n <= |ws|
  {
    if n <= m + 1 then ws[m].speaker
    else if Claims(lex, ws, n - 1, m) then ws[n - 1].speaker
    else Snapped(lex, ws, m, n - 1)
  }

  ghost function SnappedTo(lex: Lexicon, ws: seq<Word>, n: nat): (r: seq<Word>)
    requires n <= |ws|
    ensures |r| == |ws|
    ensures forall m :: 0 <= m < |ws| ==> r[m] == ws[m].(speaker := Snapped(lex, ws, m, n))
  {
    seq(|ws|, m requires 0 <= m < |ws| => ws[m].(speaker := Snapped(lex, ws, m, n)))
  }

  lemma {:induction false} SnapIgnoresLabels(lex: Lexicon, a: seq<Word>, b: seq<Word>, k: int)
    requires SameTokens(a, b)
    ensures forall p: int :: CanSnap(lex, a, p, k) == CanSnap(lex, b, p, k)
    ensures forall p: int :: IsSnap(lex, a, k, p) == IsSnap(lex, b, k, p)
  {
  }

  function Least(a: nat, b: nat): nat { if a <= b then a else b }

  /** Words lo..hi-1 get a new speaker. */
  method HandOver(a: array<Word>, lo: nat, hi: nat, speaker: int)
    requires lo <= hi <= a.Length
    modifies a
    ensures forall i :: 0 <= i < a.Length ==>
      a[i] == if lo <= i < hi then old(a[i]).(speaker := speaker) else old(a[i])
  {
    for m := lo to hi
      invariant forall i :: 0 <= i < a.Length ==>
        a[i] == if lo <= i < m then old(a[i]).(speaker := speaker) else old(a[i])
    {
      a[m] := a[m].(speaker := speaker);
    }
  }

  /** The sweep rewrites the labels it reads from, yet each label ends as if every change had
      been judged on the original ones. */
  method PreSnap(lex: Lexicon, a: array<Word>)
    modifies a
    ensures a[..] == SnappedTo(lex, old(a[..]), a.Length)
  {
    ghost var ws := a[..];
    var k := 1;
    while k < a.Length
      invariant 1 <= k && (k <= a.Length || a.Length == 0)
      invariant forall m :: 0 <= m < a.Length ==>
        a[m] == SnappedTo(lex, ws, Least(k, |ws|))[m]
    {
      assert a[k - 1] == ws[k - 1] && a[k] == ws[k];
      if a[k - 1].speaker != a[k].speaker && !lex.Terminal(a[k - 1]) {
        var snap := FindSnap(lex, a[..], k);
        SnapIgnoresLabels(lex, a[..], ws, k);
        if snap.Some? {
          HandOver(a, snap.value, k, a[k].speaker);
          assert IsSnap(lex, ws, k, snap.value);
        }
      }
      forall m | 0 <= m < a.Length
        ensures a[m] == ws[m].(speaker := Snapped(lex, ws, m, k + 1))
      {
      }
      k := k + 1;
    }
  }

  /** Pre-snap locality: a word keeps its label or takes the original label of a word at most
      six places on, where the speaker originally changed in mid-sentence, with no sentence
      end in between and a boundary before the stretch that was handed over. */
  lemma {:induction false} SnapIsLocal(lex: Lexicon, ws: seq<Word>, m: nat, n: nat)
    requires m < |ws| && n <= |ws|
    ensures Snapped(lex, ws, m, n) == ws[m].speaker
      || exists k: int, p: int :: m < k <= m + LOOKBACK && k < n && MidSentenceChange(lex, ws, k)
           && p <= m && CanSnap(lex, ws, p, k) && Snapped(lex, ws, m, n) == ws[k].speaker
    ensures m == |ws| - 1 ==> Snapped(lex, ws, m, n) == ws[m].speaker
  {
    if n > m + 1 {
      if Claims(lex, ws, n - 1, m) {
        var p: int :| IsSnap(lex, ws, n - 1, p) && p <= m < n - 1;
        assert CanSnap(lex, ws, p, n - 1);
      } else {
        SnapIsLocal(lex, ws, m, n - 1);
      }
    }
  }

  /** A sentence or a formula ends before word p, and no sentence ends from there to word k, at
      most six words on. */
  ghost predicate SnapsTo(lex: Lexicon, ws: seq<Word>, k: int, p: int) {
    && 1 <= p < k < |ws| && k - p <= 6
    && (lex.endsTerminal(ws[p - 1].text) || lex.formulaEnd(lex.clean(ws[p - 1].text)))
    && forall i :: p <= i < k ==> !lex.endsTerminal(ws[i].text)
  }

  /** The speaker changes at k in mid-sentence, and word m is between the nearest such p and k. */
  ghost predicate Draws(lex: Lexicon, ws: seq<Word>, k: int, m: int) {
    && 0 < k < |ws| && ws[k - 1].speaker != ws[k].speaker && !lex.endsTerminal(ws[k - 1].text)
    && exists p: int :: p <= m < k && SnapsTo(lex, ws, k, p) && forall q: int :: p < q ==> !SnapsTo(lex, ws, k, q)
  }

  lemma {:induction false} SnapsIff(lex: Lexicon, ws: seq<Word>, k: int, p: int)
    requires k < |ws|
    ensures CanSnap(lex, ws, p, k) <==> SnapsTo(lex, ws, k, p)
  {
  }

  lemma {:induction false} DrawsIff(lex: Lexicon, ws: seq<Word>, k: int, m: int)
    ensures Claims(lex, ws, k, m) <==> Draws(lex, ws, k, m)
  {
    if 0 < k < |ws| {
      forall p: int ensures CanSnap(lex, ws, p, k) <==> SnapsTo(lex, ws, k, p) {
        SnapsIff(lex, ws, k, p);
      }
      forall p: int ensures IsSnap(lex, ws, k, p)
        <==> SnapsTo(lex, ws, k, p) && forall q: int :: p < q ==> !SnapsTo(lex, ws, k, q) {
      }
    }
  }

  lemma {:induction false} LastClaim(lex: Lexicon, ws: seq<Word>, m: nat, n: nat) returns (k: nat)
    requires m < |ws| && n <= |ws|
    ensures k < |ws| && Snapped(lex, ws, m, n) == ws[k].speaker
    ensures k == m || (m < k < n && Claims(lex, ws, k, m))
    ensures forall j :: k < j < n && m < j ==> !Claims(lex, ws, j, m)
  {
    if n <= m + 1 {
      k := m;
    } else if Claims(lex, ws, n - 1, m) {
      k := n - 1;
    } else {
      k := LastClaim(lex, ws, m, n - 1);
    }
  }

  /** After pre-snap a word has the speaker of the last change that draws it, or its own. */
  lemma {:induction false} DrawnByTheLast(lex: Lexicon, ws: seq<Word>, m: nat) returns (k: nat)
    requires m < |ws|
    ensures k < |ws| && SnappedTo(lex, ws, |ws|)[m] == ws[m].(speaker := ws[k].speaker)
    ensures k == m || Draws(lex, ws, k, m)
    ensures forall j :: k < j < |ws| ==> !Draws(lex, ws, j, m)
  {
    k := LastClaim(lex, ws, m, |ws|);
    DrawsIff(lex, ws, k, m);
    forall j | k < j < |ws| ensures !Draws(lex, ws, j, m) {
      DrawsIff(lex, ws, j, m);
    }
  }

  // ---------------------------------------------------------------- 1. runs

  datatype Run = Run(speaker: int, words: seq<Word>)

  function Flatten(runs: seq<Run>): seq<Word> {
    if runs == [] then [] else Flatten(runs[..|runs| - 1]) + runs[|runs| - 1].words
  }

  predicate NonEmptyRuns(runs: seq<Run>) {
    forall i :: 0 <= i < |runs| ==> runs[i].words != []
  }

  ghost predicate Alternating(runs: seq<Run>) {
    forall i, j :: 0 <= i < j < |runs| && j == i + 1 ==> runs[i].speaker != runs[j].speaker
  }

  ghost predicate Uniform(runs: seq<Run>) {
    forall i :: 0 <= i < |runs| ==> Labelled(runs[i].words, runs[i].speaker)
  }

  /** Maximal runs of equally labelled words. */
  ghost predicate RunsOf(runs: seq<Run>, ws: seq<Word>) {
    NonEmptyRuns(runs) && Alternating(runs) && Uniform(runs) && Flatten(runs) == ws
  }

  function AddWord(runs: seq<Run>, w: Word): seq<Run> {
    var n := |runs|;
    if runs == [] || runs[n - 1].speaker != w.speaker then runs + [Run(w.speaker, [w])]
    else runs[n - 1 := runs[n - 1].(words := runs[n - 1].words + [w])]
  }

  function Grouped(ws: seq<Word>): seq<Run> {
    if ws == [] then [] else AddWord(Grouped(ws[..|ws| - 1]), ws[|ws| - 1])
  }

  method GroupRuns(ws: seq<Word>) returns (runs: seq<Run>)
    ensures runs == Grouped(ws)
  {
    runs := [];
    for i := 0 to |ws|
      invariant runs == Grouped(ws[..i])
    {
      assert ws[..i + 1][..i] == ws[..i];
      if runs == [] || runs[|runs| - 1].speaker != ws[i].speaker {
        runs := runs + [Run(ws[i].speaker, [ws[i]])];
      } else {
        runs := runs[|runs| - 1 := runs[|runs| - 1].(words := runs[|runs| - 1].words + [ws[i]])];
      }
    }
    assert ws[..|ws|] == ws;
  }

  lemma {:induction false} FlattenSnoc(runs: seq<Run>, r: Run)
    ensures Flatten(runs + [r]) == Flatten(runs) + r.words
  {
    assert (runs + [r])[..|runs|] == runs;
  }

  lemma {:induction false} FlattenReplaceLast(runs: seq<Run>, r: Run)
    requires runs != []
    ensures Flatten(runs[|runs| - 1 := r]) == Flatten(runs[..|runs| - 1]) + r.words
  {
    assert runs[|runs| - 1 := r][..|runs| - 1] == runs[..|runs| - 1];
  }

  lemma {:induction false} AddWordExtends(runs: seq<Run>, ws: seq<Word>, w: Word)
    requires RunsOf(runs, ws)
    ensures RunsOf(AddWord(runs, w), ws + [w])
  {
    if runs == [] || runs[|runs| - 1].speaker != w.speaker {
      FlattenSnoc(runs, Run(w.speaker, [w]));
    } else {
      LastRunGrows(runs, w);
    }
  }

  lemma {:induction false} LastRunGrows(runs: seq<Run>, w: Word)
    requires runs != [] && Uniform(runs) && runs[|runs| - 1].speaker == w.speaker
    ensures var x := runs[|runs| - 1];
      var r := runs[|runs| - 1 := x.(words := x.words + [w])];
      Flatten(r) == Flatten(runs) + [w] && Uniform(r)
  {
    var x := runs[|runs| - 1];
    FlattenReplaceLast(runs, x.(words := x.words + [w]));
    assert Flatten(runs) == Flatten(runs[..|runs| - 1]) + x.words;
  }

  /** The runs without their last word. */
  function DropLast(runs: seq<Run>): seq<Run>
    requires runs != [] && NonEmptyRuns(runs)
  {
    var n := |runs|;
    var x := runs[n - 1];
    if |x.words| == 1 then runs[..n - 1] else runs[n - 1 := x.(words := x.words[..|x.words| - 1])]
  }

  lemma {:induction false} DropLastShortens(runs: seq<Run>, ws: seq<Word>)
    requires RunsOf(runs, ws) && ws != []
    ensures runs != [] && RunsOf(DropLast(runs), ws[..|ws| - 1])
    ensures AddWord(DropLast(runs), ws[|ws| - 1]) == runs
  {
    var n := |runs|;
    var x := runs[n - 1];
    var k := |x.words|;
    assert x.words[..k - 1] + [x.words[k - 1]] == x.words;
    assert x.words[k - 1] == ws[|ws| - 1];
    if k == 1 {
      assert Flatten(runs[..n - 1]) == ws[..|ws| - 1];
      assert runs[..n - 1] + [x] == runs;
    } else {
      FlattenReplaceLast(runs, x.(words := x.words[..k - 1]));
    }
  }

  /** The grouping keeps every word in order, in maximal runs. */
  lemma {:induction false} GroupedIsRunsOf(ws: seq<Word>)
    ensures RunsOf(Grouped(ws), ws)
    decreases |ws|
  {
    if ws != [] {
      var n := |ws| - 1;
      GroupedIsRunsOf(ws[..n]);
      AddWordExtends(Grouped(ws[..n]), ws[..n], ws[n]);
      assert ws[..n] + [ws[n]] == ws;
    }
  }

  /** Nothing else groups them into maximal runs. */
  lemma {:induction false} RunsOfUnique(runs: seq<Run>, ws: seq<Word>)
    requires RunsOf(runs, ws)
    ensures runs == Grouped(ws)
    decreases |ws|
  {
    if ws != [] {
      DropLastShortens(runs, ws);
      RunsOfUnique(DropLast(runs), ws[..|ws| - 1]);
    }
  }
}
