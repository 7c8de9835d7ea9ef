/**
  The second half of run splitting: backchannels sandwiched between two runs of one speaker
  are trimmed to their core, then one-word jitter is absorbed pass after pass.
 */
module JitterSmoothing {
  import opened Words
  import opened Sequences
  import opened SpeakerRuns

  // ---------------------------------------------------------------- vocabulary of proofs

  lemma {:induction false} FlattenConcat(a: seq<Run>, b: seq<Run>)
    ensures Flatten(a + b) == Flatten(a) + Flatten(b)
    decreases |b|
  {
    if b == [] {
      assert a + b == a;
    } else {
      var c, r := b[..|b| - 1], b[|b| - 1];
      FlattenConcat(a, c);
      AppendSnoc(a, b);
      FlattenSnoc(a + c, r);
      AppendAssoc(Flatten(a), Flatten(c), r.words);
    }
  }

  /** Replacing a stretch of runs by one with the same tokens. */
  lemma {:induction false} FlattenReplace(pre: seq<Run>, old_: seq<Run>, new_: seq<Run>, post: seq<Run>)
    requires SameTokens(Flatten(new_), Flatten(old_))
    ensures SameTokens(Flatten(pre + new_ + post), Flatten(pre + old_ + post))
  {
    FlattenConcat(pre + new_, post);
    FlattenConcat(pre, new_);
    FlattenConcat(pre + old_, post);
    FlattenConcat(pre, old_);
  }

  // ---------------------------------------------------------------- 1b. sandwiched backchannels

  predicate Sandwich(lex: Lexicon, runs: seq<Run>, i: nat) {
    && 0 < i < |runs| - 1
    && runs[i - 1].speaker == runs[i + 1].speaker && runs[i].speaker != runs[i - 1].speaker
    && 1 <= |runs[i].words| <= 5
    && lex.Backchannels(runs[i].words).0 <= lex.Backchannels(runs[i].words).1
  }

  /** Run i keeps its words lo..hi-1; those before and after go to the neighbours. */
  function TrimAround(runs: seq<Run>, i: nat, lo: nat, hi: nat): (r: seq<Run>)
    requires 0 < i < |runs| - 1 && lo <= hi <= |runs[i].words|
    ensures |r| == |runs| && forall k :: 0 <= k < |runs| ==> r[k].speaker == runs[k].speaker
  {
    var p, c, q := runs[i - 1], runs[i], runs[i + 1];
    runs[i - 1 := p.(words := p.words + Relabel(c.words[..lo], p.speaker))]
        [i := c.(words := c.words[lo..hi])]
        [i + 1 := q.(words := Relabel(c.words[hi..], q.speaker) + q.words)]
  }

  /** Keep the backchannel core in run i. */
  function IsolateAt(lex: Lexicon, runs: seq<Run>, i: nat): (r: seq<Run>)
    requires i < |runs|
    ensures |r| == |runs| && forall k :: 0 <= k < |runs| ==> r[k].speaker == runs[k].speaker
  {
    if !Sandwich(lex, runs, i) then runs
    else TrimAround(runs, i, lex.Backchannels(runs[i].words).0, lex.Backchannels(runs[i].words).1 + 1)
  }

  function IsolatedTo(lex: Lexicon, runs: seq<Run>, i: nat): (r: seq<Run>)
    requires i <= |runs|
    ensures |r| == |runs| && forall k :: 0 <= k < |runs| ==> r[k].speaker == runs[k].speaker
  {
    if i == 0 then runs else IsolateAt(lex, IsolatedTo(lex, runs, i - 1), i - 1)
  }

  function DropEmpty(runs: seq<Run>): seq<Run> {
    if runs == [] then []
    else DropEmpty(runs[..|runs| - 1]) + if runs[|runs| - 1].words == [] then [] else [runs[|runs| - 1]]
  }

  lemma {:induction false} DropEmptyNothing(runs: seq<Run>)
    requires NonEmptyRuns(runs)
    ensures DropEmpty(runs) == runs
    decreases |runs|
  {
    if runs != [] {
      DropEmptyNothing(runs[..|runs| - 1]);
    }
  }

  method TrimSandwich(lex: Lexicon, runs: seq<Run>, i: nat) returns (r: seq<Run>)
    requires i < |runs| && Sandwich(lex, runs, i)
    ensures r == IsolateAt(lex, runs, i)
  {
    var p, c, q := runs[i - 1], runs[i], runs[i + 1];
    var span := lex.Backchannels(c.words);
    var lead, core, trail := c.words[..span.0], c.words[span.0..span.1 + 1], c.words[span.1 + 1..];
    var pWords, qWords := p.words, q.words;
    if lead != [] {
      pWords := pWords + Relabel(lead, p.speaker);
    }
    if trail != [] {
      qWords := Relabel(trail, q.speaker) + qWords;
    }
    assert pWords == p.words + Relabel(lead, p.speaker);
    assert qWords == Relabel(trail, q.speaker) + q.words;
    r := runs[i - 1 := p.(words := pWords)][i := c.(words := core)][i + 1 := q.(words := qWords)];
  }

  method IsolateBackchannels(lex: Lexicon, runs0: seq<Run>) returns (runs: seq<Run>)
    requires NonEmptyRuns(runs0)
    ensures runs == IsolatedTo(lex, runs0, |runs0|)
  {
    runs := runs0;
    for i := 1 to if |runs0| >= 3 then |runs0| - 1 else 1
      invariant |runs| == |runs0|
      invariant runs == IsolatedTo(lex, runs0, if i <= |runs0| then i else |runs0|)
    {
      if Sandwich(lex, runs, i) {
        runs := TrimSandwich(lex, runs, i);
      }
    }
    assert |runs0| >= 3 ==> runs == IsolatedTo(lex, runs0, |runs0|);
    IsolationKeeps(lex, runs0, |runs0|);
    DropEmptyNothing(runs);
    runs := DropEmpty(runs);
  }

  /** Isolation moves words to neighbouring runs and nothing else: tokens stay in order, runs
      keep their speakers and none becomes empty, and every moved word takes its run's label. */
  lemma {:induction false} IsolationKeeps(lex: Lexicon, runs: seq<Run>, i: nat)
    requires i <= |runs| && NonEmptyRuns(runs)
    ensures IsolationKept(runs, IsolatedTo(lex, runs, i))
  {
    if i > 0 {
      IsolationKeeps(lex, runs, i - 1);
      var s := IsolatedTo(lex, runs, i - 1);
      IsolateOne(lex, s, i - 1);
      IsolationKeptTrans(runs, s, IsolateAt(lex, s, i - 1));
    } else {
      SameTokensSelf(Flatten(runs));
    }
  }

  ghost predicate IsolationKept(runs: seq<Run>, r: seq<Run>) {
    && NonEmptyRuns(r) && SameTokens(Flatten(r), Flatten(runs))
    && |r| == |runs| && (forall k :: 0 <= k < |runs| ==> r[k].speaker == runs[k].speaker)
    && (Uniform(runs) ==> Uniform(r))
  }

  lemma {:induction false} IsolationKeptTrans(a: seq<Run>, b: seq<Run>, c: seq<Run>)
    requires IsolationKept(a, b) && IsolationKept(b, c)
    ensures IsolationKept(a, c)
  {
    SameTokensTrans(Flatten(c), Flatten(b), Flatten(a));
  }

  lemma {:induction false} SameTokensSelf(a: seq<Word>)
    ensures SameTokens(a, a)
  {
  }

  lemma {:induction false} SameTokensTrans(a: seq<Word>, b: seq<Word>, c: seq<Word>)
    requires SameTokens(a, b) && SameTokens(b, c)
    ensures SameTokens(a, c)
  {
    forall i | 0 <= i < |a| ensures SameToken(a[i], c[i]) {
      assert SameToken(a[i], b[i]) && SameToken(b[i], c[i]);
    }
  }

  lemma {:induction false} TrimKeepsTokens(runs: seq<Run>, i: nat, lo: nat, hi: nat)
    requires 0 < i < |runs| - 1 && lo <= hi <= |runs[i].words|
    ensures SameTokens(Flatten(TrimAround(runs, i, lo, hi)), Flatten(runs))
  {
    var r := TrimAround(runs, i, lo, hi);
    var a, b := runs[i - 1..i + 2], r[i - 1..i + 2];
    FlattenThree(a);
    FlattenThree(b);
    TrimTokens(a[0].words, a[1].words, a[2].words, lo, hi, a[0].speaker, a[2].speaker);
    FlattenReplace(runs[..i - 1], a, b, runs[i + 2..]);
    assert runs == runs[..i - 1] + a + runs[i + 2..];
    assert r == runs[..i - 1] + b + runs[i + 2..];
  }

  lemma {:induction false} TrimKeepsRuns(runs: seq<Run>, i: nat, lo: nat, hi: nat)
    requires 0 < i < |runs| - 1 && lo < hi <= |runs[i].words| && NonEmptyRuns(runs)
    ensures var r := TrimAround(runs, i, lo, hi);
      NonEmptyRuns(r) && (Uniform(runs) ==> Uniform(r))
  {
  }

  lemma {:induction false} IsolateOne(lex: Lexicon, runs: seq<Run>, i: nat)
    requires NonEmptyRuns(runs) && i < |runs|
    ensures IsolationKept(runs, IsolateAt(lex, runs, i))
  {
    if Sandwich(lex, runs, i) {
      var span := lex.Backchannels(runs[i].words);
      TrimKept(runs, i, span.0, span.1 + 1);
    } else {
      SameTokensSelf(Flatten(runs));
    }
  }

  lemma {:induction false} TrimKept(runs: seq<Run>, i: nat, lo: nat, hi: nat)
    requires 0 < i < |runs| - 1 && lo < hi <= |runs[i].words| && NonEmptyRuns(runs)
    ensures IsolationKept(runs, TrimAround(runs, i, lo, hi))
  {
    TrimKeepsTokens(runs, i, lo, hi);
    TrimKeepsRuns(runs, i, lo, hi);
  }

  lemma {:induction false} TrimTokens(p: seq<Word>, c: seq<Word>, q: seq<Word>, lo: nat, hi: nat, x: int, y: int)
    requires lo <= hi <= |c|
    ensures SameTokens((p + Relabel(c[..lo], x)) + c[lo..hi] + (Relabel(c[hi..], y) + q), p + c + q)
  {
  }

  lemma {:induction false} FlattenThree(a: seq<Run>)
    requires |a| == 3
    ensures Flatten(a) == a[0].words + a[1].words + a[2].words
  {
    assert a[..2][..1] == a[..1] && a[..1][..0] == [];
    assert Flatten(a[..1]) == a[0].words;
    assert Flatten(a[..2]) == a[0].words + a[1].words;
  }

  // ---------------------------------------------------------------- 2. jitter

  /** One short word, not an intended answer, not after a pause or a sentence end. */
  predicate Jitter(lex: Lexicon, runs: seq<Run>, i: nat)
    requires i < |runs| && NonEmptyRuns(runs)
  {
    var ws := runs[i].words;
    && |ws| == 1 && ws[0].end - ws[0].start < 350 && !lex.affirmation(ws[0].text)
    && (i > 0 ==>
          var last := runs[i - 1].words[|runs[i - 1].words| - 1];
          !lex.endsClause(last.text) && ws[0].start - last.end < 300)
  }

  predicate Surrounded(runs: seq<Run>, i: nat) {
    0 < i < |runs| - 1 && runs[i - 1].speaker == runs[i + 1].speaker
  }

  /** Jitter the pass can absorb: between two runs of one speaker, leading, or trailing. */
  predicate Absorbable(lex: Lexicon, runs: seq<Run>, i: nat)
    requires i < |runs| && NonEmptyRuns(runs)
  {
    |runs| > 1 && Jitter(lex, runs, i) && (Surrounded(runs, i) || i == 0 || i == |runs| - 1)
  }

  /** A pass in progress: the input as changed so far, the runs kept, whether one was absorbed. */
  datatype Pass = Pass(runs: seq<Run>, kept: seq<Run>, changed: bool)

  function Extended(runs: seq<Run>, ws: seq<Word>): seq<Run>
    requires runs != []
  {
    runs[|runs| - 1 := runs[|runs| - 1].(words := runs[|runs| - 1].words + ws)]
  }

  /** new_runs is empty only before the first run, or when that run was absorbed into the second. */
  predicate Ready(p: Pass, i: nat) {
    && NonEmptyRuns(p.runs) && NonEmptyRuns(p.kept)
    && (i > 0 && p.kept == [] ==> i == 1 && |p.runs| > 1 && |p.runs[1].words| > 1)
  }

  /** Run i is kept, or absorbed: into the last kept run under the label of its neighbour,
      or, when it leads, into the second run. */
  function Placed(p: Pass, i: nat, absorb: bool): Pass
    requires i < |p.runs| && NonEmptyRuns(p.runs)
    requires absorb ==> if i == 0 then |p.runs| > 1 else p.kept != []
  {
    var r := p.runs[i];
    if !absorb then Pass(p.runs, p.kept + [r], p.changed)
    else if Surrounded(p.runs, i) then
      Pass(p.runs, Extended(p.kept, Relabel(r.words, p.runs[i - 1].speaker)), true)
    else if i == 0 then
      var next := p.runs[1];
      Pass(p.runs[1 := next.(words := Relabel(r.words, next.speaker) + next.words)], p.kept, true)
    else Pass(p.runs, Extended(p.kept, Relabel(r.words, p.kept[|p.kept| - 1].speaker)), true)
  }

  function SmoothStep(lex: Lexicon, p: Pass, i: nat): (t: Pass)
    requires i < |p.runs| && Ready(p, i)
    requires i != 1 && i > 0 ==> p.kept != []
    ensures |t.runs| == |p.runs| && Ready(t, i + 1)
    ensures |p.kept| <= |t.kept| <= |p.kept| + 1 && (t.changed <==> p.changed || |t.kept| == |p.kept|)
    ensures i > 0 ==> t.kept != []
  {
    Placed(p, i, Absorbable(lex, p.runs, i))
  }

  function SmoothTo(lex: Lexicon, runs: seq<Run>, i: nat): (p: Pass)
    requires i <= |runs| && NonEmptyRuns(runs)
    ensures |p.runs| == |runs| && Ready(p, i)
    ensures |p.kept| <= i && (p.changed <==> |p.kept| < i)
    ensures forall k :: 0 <= k < |runs| ==> p.runs[k].speaker == runs[k].speaker
    ensures i != 1 && i > 0 ==> p.kept != []
    ensures i > 1 ==> forall k :: i <= k < |runs| ==> p.runs[k] == runs[k]
  {
    if i == 0 then Pass(runs, [], false) else SmoothStep(lex, SmoothTo(lex, runs, i - 1), i - 1)
  }

  /** A run behind others: it extends the last one if they have one speaker. */
  function Joined(m: seq<Run>, r: Run): (t: seq<Run>)
    ensures |t| <= |m| + 1 && t != [] && t[|t| - 1].speaker == r.speaker
    ensures Alternating(m) ==> Alternating(t)
    ensures NonEmptyRuns(m) && r.words != [] ==> NonEmptyRuns(t)
  {
    if m == [] || m[|m| - 1].speaker != r.speaker then m + [r] else Extended(m, r.words)
  }

  /** Neighbouring runs of one speaker become one. */
  function Merged(runs: seq<Run>): (m: seq<Run>)
    ensures |m| <= |runs| && Alternating(m) && (NonEmptyRuns(runs) ==> NonEmptyRuns(m))
    ensures runs != [] ==> m != [] && m[|m| - 1].speaker == runs[|runs| - 1].speaker
  {
    if runs == [] then [] else Joined(Merged(runs[..|runs| - 1]), runs[|runs| - 1])
  }

  lemma {:induction false} NothingToJoin(runs: seq<Run>)
    requires Alternating(runs)
    ensures Merged(runs) == runs
  {
    if runs != [] {
      var n := |runs| - 1;
      NothingToJoin(runs[..n]);
      assert n > 0 ==> runs[n - 1].speaker != runs[n].speaker;
      assert runs[..n] + [runs[n]] == runs;
    }
  }

  /** Passes until one changes nothing; each changing pass has fewer runs. */
  function Smoothed(lex: Lexicon, runs: seq<Run>): seq<Run>
    requires NonEmptyRuns(runs)
    decreases |runs|
  {
    if |runs| <= 1 then runs
    else
      var p := SmoothTo(lex, runs, |runs|);
      if p.changed then Smoothed(lex, Merged(p.kept)) else Merged(p.kept)
  }

  method SmoothJitter(lex: Lexicon, runs0: seq<Run>) returns (runs: seq<Run>)
    requires NonEmptyRuns(runs0)
    ensures runs == Smoothed(lex, runs0)
  {
    runs := runs0;
    var changed := true;
    while changed && |runs| > 1
      invariant NonEmptyRuns(runs)
      invariant changed ==> Smoothed(lex, runs) == Smoothed(lex, runs0)
      invariant !changed ==> runs == Smoothed(lex, runs0)
      decreases |runs|, changed
    {
      var p := SmoothPass(lex, runs);
      changed := p.changed;
      runs := MergeRuns(p.kept);
    }
  }

  /** One run of a sweep: kept, or absorbed by a neighbour. */
  method PlaceRun(lex: Lexicon, p: Pass, i: nat) returns (t: Pass)
    requires i < |p.runs| && Ready(p, i) && (i == 0 ==> p.kept == []) && (i > 1 ==> p.kept != [])
    ensures t == SmoothStep(lex, p, i)
  {
    var runs, kept, changed := p.runs, p.kept, p.changed;
    var r := runs[i];
    if Jitter(lex, runs, i) {
      if i > 0 && i < |runs| - 1 && runs[i - 1].speaker == runs[i + 1].speaker {
        kept := Extended(kept, Relabel(r.words, runs[i - 1].speaker));
        return Pass(runs, kept, true);
      } else if i == 0 && |runs| > 1 {
        runs := runs[1 := runs[1].(words := Relabel(r.words, runs[1].speaker) + runs[1].words)];
        return Pass(runs, kept, true);
      } else if i == |runs| - 1 && |kept| > 0 {
        kept := Extended(kept, Relabel(r.words, kept[|kept| - 1].speaker));
        return Pass(runs, kept, true);
      }
    }
    kept := kept + [r];
    t := Pass(runs, kept, changed);
  }

  /** One sweep over the runs, working on runs and new_runs in place. */
  method SmoothPass(lex: Lexicon, runs0: seq<Run>) returns (p: Pass)
    requires NonEmptyRuns(runs0)
    ensures p == SmoothTo(lex, runs0, |runs0|)
  {
    p := Pass(runs0, [], false);
    for i := 0 to |runs0|
      invariant |p.runs| == |runs0| && p == SmoothTo(lex, runs0, i)
    {
      p := PlaceRun(lex, p, i);
    }
  }

  method JoinRun(m: seq<Run>, r: Run) returns (t: seq<Run>)
    ensures t == Joined(m, r)
  {
    if m == [] || m[|m| - 1].speaker != r.speaker {
      t := m + [r];
    } else {
      t := Extended(m, r.words);
    }
  }

  method MergeRuns(runs: seq<Run>) returns (m: seq<Run>)
    ensures m == Merged(runs)
  {
    m := [];
    for i := 0 to |runs|
      invariant m == Merged(runs[..i])
    {
      assert runs[..i + 1][..i] == runs[..i];
      m := JoinRun(m, runs[i]);
    }
    assert runs[..|runs|] == runs;
  }

  // ---------------------------------------------------------------- what smoothing keeps, and where it stops

  lemma {:induction false} FlattenExtended(runs: seq<Run>, ws: seq<Word>)
    requires runs != []
    ensures Flatten(Extended(runs, ws)) == Flatten(runs) + ws
  {
    FlattenReplaceLast(runs, runs[|runs| - 1].(words := runs[|runs| - 1].words + ws));
  }

  lemma {:induction false} FlattenFirst(runs: seq<Run>)
    requires runs != []
    ensures Flatten(runs) == runs[0].words + Flatten(runs[1..])
  {
    FlattenConcat([runs[0]], runs[1..]);
    assert [runs[0]] + runs[1..] == runs;
    assert [runs[0]][..0] == [];
  }

  /** Tokens are where they were: those of the kept runs, then those still to come. */
  lemma {:induction false} PassKeepsTokens(lex: Lexicon, runs: seq<Run>, i: nat)
    requires i <= |runs| && NonEmptyRuns(runs)
    ensures var p := SmoothTo(lex, runs, i);
      SameTokens(Flatten(p.kept) + Flatten(p.runs[i..]), Flatten(runs))
  {
    if i == 0 {
      assert runs[0..] == runs;
    } else {
      PassKeepsTokens(lex, runs, i - 1);
      var p := SmoothTo(lex, runs, i - 1);
      StepStaysWith(p, i - 1, Absorbable(lex, p.runs, i - 1), Flatten(runs));
    }
  }

  lemma {:induction false} StepStaysWith(p: Pass, i: nat, absorb: bool, all: seq<Word>)
    requires i < |p.runs| && NonEmptyRuns(p.runs) && (i == 0 ==> p.kept == [])
    requires absorb ==> if i == 0 then |p.runs| > 1 else p.kept != []
    requires SameTokens(Flatten(p.kept) + Flatten(p.runs[i..]), all)
    ensures var t := Placed(p, i, absorb);
      SameTokens(Flatten(t.kept) + Flatten(t.runs[i + 1..]), all)
  {
    StepKeepsTokens(p, i, absorb);
    var t := Placed(p, i, absorb);
    SameTokensTrans(Flatten(t.kept) + Flatten(t.runs[i + 1..]), Flatten(p.kept) + Flatten(p.runs[i..]), all);
  }

  lemma {:induction false} AbsorbTokens(kept: seq<Run>, ws: seq<Word>, r: Run, rest: seq<Word>)
    requires kept != [] && SameTokens(ws, r.words)
    ensures SameTokens(Flatten(Extended(kept, ws)) + rest, Flatten(kept) + (r.words + rest))
  {
    FlattenExtended(kept, ws);
  }

  lemma {:induction false} KeepTokens(kept: seq<Run>, r: Run, rest: seq<Word>)
    ensures Flatten(kept + [r]) + rest == Flatten(kept) + (r.words + rest)
  {
    FlattenSnoc(kept, r);
  }

  lemma {:induction false} FlattenFrom(runs: seq<Run>, i: nat)
    requires i < |runs|
    ensures Flatten(runs[i..]) == runs[i].words + Flatten(runs[i + 1..])
  {
    FlattenFirst(runs[i..]);
    assert runs[i..][1..] == runs[i + 1..];
  }

  lemma {:induction false} LeadTokens(runs: seq<Run>, next: Run)
    requires |runs| > 1 && SameTokens(next.words, runs[0].words + runs[1].words)
    ensures SameTokens(Flatten(runs[1 := next][1..]), Flatten(runs))
  {
    FlattenFirst(runs);
    FlattenFirst(runs[1..]);
    FlattenFirst(runs[1 := next][1..]);
    assert runs[1 := next][1..][1..] == runs[1..][1..];
  }

  lemma {:induction false} StepKeepsTokens(p: Pass, i: nat, absorb: bool)
    requires i < |p.runs| && NonEmptyRuns(p.runs) && (i == 0 ==> p.kept == [])
    requires absorb ==> if i == 0 then |p.runs| > 1 else p.kept != []
    ensures var t := Placed(p, i, absorb);
      SameTokens(Flatten(t.kept) + Flatten(t.runs[i + 1..]), Flatten(p.kept) + Flatten(p.runs[i..]))
  {
    var t, r := Placed(p, i, absorb), p.runs[i];
    var rest := Flatten(p.runs[i + 1..]);
    FlattenFrom(p.runs, i);
    if !absorb {
      KeepTokens(p.kept, r, rest);
    } else if Surrounded(p.runs, i) {
      AbsorbTokens(p.kept, Relabel(r.words, p.runs[i - 1].speaker), r, rest);
    } else if i == 0 {
      LeadTokens(p.runs, t.runs[1]);
      assert p.runs[0..] == p.runs;
    } else {
      AbsorbTokens(p.kept, Relabel(r.words, p.kept[|p.kept| - 1].speaker), r, rest);
    }
  }

  lemma {:induction false} JoinedKeepsTokens(m: seq<Run>, r: Run)
    ensures Flatten(Joined(m, r)) == Flatten(m) + r.words
  {
    if m == [] || m[|m| - 1].speaker != r.speaker {
      FlattenSnoc(m, r);
    } else {
      FlattenExtended(m, r.words);
    }
  }

  lemma {:induction false} MergedKeepsTokens(runs: seq<Run>)
    ensures Flatten(Merged(runs)) == Flatten(runs)
    decreases |runs|
  {
    if runs != [] {
      var n := |runs| - 1;
      MergedKeepsTokens(runs[..n]);
      JoinedKeepsTokens(Merged(runs[..n]), runs[n]);
    }
  }

  /** A pass that changes nothing found nothing to absorb. */
  lemma {:induction false} UnchangedPass(lex: Lexicon, runs: seq<Run>, i: nat)
    requires i <= |runs| && NonEmptyRuns(runs) && !SmoothTo(lex, runs, i).changed
    ensures SmoothTo(lex, runs, i) == Pass(runs, runs[..i], false)
    ensures forall k :: 0 <= k < i ==> !Absorbable(lex, runs, k)
  {
    if i > 0 {
      UnchangedPass(lex, runs, i - 1);
    }
  }

  lemma {:induction false} WholePassKeepsTokens(lex: Lexicon, runs: seq<Run>)
    requires NonEmptyRuns(runs)
    ensures SameTokens(Flatten(Merged(SmoothTo(lex, runs, |runs|).kept)), Flatten(runs))
  {
    var p := SmoothTo(lex, runs, |runs|);
    PassKeepsTokens(lex, runs, |runs|);
    MergedKeepsTokens(p.kept);
    assert Flatten(p.kept) + Flatten(p.runs[|runs|..]) == Flatten(p.kept);
  }

  /** Smoothing keeps every token in order, and it stops at a fixpoint: one run is left, or
      runs alternate and none of them can be absorbed. */
  lemma {:induction false} SmoothingIsStable(lex: Lexicon, runs: seq<Run>)
    requires NonEmptyRuns(runs) && Alternating(runs)
    ensures var r := Smoothed(lex, runs);
      && NonEmptyRuns(r) && Alternating(r) && SameTokens(Flatten(r), Flatten(runs))
      && (forall k :: 0 <= k < |r| ==> !Absorbable(lex, r, k))
      && Smoothed(lex, r) == r
    decreases |runs|
  {
    if |runs| > 1 {
      var p := SmoothTo(lex, runs, |runs|);
      if p.changed {
        WholePassKeepsTokens(lex, runs);
        SmoothingIsStable(lex, Merged(p.kept));
        SameTokensTrans(Flatten(Smoothed(lex, Merged(p.kept))), Flatten(Merged(p.kept)), Flatten(runs));
      } else {
        UnchangedPass(lex, runs, |runs|);
        assert runs[..|runs|] == runs;
        NothingToJoin(runs);
      }
    }
  }

  // ---------------------------------------------------------------- labels inside a run

  /** The runs as the pass sees them once a leading jitter run is absorbed. */
  function AfterLead(lex: Lexicon, runs: seq<Run>): (r: seq<Run>)
    requires NonEmptyRuns(runs)
    ensures |r| == |runs| && NonEmptyRuns(r)
  {
    if runs == [] then runs else SmoothTo(lex, runs, 1).runs
  }

  /** Run k is absorbed between two runs of one speaker. */
  predicate MidAbsorbed(lex: Lexicon, runs: seq<Run>, k: nat)
    requires NonEmptyRuns(runs) && k < |runs|
  {
    Surrounded(AfterLead(lex, runs), k) && Jitter(lex, AfterLead(lex, runs), k)
  }

  /** Two neighbouring runs, both before position i, are absorbed in the same pass. */
  ghost predicate DoubleAbsorption(lex: Lexicon, runs: seq<Run>, i: nat)
    requires NonEmptyRuns(runs) && i <= |runs|
  {
    exists k :: 0 < k < i && MidAbsorbed(lex, runs, k - 1) && MidAbsorbed(lex, runs, k)
  }

  lemma {:induction false} RunsSettleAfterLead(lex: Lexicon, runs: seq<Run>, i: nat)
    requires 0 < i <= |runs| && NonEmptyRuns(runs)
    ensures SmoothTo(lex, runs, i).runs == AfterLead(lex, runs)
  {
    if i > 1 {
      RunsSettleAfterLead(lex, runs, i - 1);
    }
  }

  lemma {:induction false} UniformExtended(kept: seq<Run>, ws: seq<Word>)
    requires kept != [] && ws != []
    ensures Uniform(Extended(kept, ws)) <==> Uniform(kept) && Labelled(ws, kept[|kept| - 1].speaker)
  {
    var n := |kept| - 1;
    var x, e := kept[n], Extended(kept, ws);
    assert e[n].words == x.words + ws;
    if Uniform(e) {
      assert Labelled(e[n].words, x.speaker);
      forall j | 0 <= j < |ws| ensures ws[j].speaker == x.speaker {
        assert ws[j] == e[n].words[|x.words| + j];
      }
      forall j | 0 <= j < |x.words| ensures x.words[j].speaker == x.speaker {
        assert x.words[j] == e[n].words[j];
      }
      assert forall k :: 0 <= k < n ==> e[k] == kept[k];
    }
  }

  lemma {:induction false} UniformSnoc(kept: seq<Run>, r: Run)
    requires Labelled(r.words, r.speaker)
    ensures Uniform(kept + [r]) <==> Uniform(kept)
  {
    if Uniform(kept + [r]) {
      assert forall k :: 0 <= k < |kept| ==> (kept + [r])[k] == kept[k];
    }
  }

  lemma {:induction false} StepLabels(p: Pass, i: nat, absorb: bool)
    requires i < |p.runs| && NonEmptyRuns(p.runs) && Uniform(p.runs)
    requires absorb ==> if i == 0 then |p.runs| > 1 else p.kept != []
    ensures var t := Placed(p, i, absorb);
      && Uniform(t.runs)
      && (Uniform(t.kept) <==>
            (Uniform(p.kept)
             && (absorb && Surrounded(p.runs, i) ==> p.runs[i - 1].speaker == p.kept[|p.kept| - 1].speaker)))
  {
    if !absorb {
      UniformSnoc(p.kept, p.runs[i]);
    } else if i > 0 {
      var x := if Surrounded(p.runs, i) then p.runs[i - 1].speaker else p.kept[|p.kept| - 1].speaker;
      UniformExtended(p.kept, Relabel(p.runs[i].words, x));
      assert Relabel(p.runs[i].words, x)[0].speaker == x;
    }
  }

  lemma {:induction false} DoubleAbsorptionStep(lex: Lexicon, runs: seq<Run>, i: nat)
    requires NonEmptyRuns(runs) && i < |runs|
    ensures DoubleAbsorption(lex, runs, i + 1) <==> (DoubleAbsorption(lex, runs, i)
      || (i > 0 && MidAbsorbed(lex, runs, i - 1) && MidAbsorbed(lex, runs, i)))
  {
  }

  /** A pass over uniformly labelled runs leaves a word whose label differs from its run's
      exactly when it absorbs two neighbouring runs at once. */
  lemma {:induction false} PassLabels(lex: Lexicon, runs: seq<Run>, i: nat)
    requires i <= |runs| && NonEmptyRuns(runs) && Alternating(runs) && Uniform(runs)
    ensures var p := SmoothTo(lex, runs, i);
      && (Uniform(p.kept) <==> !DoubleAbsorption(lex, runs, i))
      && (0 < i < |runs| && Uniform(p.kept) && p.kept != [] ==>
            p.kept[|p.kept| - 1].speaker == runs[if MidAbsorbed(lex, runs, i - 1) then i - 2 else i - 1].speaker)
      && Uniform(p.runs)
  {
    if i > 0 {
      PassLabels(lex, runs, i - 1);
      var p := SmoothTo(lex, runs, i - 1);
      StepLabels(p, i - 1, Absorbable(lex, p.runs, i - 1));
      DoubleAbsorptionStep(lex, runs, i - 1);
      RunsSettleAfterLead(lex, runs, i);
      if i > 1 {
        RunsSettleAfterLead(lex, runs, i - 1);
      }
    }
  }

  // ---------------------------------------------------------------- labels after all passes

  /** A run of two or more words, one of them labelled differently. No pass absorbs such a run. */
  predicate Stray(r: Run) {
    |r.words| >= 2 && exists i :: 0 <= i < |r.words| && r.words[i].speaker != r.speaker
  }

  predicate SomeStray(runs: seq<Run>) { exists k :: 0 <= k < |runs| && Stray(runs[k]) }

  predicate SinglesUniform(runs: seq<Run>) {
    forall k :: 0 <= k < |runs| && |runs[k].words| == 1 ==> runs[k].words[0].speaker == runs[k].speaker
  }

  lemma {:induction false} StrayGrows(r: Run, pre: seq<Word>, post: seq<Word>)
    requires Stray(r)
    ensures Stray(r.(words := r.words + post)) && Stray(r.(words := pre + r.words))
  {
    var i :| 0 <= i < |r.words| && r.words[i].speaker != r.speaker;
    assert (r.words + post)[i] == r.words[i] && (pre + r.words)[|pre| + i] == r.words[i];
  }

  lemma {:induction false} StrayExtended(kept: seq<Run>, ws: seq<Word>)
    requires kept != [] && SomeStray(kept)
    ensures SomeStray(Extended(kept, ws))
  {
    var k :| 0 <= k < |kept| && Stray(kept[k]);
    if k == |kept| - 1 {
      StrayGrows(kept[k], [], ws);
    }
    assert Stray(Extended(kept, ws)[k]);
  }

  lemma {:induction false} StraySnoc(kept: seq<Run>, r: Run)
    requires SomeStray(kept) || Stray(r)
    ensures SomeStray(kept + [r])
  {
    if SomeStray(kept) {
      var k :| 0 <= k < |kept| && Stray(kept[k]);
      assert Stray((kept + [r])[k]);
    } else {
      assert Stray((kept + [r])[|kept|]);
    }
  }

  lemma {:induction false} StrayJoined(m: seq<Run>, r: Run)
    requires SomeStray(m) || Stray(r)
    ensures SomeStray(Joined(m, r))
  {
    var n := |m| - 1;
    if m == [] || m[n].speaker != r.speaker {
      StraySnoc(m, r);
    } else if SomeStray(m) {
      StrayExtended(m, r.words);
    } else {
      StrayGrows(r, m[n].words, []);
      assert Extended(m, r.words)[n] == r.(words := m[n].words + r.words);
    }
  }

  lemma {:induction false} StrayMerged(runs: seq<Run>)
    requires SomeStray(runs)
    ensures SomeStray(Merged(runs))
    decreases |runs|
  {
    var n := |runs| - 1;
    var k :| 0 <= k < |runs| && Stray(runs[k]);
    if k < n {
      assert Stray(runs[..n][k]);
      StrayMerged(runs[..n]);
    }
    StrayJoined(Merged(runs[..n]), runs[n]);
  }

  /** A stray label is among the kept runs or still to come. */
  predicate StrayAt(p: Pass, i: nat) {
    SomeStray(p.kept) || exists k :: i <= k < |p.runs| && Stray(p.runs[k])
  }

  lemma {:induction false} StrayStep(p: Pass, i: nat, absorb: bool)
    requires i < |p.runs| && NonEmptyRuns(p.runs) && StrayAt(p, i)
    requires absorb ==> |p.runs[i].words| == 1 && if i == 0 then |p.runs| > 1 else p.kept != []
    ensures StrayAt(Placed(p, i, absorb), i + 1)
  {
    var t := Placed(p, i, absorb);
    if SomeStray(p.kept) {
      if !absorb {
        StraySnoc(p.kept, p.runs[i]);
      } else if t.kept != p.kept {
        StrayExtended(p.kept, t.kept[|t.kept| - 1].words[|p.kept[|p.kept| - 1].words|..]);
      }
    } else {
      var k :| i <= k < |p.runs| && Stray(p.runs[k]);
      if k == i {
        StraySnoc(p.kept, p.runs[i]);
      } else {
        StrayGrows(p.runs[k], Relabel(p.runs[i].words, p.runs[k].speaker), []);
        assert Stray(t.runs[k]);
      }
    }
  }

  lemma {:induction false} StrayPass(lex: Lexicon, runs: seq<Run>, i: nat)
    requires i <= |runs| && NonEmptyRuns(runs) && SomeStray(runs)
    ensures StrayAt(SmoothTo(lex, runs, i), i)
  {
    if i > 0 {
      StrayPass(lex, runs, i - 1);
      var p := SmoothTo(lex, runs, i - 1);
      StrayStep(p, i - 1, Absorbable(lex, p.runs, i - 1));
    }
  }

  lemma {:induction false} StrayForever(lex: Lexicon, runs: seq<Run>)
    requires NonEmptyRuns(runs) && SomeStray(runs)
    ensures SomeStray(Smoothed(lex, runs))
    decreases |runs|
  {
    if |runs| > 1 {
      var p := SmoothTo(lex, runs, |runs|);
      StrayPass(lex, runs, |runs|);
      StrayMerged(p.kept);
      if p.changed {
        StrayForever(lex, Merged(p.kept));
      }
    }
  }

  lemma {:induction false} SinglesStep(p: Pass, i: nat, absorb: bool)
    requires i < |p.runs| && NonEmptyRuns(p.runs) && NonEmptyRuns(p.kept) && Uniform(p.runs) && SinglesUniform(p.kept)
    requires absorb ==> if i == 0 then |p.runs| > 1 else p.kept != []
    ensures SinglesUniform(Placed(p, i, absorb).kept)
  {
    var t, n := Placed(p, i, absorb), |p.kept|;
    assert Labelled(p.runs[i].words, p.runs[i].speaker);
    assert forall k :: 0 <= k < n - 1 && k < |t.kept| ==> t.kept[k] == p.kept[k];
  }

  lemma {:induction false} StepOf(lex: Lexicon, runs: seq<Run>, i: nat) returns (p: Pass, absorb: bool)
    requires 0 < i <= |runs| && NonEmptyRuns(runs)
    ensures i - 1 < |p.runs| && NonEmptyRuns(p.runs) && NonEmptyRuns(p.kept)
    ensures absorb ==> if i == 1 then |p.runs| > 1 else p.kept != []
    ensures p == SmoothTo(lex, runs, i - 1) && SmoothTo(lex, runs, i) == Placed(p, i - 1, absorb)
  {
    p := SmoothTo(lex, runs, i - 1);
    absorb := Absorbable(lex, p.runs, i - 1);
  }

  /** Runs that are not uniform after a pass over uniform ones have two or more words. */
  lemma {:induction false} PassSingles(lex: Lexicon, runs: seq<Run>, i: nat)
    requires i <= |runs| && NonEmptyRuns(runs) && Alternating(runs) && Uniform(runs)
    ensures SinglesUniform(SmoothTo(lex, runs, i).kept)
  {
    if i > 0 {
      PassSingles(lex, runs, i - 1);
      PassLabels(lex, runs, i - 1);
      var p, absorb := StepOf(lex, runs, i);
      SinglesStep(p, i - 1, absorb);
    }
  }

  lemma {:induction false} StrayIff(runs: seq<Run>)
    requires NonEmptyRuns(runs) && SinglesUniform(runs)
    ensures Uniform(runs) <==> !SomeStray(runs)
  {
    if Uniform(runs) {
      forall k | 0 <= k < |runs| ensures !Stray(runs[k]) {
        assert Labelled(runs[k].words, runs[k].speaker);
      }
    } else {
      var k :| 0 <= k < |runs| && !Labelled(runs[k].words, runs[k].speaker);
      assert |runs[k].words| != 1;
      assert Stray(runs[k]);
    }
  }

  lemma {:induction false} UniformJoined(m: seq<Run>, r: Run)
    requires Uniform(m) && Labelled(r.words, r.speaker)
    ensures Uniform(Joined(m, r))
  {
  }

  lemma {:induction false} UniformMerged(runs: seq<Run>)
    requires Uniform(runs)
    ensures Uniform(Merged(runs))
    decreases |runs|
  {
    if runs != [] {
      var n := |runs| - 1;
      UniformMerged(runs[..n]);
      UniformJoined(Merged(runs[..n]), runs[n]);
    }
  }

  /** Some pass of the smoothing absorbs two neighbouring runs at once. */
  ghost predicate SomePassDoubles(lex: Lexicon, runs: seq<Run>)
    requires NonEmptyRuns(runs)
    decreases |runs|
  {
    && |runs| > 1
    && (DoubleAbsorption(lex, runs, |runs|)
        || (SmoothTo(lex, runs, |runs|).changed && SomePassDoubles(lex, Merged(SmoothTo(lex, runs, |runs|).kept))))
  }

  /** After all passes every word carries its run's label exactly when no pass absorbed two
      neighbouring runs at once: a label that went astray is never put right. */
  lemma {:induction false} SmoothedLabels(lex: Lexicon, runs: seq<Run>)
    requires NonEmptyRuns(runs) && Alternating(runs) && Uniform(runs)
    ensures Uniform(Smoothed(lex, runs)) <==> !SomePassDoubles(lex, runs)
    decreases |runs|
  {
    if |runs| > 1 {
      var p := SmoothTo(lex, runs, |runs|);
      PassLabels(lex, runs, |runs|);
      PassSingles(lex, runs, |runs|);
      StrayIff(p.kept);
      if DoubleAbsorption(lex, runs, |runs|) {
        DoubledStays(lex, runs);
      } else {
        UniformMerged(p.kept);
        if p.changed {
          SmoothedLabels(lex, Merged(p.kept));
        }
      }
    }
  }

  lemma {:induction false} StrayIsNotUniform(runs: seq<Run>)
    requires SomeStray(runs)
    ensures !Uniform(runs)
  {
    var k :| 0 <= k < |runs| && Stray(runs[k]);
    assert !Labelled(runs[k].words, runs[k].speaker);
  }

  lemma {:induction false} DoubledStays(lex: Lexicon, runs: seq<Run>)
    requires |runs| > 1 && NonEmptyRuns(runs) && SomeStray(SmoothTo(lex, runs, |runs|).kept)
    ensures !Uniform(Smoothed(lex, runs))
  {
    var p := SmoothTo(lex, runs, |runs|);
    StrayMerged(p.kept);
    if p.changed {
      StrayForever(lex, Merged(p.kept));
    }
    StrayIsNotUniform(Smoothed(lex, runs));
  }

  // ---------------------------------------------------------------- the whole split

  ghost function Split(lex: Lexicon, ws: seq<Word>): seq<Run> {
    var runs := Grouped(SnappedTo(lex, ws, |ws|));
    GroupedIsRunsOf(SnappedTo(lex, ws, |ws|));
    IsolationKeeps(lex, runs, |runs|);
    Smoothed(lex, IsolatedTo(lex, runs, |runs|))
  }

  /** The words in the runs are the array's own, so the array ends with the labels of the runs. */
  method SplitSegmentRuns(lex: Lexicon, a: array<Word>) returns (runs: seq<Run>)
    modifies a
    ensures runs == Split(lex, old(a[..]))
    ensures a[..] == Flatten(runs)
  {
    ghost var ws := a[..];
    PreSnap(lex, a);
    runs := GroupRuns(a[..]);
    GroupedIsRunsOf(a[..]);
    ghost var grouped := runs;
    runs := IsolateBackchannels(lex, runs);
    IsolationKeeps(lex, grouped, |grouped|);
    runs := SmoothJitter(lex, runs);
    SplitKeepsWords(lex, ws);
    WriteLabels(a, Flatten(runs));
  }

  method WriteLabels(a: array<Word>, ws: seq<Word>)
    requires |ws| == a.Length
    modifies a
    ensures a[..] == ws
  {
    forall i | 0 <= i < a.Length {
      a[i] := ws[i];
    }
  }

  /** Splitting a segment loses, invents and reorders nothing: the runs hold its words in
      order, none is empty, neighbours differ in speaker, and no jitter is left to absorb. */
  lemma {:induction false} SplitKeepsWords(lex: Lexicon, ws: seq<Word>)
    ensures var r := Split(lex, ws);
      && NonEmptyRuns(r) && Alternating(r) && SameTokens(Flatten(r), ws)
      && forall k :: 0 <= k < |r| ==> !Absorbable(lex, r, k)
  {
    var snapped := SnappedTo(lex, ws, |ws|);
    var runs := Grouped(snapped);
    GroupedIsRunsOf(snapped);
    IsolationKeeps(lex, runs, |runs|);
    SmoothingIsStable(lex, IsolatedTo(lex, runs, |runs|));
  }

  /** The runs the smoothing starts from. */
  ghost function Isolated(lex: Lexicon, ws: seq<Word>): (r: seq<Run>)
    ensures NonEmptyRuns(r) && Alternating(r) && Uniform(r)
  {
    var runs := Grouped(SnappedTo(lex, ws, |ws|));
    GroupedIsRunsOf(SnappedTo(lex, ws, |ws|));
    IsolationKeeps(lex, runs, |runs|);
    IsolatedTo(lex, runs, |runs|)
  }

  /** A word's label differs from its run's after a split exactly when some smoothing pass
      absorbs two neighbouring runs at once. */
  lemma {:induction false} SplitLabels(lex: Lexicon, ws: seq<Word>)
    ensures Uniform(Split(lex, ws)) <==> !SomePassDoubles(lex, Isolated(lex, ws))
  {
    SmoothedLabels(lex, Isolated(lex, ws));
  }

  // ---------------------------------------------------------------- it does happen

  /** Four runs, the middle two of one short word each. */
  function TwoJitters(text: string): seq<Run> {
    var w := (t: int, s: int) => Word(text, t, t + 100, s);
    [ Run(0, [w(0, 0), w(100, 0)]), Run(1, [w(200, 1)]), Run(0, [w(300, 0)]), Run(1, [w(400, 1), w(500, 1)]) ]
  }

  /** A text that is neither an answer, nor a backchannel, nor the end of a sentence or formula. */
  predicate PlainText(lex: Lexicon, text: string) {
    && !lex.affirmation(text) && !lex.endsClause(text) && !lex.endsTerminal(text)
    && !lex.formulaEnd(lex.clean(text)) && !lex.backchannel(lex.clean(text))
  }

  lemma {:induction false} TwoJittersDouble(lex: Lexicon, text: string)
    requires PlainText(lex, text)
    ensures var runs := TwoJitters(text);
      NonEmptyRuns(runs) && Alternating(runs) && Uniform(runs) && DoubleAbsorption(lex, runs, |runs|)
  {
    var runs := TwoJitters(text);
    RunsSettleAfterLead(lex, runs, 1);
    assert AfterLead(lex, runs) == runs;
    assert MidAbsorbed(lex, runs, 1) && MidAbsorbed(lex, runs, 2);
    var k: nat := 2;
    assert MidAbsorbed(lex, runs, k - 1) && MidAbsorbed(lex, runs, k);
  }

  /** The two changes of speaker are not snapped: no word before them is a boundary. */
  lemma {:induction false} NoBoundaryNoSnap(lex: Lexicon, ws: seq<Word>, m: nat, n: nat)
    requires m < |ws| && n <= |ws|
    requires forall i :: 0 <= i < |ws| ==> !lex.Boundary(ws[i])
    ensures Snapped(lex, ws, m, n) == ws[m].speaker
  {
    SnapIsLocal(lex, ws, m, n);
  }

  /** No run of one word is a sandwiched backchannel. */
  lemma {:induction false} NothingToIsolate(lex: Lexicon, text: string, i: nat)
    requires PlainText(lex, text) && i <= |TwoJitters(text)|
    ensures IsolatedTo(lex, TwoJitters(text), i) == TwoJitters(text)
  {
    var runs := TwoJitters(text);
    if i > 0 {
      NothingToIsolate(lex, text, i - 1);
      if 0 < i - 1 < |runs| - 1 {
        OneWordNoBackchannel(lex, runs[i - 1].words[0]);
        assert runs[i - 1].words == [runs[i - 1].words[0]];
      }
    }
  }

  lemma {:induction false} OneWordNoBackchannel(lex: Lexicon, w: Word)
    requires !lex.backchannel(lex.Token(w))
    ensures lex.Backchannels([w]).0 > lex.Backchannels([w]).1
  {
    var toks := lex.Tokens([w]);
    assert lex.BackchannelAt(toks, 0) == (1, 0);
    assert lex.BackchannelSpan(toks, 0) == (1, 0);
    assert lex.BackchannelSpan(toks, 1) == (1, 0);
  }

  /** Both middle runs are absorbed in one pass, and a word of speaker 1 ends up in a run of
      speaker 0, for good. */
  lemma {:induction false} LabelsCanDiffer(lex: Lexicon, text: string)
    requires PlainText(lex, text)
    ensures !Uniform(Split(lex, Flatten(TwoJitters(text))))
  {
    var runs := TwoJitters(text);
    var ws := Flatten(runs);
    TwoJittersDouble(lex, text);
    forall i | 0 <= i < |ws| ensures !lex.Boundary(ws[i]) {
      TwoJittersText(text, i);
    }
    forall m | 0 <= m < |ws| ensures Snapped(lex, ws, m, |ws|) == ws[m].speaker {
      NoBoundaryNoSnap(lex, ws, m, |ws|);
    }
    assert SnappedTo(lex, ws, |ws|) == ws;
    RunsOfUnique(runs, ws);
    NothingToIsolate(lex, text, |runs|);
    SplitLabels(lex, ws);
  }

  lemma {:induction false} TwoJittersText(text: string, i: nat)
    requires i < |Flatten(TwoJitters(text))|
    ensures Flatten(TwoJitters(text))[i].text == text
  {
    var runs := TwoJitters(text);
    FlattenThree(runs[..3]);
    assert runs[..3] == [runs[0], runs[1], runs[2]];
  }
}
