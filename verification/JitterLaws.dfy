module JitterLaws {
  /**
    What absorbing one-word jitter does, said without the functions that absorb: which runs are
    absorbed in a pass, whose their words become, and when the passes end.
   */
  import opened Words
  import opened SpeakerRuns
  import opened JitterSmoothing
  import I = IsolationLaws

  /** One word of less than 0.35 s, no intended answer, not after a sentence end nor after a pause
      of 0.3 s or more. */
  ghost predicate Stutters(lex: Lexicon, runs: seq<Run>, k: nat) {
    && k < |runs| && |runs[k].words| == 1
    && runs[k].words[0].end - runs[k].words[0].start < 350 && !lex.affirmation(runs[k].words[0].text)
    && (k > 0 ==>
          runs[k - 1].words != []
          && var last := runs[k - 1].words[|runs[k - 1].words| - 1];
            !lex.endsClause(last.text) && runs[k].words[0].start - last.end < 300)
  }

  /** It stutters at either end, or between two runs of one speaker. */
  ghost predicate IsJitter(lex: Lexicon, runs: seq<Run>, k: nat) {
    && |runs| > 1 && Stutters(lex, runs, k)
    && (k == 0 || k == |runs| - 1 || runs[k - 1].speaker == runs[k + 1].speaker)
  }

  /** A pass absorbs all jitter, but not the second run if the first was put in front of it. */
  ghost predicate Absorbed(lex: Lexicon, runs: seq<Run>, k: nat) {
    IsJitter(lex, runs, k) && !(k == 1 && IsJitter(lex, runs, 0))
  }

  /** Whose the words of run k become: of the nearest run before it that is not absorbed; in front
      of all others, of the second run. */
  ghost function Heir(lex: Lexicon, runs: seq<Run>, k: nat): int
    requires k < |runs|
  {
    if !Absorbed(lex, runs, k) then runs[k].speaker
    else if k == 0 then runs[1].speaker
    else Heir(lex, runs, k - 1)
  }

  function Repeat(x: int, n: nat): seq<int> { seq(n, i => x) }

  /** Under whom each word stands. */
  function Carried(runs: seq<Run>): seq<int> {
    if runs == [] then []
    else Carried(runs[..|runs| - 1]) + Repeat(runs[|runs| - 1].speaker, |runs[|runs| - 1].words|)
  }

  /** Under whom the words of the first n runs stand after a pass. */
  ghost function Inherited(lex: Lexicon, runs: seq<Run>, n: nat): seq<int>
    requires n <= |runs|
  {
    if n == 0 then []
    else Inherited(lex, runs, n - 1) + Repeat(Heir(lex, runs, n - 1), |runs[n - 1].words|)
  }

  /** r are the runs a pass leaves: the same words, each under its heir, in alternating runs. */
  ghost predicate Absorbs(lex: Lexicon, runs: seq<Run>, r: seq<Run>) {
    && NonEmptyRuns(r) && Alternating(r) && SameTokens(Flatten(r), Flatten(runs))
    && Carried(r) == Inherited(lex, runs, |runs|)
  }

  // ---------------------------------------------------------------- one pass

  lemma {:induction false} JitterIff(lex: Lexicon, runs: seq<Run>, k: nat)
    requires NonEmptyRuns(runs) && k < |runs|
    ensures Absorbable(lex, runs, k) <==> IsJitter(lex, runs, k)
  {
  }

  lemma {:induction false} RepeatMore(x: int, m: nat, n: nat)
    ensures Repeat(x, m) + Repeat(x, n) == Repeat(x, m + n)
  {
  }

  lemma {:induction false} CarriedSnoc(runs: seq<Run>, r: Run)
    ensures Carried(runs + [r]) == Carried(runs) + Repeat(r.speaker, |r.words|)
  {
    assert (runs + [r])[..|runs|] == runs;
  }

  lemma {:induction false} CarriedExtended(runs: seq<Run>, ws: seq<Word>)
    requires runs != []
    ensures Carried(Extended(runs, ws)) == Carried(runs) + Repeat(runs[|runs| - 1].speaker, |ws|)
  {
    var n := |runs| - 1;
    var x := runs[n];
    assert Extended(runs, ws)[..n] == runs[..n];
    RepeatMore(x.speaker, |x.words|, |ws|);
    assert Carried(runs[..n]) + (Repeat(x.speaker, |x.words|) + Repeat(x.speaker, |ws|))
        == Carried(runs[..n]) + Repeat(x.speaker, |x.words|) + Repeat(x.speaker, |ws|);
  }

  lemma {:induction false} CarriedJoined(m: seq<Run>, r: Run)
    ensures Carried(Joined(m, r)) == Carried(m) + Repeat(r.speaker, |r.words|)
  {
    if m == [] || m[|m| - 1].speaker != r.speaker {
      CarriedSnoc(m, r);
    } else {
      CarriedExtended(m, r.words);
    }
  }

  /** Joining neighbours of one speaker moves no word to another speaker. */
  lemma {:induction false} CarriedMerged(runs: seq<Run>)
    ensures Carried(Merged(runs)) == Carried(runs)
    decreases |runs|
  {
    if runs != [] {
      var n := |runs| - 1;
      CarriedMerged(runs[..n]);
      CarriedJoined(Merged(runs[..n]), runs[n]);
    }
  }

  /** The first run leads: jitter in front of all others. */
  ghost predicate Led(lex: Lexicon, runs: seq<Run>) { IsJitter(lex, runs, 0) }

  lemma {:induction false} FirstStep(lex: Lexicon, runs: seq<Run>, one: nat)
    requires NonEmptyRuns(runs) && runs != [] && one == 1
    ensures var p := SmoothTo(lex, runs, one);
      if Led(lex, runs) then p.kept == [] && |runs| > 1
        && p.runs == runs[1 := runs[1].(words := Relabel(runs[0].words, runs[1].speaker) + runs[1].words)]
      else p.kept == [runs[0]] && p.runs == runs
  {
    JitterIff(lex, runs, 0);
    assert SmoothTo(lex, runs, one - 1) == Pass(runs, [], false);
  }

  /** What the pass sees at place k, whether or not the first run was put in front of the second. */
  lemma {:induction false} SeenAt(lex: Lexicon, runs: seq<Run>, k: nat)
    requires NonEmptyRuns(runs) && 0 < k < |runs|
    ensures var seen := AfterLead(lex, runs);
      && (Absorbable(lex, seen, k) <==> Absorbed(lex, runs, k))
      && (forall j :: 0 <= j < |runs| ==> seen[j].speaker == runs[j].speaker)
      && (k > 1 || !Led(lex, runs) ==> seen[k] == runs[k])
  {
    FirstStep(lex, runs, 1);
    JitterIff(lex, AfterLead(lex, runs), k);
  }

  /** After the first i runs the words kept stand under their heirs, the last under that of run
      i - 1; nothing is kept only while the first run waits in front of the second. */
  ghost predicate Carries(lex: Lexicon, runs: seq<Run>, kept: seq<Run>, i: nat) {
    && 0 < i <= |runs|
    && if i == 1 && Led(lex, runs) then kept == []
       else kept != [] && Carried(kept) == Inherited(lex, runs, i) && kept[|kept| - 1].speaker == Heir(lex, runs, i - 1)
  }

  lemma {:induction false} FirstCarries(lex: Lexicon, runs: seq<Run>, one: nat)
    requires NonEmptyRuns(runs) && runs != [] && one == 1
    ensures Carries(lex, runs, SmoothTo(lex, runs, one).kept, one)
  {
    FirstStep(lex, runs, one);
    if !Led(lex, runs) {
      CarriedSnoc([], runs[0]);
      assert [] + [runs[0]] == [runs[0]];
      assert Inherited(lex, runs, one - 1) == [];
    }
  }

  lemma {:induction false} InheritedSnoc(lex: Lexicon, runs: seq<Run>, i: nat, n: nat)
    requires n == i + 1 && n <= |runs|
    ensures Inherited(lex, runs, n) == Inherited(lex, runs, i) + Repeat(Heir(lex, runs, i), |runs[i].words|)
  {
  }

  /** The second run, with the first in front of it. */
  lemma {:induction false} LeadCarries(lex: Lexicon, runs: seq<Run>, r: Run, two: nat)
    requires two == 2 <= |runs| && Led(lex, runs)
    requires r.speaker == runs[1].speaker && |r.words| == |runs[0].words| + |runs[1].words|
    ensures Carries(lex, runs, [r], two)
  {
    var none: seq<Run> := [];
    CarriedSnoc(none, r);
    assert none + [r] == [r];
    InheritedSnoc(lex, runs, 0, 1);
    InheritedSnoc(lex, runs, 1, two);
    assert Inherited(lex, runs, 0) == [];
    RepeatMore(r.speaker, |runs[0].words|, |runs[1].words|);
  }

  lemma {:induction false} KeepCarries(lex: Lexicon, runs: seq<Run>, kept: seq<Run>, i: nat, n: nat)
    requires n == i + 1 && i < |runs| && Carries(lex, runs, kept, i) && kept != [] && !Absorbed(lex, runs, i)
    ensures Carries(lex, runs, kept + [runs[i]], n)
  {
    CarriedSnoc(kept, runs[i]);
    InheritedSnoc(lex, runs, i, n);
  }

  lemma {:induction false} AbsorbCarries(lex: Lexicon, runs: seq<Run>, kept: seq<Run>, i: nat, n: nat, ws: seq<Word>)
    requires n == i + 1 && i < |runs| && Carries(lex, runs, kept, i) && kept != [] && Absorbed(lex, runs, i)
    requires |ws| == |runs[i].words|
    ensures Carries(lex, runs, Extended(kept, ws), n)
  {
    CarriedExtended(kept, ws);
    InheritedSnoc(lex, runs, i, n);
  }

  /** One more run of the pass. */
  lemma {:induction false} NextStep(lex: Lexicon, runs: seq<Run>, i: nat, n: nat)
    returns (p: Pass, absorb: bool)
    requires NonEmptyRuns(runs) && 0 < i < |runs| && n == i + 1
    ensures p == SmoothTo(lex, runs, i) && p.runs == AfterLead(lex, runs) && (absorb <==> Absorbed(lex, runs, i))
    ensures absorb && i == 1 ==> !Led(lex, runs)
    ensures absorb ==> p.kept != []
    ensures SmoothTo(lex, runs, n) == Placed(p, i, absorb)
  {
    p := SmoothTo(lex, runs, i);
    absorb := Absorbable(lex, p.runs, i);
    RunsSettleAfterLead(lex, runs, i);
    SeenAt(lex, runs, i);
    if i == 1 {
      FirstStep(lex, runs, i);
    }
  }

  lemma {:induction false} PassCarries(lex: Lexicon, runs: seq<Run>, i: nat)
    requires NonEmptyRuns(runs) && 0 < i <= |runs|
    ensures Carries(lex, runs, SmoothTo(lex, runs, i).kept, i)
    decreases i
  {
    if i == 1 {
      FirstCarries(lex, runs, i);
    } else {
      var k := i - 1;
      PassCarries(lex, runs, k);
      var p, absorb := NextStep(lex, runs, k, i);
      StepCarries(lex, runs, p, k, i, absorb);
    }
  }

  lemma {:induction false} StepCarries(lex: Lexicon, runs: seq<Run>, p: Pass, i: nat, n: nat, absorb: bool)
    requires NonEmptyRuns(runs) && 0 < i < |runs| && n == i + 1 && p.runs == AfterLead(lex, runs)
    requires Carries(lex, runs, p.kept, i) && (absorb <==> Absorbed(lex, runs, i)) && (absorb ==> p.kept != [])
    ensures Carries(lex, runs, Placed(p, i, absorb).kept, n)
  {
    SeenAt(lex, runs, i);
    if absorb {
      var heir := if Surrounded(p.runs, i) then p.runs[i - 1].speaker else p.kept[|p.kept| - 1].speaker;
      AbsorbCarries(lex, runs, p.kept, i, n, Relabel(p.runs[i].words, heir));
    } else if p.kept == [] {
      FirstStep(lex, runs, i);
      LeadCarries(lex, runs, p.runs[i], n);
      assert Placed(p, i, absorb).kept == [p.runs[i]];
    } else {
      KeepCarries(lex, runs, p.kept, i, n);
    }
  }

  /** One pass, exactly. */
  lemma {:induction false} PassLaw(lex: Lexicon, runs: seq<Run>)
    requires NonEmptyRuns(runs) && |runs| > 1
    ensures Absorbs(lex, runs, Merged(SmoothTo(lex, runs, |runs|).kept))
  {
    PassCarries(lex, runs, |runs|);
    CarriedMerged(SmoothTo(lex, runs, |runs|).kept);
    WholePassKeepsTokens(lex, runs);
  }

  // ---------------------------------------------------------------- all passes

  ghost predicate SomeJitter(lex: Lexicon, runs: seq<Run>) { exists k: nat :: IsJitter(lex, runs, k) }

  /** There is jitter in a, and b is what a pass leaves of it. */
  ghost predicate Turn(lex: Lexicon, a: seq<Run>, b: seq<Run>) { SomeJitter(lex, a) && Absorbs(lex, a, b) }

  ghost predicate AbsorbedInTurn(lex: Lexicon, states: seq<seq<Run>>) {
    forall i, j :: 0 <= i < j < |states| && j == i + 1 ==> Turn(lex, states[i], states[j])
  }

  lemma {:induction false} ChangedIff(lex: Lexicon, runs: seq<Run>)
    requires NonEmptyRuns(runs) && |runs| > 1
    ensures SmoothTo(lex, runs, |runs|).changed <==> SomeJitter(lex, runs)
  {
    if !SmoothTo(lex, runs, |runs|).changed {
      UnchangedPass(lex, runs, |runs|);
      forall k: nat | k < |runs| ensures !IsJitter(lex, runs, k) {
        JitterIff(lex, runs, k);
      }
    } else if !SomeJitter(lex, runs) {
      forall k | 0 <= k < |runs| ensures !Absorbable(lex, runs, k) {
        JitterIff(lex, runs, k);
      }
      I.NothingAbsorbed(lex, runs, |runs|);
    }
  }

  lemma {:induction false} TurnsCons(lex: Lexicon, runs: seq<Run>, states: seq<seq<Run>>)
    requires |states| > 0 && Turn(lex, runs, states[0]) && AbsorbedInTurn(lex, states)
    ensures AbsorbedInTurn(lex, [runs] + states)
  {
    var all := [runs] + states;
    forall i, j | 0 <= i < j < |all| && j == i + 1 ensures Turn(lex, all[i], all[j]) {
      if i > 0 {
        var a, b := i - 1, i;
        assert Turn(lex, states[a], states[b]);
      }
    }
  }

  /** Smoothing, exactly: passes as long as there is jitter. */
  lemma {:induction false} SmoothedLaw(lex: Lexicon, runs: seq<Run>) returns (states: seq<seq<Run>>)
    requires NonEmptyRuns(runs) && Alternating(runs)
    ensures |states| > 0 && states[0] == runs && states[|states| - 1] == Smoothed(lex, runs)
    ensures AbsorbedInTurn(lex, states) && !SomeJitter(lex, states[|states| - 1])
    decreases |runs|
  {
    if |runs| <= 1 {
      return [runs];
    }
    ChangedIff(lex, runs);
    var p := SmoothTo(lex, runs, |runs|);
    if !p.changed {
      UnchangedPass(lex, runs, |runs|);
      assert runs[..|runs|] == runs;
      NothingToJoin(runs);
      return [runs];
    }
    PassLaw(lex, runs);
    var rest := SmoothedLaw(lex, Merged(p.kept));
    TurnsCons(lex, runs, rest);
    states := [runs] + rest;
  }

  // ---------------------------------------------------------------- the whole split

  /** Run after run is isolated, each as the ones before have left it. */
  ghost predicate IsolatedInTurn(lex: Lexicon, states: seq<seq<Run>>) {
    forall i, j :: 0 <= i < j < |states| && j == i + 1 ==> I.Isolates(lex, states[i], states[j], i)
  }

  lemma {:induction false} IsolatingLaw(lex: Lexicon, runs: seq<Run>) returns (states: seq<seq<Run>>)
    ensures |states| == |runs| + 1 && states[0] == runs && states[|runs|] == IsolatedTo(lex, runs, |runs|)
    ensures IsolatedInTurn(lex, states)
  {
    states := seq(|runs| + 1, i requires 0 <= i <= |runs| => IsolatedTo(lex, runs, i));
    forall i, j | 0 <= i < j < |states| && j == i + 1 ensures I.Isolates(lex, states[i], states[j], i) {
      I.SweepIsolates(lex, runs, i);
    }
  }

  /** A segment's split, exactly: labels are snapped, words grouped into the maximal runs of those
      labels, interjections isolated from left to right, and jitter absorbed until none is left. */
  lemma {:induction false} SplitLaw(lex: Lexicon, ws: seq<Word>)
    returns (runs: seq<Run>, isolating: seq<seq<Run>>, smoothing: seq<seq<Run>>)
    ensures RunsOf(runs, SnappedTo(lex, ws, |ws|))
    ensures |isolating| == |runs| + 1 && isolating[0] == runs && IsolatedInTurn(lex, isolating)
    ensures |smoothing| > 0 && smoothing[0] == isolating[|runs|] && AbsorbedInTurn(lex, smoothing)
    ensures !SomeJitter(lex, smoothing[|smoothing| - 1]) && smoothing[|smoothing| - 1] == Split(lex, ws)
  {
    runs := Grouped(SnappedTo(lex, ws, |ws|));
    GroupedIsRunsOf(SnappedTo(lex, ws, |ws|));
    isolating := IsolatingLaw(lex, runs);
    IsolationKeeps(lex, runs, |runs|);
    smoothing := SmoothedLaw(lex, IsolatedTo(lex, runs, |runs|));
  }
}
