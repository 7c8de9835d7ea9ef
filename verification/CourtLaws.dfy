module CourtLaws {
  /**
    Stage 2 put together, pass by pass, from the laws of the passes: every segment list on the way
    is related to the one before it by what the pass is for, not by the function that models it.
   */
  import opened Options
  import opened Words
  import opened Segments
  import opened BoundaryHealing
  import opened RoleDiscovery
  import opened FormulaSplit
  import opened RolePasses
  import opened CourtTurns
  import Consolidation
  import SandwichTrim
  import A = AlternationLaws
  import C = CutLaws
  import H = HealingLaws
  import S = StitchingLaws
  import T = TrimmingLaws

  // ---------------------------------------------------------------- what each pass is for

  /** Glitches, and under a limit of two everybody else, become counsel or judge. */
  ghost predicate FoldedAt(
    lex: Lexicon, roles: Roles, maxSpeakers: Option<int>, a: seq<Segment>, b: seq<Segment>, i: nat)
    requires i < |a| && i < |b|
  {
    var s := a[i].speaker;
    if !Folded(roles, maxSpeakers, a, s) then b[i] == a[i]
    else
      && SameTokens(b[i].words, a[i].words) && Labelled(b[i].words, b[i].speaker)
      && b[i].speaker == if CounselSegments(lex, a, s) > BenchSegments(lex, a, s) then roles.counsel
                         else if roles.judge.Some? then roles.judge.value else s
  }

  ghost predicate Folding(
    lex: Lexicon, roles: Roles, maxSpeakers: Option<int>, a: seq<Segment>, b: seq<Segment>)
  {
    |b| == |a| && forall i :: 0 <= i < |a| ==> FoldedAt(lex, roles, maxSpeakers, a, b, i)
  }

  /** With a judge, at most three sweeps of pass 1C, the last of which cut nothing if there were
      fewer. */
  ghost predicate Splitting(lex: Lexicon, roles: Roles, a: seq<Segment>, b: seq<Segment>) {
    if roles.judge.None? then b == a
    else
      exists states: seq<seq<Segment>> ::
        && 2 <= |states| <= 4 && states[0] == a && states[|states| - 1] == b
        && C.SweptInTurn(lex, roles.judge.value, roles.counsel, states)
        && (|states| == 4 || C.EndsQuiet(states))
  }

  /** Directives become the judge's and the judge's addresses counsel's. */
  ghost predicate Relabelling(lex: Lexicon, roles: Roles, a: seq<Segment>, b: seq<Segment>) {
    |b| == |a| && forall i :: 0 <= i < |a| ==> A.DirectedRight(lex, roles, a[i], b[i])
  }

  /** The boundaries are healed in turn, and emptied segments dropped. */
  ghost predicate Healing(lex: Lexicon, roles: Roles, a: seq<Segment>, b: seq<Segment>) {
    if a == [] then b == []
    else
      exists states: seq<seq<Segment>> ::
        |states| == |a| && states[0] == a && H.HealedInTurn(lex, roles, states) && b == DropEmpty(states[|a| - 1])
  }

  /** The segments between two others are trimmed in turn. */
  ghost predicate Trimming(lex: Lexicon, a: seq<Segment>, b: seq<Segment>) {
    if |a| < 2 then b == a
    else
      exists states: seq<seq<Segment>> ::
        |states| == |a| - 1 && states[0] == a && T.TrimmedInTurn(lex, states) && b == states[|a| - 2]
  }

  /** Every segment goes to whose it is; nothing but speakers changes. */
  ghost predicate Alternating(lex: Lexicon, roles: Roles, a: seq<Segment>, b: seq<Segment>) {
    OnlySpeakers(a, b) && forall i :: 0 <= i < |a| ==> A.GivenRight(lex, roles, a, i, b[i].speaker)
  }

  // ---------------------------------------------------------------- and what each pass does

  lemma {:induction false} RemapFolds(
    lex: Lexicon, roles: Roles, maxSpeakers: Option<int>, segs: seq<Segment>)
    requires UniformSegments(segs)
    ensures Folding(lex, roles, maxSpeakers, segs, Remapped(TallyOf(lex, segs), roles, maxSpeakers, segs))
  {
    var r := Remapped(TallyOf(lex, segs), roles, maxSpeakers, segs);
    forall i | 0 <= i < |segs| ensures FoldedAt(lex, roles, maxSpeakers, segs, r, i) {
      FoldedInto(lex, roles, maxSpeakers, segs, i);
      assert Labelled(segs[i].words, segs[i].speaker);
    }
  }

  lemma {:induction false} SplitSplits(lex: Lexicon, roles: Roles, segs: seq<Segment>)
    requires SoundFormulas(lex)
    ensures Splitting(lex, roles, segs, AfterSplit(lex, roles, segs))
  {
    if roles.judge.Some? {
      var states := C.SplitRoundsLaw(lex, roles.judge.value, roles.counsel, segs, ROUNDS);
      assert states[|states| - 1] == AfterSplit(lex, roles, segs);
    }
  }

  lemma {:induction false} PassRelabels(lex: Lexicon, roles: Roles, segs: seq<Segment>)
    requires UniformSegments(segs) && roles.judge != Some(roles.counsel)
    ensures Relabelling(lex, roles, segs, Pass1And1B(lex, roles, segs))
  {
    forall i | 0 <= i < |segs| ensures A.DirectedRight(lex, roles, segs[i], Pass1And1B(lex, roles, segs)[i]) {
      A.DirectivesAndAddresses(lex, roles, segs, i);
    }
  }

  lemma {:induction false} PassHeals(lex: Lexicon, roles: Roles, segs: seq<Segment>)
    ensures Healing(lex, roles, segs, Pass1E(lex, roles, segs))
  {
    if segs != [] {
      var states := H.Pass1ELaw(lex, roles, segs);
    }
  }

  lemma {:induction false} PassTrims(lex: Lexicon, segs: seq<Segment>)
    requires NoEmpty(segs)
    ensures Trimming(lex, segs, SandwichTrim.Pass1D(lex, segs))
  {
    if |segs| >= 2 {
      var states := T.Pass1DLaw(lex, segs);
    } else {
      NothingToDrop(segs);
    }
  }

  lemma {:induction false} PassAlternates(lex: Lexicon, roles: Roles, segs: seq<Segment>)
    requires roles.judge != Some(roles.counsel)
    ensures Alternating(lex, roles, segs, Pass2(lex, roles, segs))
  {
    forall i | 0 <= i < |segs| ensures A.GivenRight(lex, roles, segs, i, Pass2(lex, roles, segs)[i].speaker) {
      A.WhoseItIs(lex, roles, segs, i);
    }
    var S := set i | 0 <= i < |segs| :: segs[i].speaker;
    Pass2Keeps(lex, roles, segs, S + {roles.counsel} + if roles.judge.Some? then {roles.judge.value} else {});
  }

  // ---------------------------------------------------------------- the way from segs to stage 2

  /** The segment lists between the passes. */
  datatype Way = Way(
    folded: seq<Segment>, split: seq<Segment>, relabelled: seq<Segment>, healed: seq<Segment>,
    trimmed: seq<Segment>, healedAgain: seq<Segment>, alternated: seq<Segment>, stitched: seq<Segment>)

  /** The passes in the order of the code. */
  ghost predicate Leads(
    lex: Lexicon, roles: Roles, maxSpeakers: Option<int>, segs: seq<Segment>, w: Way)
  {
    && Folding(lex, roles, maxSpeakers, segs, w.folded)
    && Splitting(lex, roles, w.folded, w.split)
    && Relabelling(lex, roles, w.split, w.relabelled)
    && Healing(lex, roles, w.relabelled, w.healed)
    && Trimming(lex, w.healed, w.trimmed)
    && Healing(lex, roles, w.trimmed, w.healedAgain)
    && Alternating(lex, roles, w.healedAgain, w.alternated)
    && S.Stitched(lex, w.alternated, w.stitched)
  }

  lemma {:induction false} LaterPasses(lex: Lexicon, roles: Roles, segs: seq<Segment>)
    returns (healed: seq<Segment>, trimmed: seq<Segment>, healedAgain: seq<Segment>, alternated: seq<Segment>)
    requires roles.judge != Some(roles.counsel)
    ensures Healing(lex, roles, segs, healed) && Trimming(lex, healed, trimmed)
    ensures Healing(lex, roles, trimmed, healedAgain) && Alternating(lex, roles, healedAgain, alternated)
    ensures alternated
         == Pass2(lex, roles, Pass1E(lex, roles, SandwichTrim.Pass1D(lex, Pass1E(lex, roles, segs))))
  {
    healed := Pass1E(lex, roles, segs);
    PassHeals(lex, roles, segs);
    trimmed := SandwichTrim.Pass1D(lex, healed);
    PassTrims(lex, healed);
    healedAgain := Pass1E(lex, roles, trimmed);
    PassHeals(lex, roles, trimmed);
    alternated := Pass2(lex, roles, healedAgain);
    PassAlternates(lex, roles, healedAgain);
  }

  /** Stage 2, exactly: what it returns is where the passes lead. */
  lemma {:induction false} Stage2Law(lex: Lexicon, maxSpeakers: Option<int>, segs: seq<Segment>)
    returns (w: Way)
    requires SoundFormulas(lex) && segs != [] && UniformSegments(segs)
    ensures Leads(lex, DiscoveredRoles(lex, segs), maxSpeakers, segs, w)
    ensures w.stitched == Stage2(lex, maxSpeakers, segs)
  {
    var roles, folded := DiscoveredRoles(lex, segs), AfterRemap(lex, maxSpeakers, segs);
    RemapFolds(lex, roles, maxSpeakers, segs);
    RemapStage(lex, maxSpeakers, segs, SpeakersLeft(lex, maxSpeakers, segs));
    var split := AfterSplit(lex, roles, folded);
    SplitSplits(lex, roles, folded);
    SplitStage(lex, roles, folded, SpeakersLeft(lex, maxSpeakers, segs));
    var relabelled := Pass1And1B(lex, roles, split);
    PassRelabels(lex, roles, split);
    var healed, trimmed, healedAgain, alternated := LaterPasses(lex, roles, relabelled);
    S.ConsolidatedLaw(lex, alternated);
    var stitched := Consolidation.Consolidated(lex, alternated);
    w := Way(folded, split, relabelled, healed, trimmed, healedAgain, alternated, stitched);
  }
}
