module CourtTurns {
  /**
    Stages 2 and 3 of turn reconstruction put together: role discovery, cluster remap, passes
    1C, 1, 1B, 1E, 1D, 1E and 2, consolidation, and chronological renumbering.
   */
  import opened Options
  import opened Words
  import opened Segments
  import opened BoundaryHealing
  import opened RoleDiscovery
  import opened FormulaSplit
  import opened RolePasses
  import opened SandwichTrim
  import opened Consolidation
  import opened Chronology

  function DiscoveredRoles(lex: Lexicon, segs: seq<Segment>): Roles
    requires segs != []
  {
    RolesOf(TallyOf(lex, segs), segs[0].speaker)
  }

  function AfterRemap(lex: Lexicon, maxSpeakers: Option<int>, segs: seq<Segment>): seq<Segment>
    requires segs != []
  {
    Remapped(TallyOf(lex, segs), DiscoveredRoles(lex, segs), maxSpeakers, segs)
  }

  /** Pass 1C needs a judge. */
  function AfterSplit(lex: Lexicon, roles: Roles, segs: seq<Segment>): seq<Segment>
    requires SoundFormulas(lex)
  {
    if roles.judge.Some? then SplitRounds(lex, roles.judge.value, roles.counsel, segs, ROUNDS) else segs
  }

  /** Passes 1, 1B, 1E, 1D, 1E and 2. */
  function BeforeStitching(lex: Lexicon, roles: Roles, segs: seq<Segment>): seq<Segment> {
    var healed := Pass1E(lex, roles, Pass1And1B(lex, roles, segs));
    Pass2(lex, roles, Pass1E(lex, roles, Pass1D(lex, healed)))
  }

  function Stage2(lex: Lexicon, maxSpeakers: Option<int>, segs: seq<Segment>): seq<Segment>
    requires SoundFormulas(lex) && segs != []
  {
    var roles := DiscoveredRoles(lex, segs);
    Consolidated(lex, BeforeStitching(lex, roles, AfterSplit(lex, roles, AfterRemap(lex, maxSpeakers, segs))))
  }

  method ReconstructTurns(lex: Lexicon, maxSpeakers: Option<int>, segs0: seq<Segment>) returns (segs: seq<Segment>)
    requires SoundFormulas(lex) && segs0 != []
    ensures segs == Renumbered(Stage2(lex, maxSpeakers, segs0))
  {
    var t, roles := DiscoverRoles(lex, segs0);
    TallySpeakers(lex, segs0);
    assert forall i :: 0 <= i < |segs0| ==> segs0[i].speaker in Speakers(segs0);
    segs := RemapClusters(t, roles, maxSpeakers, segs0);
    if roles.judge.Some? {
      segs := SplitFormulas(lex, roles.judge.value, roles.counsel, segs);
    }
    segs := RelabelByRole(lex, roles, segs);
    segs := HealBoundaries(lex, roles, segs);
    segs := TrimSandwiches(lex, segs);
    segs := HealBoundaries(lex, roles, segs);
    segs := AlternateRoles(lex, roles, segs);
    segs := Consolidate(lex, segs);
    segs := RenumberSpeakers(segs);
  }

  // ---------------------------------------------------------------- the whole stage

  /** The speakers that can be left. */
  ghost function SpeakersLeft(lex: Lexicon, maxSpeakers: Option<int>, segs: seq<Segment>): set<int>
    requires segs != []
  {
    var roles := DiscoveredRoles(lex, segs);
    if maxSpeakers == Some(2) && roles.judge.Some? then {roles.counsel, roles.judge.value} else Speakers(segs)
  }

  lemma {:induction false} RemapStage(lex: Lexicon, maxSpeakers: Option<int>, segs: seq<Segment>, S: set<int>)
    requires segs != [] && UniformSegments(segs) && S == SpeakersLeft(lex, maxSpeakers, segs)
    ensures var r, roles := AfterRemap(lex, maxSpeakers, segs), DiscoveredRoles(lex, segs);
      && SameTokens(Speech(segs), Speech(r)) && UniformSegments(r) && Within(r, S)
      && (AllStarted(segs) ==> AllStarted(r))
      && RolesIn(roles, S) && roles.judge != Some(roles.counsel)
  {
    var t, roles := TallyOf(lex, segs), DiscoveredRoles(lex, segs);
    RolesAreDistinct(lex, segs);
    TallySpeakers(lex, segs);
    RemapKeepsSpeech(t, roles, maxSpeakers, segs);
    assert Within(segs, Speakers(segs));
    RemapSpeakers(t, roles, maxSpeakers, segs, Speakers(segs));
    if maxSpeakers == Some(2) && roles.judge.Some? && |t.order| <= 2 {
      forall i | 0 <= i < |segs| ensures segs[i].speaker in S {
        assert segs[i].speaker in Speakers(segs);
        TwoOfTwo(t.order, roles.counsel, roles.judge.value, segs[i].speaker);
      }
      RemapSpeakers(t, roles, maxSpeakers, segs, S);
    }
  }

  lemma {:induction false} TwoOfTwo(xs: seq<int>, a: int, b: int, x: int)
    requires |xs| <= 2 && a in xs && b in xs && a != b && x in xs
    ensures x == a || x == b
  {
  }

  lemma {:induction false} SplitStage(lex: Lexicon, roles: Roles, segs: seq<Segment>, S: set<int>)
    requires SoundFormulas(lex) && UniformSegments(segs) && Within(segs, S) && RolesIn(roles, S)
    ensures var r := AfterSplit(lex, roles, segs);
      && ThinnedBySome(lex, Speech(segs), Speech(r)) && UniformSegments(r) && Within(r, S)
      && (AllStarted(segs) ==> AllStarted(r))
  {
    NotThinned(lex, Speech(segs));
    if roles.judge.Some? {
      SplitRoundsThin(lex, roles.judge.value, roles.counsel, segs, ROUNDS);
      SplitRoundsKeep(lex, roles.judge.value, roles.counsel, segs, ROUNDS, S);
    }
  }

  lemma {:induction false} PassesStage(lex: Lexicon, roles: Roles, segs: seq<Segment>, S: set<int>)
    requires SoundSpelling(lex) && UniformSegments(segs) && Within(segs, S)
    requires RolesIn(roles, S) && roles.judge != Some(roles.counsel)
    ensures var r := BeforeStitching(lex, roles, segs);
      && Respelled(lex, Speech(segs), Speech(r)) && Within(r, S) && (AllStarted(segs) ==> AllStarted(r))
  {
    var a := Pass1And1B(lex, roles, segs);
    Pass1And1BKeep(lex, roles, segs, S);
    SameTokensRespelled(lex, Speech(segs), Speech(a));
    var b := Pass1E(lex, roles, a);
    Pass1EKeeps(lex, roles, a, S);
    RespelledTrans(lex, Speech(segs), Speech(a), Speech(b));
    var c := Pass1D(lex, b);
    Pass1DKeeps(lex, b, S);
    RespelledTrans(lex, Speech(segs), Speech(b), Speech(c));
    var d := Pass1E(lex, roles, c);
    Pass1EKeeps(lex, roles, c, S);
    RespelledTrans(lex, Speech(segs), Speech(c), Speech(d));
    Pass2Keeps(lex, roles, d, S);
  }

  lemma {:induction false} StitchStage(lex: Lexicon, segs: seq<Segment>, S: set<int>)
    requires Within(segs, S)
    ensures var r := Consolidated(lex, segs);
      && SameTokens(Speech(segs), Speech(r)) && NoEmpty(r) && AllTidy(r) && Within(r, S)
      && (AllStarted(segs) ==> Consolidated(lex, r) == r)
  {
    ConsolidatedKeeps(lex, segs, S);
    if AllStarted(segs) {
      ConsolidationIdempotent(lex, segs);
    }
  }

  /** What reaches the stitching at the end of stage 2, and the words it still has. */
  lemma {:induction false} AllPasses(lex: Lexicon, maxSpeakers: Option<int>, segs: seq<Segment>)
    returns (thinned: seq<Word>, r: seq<Segment>)
    requires SoundFormulas(lex) && SoundSpelling(lex) && segs != [] && UniformSegments(segs)
    ensures Stage2(lex, maxSpeakers, segs) == Consolidated(lex, r)
    ensures ThinnedBySome(lex, Speech(segs), thinned) && Respelled(lex, thinned, Speech(r))
    ensures Within(r, SpeakersLeft(lex, maxSpeakers, segs)) && (AllStarted(segs) ==> AllStarted(r))
  {
    var roles, remapped := DiscoveredRoles(lex, segs), AfterRemap(lex, maxSpeakers, segs);
    var S := SpeakersLeft(lex, maxSpeakers, segs);
    RemapStage(lex, maxSpeakers, segs, S);
    SplitStage(lex, roles, remapped, S);
    var split := AfterSplit(lex, roles, remapped);
    PassesStage(lex, roles, split, S);
    assert Thinned(lex, Speech(segs), Speech(remapped), 0);
    ThinnedBySomeTrans(lex, Speech(segs), Speech(remapped), Speech(split));
    thinned, r := Speech(split), BeforeStitching(lex, roles, split);
  }

  /** Stage 2 keeps the recording: the speech of the result is the speech it was given, word
      for word, in order and with every timestamp, less doubled "lord" tokens and with no words
      respelled but my, your, lord and says, as My, Your, Lord. and Yes. No segment is empty,
      each one's times and labels are those of its words. No speaker is introduced, and under
      a limit of two speakers with a judge found nobody but judge and counsel is left. */
  lemma {:induction false} Stage2KeepsSpeech(lex: Lexicon, maxSpeakers: Option<int>, segs: seq<Segment>)
    returns (thinned: seq<Word>)
    requires SoundFormulas(lex) && SoundSpelling(lex) && segs != [] && UniformSegments(segs)
    ensures ThinnedBySome(lex, Speech(segs), thinned)
    ensures Respelled(lex, thinned, Speech(Stage2(lex, maxSpeakers, segs)))
    ensures NoEmpty(Stage2(lex, maxSpeakers, segs)) && AllTidy(Stage2(lex, maxSpeakers, segs))
    ensures Within(Stage2(lex, maxSpeakers, segs), SpeakersLeft(lex, maxSpeakers, segs))
  {
    var r: seq<Segment>;
    thinned, r := AllPasses(lex, maxSpeakers, segs);
    StitchStage(lex, r, SpeakersLeft(lex, maxSpeakers, segs));
    RespelledThenSame(lex, thinned, Speech(r), Speech(Consolidated(lex, r)));
  }

  /** Stitching once is enough for what stage 2 leaves, although pass 2 relabels segments and
      not their words: no two neighbours of its result could be stitched. */
  lemma {:induction false} Stage2IsStitched(lex: Lexicon, maxSpeakers: Option<int>, segs: seq<Segment>)
    requires SoundFormulas(lex) && SoundSpelling(lex) && segs != [] && UniformSegments(segs) && AllStarted(segs)
    ensures Consolidated(lex, Stage2(lex, maxSpeakers, segs)) == Stage2(lex, maxSpeakers, segs)
  {
    var thinned, r := AllPasses(lex, maxSpeakers, segs);
    StitchStage(lex, r, SpeakersLeft(lex, maxSpeakers, segs));
  }

  /** And so it is with what is returned: after renumbering the speech is the same, the speakers
      are told apart as before, and under a limit of two with a judge found there are none but
      SPEAKER_00 and SPEAKER_01. */
  lemma {:induction false} ResultKeepsSpeech(lex: Lexicon, maxSpeakers: Option<int>, segs: seq<Segment>)
    returns (thinned: seq<Word>)
    requires SoundFormulas(lex) && SoundSpelling(lex) && segs != [] && UniformSegments(segs)
    ensures ThinnedBySome(lex, Speech(segs), thinned)
    ensures Respelled(lex, thinned, Speech(Renumbered(Stage2(lex, maxSpeakers, segs))))
    ensures NoEmpty(Renumbered(Stage2(lex, maxSpeakers, segs))) && AllTidy(Renumbered(Stage2(lex, maxSpeakers, segs)))
    ensures ToldApart(Stage2(lex, maxSpeakers, segs), Renumbered(Stage2(lex, maxSpeakers, segs)))
    ensures maxSpeakers == Some(2) && DiscoveredRoles(lex, segs).judge.Some? ==>
      Within(Renumbered(Stage2(lex, maxSpeakers, segs)), {0, 1})
  {
    var before := Stage2KeepsSpeech(lex, maxSpeakers, segs);
    var r := Stage2(lex, maxSpeakers, segs);
    RenumberedKeeps(r);
    RespelledThenSame(lex, before, Speech(r), Speech(Renumbered(r)));
    if maxSpeakers == Some(2) && DiscoveredRoles(lex, segs).judge.Some? {
      RenumberedTwo(r, DiscoveredRoles(lex, segs).counsel, DiscoveredRoles(lex, segs).judge.value);
    }
    thinned := before;
  }

  lemma {:induction false} RenumberedTwo(segs: seq<Segment>, a: int, b: int)
    requires Within(segs, {a, b})
    ensures Within(Renumbered(segs), {0, 1})
  {
    var hs := HeardIn(segs);
    var met := Met(hs);
    forall k | 0 <= k < |met| ensures met[k] in {a, b} {
      assert met[k] in met;
    }
    DistinctWithin(met, {a, b});
    forall i | 0 <= i < |segs| ensures Renumbered(segs)[i].speaker in {0, 1} {
      RenumberedApart(segs, i, i);
    }
  }

  lemma {:induction false} DistinctWithin(xs: seq<int>, S: set<int>)
    requires forall k :: 0 <= k < |xs| ==> xs[k] in S
    requires forall i, j :: 0 <= i < j < |xs| ==> xs[i] != xs[j]
    ensures |xs| <= |S|
    decreases |xs|
  {
    if xs != [] {
      var n := |xs| - 1;
      DistinctWithin(xs[..n], S - {xs[n]});
    }
  }

  /** b tells apart the speakers a tells apart, and no others. */
  ghost predicate ToldApart(a: seq<Segment>, b: seq<Segment>) {
    && |a| == |b|
    && forall i, j :: 0 <= i < |a| && 0 <= j < |a| ==> (b[i].speaker == b[j].speaker <==> a[i].speaker == a[j].speaker)
  }

  lemma {:induction false} RenumberedKeeps(segs: seq<Segment>)
    requires NoEmpty(segs) && AllTidy(segs)
    ensures var r := Renumbered(segs);
      SameTokens(Speech(segs), Speech(r)) && NoEmpty(r) && AllTidy(r) && ToldApart(segs, r)
  {
    var r := Renumbered(segs);
    RenumberingKeepsSpeech(segs);
    RenumberingKeepsTidy(segs);
    forall i, j | 0 <= i < |segs| && 0 <= j < |segs|
      ensures r[i].speaker == r[j].speaker <==> segs[i].speaker == segs[j].speaker
    {
      RenumberedApart(segs, i, j);
    }
  }
}
