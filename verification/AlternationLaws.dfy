module AlternationLaws {
  /**
    Whose a segment is after the passes that relabel, said of the texts, the times and the speakers
    that came in, without the functions that relabel.
   */
  import opened Options
  import opened Words
  import opened Segments
  import opened BoundaryHealing
  import opened RolePasses

  // ---------------------------------------------------------------- passes 1 and 1B

  /** A judicial directive. */
  ghost predicate Directs(lex: Lexicon, s: Segment) { lex.judgeDirective(s.text) }

  /** The judge seems to address the bench without asking counsel for anything. */
  ghost predicate SeemsToAddress(lex: Lexicon, judge: int, s: Segment) {
    s.speaker == judge && lex.counselHonorific(s.text) && !lex.benchInquiry(s.text)
  }

  /** Every directive is the judge's; the judge keeps what does not address the bench, and counsel
      gets what does; everything else stays with who said it. Only labels change. */
  ghost predicate DirectedRight(lex: Lexicon, roles: Roles, s: Segment, r: Segment) {
    if roles.judge.None? then r == s
    else
      var judge := roles.judge.value;
      && (r.speaker == judge <==> Directs(lex, s) || (s.speaker == judge && !SeemsToAddress(lex, judge, s)))
      && (SeemsToAddress(lex, judge, s) && !Directs(lex, s) ==> r.speaker == roles.counsel)
      && (!SeemsToAddress(lex, judge, s) && !Directs(lex, s) ==> r.speaker == s.speaker)
      && r == s.(speaker := r.speaker, words := r.words)
      && SameTokens(s.words, r.words) && Labelled(r.words, r.speaker)
  }

  lemma {:induction false} DirectivesAndAddresses(lex: Lexicon, roles: Roles, segs: seq<Segment>, i: nat)
    requires i < |segs| && Labelled(segs[i].words, segs[i].speaker) && roles.judge != Some(roles.counsel)
    ensures DirectedRight(lex, roles, segs[i], Pass1And1B(lex, roles, segs)[i])
  {
    Pass1GoesToCounsel(lex, roles, segs[i]);
  }

  // ---------------------------------------------------------------- pass 2: what a text says

  /** Authority or a document inquiry of the bench. */
  ghost predicate OfBench(lex: Lexicon, s: Segment) {
    lex.benchInquiry(lex.bare(s.text)) || lex.judgeAuthority(lex.bare(s.text))
  }

  ghost predicate Argues(lex: Lexicon, s: Segment) { lex.counselArgument(lex.bare(s.text)) }

  /** A short affirmation, or an address to the bench. */
  ghost predicate Answers(lex: Lexicon, s: Segment) {
    || lex.shortAffirmation(lex.bare(s.text))
    || (lex.counselHonorific(lex.bare(s.text)) && !lex.benchInquiry(lex.bare(s.text)))
  }

  /** Just before segment i the judge, as the transcript up to i has it, breaks off a directive. */
  ghost predicate BrokenOff(lex: Lexicon, roles: Roles, segs: seq<Segment>, i: nat) {
    && 0 < i < |segs| && segs[i].start - segs[i - 1].end <= 400
    && lex.danglingEnd(segs[i - 1].text) && lex.judgeDirective(segs[i - 1].text)
    && roles.judge == Some(Pass2(lex, roles, segs[..i + 1])[i - 1].speaker)
  }

  /** A submission comes next, and segment i is no address. */
  ghost predicate SubmissionAfter(lex: Lexicon, segs: seq<Segment>, i: nat) {
    && i + 1 < |segs| && !OfBench(lex, segs[i + 1])
    && lex.submission(lex.bare(segs[i + 1].text)) && !lex.counselHonorific(segs[i].text)
  }

  ghost predicate ClarificationAfter(lex: Lexicon, segs: seq<Segment>, i: nat) {
    i + 1 < |segs| && !OfBench(lex, segs[i + 1]) && lex.clarification(lex.bare(segs[i + 1].text))
  }

  // ---------------------------------------------------------------- pass 2: whose a segment is

  /** As far as the segment itself and the one before it go, the judge says it. */
  ghost predicate JudgesTurn(lex: Lexicon, roles: Roles, segs: seq<Segment>, i: nat)
    requires i < |segs|
  {
    var s := segs[i];
    || OfBench(lex, s)
    || (!Answers(lex, s)
        && (BrokenOff(lex, roles, segs, i) || (roles.judge == Some(s.speaker) && !Argues(lex, s))))
  }

  /** As far as the segment itself and the one before it go, counsel says it: an answer of either,
      or what neither the bench nor a broken-off directive claims. */
  ghost predicate CounselsTurnToSpeak(lex: Lexicon, roles: Roles, segs: seq<Segment>, i: nat)
    requires i < |segs|
  {
    var s := segs[i];
    && !OfBench(lex, s)
    && if Answers(lex, s) then
         BrokenOff(lex, roles, segs, i) || roles.judge == Some(s.speaker) || s.speaker == roles.counsel
       else
         !BrokenOff(lex, roles, segs, i)
         && (s.speaker == roles.counsel || (roles.judge == Some(s.speaker) && Argues(lex, s)))
  }

  lemma {:induction false} OwnLabelOfPrefix(
    lex: Lexicon, judge: int, counsel: int, segs: seq<Segment>, i: nat, n: nat)
    requires i < n <= |segs|
    ensures OwnLabel(lex, judge, counsel, segs[..n], i) == OwnLabel(lex, judge, counsel, segs, i)
    ensures i > 0 ==>
      LabelBefore(lex, judge, counsel, segs[..n], i) == LabelBefore(lex, judge, counsel, segs, i)
    decreases i
  {
    if i > 0 {
      OwnLabelOfPrefix(lex, judge, counsel, segs, i - 1, n);
    }
  }

  lemma {:induction false} BrokenOffIff(lex: Lexicon, roles: Roles, segs: seq<Segment>, i: nat)
    requires 0 < i < |segs| && roles.judge.Some? && !OfBench(lex, segs[i])
    ensures BrokenOff(lex, roles, segs, i)
      <==> BreaksOff(lex, segs[i - 1], segs[i])
           && LabelBefore(lex, roles.judge.value, roles.counsel, segs, i) == roles.judge.value
  {
    Pass2Labels(lex, roles, segs[..i + 1], i - 1);
    OwnLabelOfPrefix(lex, roles.judge.value, roles.counsel, segs, i, i + 1);
  }

  lemma {:induction false} TurnIff(lex: Lexicon, roles: Roles, segs: seq<Segment>, i: nat) returns (own: int)
    requires i < |segs| && roles.judge.Some? && roles.judge.value != roles.counsel
    ensures own == OwnLabel(lex, roles.judge.value, roles.counsel, segs, i)
    ensures own == roles.judge.value <==> JudgesTurn(lex, roles, segs, i)
    ensures own == roles.counsel <==> CounselsTurnToSpeak(lex, roles, segs, i)
    ensures own in {roles.judge.value, roles.counsel, segs[i].speaker}
  {
    own := OwnLabel(lex, roles.judge.value, roles.counsel, segs, i);
    if i > 0 && !OfBench(lex, segs[i]) {
      BrokenOffIff(lex, roles, segs, i);
    }
  }

  /** The judge ends up with a segment that was the judge's turn, or that a submission or, for
      counsel's turn, a request for clarification comes after; counsel ends up with the other
      segments that were counsel's turn; the rest stays, and without a judge everything does. */
  ghost predicate GivenRight(lex: Lexicon, roles: Roles, segs: seq<Segment>, i: nat, who: int)
    requires i < |segs|
  {
    if roles.judge.None? then who == segs[i].speaker
    else
      && (who == roles.judge.value
          <==> JudgesTurn(lex, roles, segs, i) || SubmissionAfter(lex, segs, i)
               || (ClarificationAfter(lex, segs, i) && CounselsTurnToSpeak(lex, roles, segs, i)))
      && (who == roles.counsel
          <==> CounselsTurnToSpeak(lex, roles, segs, i)
               && !SubmissionAfter(lex, segs, i) && !ClarificationAfter(lex, segs, i))
      && who in {roles.judge.value, roles.counsel, segs[i].speaker}
  }

  /** Pass 2, exactly. */
  lemma {:induction false} WhoseItIs(lex: Lexicon, roles: Roles, segs: seq<Segment>, i: nat)
    requires i < |segs| && roles.judge != Some(roles.counsel)
    ensures GivenRight(lex, roles, segs, i, Pass2(lex, roles, segs)[i].speaker)
  {
    if roles.judge.Some? {
      Pass2Labels(lex, roles, segs, i);
      var own := TurnIff(lex, roles, segs, i);
    }
  }

  // ---------------------------------------------------------------- case by case

  /** Said by judge or counsel. */
  ghost predicate OfTheTwo(roles: Roles, s: Segment) {
    roles.judge == Some(s.speaker) || s.speaker == roles.counsel
  }

  /** Case A: speech of the bench is the judge's, whoever was said to speak and whatever follows. */
  lemma {:induction false} BenchIsJudges(lex: Lexicon, roles: Roles, segs: seq<Segment>, i: nat)
    requires i < |segs| && roles.judge.Some? && roles.judge.value != roles.counsel
    requires OfBench(lex, segs[i])
    ensures Pass2(lex, roles, segs)[i].speaker == roles.judge.value
  {
    WhoseItIs(lex, roles, segs, i);
  }

  /** Cases B and C: a submission gives what comes before it to the judge unless that is an
      address, and a request for clarification does so unless a third speaker keeps it. */
  lemma {:induction false} BeforeIsJudges(lex: Lexicon, roles: Roles, segs: seq<Segment>, i: nat)
    requires i < |segs| && roles.judge.Some? && roles.judge.value != roles.counsel
    requires SubmissionAfter(lex, segs, i) || (ClarificationAfter(lex, segs, i) && OfTheTwo(roles, segs[i]))
    ensures Pass2(lex, roles, segs)[i].speaker == roles.judge.value
  {
    WhoseItIs(lex, roles, segs, i);
  }

  /** Case D: of the two, who argues counsel's case is counsel, unless a directive of the judge
      goes on or the segment behind says otherwise. */
  lemma {:induction false} ArgumentIsCounsels(lex: Lexicon, roles: Roles, segs: seq<Segment>, i: nat)
    requires i < |segs| && roles.judge.Some? && roles.judge.value != roles.counsel
    requires OfTheTwo(roles, segs[i]) && Argues(lex, segs[i]) && !OfBench(lex, segs[i])
    ensures Pass2(lex, roles, segs)[i].speaker
      == if (BrokenOff(lex, roles, segs, i) && !Answers(lex, segs[i]))
            || SubmissionAfter(lex, segs, i) || ClarificationAfter(lex, segs, i)
         then roles.judge.value else roles.counsel
  {
    WhoseItIs(lex, roles, segs, i);
  }

  /** Case E: what goes on with a directive the judge broke off is the judge's, whoever was said
      to speak, unless it is an answer. */
  lemma {:induction false} DirectiveGoesOn(lex: Lexicon, roles: Roles, segs: seq<Segment>, i: nat)
    requires i < |segs| && roles.judge.Some? && roles.judge.value != roles.counsel
    requires BrokenOff(lex, roles, segs, i) && !Answers(lex, segs[i])
    ensures Pass2(lex, roles, segs)[i].speaker == roles.judge.value
  {
    WhoseItIs(lex, roles, segs, i);
  }

  /** Case F: of the two, who answers is counsel, unless the segment behind says otherwise. */
  lemma {:induction false} AnswerIsCounsels(lex: Lexicon, roles: Roles, segs: seq<Segment>, i: nat)
    requires i < |segs| && roles.judge.Some? && roles.judge.value != roles.counsel
    requires OfTheTwo(roles, segs[i]) && Answers(lex, segs[i]) && !OfBench(lex, segs[i])
    ensures Pass2(lex, roles, segs)[i].speaker
      == if SubmissionAfter(lex, segs, i) || ClarificationAfter(lex, segs, i) then roles.judge.value
         else roles.counsel
  {
    WhoseItIs(lex, roles, segs, i);
  }

  /** A third speaker keeps exactly what is neither of the bench, nor goes on with a directive, nor
      comes before a submission. */
  lemma {:induction false} ThirdKeepsIff(lex: Lexicon, roles: Roles, segs: seq<Segment>, i: nat)
    requires i < |segs| && roles.judge.Some? && roles.judge.value != roles.counsel
    requires !OfTheTwo(roles, segs[i])
    ensures Pass2(lex, roles, segs)[i].speaker == segs[i].speaker
      <==> !OfBench(lex, segs[i]) && !BrokenOff(lex, roles, segs, i) && !SubmissionAfter(lex, segs, i)
  {
    WhoseItIs(lex, roles, segs, i);
  }

  /** With the patterns of the code, "We served the writ on Monday" is counsel's even if it is all
      there is and was labelled as the judge's. */
  lemma {:induction false} WritIsCounsels(lex: Lexicon, s: Segment)
    requires s.speaker == 0 && lex.bare(s.text) == "we served the writ on monday"
    requires lex.counselArgument("we served the writ on monday")
    requires !lex.benchInquiry("we served the writ on monday") && !lex.judgeAuthority("we served the writ on monday")
    ensures Pass2(lex, Roles(Some(0), 1), [s])[0].speaker == 1
  {
    ArgumentIsCounsels(lex, Roles(Some(0), 1), [s], 0);
  }
}
