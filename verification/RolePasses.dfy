module RolePasses {
  /**
    The passes that only relabel: pass 1 (the judge does not address the bench), pass 1B (only
    the judge gives directives) and pass 2 (alternation and response sandwiches).
   */
  import opened Options
  import opened Words
  import opened Segments
  import opened BoundaryHealing

  // ---------------------------------------------------------------- pass 1

  function OtherLabels(ws: seq<Word>, speaker: int): seq<int> {
    if ws == [] then []
    else OtherLabels(ws[..|ws| - 1], speaker)
         + if ws[|ws| - 1].speaker == speaker then [] else [ws[|ws| - 1].speaker]
  }

  function Occurrences(xs: seq<int>, x: int): nat { multiset(xs)[x] }

  /** max(set(xs), key=xs.count); the order of a set decides ties, here the first wins. */
  function MostFrequent(xs: seq<int>, n: nat): (r: int)
    requires 0 < n <= |xs|
    ensures r in xs && forall i :: 0 <= i < n ==> Occurrences(xs, xs[i]) <= Occurrences(xs, r)
  {
    if n == 1 then xs[0]
    else
      var best := MostFrequent(xs, n - 1);
      if Occurrences(xs, xs[n - 1]) > Occurrences(xs, best) then xs[n - 1] else best
  }

  function Assigned(s: Segment, speaker: int): Segment {
    s.(speaker := speaker, words := Relabel(s.words, speaker))
  }

  function AddressesBench(lex: Lexicon, roles: Roles, s: Segment): bool {
    roles.judge == Some(s.speaker) && lex.counselHonorific(s.text) && !lex.benchInquiry(s.text)
  }

  function Pass1Segment(lex: Lexicon, roles: Roles, s: Segment): Segment {
    if !AddressesBench(lex, roles, s) then s
    else
      var others := OtherLabels(s.words, s.speaker);
      Assigned(s, if others != [] then MostFrequent(others, |others|) else roles.counsel)
  }

  function Pass1BSegment(lex: Lexicon, roles: Roles, s: Segment): Segment {
    if roles.judge.Some? && s.speaker != roles.judge.value && lex.judgeDirective(s.text)
    then Assigned(s, roles.judge.value) else s
  }

  function Pass1And1B(lex: Lexicon, roles: Roles, segs: seq<Segment>): (r: seq<Segment>)
    ensures |r| == |segs|
    ensures forall i :: 0 <= i < |segs| ==> r[i] == Pass1BSegment(lex, roles, Pass1Segment(lex, roles, segs[i]))
  {
    seq(|segs|, i requires 0 <= i < |segs| => Pass1BSegment(lex, roles, Pass1Segment(lex, roles, segs[i])))
  }

  method AddressToCounsel(lex: Lexicon, roles: Roles, s: Segment) returns (r: Segment)
    ensures r == Pass1Segment(lex, roles, s)
  {
    r := s;
    if roles.judge == Some(s.speaker) {
      if lex.counselHonorific(s.text) && !lex.benchInquiry(s.text) {
        var others := OtherLabels(s.words, s.speaker);
        var chosen := if others != [] then MostFrequent(others, |others|) else roles.counsel;
        r := s.(speaker := chosen, words := Relabel(s.words, chosen));
      }
    }
  }

  method RelabelByRole(lex: Lexicon, roles: Roles, segs0: seq<Segment>) returns (segs: seq<Segment>)
    ensures segs == Pass1And1B(lex, roles, segs0)
  {
    segs := segs0;
    for i := 0 to |segs0|
      invariant |segs| == |segs0|
      invariant forall k :: 0 <= k < i ==> segs[k] == Pass1Segment(lex, roles, segs0[k])
      invariant forall k :: i <= k < |segs0| ==> segs[k] == segs0[k]
    {
      var s := AddressToCounsel(lex, roles, segs[i]);
      segs := segs[i := s];
    }
    if roles.judge.Some? {
      segs := DirectivesToJudge(lex, roles, segs);
    }
    assert forall i :: 0 <= i < |segs0| ==> segs[i] == Pass1BSegment(lex, roles, Pass1Segment(lex, roles, segs0[i]));
  }

  method DirectivesToJudge(lex: Lexicon, roles: Roles, segs0: seq<Segment>) returns (segs: seq<Segment>)
    requires roles.judge.Some?
    ensures |segs| == |segs0| && forall k :: 0 <= k < |segs0| ==> segs[k] == Pass1BSegment(lex, roles, segs0[k])
  {
    segs := segs0;
    var judge := roles.judge.value;
    for i := 0 to |segs0|
      invariant |segs| == |segs0|
      invariant forall k :: 0 <= k < i ==> segs[k] == Pass1BSegment(lex, roles, segs0[k])
      invariant forall k :: i <= k < |segs0| ==> segs[k] == segs0[k]
    {
      if segs[i].speaker != judge && lex.judgeDirective(segs[i].text) {
        segs := segs[i := segs[i].(speaker := judge, words := Relabel(segs[i].words, judge))];
      }
    }
  }

  lemma {:induction false} NoOtherLabels(ws: seq<Word>, speaker: int)
    requires Labelled(ws, speaker)
    ensures OtherLabels(ws, speaker) == []
    decreases |ws|
  {
    if ws != [] {
      NoOtherLabels(ws[..|ws| - 1], speaker);
    }
  }

  /** With uniform labels the vote among the words never takes place: a judge's segment that
      addresses the bench goes to counsel. */
  lemma {:induction false} Pass1GoesToCounsel(lex: Lexicon, roles: Roles, s: Segment)
    requires Labelled(s.words, s.speaker)
    ensures Pass1Segment(lex, roles, s) == if AddressesBench(lex, roles, s) then Assigned(s, roles.counsel) else s
  {
    NoOtherLabels(s.words, s.speaker);
  }

  ghost predicate RolesIn(roles: Roles, S: set<int>) {
    roles.counsel in S && (roles.judge.Some? ==> roles.judge.value in S)
  }

  /** The speech and its times stay, labels stay uniform, no speaker is introduced, and no
      segment of the judge addresses the bench unless it asks or directs. */
  lemma {:induction false} Pass1And1BKeep(lex: Lexicon, roles: Roles, segs: seq<Segment>, S: set<int>)
    requires UniformSegments(segs) && Within(segs, S) && RolesIn(roles, S) && roles.judge != Some(roles.counsel)
    ensures var r := Pass1And1B(lex, roles, segs);
      && SameTokens(Speech(segs), Speech(r)) && UniformSegments(r) && Within(r, S)
      && (NoEmpty(segs) ==> NoEmpty(r)) && (AllStarted(segs) ==> AllStarted(r))
      && (forall i :: 0 <= i < |r| && AddressesBench(lex, roles, r[i]) ==> lex.judgeDirective(r[i].text))
  {
    var r := Pass1And1B(lex, roles, segs);
    forall i | 0 <= i < |segs|
      ensures SameTokens(segs[i].words, r[i].words) && Labelled(r[i].words, r[i].speaker) && r[i].speaker in S
      ensures AddressesBench(lex, roles, r[i]) ==> lex.judgeDirective(r[i].text)
    {
      Pass1GoesToCounsel(lex, roles, segs[i]);
    }
    SpeechOfSameWords(segs, r);
  }

  // ---------------------------------------------------------------- pass 2

  /** Case A: authority and document inquiries belong to the bench, whatever follows. */
  predicate BenchSpeech(lex: Lexicon, s: Segment) {
    lex.benchInquiry(lex.bare(s.text)) || lex.judgeAuthority(lex.bare(s.text))
  }

  /** Cases B and C: a submission or a request for clarification makes the one before it judge. */
  function BeforeResponse(lex: Lexicon, judge: int, counsel: int, prev: int, prevText: string, s: Segment): int {
    var submitted := lex.submission(lex.bare(s.text)) && !lex.counselHonorific(prevText);
    var b := if submitted && prev != judge then judge else prev;
    if lex.clarification(lex.bare(s.text)) && b == counsel then judge else b
  }

  /** Cases D, E and F on the segment itself; prev is the one before it, with its new speaker. */
  function Responding(lex: Lexicon, judge: int, counsel: int, prev: seq<Segment>, s: Segment): int {
    var bare := lex.bare(s.text);
    var d := if lex.counselArgument(bare) && s.speaker == judge then counsel else s.speaker;
    var e := if |prev| == 1 && s.start - prev[0].end <= 400 && lex.danglingEnd(prev[0].text)
                && prev[0].speaker == judge && lex.judgeDirective(prev[0].text) then judge else d;
    if (lex.shortAffirmation(bare) || (lex.counselHonorific(bare) && !lex.benchInquiry(bare))) && e == judge
    then counsel else e
  }

  function Pass2At(lex: Lexicon, judge: int, counsel: int, segs: seq<Segment>, i: nat): (r: seq<Segment>)
    requires i < |segs|
    ensures |r| == |segs|
  {
    var s := segs[i];
    if BenchSpeech(lex, s) then segs[i := s.(speaker := judge)]
    else if i == 0 then segs[0 := s.(speaker := Responding(lex, judge, counsel, [], s))]
    else
      var p := segs[i - 1];
      var prev := p.(speaker := BeforeResponse(lex, judge, counsel, p.speaker, p.text, s));
      segs[i - 1 := prev][i := s.(speaker := Responding(lex, judge, counsel, [prev], s))]
  }

  function Pass2To(lex: Lexicon, judge: int, counsel: int, segs: seq<Segment>, i: nat): (r: seq<Segment>)
    requires i <= |segs|
    ensures |r| == |segs|
  {
    if i == 0 then segs else Pass2At(lex, judge, counsel, Pass2To(lex, judge, counsel, segs, i - 1), i - 1)
  }

  function Pass2(lex: Lexicon, roles: Roles, segs: seq<Segment>): seq<Segment> {
    if roles.judge.None? then segs else Pass2To(lex, roles.judge.value, roles.counsel, segs, |segs|)
  }

  /** Cases B and C: what the segment says of the one before it. */
  method CorrectBefore(lex: Lexicon, judge: int, counsel: int, p: Segment, s: Segment) returns (r: Segment)
    ensures r == p.(speaker := BeforeResponse(lex, judge, counsel, p.speaker, p.text, s))
  {
    r := p;
    var bare := lex.bare(s.text);
    if lex.submission(bare) {
      if r.speaker != judge && !lex.counselHonorific(r.text) {
        r := r.(speaker := judge);
      }
    }
    if lex.clarification(bare) {
      if r.speaker == counsel {
        r := r.(speaker := judge);
      }
    }
  }

  /** Cases D, E and F: what the segment says of its own speaker. */
  method ChooseRole(lex: Lexicon, judge: int, counsel: int, prev: seq<Segment>, s: Segment) returns (speaker: int)
    ensures speaker == Responding(lex, judge, counsel, prev, s)
  {
    var bare := lex.bare(s.text);
    speaker := s.speaker;
    if lex.counselArgument(bare) {
      if speaker == judge {
        speaker := counsel;
      }
    }
    if |prev| == 1 {
      if s.start - prev[0].end <= 400 && lex.danglingEnd(prev[0].text) {
        if prev[0].speaker == judge && lex.judgeDirective(prev[0].text) {
          speaker := judge;
        }
      }
    }
    if lex.shortAffirmation(bare) || (lex.counselHonorific(bare) && !lex.benchInquiry(bare)) {
      if speaker == judge {
        speaker := counsel;
      }
    }
  }

  method AlternateRoles(lex: Lexicon, roles: Roles, segs0: seq<Segment>) returns (segs: seq<Segment>)
    ensures segs == Pass2(lex, roles, segs0)
    ensures roles.judge.None? ==> segs == segs0
  {
    segs := segs0;
    if roles.judge.Some? {
      var judge, counsel := roles.judge.value, roles.counsel;
      for i := 0 to |segs0|
        invariant |segs| == |segs0| && segs == Pass2To(lex, judge, counsel, segs0, i)
      {
        var bare := lex.bare(segs[i].text);
        ghost var was := segs;
        var speaker := judge;
        if !(lex.benchInquiry(bare) || lex.judgeAuthority(bare)) {
          if i > 0 {
            var p := CorrectBefore(lex, judge, counsel, segs[i - 1], segs[i]);
            segs := segs[i - 1 := p];
          }
          speaker := ChooseRole(lex, judge, counsel, if i > 0 then [segs[i - 1]] else [], segs[i]);
        }
        segs := segs[i := segs[i].(speaker := speaker)];
        assert segs == Pass2At(lex, judge, counsel, was, i);
      }
    }
  }

  /** Only segment speakers change. */
  ghost predicate OnlySpeakers(a: seq<Segment>, b: seq<Segment>) {
    |a| == |b| && forall i :: 0 <= i < |a| ==> b[i] == a[i].(speaker := b[i].speaker)
  }

  lemma {:induction false} Pass2ToKeeps(lex: Lexicon, judge: int, counsel: int, segs: seq<Segment>, i: nat, S: set<int>)
    requires i <= |segs| && Within(segs, S) && judge in S && counsel in S
    ensures var r := Pass2To(lex, judge, counsel, segs, i); OnlySpeakers(segs, r) && Within(r, S)
    ensures forall k :: i <= k < |segs| ==> Pass2To(lex, judge, counsel, segs, i)[k] == segs[k]
  {
    if i > 0 {
      Pass2ToKeeps(lex, judge, counsel, segs, i - 1, S);
    }
  }

  /** Pass 2 touches neither words nor times, and introduces no speaker. */
  lemma {:induction false} Pass2Keeps(lex: Lexicon, roles: Roles, segs: seq<Segment>, S: set<int>)
    requires Within(segs, S) && RolesIn(roles, S)
    ensures var r := Pass2(lex, roles, segs);
      && OnlySpeakers(segs, r) && Within(r, S)
      && Speech(r) == Speech(segs) && (NoEmpty(segs) ==> NoEmpty(r)) && (AllStarted(segs) ==> AllStarted(r))
  {
    if roles.judge.Some? {
      Pass2ToKeeps(lex, roles.judge.value, roles.counsel, segs, |segs|, S);
    }
    SpeechOfWords(segs, Pass2(lex, roles, segs));
  }

  lemma {:induction false} SpeechOfWords(a: seq<Segment>, b: seq<Segment>)
    requires |a| == |b| && forall i :: 0 <= i < |a| ==> a[i].words == b[i].words
    ensures Speech(a) == Speech(b)
    decreases |a|
  {
    if a != [] {
      SpeechOfWords(a[..|a| - 1], b[..|b| - 1]);
    }
  }

  /** Positions before i - 1 are settled once i positions are handled. */
  lemma {:induction false} Pass2Settles(lex: Lexicon, judge: int, counsel: int, segs: seq<Segment>, i: nat, n: nat)
    requires i + 1 <= n <= |segs|
    ensures Pass2To(lex, judge, counsel, segs, n)[i]
         == Pass2To(lex, judge, counsel, segs, if n == i + 1 then i + 1 else i + 2)[i]
    decreases n
  {
    if n > i + 2 {
      Pass2Settles(lex, judge, counsel, segs, i, n - 1);
    }
  }

  /** A segment that addresses the bench, without bench speech in it. */
  predicate PureAddress(lex: Lexicon, s: Segment) {
    lex.counselHonorific(lex.bare(s.text)) && !BenchSpeech(lex, s)
  }

  // ---------------------------------------------------------------- pass 2 without the sweep

  /** The judge breaks off a directive just before s: a short gap, a dangling end. */
  predicate BreaksOff(lex: Lexicon, p: Segment, s: Segment) {
    s.start - p.end <= 400 && lex.danglingEnd(p.text) && lex.judgeDirective(p.text)
  }

  /** The label segment i has when its turn is over, computed from the segments as they came in. */
  function OwnLabel(lex: Lexicon, judge: int, counsel: int, segs: seq<Segment>, i: nat): int
    requires i < |segs|
    decreases i, 0
  {
    var s := segs[i];
    if BenchSpeech(lex, s) then judge
    else if i == 0 then Responding(lex, judge, counsel, [], s)
    else Responding(lex, judge, counsel, [segs[i - 1].(speaker := LabelBefore(lex, judge, counsel, segs, i))], s)
  }

  /** The label of segment i - 1 once segment i, not bench speech, has had its say about it. */
  function LabelBefore(lex: Lexicon, judge: int, counsel: int, segs: seq<Segment>, i: nat): int
    requires 0 < i < |segs|
    decreases i - 1, 1
  {
    BeforeResponse(lex, judge, counsel, OwnLabel(lex, judge, counsel, segs, i - 1), segs[i - 1].text, segs[i])
  }

  /** The label of segment i - 1 once segment i has had its turn. */
  function NextLabel(lex: Lexicon, judge: int, counsel: int, segs: seq<Segment>, i: nat): int
    requires 0 < i < |segs|
  {
    if BenchSpeech(lex, segs[i]) then OwnLabel(lex, judge, counsel, segs, i - 1)
    else LabelBefore(lex, judge, counsel, segs, i)
  }

  /** The final label: only the segment after it can still change it. */
  function FinalLabel(lex: Lexicon, judge: int, counsel: int, segs: seq<Segment>, i: nat): int
    requires i < |segs|
  {
    if i + 1 < |segs| then NextLabel(lex, judge, counsel, segs, i + 1) else OwnLabel(lex, judge, counsel, segs, i)
  }

  lemma {:induction false} Pass2ToUntouched(lex: Lexicon, judge: int, counsel: int, segs: seq<Segment>, i: nat, k: nat)
    requires i <= |segs| && k < |segs|
    ensures var r := Pass2To(lex, judge, counsel, segs, i);
      r[k] == segs[k].(speaker := r[k].speaker) && (i <= k ==> r[k] == segs[k])
  {
    if i > 0 {
      Pass2ToUntouched(lex, judge, counsel, segs, i - 1, k);
    }
  }

  lemma {:induction false} LabelAfterTurn(lex: Lexicon, judge: int, counsel: int, segs: seq<Segment>, i: nat)
    requires i < |segs|
    ensures Pass2To(lex, judge, counsel, segs, i + 1)[i].speaker == OwnLabel(lex, judge, counsel, segs, i)
    ensures i > 0 ==>
      Pass2To(lex, judge, counsel, segs, i + 1)[i - 1].speaker == NextLabel(lex, judge, counsel, segs, i)
  {
    Pass2ToUntouched(lex, judge, counsel, segs, i, i);
    if i > 0 {
      LabelAfterTurn(lex, judge, counsel, segs, i - 1);
      Pass2ToUntouched(lex, judge, counsel, segs, i, i - 1);
    }
  }

  /** The sweep overwrites labels it has read and labels it will read; each segment still ends
      with a label given by the segments before it and the one after it. */
  lemma {:induction false} Pass2Labels(lex: Lexicon, roles: Roles, segs: seq<Segment>, i: nat)
    requires i < |segs| && roles.judge.Some?
    ensures Pass2(lex, roles, segs)[i].speaker == FinalLabel(lex, roles.judge.value, roles.counsel, segs, i)
  {
    var judge, counsel := roles.judge.value, roles.counsel;
    Pass2Settles(lex, judge, counsel, segs, i, |segs|);
    LabelAfterTurn(lex, judge, counsel, segs, i);
    if i + 1 < |segs| {
      LabelAfterTurn(lex, judge, counsel, segs, i + 1);
    }
  }

  /** Segment i ends its turn as counsel's: it was one of the two's, or, a third speaker's, it
      follows a directive the judge broke off. */
  predicate CounselsTurn(lex: Lexicon, judge: int, counsel: int, segs: seq<Segment>, i: nat)
    requires i < |segs|
  {
    || segs[i].speaker == judge || segs[i].speaker == counsel
    || (i > 0 && BreaksOff(lex, segs[i - 1], segs[i]) && LabelBefore(lex, judge, counsel, segs, i) == judge)
  }

  /** A request for clarification, not itself bench speech, comes next. */
  predicate ClarifiedNext(lex: Lexicon, segs: seq<Segment>, i: nat) {
    i + 1 < |segs| && !BenchSpeech(lex, segs[i + 1]) && lex.clarification(lex.bare(segs[i + 1].text))
  }

  lemma {:induction false} AddressTurn(lex: Lexicon, judge: int, counsel: int, segs: seq<Segment>, i: nat)
    requires i < |segs| && PureAddress(lex, segs[i]) && judge != counsel
    ensures OwnLabel(lex, judge, counsel, segs, i) != judge
    ensures OwnLabel(lex, judge, counsel, segs, i) == counsel <==> CounselsTurn(lex, judge, counsel, segs, i)
  {
  }

  /** A submission, not itself bench speech, comes next, and the address is not found in the
      whole text of the segment, where edge punctuation is not stripped. */
  predicate SubmittedNext(lex: Lexicon, segs: seq<Segment>, i: nat) {
    && i + 1 < |segs| && !BenchSpeech(lex, segs[i + 1])
    && lex.submission(lex.bare(segs[i + 1].text)) && !lex.counselHonorific(segs[i].text)
  }

  /** "The judge never says My Lord" does not survive pass 2: such a segment ends up with the
      judge exactly when a request for clarification comes next and its turn was counsel's, or
      when a submission comes next and the address is not found again. */
  lemma {:induction false} AddressGivenToJudge(lex: Lexicon, roles: Roles, segs: seq<Segment>, i: nat)
    requires i < |segs| && PureAddress(lex, segs[i]) && roles.judge.Some? && roles.judge.value != roles.counsel
    ensures Pass2(lex, roles, segs)[i].speaker == roles.judge.value
      <==> SubmittedNext(lex, segs, i)
           || (ClarifiedNext(lex, segs, i) && CounselsTurn(lex, roles.judge.value, roles.counsel, segs, i))
  {
    Pass2Labels(lex, roles, segs, i);
    AddressTurn(lex, roles.judge.value, roles.counsel, segs, i);
  }

  /** For a segment of judge or counsel the next segment alone decides. */
  lemma {:induction false} OwnAddressGivenToJudge(lex: Lexicon, roles: Roles, segs: seq<Segment>, i: nat)
    requires i < |segs| && PureAddress(lex, segs[i]) && roles.judge.Some? && roles.judge.value != roles.counsel
    requires segs[i].speaker == roles.judge.value || segs[i].speaker == roles.counsel
    ensures Pass2(lex, roles, segs)[i].speaker == roles.judge.value
      <==> SubmittedNext(lex, segs, i) || ClarifiedNext(lex, segs, i)
  {
    AddressGivenToJudge(lex, roles, segs, i);
  }

  /** Counsel's "Yes, my Lord." and the question "Sir?" after it. */
  function AddressAndQuestion(): seq<Segment> {
    var yes, my, lord := Word("Yes,", 0, 300, 1), Word("my", 300, 500, 1), Word("Lord.", 500, 900, 1);
    [ Segment(1, 0, 900, "Yes, my Lord.", [yes, my, lord]),
      Segment(0, 1200, 1500, "Sir?", [Word("Sir?", 1200, 1500, 0)]) ]
  }

  /** With the patterns of the code, the judge ends up saying "Yes, my Lord." */
  lemma {:induction false} JudgeSaysMyLord(lex: Lexicon)
    requires lex.bare("Yes, my Lord.") == "yes, my lord" && lex.bare("Sir?") == "sir"
    requires lex.counselHonorific("yes, my lord") && lex.clarification("sir")
    requires !lex.benchInquiry("yes, my lord") && !lex.judgeAuthority("yes, my lord")
    requires !lex.benchInquiry("sir") && !lex.judgeAuthority("sir")
    ensures Pass2(lex, Roles(Some(0), 1), AddressAndQuestion())[0].speaker == 0
  {
    var segs := AddressAndQuestion();
    assert PureAddress(lex, segs[0]) && ClarifiedNext(lex, segs, 0);
    OwnAddressGivenToJudge(lex, Roles(Some(0), 1), segs, 0);
  }
}
