module RoleDiscovery {
  /**
    Who is the bench and who is counsel, and which speaker clusters are folded into them.
   */
  import opened Options
  import opened Words
  import opened Segments
  import opened BoundaryHealing

  /** The counters of the discovery loop, keyed by speaker; the orders are the insertion
      orders of the dictionaries, which decide ties. */
  datatype Tally = Tally(
    order: seq<int>, counselOrder: seq<int>, judgeOrder: seq<int>,
    counselVotes: map<int, nat>, judgeVotes: map<int, nat>,
    duration: map<int, int>, wordCount: map<int, nat>, segCount: map<int, nat>)

  function Get(m: map<int, int>, s: int): int { if s in m then m[s] else 0 }

  function GetNat(m: map<int, nat>, s: int): nat { if s in m then m[s] else 0 }

  function Noted(order: seq<int>, s: int): (r: seq<int>)
    ensures forall x :: x in r <==> x in order || x == s
  {
    if s in order then order else order + [s]
  }

  predicate VotesCounsel(lex: Lexicon, s: Segment) { lex.counselHonorific(s.text) }

  predicate VotesJudge(lex: Lexicon, s: Segment) { lex.judgeAuthority(s.text) || lex.judgeDirective(s.text) }

  function SpeechTime(s: Segment): int { if s.end - s.start < 50 then 50 else s.end - s.start }

  function Counted(lex: Lexicon, t: Tally, seg: Segment): Tally {
    var s, c, j := seg.speaker, VotesCounsel(lex, seg), VotesJudge(lex, seg);
    Tally(
      Noted(t.order, s),
      if c then Noted(t.counselOrder, s) else t.counselOrder,
      if j then Noted(t.judgeOrder, s) else t.judgeOrder,
      if c then t.counselVotes[s := GetNat(t.counselVotes, s) + 1] else t.counselVotes,
      if j then t.judgeVotes[s := GetNat(t.judgeVotes, s) + 1] else t.judgeVotes,
      t.duration[s := Get(t.duration, s) + SpeechTime(seg)],
      t.wordCount[s := GetNat(t.wordCount, s) + |seg.words|],
      t.segCount[s := GetNat(t.segCount, s) + 1])
  }

  function TallyOf(lex: Lexicon, segs: seq<Segment>): Tally {
    if segs == [] then Tally([], [], [], map[], map[], map[], map[], map[])
    else Counted(lex, TallyOf(lex, segs[..|segs| - 1]), segs[|segs| - 1])
  }

  /** max(xs, key=score): the first of the highest. */
  function ArgMax(xs: seq<int>, score: int -> real): (r: int)
    requires xs != []
    ensures r in xs && forall x :: x in xs ==> score(x) <= score(r)
  {
    var n := |xs| - 1;
    if n == 0 then xs[0]
    else
      var best := ArgMax(xs[..n], score);
      assert forall x :: x in xs ==> x in xs[..n] || x == xs[n];
      if score(xs[n]) > score(best) then xs[n] else best
  }

  function Others(xs: seq<int>, keep: int -> bool): (r: seq<int>)
    ensures forall x :: x in r <==> x in xs && keep(x)
  {
    if xs == [] then []
    else
      var n := |xs| - 1;
      assert forall x :: x in xs <==> x in xs[..n] || x == xs[n];
      if keep(xs[n]) then Others(xs[..n], keep) + [xs[n]] else Others(xs[..n], keep)
  }

  function JudgeScore(t: Tally, s: int): real {
    Get(t.duration, s) as real / (1.0 + 5.0 * GetNat(t.counselVotes, s) as real)
  }

  function CounselOf(t: Tally, first: int): int {
    if t.counselOrder == [] then first else ArgMax(t.counselOrder, s => GetNat(t.counselVotes, s) as real)
  }

  function JudgeOf(t: Tally, counsel: int): Option<int> {
    var js := Others(t.judgeOrder, s => s != counsel);
    if js != [] then Some(ArgMax(js, s => GetNat(t.judgeVotes, s) as real))
    else
      var others := Others(t.order, s => s != counsel && Get(t.duration, s) >= 1000);
      if others != [] then Some(ArgMax(others, s => JudgeScore(t, s))) else None
  }

  function RolesOf(t: Tally, first: int): Roles {
    Roles(JudgeOf(t, CounselOf(t, first)), CounselOf(t, first))
  }

  method DiscoverRoles(lex: Lexicon, segs: seq<Segment>) returns (t: Tally, roles: Roles)
    requires segs != []
    ensures t == TallyOf(lex, segs) && roles == RolesOf(t, segs[0].speaker)
  {
    t := Tally([], [], [], map[], map[], map[], map[], map[]);
    for i := 0 to |segs|
      invariant t == TallyOf(lex, segs[..i])
    {
      assert segs[..i + 1][..i] == segs[..i];
      t := Counted(lex, t, segs[i]);
    }
    assert segs[..|segs|] == segs;
    roles := RolesOf(t, segs[0].speaker);
  }

  // ---------------------------------------------------------------- what the tally holds

  ghost function Speakers(segs: seq<Segment>): set<int> { set i | 0 <= i < |segs| :: segs[i].speaker }

  /** Segments of speaker s that address the bench, and segments that speak for it. */
  function CounselSegments(lex: Lexicon, segs: seq<Segment>, s: int): nat {
    if segs == [] then 0
    else
      var last := segs[|segs| - 1];
      CounselSegments(lex, segs[..|segs| - 1], s)
      + if last.speaker == s && lex.counselHonorific(last.text) then 1 else 0
  }

  function BenchSegments(lex: Lexicon, segs: seq<Segment>, s: int): nat {
    if segs == [] then 0
    else
      var last := segs[|segs| - 1];
      BenchSegments(lex, segs[..|segs| - 1], s)
      + if last.speaker == s && (lex.judgeAuthority(last.text) || lex.judgeDirective(last.text)) then 1 else 0
  }

  lemma {:induction false} TallyCounts(lex: Lexicon, segs: seq<Segment>, s: int)
    ensures var t := TallyOf(lex, segs);
      && GetNat(t.counselVotes, s) == CounselSegments(lex, segs, s)
      && GetNat(t.judgeVotes, s) == BenchSegments(lex, segs, s)
      && (s in t.counselOrder <==> CounselSegments(lex, segs, s) > 0)
      && (s in t.judgeOrder <==> BenchSegments(lex, segs, s) > 0)
    decreases |segs|
  {
    if segs != [] {
      TallyCounts(lex, segs[..|segs| - 1], s);
    }
  }

  lemma {:induction false} SpeakersSnoc(segs: seq<Segment>)
    requires segs != []
    ensures Speakers(segs) == Speakers(segs[..|segs| - 1]) + {segs[|segs| - 1].speaker}
  {
  }

  lemma {:induction false} TallyOrder(lex: Lexicon, segs: seq<Segment>, s: int)
    ensures s in TallyOf(lex, segs).order <==> s in Speakers(segs)
    decreases |segs|
  {
    if segs != [] {
      TallyOrder(lex, segs[..|segs| - 1], s);
      SpeakersSnoc(segs);
    }
  }

  lemma {:induction false} TallyVoters(lex: Lexicon, segs: seq<Segment>, s: int)
    ensures s in TallyOf(lex, segs).counselOrder ==> s in Speakers(segs)
    ensures s in TallyOf(lex, segs).judgeOrder ==> s in Speakers(segs)
    decreases |segs|
  {
    if segs != [] {
      TallyVoters(lex, segs[..|segs| - 1], s);
      SpeakersSnoc(segs);
    }
  }

  ghost predicate Distinct(xs: seq<int>) { forall i, j :: 0 <= i < j < |xs| ==> xs[i] != xs[j] }

  lemma {:induction false} TallyDistinct(lex: Lexicon, segs: seq<Segment>)
    ensures Distinct(TallyOf(lex, segs).order)
    decreases |segs|
  {
    if segs != [] {
      TallyDistinct(lex, segs[..|segs| - 1]);
    }
  }

  lemma {:induction false} TallySpeakers(lex: Lexicon, segs: seq<Segment>)
    ensures var t := TallyOf(lex, segs);
      && (forall s :: s in t.order <==> s in Speakers(segs))
      && (forall s :: s in t.counselOrder ==> s in Speakers(segs))
      && (forall s :: s in t.judgeOrder ==> s in Speakers(segs))
      && Distinct(t.order)
  {
    TallyDistinct(lex, segs);
    forall s
      ensures s in TallyOf(lex, segs).order <==> s in Speakers(segs)
      ensures s in TallyOf(lex, segs).counselOrder ==> s in Speakers(segs)
      ensures s in TallyOf(lex, segs).judgeOrder ==> s in Speakers(segs)
    {
      TallyOrder(lex, segs, s);
      TallyVoters(lex, segs, s);
    }
  }

  lemma {:induction false} CounselIsHeard(lex: Lexicon, segs: seq<Segment>)
    requires segs != []
    ensures CounselOf(TallyOf(lex, segs), segs[0].speaker) in Speakers(segs)
  {
    TallySpeakers(lex, segs);
  }

  lemma {:induction false} JudgeIsHeard(lex: Lexicon, segs: seq<Segment>, counsel: int)
    ensures var judge := JudgeOf(TallyOf(lex, segs), counsel);
      judge != Some(counsel) && (judge.Some? ==> judge.value in Speakers(segs))
  {
    TallySpeakers(lex, segs);
  }

  lemma {:induction false} CounselIsFirst(lex: Lexicon, segs: seq<Segment>, s: int)
    requires segs != []
    ensures CounselSegments(lex, segs, s)
      <= CounselSegments(lex, segs, CounselOf(TallyOf(lex, segs), segs[0].speaker))
  {
    TallyCounts(lex, segs, s);
    TallyCounts(lex, segs, CounselOf(TallyOf(lex, segs), segs[0].speaker));
  }

  lemma {:induction false} JudgeIsFirst(lex: Lexicon, segs: seq<Segment>, counsel: int, s: int)
    requires s != counsel && BenchSegments(lex, segs, s) > 0
    ensures var judge := JudgeOf(TallyOf(lex, segs), counsel);
      judge.Some? && BenchSegments(lex, segs, s) <= BenchSegments(lex, segs, judge.value)
  {
    var judge := JudgeOf(TallyOf(lex, segs), counsel);
    TallyCounts(lex, segs, s);
    if judge.Some? {
      TallyCounts(lex, segs, judge.value);
    }
  }

  /** Judge and counsel are two different speakers of the recording. Nobody has more segments
      addressing the bench than counsel, and a judge is found whenever somebody else speaks
      for the bench: then nobody but counsel does so in more segments. */
  lemma {:induction false} RolesAreDistinct(lex: Lexicon, segs: seq<Segment>)
    requires segs != []
    ensures var roles := RolesOf(TallyOf(lex, segs), segs[0].speaker);
      && roles.judge != Some(roles.counsel)
      && roles.counsel in Speakers(segs)
      && (roles.judge.Some? ==> roles.judge.value in Speakers(segs))
      && (forall s :: CounselSegments(lex, segs, s) <= CounselSegments(lex, segs, roles.counsel))
      && (forall s :: s != roles.counsel && BenchSegments(lex, segs, s) > 0 ==>
            roles.judge.Some? && BenchSegments(lex, segs, s) <= BenchSegments(lex, segs, roles.judge.value))
  {
    var roles := RolesOf(TallyOf(lex, segs), segs[0].speaker);
    CounselIsHeard(lex, segs);
    JudgeIsHeard(lex, segs, roles.counsel);
    forall s
      ensures CounselSegments(lex, segs, s) <= CounselSegments(lex, segs, roles.counsel)
      ensures s != roles.counsel && BenchSegments(lex, segs, s) > 0 ==>
        roles.judge.Some? && BenchSegments(lex, segs, s) <= BenchSegments(lex, segs, roles.judge.value)
    {
      CounselIsFirst(lex, segs, s);
      if s != roles.counsel && BenchSegments(lex, segs, s) > 0 {
        JudgeIsFirst(lex, segs, roles.counsel, s);
      }
    }
  }

  /** If nobody addresses the bench, who speaks first is taken for counsel. */
  lemma {:induction false} CounselByDefault(lex: Lexicon, segs: seq<Segment>)
    requires segs != [] && forall s :: CounselSegments(lex, segs, s) == 0
    ensures RolesOf(TallyOf(lex, segs), segs[0].speaker).counsel == segs[0].speaker
  {
    var order := TallyOf(lex, segs).counselOrder;
    if order != [] {
      TallyCounts(lex, segs, order[0]);
    }
  }

  // ---------------------------------------------------------------- when nobody else votes

  /** The speaking time of s in milliseconds, each segment counting for at least 50. */
  function SpeakingTime(segs: seq<Segment>, s: int): int {
    if segs == [] then 0
    else
      var last := segs[|segs| - 1];
      SpeakingTime(segs[..|segs| - 1], s)
      + if last.speaker != s then 0 else if last.end - last.start < 50 then 50 else last.end - last.start
  }

  function WordsSaid(segs: seq<Segment>, s: int): nat {
    if segs == [] then 0
    else
      var last := segs[|segs| - 1];
      WordsSaid(segs[..|segs| - 1], s) + if last.speaker == s then |last.words| else 0
  }

  function SegmentsSaid(segs: seq<Segment>, s: int): nat {
    if segs == [] then 0
    else SegmentsSaid(segs[..|segs| - 1], s) + if segs[|segs| - 1].speaker == s then 1 else 0
  }

  lemma {:induction false} TallySums(lex: Lexicon, segs: seq<Segment>, s: int)
    ensures var t := TallyOf(lex, segs);
      && Get(t.duration, s) == SpeakingTime(segs, s)
      && GetNat(t.wordCount, s) == WordsSaid(segs, s)
      && GetNat(t.segCount, s) == SegmentsSaid(segs, s)
    decreases |segs|
  {
    if segs != [] {
      TallySums(lex, segs[..|segs| - 1], s);
    }
  }

  /** Somebody but counsel who speaks for a second or more. */
  ghost predicate MayBeJudge(segs: seq<Segment>, counsel: int, s: int) {
    s in Speakers(segs) && s != counsel && SpeakingTime(segs, s) >= 1000
  }

  /** Long speech and few addresses speak for the bench. */
  ghost function BenchScore(lex: Lexicon, segs: seq<Segment>, s: int): real {
    SpeakingTime(segs, s) as real / (1.0 + 5.0 * CounselSegments(lex, segs, s) as real)
  }

  predicate Candidate(t: Tally, counsel: int, s: int) {
    s in t.order && s != counsel && Get(t.duration, s) >= 1000
  }

  lemma {:induction false} NobodyKept(xs: seq<int>, keep: int -> bool)
    requires forall i :: 0 <= i < |xs| ==> !keep(xs[i])
    ensures Others(xs, keep) == []
    decreases |xs|
  {
    if xs != [] {
      NobodyKept(xs[..|xs| - 1], keep);
    }
  }

  lemma {:induction false} JudgeAmong(t: Tally, counsel: int)
    requires forall s :: s in t.judgeOrder ==> s == counsel
    ensures var judge := JudgeOf(t, counsel);
      && (judge.None? ==> forall s :: !Candidate(t, counsel, s))
      && (judge.Some? ==> Candidate(t, counsel, judge.value))
      && (judge.Some? ==> forall s :: Candidate(t, counsel, s) ==> JudgeScore(t, s) <= JudgeScore(t, judge.value))
  {
    assert forall i :: 0 <= i < |t.judgeOrder| ==> t.judgeOrder[i] in t.judgeOrder;
    NobodyKept(t.judgeOrder, s => s != counsel);
    var others := Others(t.order, s => s != counsel && Get(t.duration, s) >= 1000);
    assert forall s :: s in others <==> Candidate(t, counsel, s);
  }

  lemma {:induction false} CandidateIff(lex: Lexicon, segs: seq<Segment>, counsel: int, s: int)
    ensures Candidate(TallyOf(lex, segs), counsel, s) <==> MayBeJudge(segs, counsel, s)
    ensures JudgeScore(TallyOf(lex, segs), s) == BenchScore(lex, segs, s)
    ensures s in TallyOf(lex, segs).judgeOrder <==> BenchSegments(lex, segs, s) > 0
  {
    TallySums(lex, segs, s);
    TallyCounts(lex, segs, s);
    TallyOrder(lex, segs, s);
  }

  /** If nobody but counsel speaks for the bench, the judge is who scores highest among those who
      may be; there is none exactly if nobody may be. */
  lemma {:induction false} JudgeByScore(lex: Lexicon, segs: seq<Segment>, counsel: int)
    requires forall s :: s != counsel ==> BenchSegments(lex, segs, s) == 0
    ensures var judge := JudgeOf(TallyOf(lex, segs), counsel);
      && (judge.None? ==> forall s :: !MayBeJudge(segs, counsel, s))
      && (judge.Some? ==> MayBeJudge(segs, counsel, judge.value))
      && (judge.Some? ==> forall s :: MayBeJudge(segs, counsel, s) ==>
            BenchScore(lex, segs, s) <= BenchScore(lex, segs, judge.value))
  {
    var t := TallyOf(lex, segs);
    forall s
      ensures Candidate(t, counsel, s) <==> MayBeJudge(segs, counsel, s)
      ensures JudgeScore(t, s) == BenchScore(lex, segs, s)
      ensures s in t.judgeOrder <==> BenchSegments(lex, segs, s) > 0
    {
      CandidateIff(lex, segs, counsel, s);
    }
    JudgeAmong(t, counsel);
  }

  // ---------------------------------------------------------------- cluster remap

  /** Where a cluster other than judge and counsel goes, if it is a glitch or too many. */
  function RemapTarget(t: Tally, roles: Roles, maxSpeakers: Option<int>, s: int): Option<int> {
    var phantom := Get(t.duration, s) < 800 && GetNat(t.wordCount, s) <= 1 && GetNat(t.segCount, s) <= 1;
    var enforced := maxSpeakers == Some(2) && |t.order| > 2;
    var c, j := GetNat(t.counselVotes, s), GetNat(t.judgeVotes, s);
    if s == roles.counsel || Some(s) == roles.judge || !(phantom || enforced) then None
    else if c > j then Some(roles.counsel)
    else if roles.judge.Some? then roles.judge
    else None
  }

  function Moved(s: Segment, target: Option<int>): Segment {
    if target.None? then s else s.(speaker := target.value, words := Relabel(s.words, target.value))
  }

  function Remapped(t: Tally, roles: Roles, maxSpeakers: Option<int>, segs: seq<Segment>): (r: seq<Segment>)
    ensures |r| == |segs|
    ensures forall i :: 0 <= i < |segs| ==> r[i] == Moved(segs[i], RemapTarget(t, roles, maxSpeakers, segs[i].speaker))
  {
    seq(|segs|, i requires 0 <= i < |segs| => Moved(segs[i], RemapTarget(t, roles, maxSpeakers, segs[i].speaker)))
  }

  method BuildRemap(t: Tally, roles: Roles, maxSpeakers: Option<int>) returns (remap: map<int, int>)
    ensures forall s :: s in t.order ==>
      RemapTarget(t, roles, maxSpeakers, s) == if s in remap then Some(remap[s]) else None
  {
    remap := map[];
    for k := 0 to |t.order|
      invariant forall s :: s in remap ==> RemapTarget(t, roles, maxSpeakers, s) == Some(remap[s])
      invariant forall s :: s in t.order[..k] ==> (s in remap <==> RemapTarget(t, roles, maxSpeakers, s).Some?)
    {
      var s := t.order[k];
      if s != roles.counsel && Some(s) != roles.judge {
        var phantom := Get(t.duration, s) < 800 && GetNat(t.wordCount, s) <= 1 && GetNat(t.segCount, s) <= 1;
        if phantom || (maxSpeakers == Some(2) && |t.order| > 2) {
          if GetNat(t.counselVotes, s) > GetNat(t.judgeVotes, s) {
            remap := remap[s := roles.counsel];
          } else if roles.judge.Some? {
            remap := remap[s := roles.judge.value];
          }
        }
      }
    }
  }

  /** The remap table is built first, then applied segment by segment. */
  method RemapClusters(t: Tally, roles: Roles, maxSpeakers: Option<int>, segs0: seq<Segment>)
    returns (segs: seq<Segment>)
    requires forall i :: 0 <= i < |segs0| ==> segs0[i].speaker in t.order
    ensures segs == Remapped(t, roles, maxSpeakers, segs0)
  {
    var remap := BuildRemap(t, roles, maxSpeakers);
    segs := segs0;
    for i := 0 to |segs0|
      invariant |segs| == |segs0|
      invariant forall k :: 0 <= k < i ==> segs[k] == Remapped(t, roles, maxSpeakers, segs0)[k]
      invariant forall k :: i <= k < |segs| ==> segs[k] == segs0[k]
    {
      if segs[i].speaker in remap {
        var target := remap[segs[i].speaker];
        segs := segs[i := segs[i].(speaker := target, words := Relabel(segs[i].words, target))];
      }
    }
  }

  lemma {:induction false} RemapKeepsSpeech(t: Tally, roles: Roles, maxSpeakers: Option<int>, segs: seq<Segment>)
    ensures var r := Remapped(t, roles, maxSpeakers, segs);
      && SameTokens(Speech(segs), Speech(r))
      && (UniformSegments(segs) ==> UniformSegments(r)) && (NoEmpty(segs) ==> NoEmpty(r))
      && (AllStarted(segs) ==> AllStarted(r))
  {
    SpeechOfSameWords(segs, Remapped(t, roles, maxSpeakers, segs));
  }

  /** Remapping introduces no speaker; when two are the limit and a judge was found, judge and
      counsel are all that is left of more than two. */
  lemma {:induction false} RemapSpeakers(
    t: Tally, roles: Roles, maxSpeakers: Option<int>, segs: seq<Segment>, S: set<int>)
    requires Within(segs, S) && roles.counsel in S && (roles.judge.Some? ==> roles.judge.value in S)
    ensures var r := Remapped(t, roles, maxSpeakers, segs);
      && Within(r, S)
      && (maxSpeakers == Some(2) && roles.judge.Some? && |t.order| > 2 ==>
            Within(r, {roles.counsel, roles.judge.value}))
  {
  }

  // ---------------------------------------------------------------- where clusters go

  ghost function ToSet(xs: seq<int>): set<int> { set x | x in xs }

  lemma {:induction false} DistinctCount(xs: seq<int>)
    requires Distinct(xs)
    ensures |ToSet(xs)| == |xs|
    decreases |xs|
  {
    if xs != [] {
      var n := |xs| - 1;
      DistinctCount(xs[..n]);
      assert ToSet(xs) == ToSet(xs[..n]) + {xs[n]};
    }
  }

  lemma {:induction false} AsManySpeakers(lex: Lexicon, segs: seq<Segment>)
    ensures |TallyOf(lex, segs).order| == |Speakers(segs)|
  {
    var order := TallyOf(lex, segs).order;
    TallySpeakers(lex, segs);
    DistinctCount(order);
    assert ToSet(order) == Speakers(segs);
  }

  /** Nothing but one click of less than 0.8 s. */
  ghost predicate Glitch(segs: seq<Segment>, s: int) {
    SpeakingTime(segs, s) < 800 && WordsSaid(segs, s) <= 1 && SegmentsSaid(segs, s) <= 1
  }

  /** Speaker s is folded into judge or counsel: a glitch, or one too many of two. */
  ghost predicate Folded(roles: Roles, maxSpeakers: Option<int>, segs: seq<Segment>, s: int) {
    && s != roles.counsel && roles.judge != Some(s)
    && (Glitch(segs, s) || (maxSpeakers == Some(2) && |Speakers(segs)| > 2))
  }

  /** Who is not folded stays; who addresses the bench in more segments than speak for it becomes
      counsel, anyone else the judge, if there is one. */
  lemma {:induction false} FoldedInto(
    lex: Lexicon, roles: Roles, maxSpeakers: Option<int>, segs: seq<Segment>, i: nat)
    requires i < |segs|
    ensures var s, r := segs[i].speaker, Remapped(TallyOf(lex, segs), roles, maxSpeakers, segs)[i];
      && (!Folded(roles, maxSpeakers, segs, s) ==> r == segs[i])
      && (Folded(roles, maxSpeakers, segs, s) && CounselSegments(lex, segs, s) > BenchSegments(lex, segs, s) ==>
            r.speaker == roles.counsel)
      && (Folded(roles, maxSpeakers, segs, s) && CounselSegments(lex, segs, s) <= BenchSegments(lex, segs, s) ==>
            r.speaker == if roles.judge.Some? then roles.judge.value else s)
  {
    var t, s := TallyOf(lex, segs), segs[i].speaker;
    TallyCounts(lex, segs, s);
    TallySums(lex, segs, s);
    AsManySpeakers(lex, segs);
  }
}
