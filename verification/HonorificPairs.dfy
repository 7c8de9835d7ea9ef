/**
  After attribution: "My Lord" is not split between two speakers, and speakers are numbered in
  the order of their first words. Both sweeps update the words in place.
 */
module HonorificPairs {
  import opened Options
  import opened Chronology
  import opened WordAttribution

  const PAIR_GAP := 350

  /** Cleaned token, and the two sets of tokens that make a pair. */
  datatype Titles = Titles(clean: string -> string, lead: string -> bool, trail: string -> bool)

  predicate IsLead(t: string) { t == "my" || t == "your" }

  predicate IsTrail(t: string) {
    t == "lord" || t == "lordship" || t == "honor" || t == "honour"
    || t == "worship" || t == "lady" || t == "friend" || t == "learned"
  }

  /** The lead and trail words of a title in court; how a token is cleaned stays open. */
  function CourtTitles(clean: string -> string): Titles {
    Titles(clean, IsLead, IsTrail)
  }

  /** No token both opens and closes a pair, so pairs never share a word. */
  ghost predicate Apart(h: Titles) {
    forall t :: !(h.lead(t) && h.trail(t))
  }

  lemma {:induction false} CourtTitlesApart(clean: string -> string)
    ensures Apart(CourtTitles(clean))
  {
    forall t ensures !(IsLead(t) && IsTrail(t)) {
      if IsLead(t) {
        LeadIsNoTrail(t);
      }
    }
  }

  lemma {:induction false} LeadIsNoTrail(t: string)
    requires IsLead(t)
    ensures !IsTrail(t)
  {
    if t == "my" {
      assert |t| == 2;
    } else {
      assert |t| == 4 && t[0] == 'y';
    }
  }

  predicate Pair(h: Titles, a: Said, b: Said) {
    h.lead(h.clean(a.text)) && h.trail(h.clean(b.text)) && b.start - a.end <= PAIR_GAP
  }

  /** The pair follows its second word when only that one was attributed directly. */
  function PairSpeaker(a: Said, b: Said): Option<int> {
    if b.direct && !a.direct then b.speaker else a.speaker
  }

  /** What one look at words i and i + 1 makes of the words. */
  function JoinAt(h: Titles, ws: seq<Said>, i: nat): (r: seq<Said>)
    requires i + 1 < |ws|
    ensures |r| == |ws|
  {
    var a, b := ws[i], ws[i + 1];
    if !Pair(h, a, b) then ws
    else if b.direct && !a.direct then ws[i := a.(speaker := b.speaker)]
    else ws[i + 1 := b.(speaker := a.speaker)]
  }

  /** The sweep over the first n places. */
  function Swept(h: Titles, ws: seq<Said>, n: nat): (r: seq<Said>)
    requires n < |ws| || n == 0
    ensures |r| == |ws|
  {
    if n == 0 then ws else JoinAt(h, Swept(h, ws, n - 1), n - 1)
  }

  method JoinTitles(h: Titles, ws: array<Said>)
    modifies ws
    ensures ws[..] == Swept(h, old(ws[..]), if ws.Length == 0 then 0 else ws.Length - 1)
  {
    if ws.Length == 0 {
      return;
    }
    for i := 0 to ws.Length - 1
      invariant ws[..] == Swept(h, old(ws[..]), i)
    {
      ghost var before := ws[..];
      var a, b := ws[i], ws[i + 1];
      if Pair(h, a, b) {
        if b.direct && !a.direct {
          ws[i] := a.(speaker := b.speaker);
          assert ws[..] == before[i := a.(speaker := b.speaker)];
        } else {
          ws[i + 1] := b.(speaker := a.speaker);
          assert ws[..] == before[i + 1 := b.(speaker := a.speaker)];
        }
      }
    }
  }

  /** Words i and i + 1 of the words as they came in form a pair. */
  predicate PairAt(h: Titles, ws: seq<Said>, i: nat) {
    i + 1 < |ws| && Pair(h, ws[i], ws[i + 1])
  }

  /** The speaker of word k after the first n places were looked at, said without the sweep. */
  function JoinedSpeaker(h: Titles, ws: seq<Said>, n: nat, k: nat): Option<int>
    requires k < |ws|
  {
    if k < n && PairAt(h, ws, k) then PairSpeaker(ws[k], ws[k + 1])
    else if 0 < k <= n && PairAt(h, ws, k - 1) then PairSpeaker(ws[k - 1], ws[k])
    else ws[k].speaker
  }

  /** The sweep overwrites words it will still look at, and yet pairs do not interfere: every
      word of a pair gets the pair's speaker as of before the sweep, others keep theirs. */
  lemma {:induction false} SweptExactly(h: Titles, ws: seq<Said>, n: nat, k: nat)
    requires Apart(h) && n < |ws| && k < |ws|
    ensures Swept(h, ws, n)[k] == ws[k].(speaker := JoinedSpeaker(h, ws, n, k))
  {
    if n > 0 {
      SweptExactly(h, ws, n - 1, k);
      SweptExactly(h, ws, n - 1, n - 1);
      SweptExactly(h, ws, n - 1, n);
      SweptAt(h, ws, Swept(h, ws, n - 1), n - 1, k);
    }
  }

  lemma {:induction false} SweptAt(h: Titles, ws: seq<Said>, p: seq<Said>, i: nat, k: nat)
    requires Apart(h) && i + 1 < |ws| == |p| && k < |ws|
    requires p[k] == ws[k].(speaker := JoinedSpeaker(h, ws, i, k))
    requires p[i] == ws[i].(speaker := JoinedSpeaker(h, ws, i, i))
    requires p[i + 1] == ws[i + 1].(speaker := JoinedSpeaker(h, ws, i, i + 1))
    ensures JoinAt(h, p, i)[k] == ws[k].(speaker := JoinedSpeaker(h, ws, i + 1, k))
  {
    if PairAt(h, ws, i) {
      PairsApart(h, ws, i);
      assert p[i] == ws[i];
    }
  }

  lemma {:induction false} PairsApart(h: Titles, ws: seq<Said>, i: nat)
    requires Apart(h) && PairAt(h, ws, i)
    ensures !PairAt(h, ws, i + 1) && (i > 0 ==> !PairAt(h, ws, i - 1))
  {
  }

  function Joined(h: Titles, ws: seq<Said>): (r: seq<Said>)
    ensures |r| == |ws|
  {
    Swept(h, ws, if |ws| == 0 then 0 else |ws| - 1)
  }

  /** After the sweep the two words of every pair have one speaker, a second sweep changes
      nothing, and words outside pairs are as they were. */
  lemma {:induction false} TitlesStayTogether(h: Titles, ws: seq<Said>, i: nat)
    requires Apart(h) && i < |ws|
    ensures PairAt(h, ws, i) ==>
      Joined(h, ws)[i].speaker == Joined(h, ws)[i + 1].speaker == PairSpeaker(ws[i], ws[i + 1])
    ensures !PairAt(h, ws, i) && (i == 0 || !PairAt(h, ws, i - 1)) ==> Joined(h, ws)[i] == ws[i]
    ensures PairAt(h, ws, i) <==> PairAt(h, Joined(h, ws), i)
  {
    SweptExactly(h, ws, |ws| - 1, i);
    if i + 1 < |ws| {
      SweptExactly(h, ws, |ws| - 1, i + 1);
    }
    if PairAt(h, ws, i) {
      PairsApart(h, ws, i);
    }
  }

  /** A title in two words, the second at most 0.35 s after the first. */
  ghost predicate IsTitle(h: Titles, ws: seq<Said>, i: nat) {
    && i + 1 < |ws| && h.lead(h.clean(ws[i].text)) && h.trail(h.clean(ws[i + 1].text))
    && ws[i + 1].start - ws[i].end <= 350
  }

  /** Both words of a title are said by the speaker of the first, or of the second if only that
      one was attributed directly; other words keep their speakers. */
  lemma {:induction false} TitleHasOneSpeaker(h: Titles, ws: seq<Said>, i: nat)
    requires Apart(h) && i < |ws|
    ensures IsTitle(h, ws, i) ==>
      Joined(h, ws)[i].speaker == Joined(h, ws)[i + 1].speaker
        == if ws[i + 1].direct && !ws[i].direct then ws[i + 1].speaker else ws[i].speaker
    ensures !IsTitle(h, ws, i) && (i == 0 || !IsTitle(h, ws, i - 1)) ==> Joined(h, ws)[i] == ws[i]
    ensures Joined(h, ws)[i] == ws[i].(speaker := Joined(h, ws)[i].speaker)
  {
    TitlesStayTogether(h, ws, i);
    SweptExactly(h, ws, |ws| - 1, i);
  }

  lemma {:induction false} JoinedTwice(h: Titles, ws: seq<Said>)
    requires Apart(h)
    ensures Joined(h, Joined(h, ws)) == Joined(h, ws)
  {
    forall k: nat | k < |ws| ensures Joined(h, Joined(h, ws))[k] == Joined(h, ws)[k] {
      TitlesStayTogether(h, ws, k);
      if k > 0 {
        TitlesStayTogether(h, ws, k - 1);
      }
      NothingToJoin(h, Joined(h, ws), k);
    }
  }

  lemma {:induction false} NothingToJoin(h: Titles, r: seq<Said>, k: nat)
    requires Apart(h) && k < |r|
    requires PairAt(h, r, k) ==> r[k].speaker == r[k + 1].speaker
    requires k > 0 && PairAt(h, r, k - 1) ==> r[k - 1].speaker == r[k].speaker
    ensures Joined(h, r)[k] == r[k]
  {
    SweptExactly(h, r, |r| - 1, k);
  }

  // ---------------------------------------------------------------- numbering by first word

  ghost predicate AllKnown(ws: seq<Said>) {
    forall i :: 0 <= i < |ws| ==> ws[i].speaker.Some?
  }

  function HeardWords(ws: seq<Said>): (r: seq<Heard>)
    requires AllKnown(ws)
    ensures |r| == |ws| && forall i :: 0 <= i < |ws| ==> r[i] == Heard(ws[i].speaker.value, ws[i].start)
  {
    seq(|ws|, i requires 0 <= i < |ws| => Heard(ws[i].speaker.value, ws[i].start))
  }

  function Numbered(ws: seq<Said>): (r: seq<Said>)
    requires AllKnown(ws)
    ensures |r| == |ws| && AllKnown(r)
    ensures forall i :: 0 <= i < |ws| ==>
      r[i] == ws[i].(speaker := Some(Position(Met(HeardWords(ws)), ws[i].speaker.value)))
  {
    seq(|ws|, i requires 0 <= i < |ws| => ws[i].(speaker := Some(Position(Met(HeardWords(ws)), ws[i].speaker.value))))
  }

  method NumberSpeakers(ws: array<Said>)
    requires AllKnown(ws[..])
    modifies ws
    ensures AllKnown(old(ws[..])) && ws[..] == Numbered(old(ws[..]))
  {
    ghost var was := ws[..];
    ghost var hs := HeardWords(was);
    var met: seq<int> := [];
    for i := 0 to ws.Length
      invariant met == Met(hs[..i])
    {
      assert hs[..i + 1][..i] == hs[..i] && hs[i].speaker == ws[i].speaker.value;
      if ws[i].speaker.value !in met {
        met := met + [ws[i].speaker.value];
      }
    }
    assert hs[..ws.Length] == hs;
    for i := 0 to ws.Length
      invariant forall k :: 0 <= k < i ==> ws[k] == Numbered(was)[k]
      invariant forall k :: i <= k < ws.Length ==> ws[k] == was[k]
    {
      ws[i] := ws[i].(speaker := Some(Position(met, ws[i].speaker.value)));
    }
  }

  /** The number of speakers heard before word i. */
  function HeardBefore(ws: seq<Said>, i: nat): nat
    requires AllKnown(ws) && i <= |ws|
  {
    |Met(HeardWords(ws)[..i])|
  }

  /** Numbering is one-to-one onto 0 .. n - 1, and a speaker's number is how many speakers were
      heard before it: word 0 is SPEAKER_00 and labels first appear in increasing order. */
  lemma {:induction false} NumberedByFirstWord(ws: seq<Said>, i: nat, j: nat)
    requires AllKnown(ws) && i < |ws| && j < |ws|
    ensures Numbered(ws)[i].speaker == Numbered(ws)[j].speaker <==> ws[i].speaker == ws[j].speaker
    ensures (forall k :: 0 <= k < i ==> ws[k].speaker != ws[i].speaker) ==>
      Numbered(ws)[i].speaker == Some(HeardBefore(ws, i))
    ensures 0 <= Numbered(ws)[i].speaker.value < |Met(HeardWords(ws))|
  {
    var hs := HeardWords(ws);
    var m := Met(hs);
    assert hs[i].speaker in m && hs[j].speaker in m;
    if forall k :: 0 <= k < i ==> ws[k].speaker != ws[i].speaker {
      FirstMetAt(hs, i);
    }
  }

  lemma {:induction false} FirstMetAt(hs: seq<Heard>, i: nat)
    requires i < |hs| && forall k :: 0 <= k < i ==> hs[k].speaker != hs[i].speaker
    ensures Position(Met(hs), hs[i].speaker) == |Met(hs[..i])|
  {
    var p, q, m := Met(hs[..i]), Met(hs[..i + 1]), Met(hs);
    assert hs[..i + 1][..i] == hs[..i];
    assert hs[i].speaker !in p;
    assert q == p + [hs[i].speaker];
    MetPrefix(hs, i + 1);
    assert m[|p|] == q[|p|] == hs[i].speaker;
    assert hs[i].speaker in m;
  }
}
