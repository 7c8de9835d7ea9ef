/**
  Misheard courtroom phrases are rewritten on the word stream; the new words share out the time
  of the old ones.
 */
module PhraseRules {
  import opened Options
  import opened Words
  import opened Blocks
  import opened Shares

  /** Cleaned tokens that are replaced, and the texts that replace them. */
  datatype Rule = Rule(src: seq<string>, dst: seq<string>)

  /** The table in the order in which it is tried; how a token is cleaned; what the last new word
      takes over from the last old one; and when the d-th of n equal shares of a time is over. */
  datatype Phrases = Phrases(
    rules: seq<Rule>,
    clean: string -> string,
    ending: (string, string) -> string,
    share: (int, nat, nat) -> int)

  const MAX_GAP := 1500
  const LEAST_SPAN := 50

  /** No rule has an empty side, and shares are rounded soundly. */
  ghost predicate SoundPhrases(ph: Phrases) {
    && (forall r :: r in ph.rules ==> r.src != [] && r.dst != [])
    && SharesOut(ph.share)
  }

  /** A pause inside the first n words is too long. */
  predicate Paused(ws: seq<Word>, n: nat)
    requires n <= |ws|
  {
    exists k :: 0 < k < n && ws[k].start - ws[k - 1].end > MAX_GAP
  }

  predicate Matches(ph: Phrases, r: Rule, ws: seq<Word>) {
    && |r.src| <= |ws| && !Paused(ws, |r.src|)
    && forall k :: 0 <= k < |r.src| ==> ph.clean(ws[k].text) == r.src[k]
  }

  /** The first of the rules from k on that matches the front of ws. */
  function FirstMatch(ph: Phrases, ws: seq<Word>, k: nat): (r: Option<nat>)
    requires k <= |ph.rules|
    ensures r.Some? ==> k <= r.value < |ph.rules| && Matches(ph, ph.rules[r.value], ws)
    decreases |ph.rules| - k
  {
    if k == |ph.rules| then None
    else if Matches(ph, ph.rules[k], ws) then Some(k)
    else FirstMatch(ph, ws, k + 1)
  }

  lemma {:induction false} NoEarlierMatch(ph: Phrases, ws: seq<Word>, k: nat, j: nat)
    requires k <= j < |ph.rules| && (FirstMatch(ph, ws, k).None? || j < FirstMatch(ph, ws, k).value)
    ensures !Matches(ph, ph.rules[j], ws)
    decreases |ph.rules| - k
  {
    if k < j {
      NoEarlierMatch(ph, ws, k + 1, j);
    }
  }

  /** The time a matched block takes, at least 50 ms. */
  function Span(block: seq<Word>): (r: nat)
    requires block != []
    ensures r >= LEAST_SPAN
  {
    var d := block[|block| - 1].end - block[0].start;
    if d < LEAST_SPAN then LEAST_SPAN else d
  }

  /** The d-th new word of a phrase from `first` to `last` that takes `dur`. */
  function NewWord(ph: Phrases, r: Rule, first: Word, last: Word, dur: int, d: nat): Word
    requires d < |r.dst|
  {
    var n := |r.dst|;
    Word(if d == n - 1 then ph.ending(r.dst[d], last.text) else r.dst[d],
         first.start + ph.share(dur, d, n), first.start + ph.share(dur, d + 1, n), first.speaker)
  }

  function Rewritten(ph: Phrases, r: Rule, block: seq<Word>): (out: seq<Word>)
    requires block != [] && r.dst != []
    ensures |out| == |r.dst|
    ensures forall d :: 0 <= d < |out| ==> out[d] == NewWord(ph, r, block[0], block[|block| - 1], Span(block), d)
  {
    seq(|r.dst|, d requires 0 <= d < |r.dst| => NewWord(ph, r, block[0], block[|block| - 1], Span(block), d))
  }

  ghost predicate NoEmptySide(rules: seq<Rule>) { forall r :: r in rules ==> r.src != [] && r.dst != [] }

  /** What comes of the front of ws: a rewritten phrase or the first word; and how many words
      that takes. */
  function Front(ph: Phrases, ws: seq<Word>): (f: (seq<Word>, nat))
    requires NoEmptySide(ph.rules) && ws != []
    ensures f.0 != [] && 0 < f.1 <= |ws|
  {
    var m := FirstMatch(ph, ws, 0);
    if m.Some? then
      var r := ph.rules[m.value];
      (Rewritten(ph, r, ws[..|r.src|]), |r.src|)
    else ([ws[0]], 1)
  }

  function Stream(ph: Phrases, ws: seq<Word>): seq<Word>
    requires NoEmptySide(ph.rules)
    decreases |ws|
  {
    if ws == [] then [] else Front(ph, ws).0 + Stream(ph, ws[Front(ph, ws).1..])
  }

  // ---------------------------------------------------------------- the loops

  method FindPause(ws: seq<Word>, i: nat, n: nat) returns (paused: bool)
    requires i + n <= |ws|
    ensures paused == Paused(ws[i..], n)
  {
    var gap := 0;
    for k := 1 to if n == 0 then 1 else n
      invariant gap >= 0
      invariant gap > MAX_GAP <==> exists j :: 0 < j < k && ws[i..][j].start - ws[i..][j - 1].end > MAX_GAP
    {
      assert ws[i..][k] == ws[i + k] && ws[i..][k - 1] == ws[i + k - 1];
      var g := ws[i + k].start - ws[i + k - 1].end;
      if g > gap {
        gap := g;
      }
    }
    paused := gap > MAX_GAP;
  }

  method TryRule(ph: Phrases, r: Rule, ws: seq<Word>, i: nat) returns (matched: bool)
    requires i <= |ws|
    ensures matched == Matches(ph, r, ws[i..])
  {
    matched := false;
    if i + |r.src| <= |ws| {
      var paused := FindPause(ws, i, |r.src|);
      if !paused {
        matched := forall k :: 0 <= k < |r.src| ==> ph.clean(ws[i + k].text) == r.src[k];
        assert forall k :: 0 <= k < |r.src| ==> ws[i..][k] == ws[i + k];
      }
    }
  }

  method FindRule(ph: Phrases, ws: seq<Word>, i: nat) returns (m: Option<nat>)
    requires i <= |ws|
    ensures m == FirstMatch(ph, ws[i..], 0)
  {
    m := None;
    for k := 0 to |ph.rules|
      invariant m.None? && FirstMatch(ph, ws[i..], k) == FirstMatch(ph, ws[i..], 0)
    {
      var matched := TryRule(ph, ph.rules[k], ws, i);
      if matched {
        return Some(k);
      }
    }
  }

  method Rewrite(ph: Phrases, r: Rule, block: seq<Word>) returns (out: seq<Word>)
    requires block != [] && r.dst != []
    ensures out == Rewritten(ph, r, block)
  {
    var first, last := block[0], block[|block| - 1];
    var dur := if last.end - first.start < LEAST_SPAN then LEAST_SPAN else last.end - first.start;
    out := [];
    for d := 0 to |r.dst|
      invariant |out| == d
      invariant forall k :: 0 <= k < d ==> out[k] == NewWord(ph, r, first, last, dur, k)
    {
      out := out + [NewWord(ph, r, first, last, dur, d)];
    }
  }

  lemma {:induction false} StreamFrom(
    ph: Phrases, ws: seq<Word>, i: nat, done: seq<Word>, out: seq<Word>, n: nat)
    requires NoEmptySide(ph.rules) && i < |ws| && (out, n) == Front(ph, ws[i..])
    ensures 0 < n <= |ws| - i && done + Stream(ph, ws[i..]) == done + out + Stream(ph, ws[i + n..])
  {
    assert ws[i..][n..] == ws[i + n..];
  }

  method TakeFront(ph: Phrases, ws: seq<Word>, i: nat) returns (out: seq<Word>, n: nat)
    requires NoEmptySide(ph.rules) && i < |ws|
    ensures (out, n) == Front(ph, ws[i..])
  {
    var m := FindRule(ph, ws, i);
    if m.Some? {
      var r := ph.rules[m.value];
      n := |r.src|;
      assert ws[i..][..n] == ws[i..i + n];
      out := Rewrite(ph, r, ws[i..i + n]);
    } else {
      out, n := [ws[i]], 1;
    }
  }

  /** What comes of the words from i on up to `next`, behind what is done. */
  method TakeFrom(ph: Phrases, ws: seq<Word>, i: nat, ghost done: seq<Word>) returns (out: seq<Word>, next: nat)
    requires NoEmptySide(ph.rules) && i < |ws|
    ensures i < next <= |ws| && done + Stream(ph, ws[i..]) == done + out + Stream(ph, ws[next..])
  {
    var n: nat;
    out, n := TakeFront(ph, ws, i);
    StreamFrom(ph, ws, i, done, out, n);
    next := i + n;
  }

  method NormalizeStream(ph: Phrases, ws: seq<Word>) returns (done: seq<Word>)
    requires NoEmptySide(ph.rules)
    ensures done == Stream(ph, ws)
  {
    done := [];
    var i := 0;
    while i < |ws|
      invariant 0 <= i <= |ws|
      invariant done + Stream(ph, ws[i..]) == Stream(ph, ws)
    {
      var out, next := TakeFrom(ph, ws, i, done);
      done := done + out;
      i := next;
    }
  }

  // ---------------------------------------------------------------- what is rewritten

  /** The words begin with the rule's tokens, without a pause of more than 1.5 s inside. */
  ghost predicate BeginsWith(ph: Phrases, ws: seq<Word>, r: Rule) {
    && |r.src| <= |ws| && (forall k :: 0 <= k < |r.src| ==> ph.clean(ws[k].text) == r.src[k])
    && forall i, j :: 0 <= i < j < |r.src| && j == i + 1 ==> ws[j].start - ws[i].end <= 1500
  }

  /** Rule k is the first that the words begin with. */
  ghost predicate FirstRule(ph: Phrases, ws: seq<Word>, k: nat) {
    && k < |ph.rules| && BeginsWith(ph, ws, ph.rules[k])
    && forall j :: 0 <= j < k ==> !BeginsWith(ph, ws, ph.rules[j])
  }

  /** The texts of the rule, the last one with the ending of the last word replaced. */
  ghost predicate SaysRule(ph: Phrases, r: Rule, block: seq<Word>, out: seq<Word>) {
    && block != [] && |out| == |r.dst| && r.dst != []
    && (forall d :: 0 <= d < |out| - 1 ==> out[d].text == r.dst[d])
    && out[|out| - 1].text == ph.ending(r.dst[|out| - 1], block[|block| - 1].text)
  }

  lemma {:induction false} MatchesIff(ph: Phrases, r: Rule, ws: seq<Word>)
    ensures Matches(ph, r, ws) <==> BeginsWith(ph, ws, r)
  {
    if |r.src| <= |ws| {
      assert Paused(ws, |r.src|) <==>
        exists i, j :: 0 <= i < j < |r.src| && j == i + 1 && ws[j].start - ws[i].end > 1500 by {
        if Paused(ws, |r.src|) {
          var j :| 0 < j < |r.src| && ws[j].start - ws[j - 1].end > MAX_GAP;
          var i := j - 1;
          assert ws[j].start - ws[i].end > 1500;
        }
      }
    }
  }

  lemma {:induction false} FirstRuleFound(ph: Phrases, ws: seq<Word>)
    ensures var m := FirstMatch(ph, ws, 0);
      if m.Some? then FirstRule(ph, ws, m.value)
      else forall k :: 0 <= k < |ph.rules| ==> !BeginsWith(ph, ws, ph.rules[k])
  {
    var m := FirstMatch(ph, ws, 0);
    forall k | 0 <= k < |ph.rules| && (m.None? || k < m.value) ensures !BeginsWith(ph, ws, ph.rules[k]) {
      NoEarlierMatch(ph, ws, 0, k);
      MatchesIff(ph, ph.rules[k], ws);
    }
    if m.Some? {
      MatchesIff(ph, ph.rules[m.value], ws);
    }
  }

  /** At every place of the stream the first rule that the words begin with is applied to as many
      words as it has tokens; without one, a word is left as it is. */
  lemma {:induction false} FrontIsRewritten(ph: Phrases, ws: seq<Word>) returns (out: seq<Word>, n: nat)
    requires NoEmptySide(ph.rules) && ws != []
    ensures 0 < n <= |ws| && Stream(ph, ws) == out + Stream(ph, ws[n..])
    ensures (exists k: nat :: FirstRule(ph, ws, k) && n == |ph.rules[k].src|
                              && SaysRule(ph, ph.rules[k], ws[..n], out))
      || (n == 1 && out == [ws[0]] && forall k :: 0 <= k < |ph.rules| ==> !BeginsWith(ph, ws, ph.rules[k]))
  {
    out, n := Front(ph, ws).0, Front(ph, ws).1;
    FirstRuleFound(ph, ws);
    var m := FirstMatch(ph, ws, 0);
    if m.Some? {
      assert SaysRule(ph, ph.rules[m.value], ws[..n], out);
    }
  }

  // ---------------------------------------------------------------- time

  /** From `start` to exactly `end`, each word starting where the one before ended. */
  ghost predicate Tiles(out: seq<Word>, start: int, end: int) {
    && out != [] && out[0].start == start && out[|out| - 1].end == end
    && (forall i, j :: 0 <= i && j == i + 1 && j < |out| ==> out[i].end == out[j].start)
    && (forall i :: 0 <= i < |out| ==> out[i].start <= out[i].end)
  }

  /** The new words of a phrase tile its block exactly, padded to 50 ms. */
  lemma {:induction false} RewrittenTiles(ph: Phrases, r: Rule, block: seq<Word>)
    requires SoundPhrases(ph) && r in ph.rules && block != []
    ensures var start, end := block[0].start, block[|block| - 1].end;
      Tiles(Rewritten(ph, r, block), start, if end - start < 50 then start + 50 else end)
    ensures Labelled(Rewritten(ph, r, block), block[0].speaker)
  {
    var out, n, dur := Rewritten(ph, r, block), |r.dst|, Span(block);
    assert ph.share(dur, 0, n) == 0 && ph.share(dur, n, n) == dur;
    forall i | 0 <= i < n ensures out[i].start <= out[i].end {
      assert ph.share(dur, i, n) <= ph.share(dur, i + 1, n);
    }
  }

  /** If a phrase is rewritten at the front, it ends, padding included, before the word after it
      starts. */
  predicate FrontFits(ph: Phrases, ws: seq<Word>)
    requires NoEmptySide(ph.rules) && ws != []
  {
    var n := Front(ph, ws).1;
    FirstMatch(ph, ws, 0).Some? && n < |ws| ==> ws[0].start + Span(ws[..n]) <= ws[n].start
  }

  predicate PhrasesFit(ph: Phrases, ws: seq<Word>)
    requires NoEmptySide(ph.rules)
    decreases |ws|
  {
    ws == [] || (FrontFits(ph, ws) && PhrasesFit(ph, ws[Front(ph, ws).1..]))
  }

  lemma {:induction false} NoOverlapConcat(a: seq<Word>, b: seq<Word>)
    requires a != []
    ensures NoOverlap(a + b) <==> NoOverlap(a) && NoOverlap(b) && (b != [] ==> a[|a| - 1].end <= b[0].start)
    decreases |a|
  {
    assert a + b == [a[0]] + (a[1..] + b) && a == [a[0]] + a[1..];
    NoOverlapCons(a[0], a[1..] + b);
    NoOverlapCons(a[0], a[1..]);
    if |a| > 1 {
      NoOverlapConcat(a[1..], b);
    } else {
      assert a[1..] + b == b;
    }
  }

  lemma {:induction false} FrontInTime(ph: Phrases, ws: seq<Word>)
    requires SoundPhrases(ph) && ws != [] && NoOverlap(ws)
    ensures var f := Front(ph, ws);
      && NoOverlap(f.0) && f.0[0].start == ws[0].start
      && (f.1 < |ws| ==> (f.0[|f.0| - 1].end <= ws[f.1].start <==> FrontFits(ph, ws)))
  {
    var m := FirstMatch(ph, ws, 0);
    if m.Some? {
      var r := ph.rules[m.value];
      RewrittenTiles(ph, r, ws[..|r.src|]);
    } else if |ws| > 1 {
      NoOverlapDrop(ws, 1);
    }
  }

  lemma {:induction false} StreamStarts(ph: Phrases, ws: seq<Word>)
    requires SoundPhrases(ph)
    ensures (Stream(ph, ws) == []) == (ws == [])
    ensures ws != [] ==> Stream(ph, ws)[0].start == ws[0].start
  {
    if ws != [] {
      var m := FirstMatch(ph, ws, 0);
      if m.Some? {
        RewrittenTiles(ph, ph.rules[m.value], ws[..|ph.rules[m.value].src|]);
      }
    }
  }

  /** A stream without overlaps stays without overlaps exactly when its phrases fit. */
  lemma {:induction false} NoOverlapIff(ph: Phrases, ws: seq<Word>)
    requires SoundPhrases(ph) && NoOverlap(ws)
    ensures NoOverlap(Stream(ph, ws)) <==> PhrasesFit(ph, ws)
    decreases |ws|
  {
    if ws != [] {
      var n := Front(ph, ws).1;
      FrontInTime(ph, ws);
      NoOverlapConcat(Front(ph, ws).0, Stream(ph, ws[n..]));
      if n < |ws| {
        NoOverlapDrop(ws, n);
        StreamStarts(ph, ws[n..]);
        NoOverlapIff(ph, ws[n..]);
      }
    }
  }

  /** Every matched phrase lasts at least 50 ms. */
  predicate LongPhrases(ph: Phrases, ws: seq<Word>)
    requires NoEmptySide(ph.rules)
    decreases |ws|
  {
    ws == [] ||
    var n := Front(ph, ws).1;
    (FirstMatch(ph, ws, 0).Some? ==> ws[n - 1].end - ws[0].start >= LEAST_SPAN) && LongPhrases(ph, ws[n..])
  }

  lemma {:induction false} LongPhrasesFit(ph: Phrases, ws: seq<Word>)
    requires SoundPhrases(ph) && NoOverlap(ws) && LongPhrases(ph, ws)
    ensures PhrasesFit(ph, ws)
    decreases |ws|
  {
    if ws != [] {
      var n := Front(ph, ws).1;
      if n < |ws| {
        NoOverlapDrop(ws, n);
        LongPhrasesFit(ph, ws[n..]);
      }
    }
  }

  lemma {:induction false} StreamOneSpeaker(ph: Phrases, ws: seq<Word>, s: int)
    requires SoundPhrases(ph) && OneSpeaker(ws, s)
    ensures OneSpeaker(Stream(ph, ws), s)
    decreases |ws|
  {
    if ws != [] {
      var f := Front(ph, ws);
      assert OneSpeaker(f.0, s);
      StreamOneSpeaker(ph, ws[f.1..], s);
    }
  }

  lemma {:induction false} FrontEnds(ph: Phrases, ws: seq<Word>)
    requires SoundPhrases(ph) && ws != [] && Front(ph, ws).1 == |ws|
    ensures var out := Front(ph, ws).0;
      && out[|out| - 1].end >= ws[|ws| - 1].end
      && (FirstMatch(ph, ws, 0).None? || ws[|ws| - 1].end - ws[0].start >= LEAST_SPAN ==>
            out[|out| - 1].end == ws[|ws| - 1].end)
  {
    var m := FirstMatch(ph, ws, 0);
    if m.Some? {
      assert ws[..|ws|] == ws;
      RewrittenTiles(ph, ph.rules[m.value], ws);
    }
  }

  /** The stream ends no earlier than before, and exactly then if its phrases are long enough. */
  lemma {:induction false} StreamEnds(ph: Phrases, ws: seq<Word>) returns (r: seq<Word>)
    requires SoundPhrases(ph) && ws != []
    ensures r == Stream(ph, ws) && r != [] && r[|r| - 1].end >= ws[|ws| - 1].end
    ensures LongPhrases(ph, ws) ==> r[|r| - 1].end == ws[|ws| - 1].end
    decreases |ws|
  {
    var f := Front(ph, ws);
    var rest := ws[f.1..];
    if rest == [] {
      FrontEnds(ph, ws);
      r := f.0;
    } else {
      r := StreamEnds(ph, rest);
      r := f.0 + r;
    }
  }

  // ---------------------------------------------------------------- a table and a rounding of this kind

  /** Rounding to the nearest millisecond is sound with any table whose rules are not empty. */
  lemma {:induction false} NearestIsSound(ph: Phrases)
    requires NoEmptySide(ph.rules) && ph.share == Nearest
    ensures SoundPhrases(ph)
  {
    NearestSharesOut();
  }

  // ---------------------------------------------------------------- words can come to overlap

  /** One rule of the table. */
  function Writ(): Rule { Rule(["start", "the", "writ"], ["serve", "the", "Writ"]) }

  /** The phrase takes 20 ms and the next word follows at once. */
  function QuickWrit(): seq<Word> {
    [Word("start", 0, 8, 0), Word("the", 8, 14, 0), Word("writ", 14, 20, 0), Word("now", 20, 300, 0)]
  }

  /** "serve the Writ" is stretched to 50 ms and runs into "now". */
  lemma {:induction false} QuickWritOverlaps(ph: Phrases)
    requires ph.rules == [Writ()] && ph.share == Nearest
    requires ph.clean("start") == "start" && ph.clean("the") == "the" && ph.clean("writ") == "writ"
    ensures NoOverlap(QuickWrit()) && !NoOverlap(Stream(ph, QuickWrit()))
  {
    var ws := QuickWrit();
    NearestIsSound(ph);
    assert Matches(ph, ph.rules[0], ws);
    assert FirstMatch(ph, ws, 0) == Some(0);
    assert !FrontFits(ph, ws);
    NoOverlapIff(ph, ws);
  }
}
