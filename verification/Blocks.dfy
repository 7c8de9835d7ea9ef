/**
  Word streams in time, and streams whose words stand for consecutive blocks of another one.
 */
module Blocks {
  import opened Words

  /** w stands for a block: it runs from the first start to the last end under the first label,
      and a block of one word is that word. */
  ghost predicate Envelope(block: seq<Word>, w: Word)
    requires block != []
  {
    && w.start == block[0].start && w.end == block[|block| - 1].end && w.speaker == block[0].speaker
    && (|block| == 1 ==> w == block[0])
  }

  /** The words of r stand, in order, for consecutive blocks that make up ws. */
  ghost predicate Enveloped(ws: seq<Word>, r: seq<Word>) {
    if r == [] then ws == []
    else exists n :: 0 < n <= |ws| && Envelope(ws[..n], r[0]) && Enveloped(ws[n..], r[1..])
  }

  lemma {:induction false} EnvelopedCons(ws: seq<Word>, r: seq<Word>, n: nat, w: Word)
    requires 0 < n <= |ws| && Envelope(ws[..n], w) && Enveloped(ws[n..], r)
    ensures Enveloped(ws, [w] + r)
  {
    assert ([w] + r)[1..] == r;
  }

  /** No word ends after the next one starts. */
  ghost predicate NoOverlap(ws: seq<Word>) {
    forall i, j :: 0 <= i && j == i + 1 && j < |ws| ==> ws[i].end <= ws[j].start
  }

  ghost predicate OneSpeaker(ws: seq<Word>, s: int) { Labelled(ws, s) }

  lemma {:induction false} NoOverlapCons(w: Word, ws: seq<Word>)
    ensures NoOverlap([w] + ws) <==> NoOverlap(ws) && (ws != [] ==> w.end <= ws[0].start)
  {
    var r := [w] + ws;
    if NoOverlap(r) {
      forall i, j | 0 <= i && j == i + 1 && j < |ws| ensures ws[i].end <= ws[j].start {
        assert r[i + 1] == ws[i] && r[j + 1] == ws[j];
      }
      assert ws != [] ==> r[0].end <= r[1].start;
    }
  }

  lemma {:induction false} NoOverlapDrop(ws: seq<Word>, n: nat)
    requires NoOverlap(ws) && 0 < n < |ws|
    ensures NoOverlap(ws[n..]) && ws[n - 1].end <= ws[n].start
  {
    var r := ws[n..];
    forall i, j | 0 <= i && j == i + 1 && j < |r| ensures r[i].end <= r[j].start {
      assert r[i] == ws[n + i] && r[j] == ws[n + j];
    }
  }

  lemma {:induction false} EnvelopedEnds(ws: seq<Word>, r: seq<Word>)
    requires Enveloped(ws, r)
    ensures (ws == []) == (r == []) && |r| <= |ws|
    ensures ws != [] ==> r[0].start == ws[0].start && r[|r| - 1].end == ws[|ws| - 1].end
    decreases |r|
  {
    if r != [] {
      var n :| 0 < n <= |ws| && Envelope(ws[..n], r[0]) && Enveloped(ws[n..], r[1..]);
      EnvelopedEnds(ws[n..], r[1..]);
    }
  }

  /** The first word of r stands for the first n words of ws, which end before the rest. */
  lemma {:induction false} FirstBlockFits(ws: seq<Word>, r: seq<Word>, n: nat)
    requires r != [] && 0 < n <= |ws| && Envelope(ws[..n], r[0]) && Enveloped(ws[n..], r[1..]) && NoOverlap(ws)
    ensures n < |ws| ==> NoOverlap(ws[n..])
    ensures r[1..] != [] ==> n < |ws| && r[0].end <= r[1..][0].start
  {
    EnvelopedEnds(ws[n..], r[1..]);
    if n < |ws| {
      NoOverlapDrop(ws, n);
    }
  }

  lemma {:induction false} EnvelopedNoOverlap(ws: seq<Word>, r: seq<Word>)
    requires Enveloped(ws, r) && NoOverlap(ws)
    ensures NoOverlap(r)
    decreases |r|
  {
    if r != [] {
      var n :| 0 < n <= |ws| && Envelope(ws[..n], r[0]) && Enveloped(ws[n..], r[1..]);
      FirstBlockFits(ws, r, n);
      if n < |ws| {
        EnvelopedNoOverlap(ws[n..], r[1..]);
      }
      NoOverlapCons(r[0], r[1..]);
      assert r == [r[0]] + r[1..];
    }
  }

  /** A word of r carries the label of some word of ws. */
  lemma {:induction false} EnvelopedLabels(ws: seq<Word>, r: seq<Word>, k: nat) returns (i: nat)
    requires Enveloped(ws, r) && k < |r|
    ensures i < |ws| && r[k].speaker == ws[i].speaker
    decreases |r|
  {
    var n :| 0 < n <= |ws| && Envelope(ws[..n], r[0]) && Enveloped(ws[n..], r[1..]);
    if k == 0 {
      i := 0;
    } else {
      i := EnvelopedLabels(ws[n..], r[1..], k - 1);
      i := n + i;
    }
  }

  lemma {:induction false} EnvelopedOneSpeaker(ws: seq<Word>, r: seq<Word>, s: int)
    requires Enveloped(ws, r) && OneSpeaker(ws, s)
    ensures OneSpeaker(r, s)
  {
    forall k | 0 <= k < |r| ensures r[k].speaker == s {
      var i := EnvelopedLabels(ws, r, k);
    }
  }
}
