module WordAttribution {
  /**
    Which speaker said a word: the turn that overlaps it most specifically, else the nearest turn
    within reach, else whoever spoke before. Words are updated in place.
   */
  import opened Options
  import opened TurnMerging

  /** A word on its way through attribution; `direct` says that a turn overlaps it. */
  datatype Said = Said(text: string, start: int, end: int, speaker: Option<int>, direct: bool)

  const REACH := 850
  const LEAST_TURN := 50
  const BACKWARD := 100

  /** The end used for a word; one that ends before it starts counts as a tenth of a second. */
  function EndOf(w: Said): (r: int)
    ensures r >= w.start && (w.end >= w.start ==> r == w.end) && (w.end < w.start ==> r == w.start + 100)
  {
    if w.end < w.start then w.start + BACKWARD else w.end
  }

  function Overlap(w: Said, t: Turn): (r: int)
    ensures r >= 0
    ensures r > 0 <==> w.start < EndOf(w) && t.start < t.end && w.start < t.end && t.start < EndOf(w)
  {
    var lo := if w.start < t.start then t.start else w.start;
    var hi := if EndOf(w) < t.end then EndOf(w) else t.end;
    if hi > lo then hi - lo else 0
  }

  /** How long a turn is taken to last, at least 50 ms. */
  function Lasting(t: Turn): (r: int)
    ensures r >= 50 && r >= t.end - t.start && (r == 50 || r == t.end - t.start)
  {
    if t.end - t.start < LEAST_TURN then LEAST_TURN else t.end - t.start
  }

  /** The diarizer's weight is the length to the power 0.15; any positive weights will do. */
  ghost predicate PositiveWeights(weight: int -> real) {
    forall d :: d >= LEAST_TURN ==> weight(d) > 0.0
  }

  function Times(n: int, x: real): real { n as real * x }

  function Quotient(n: int, x: real): (r: real)
    requires x > 0.0
    ensures n > 0 ==> r > 0.0
  {
    n as real / x
  }

  function WeightOf(weight: int -> real, t: Turn): (r: real)
    ensures PositiveWeights(weight) ==> r > 0.0
  {
    weight(Lasting(t))
  }

  /** Overlap divided by the weight of the turn's length: short interjections win over long
      background turns. */
  function Score(w: Said, t: Turn, weight: int -> real): (r: real)
    requires PositiveWeights(weight)
    ensures Overlap(w, t) > 0 ==> r > 0.0
  {
    Quotient(Overlap(w, t), WeightOf(weight, t))
  }

  /** The first of the best-scoring turns that overlap w, among the first n. */
  function BestTurn(w: Said, ts: seq<Turn>, weight: int -> real, n: nat): (r: Option<nat>)
    requires n <= |ts| && PositiveWeights(weight)
    ensures r.Some? ==> r.value < n && Overlap(w, ts[r.value]) > 0
  {
    if n == 0 then None
    else
      var b := BestTurn(w, ts, weight, n - 1);
      if Overlap(w, ts[n - 1]) > 0 && (b.None? || Score(w, ts[n - 1], weight) > Score(w, ts[b.value], weight))
      then Some(n - 1) else b
  }

  function Distance(w: Said, t: Turn): (r: int)
    requires t.start <= t.end
    ensures r >= 0
  {
    if EndOf(w) <= t.start then t.start - EndOf(w)
    else if w.start >= t.end then w.start - t.end
    else 0
  }

  /** The first of the nearest among the first n turns. */
  function NearestTurn(w: Said, ts: seq<Turn>, n: nat): (r: Option<nat>)
    requires n <= |ts| && AllPositive(ts)
    ensures r.Some? ==> r.value < n
  {
    if n == 0 then None
    else
      var b := NearestTurn(w, ts, n - 1);
      if b.None? || Distance(w, ts[n - 1]) < Distance(w, ts[b.value]) then Some(n - 1) else b
  }

  /** The speaker found for w on its own, and whether a turn overlaps it. */
  function Choice(w: Said, ts: seq<Turn>, weight: int -> real): Said
    requires AllPositive(ts) && PositiveWeights(weight)
  {
    var b, c := BestTurn(w, ts, weight, |ts|), NearestTurn(w, ts, |ts|);
    if b.Some? then w.(speaker := Some(ts[b.value].speaker), direct := true)
    else if c.Some? && Distance(w, ts[c.value]) <= REACH then w.(speaker := Some(ts[c.value].speaker), direct := false)
    else w.(speaker := None, direct := false)
  }

  method FindBest(w: Said, ts: seq<Turn>, weight: int -> real) returns (best: Option<nat>)
    requires PositiveWeights(weight)
    ensures best == BestTurn(w, ts, weight, |ts|)
  {
    best := None;
    var bestScore := -1.0;
    for n := 0 to |ts|
      invariant best == BestTurn(w, ts, weight, n)
      invariant bestScore == if best.None? then -1.0 else Score(w, ts[best.value], weight)
    {
      if Overlap(w, ts[n]) > 0 {
        var score := Score(w, ts[n], weight);
        if score > bestScore {
          best, bestScore := Some(n), score;
        }
      }
    }
  }

  method FindNearest(w: Said, ts: seq<Turn>) returns (nearest: Option<nat>)
    requires AllPositive(ts)
    ensures nearest == NearestTurn(w, ts, |ts|)
  {
    nearest := None;
    for n := 0 to |ts|
      invariant nearest == NearestTurn(w, ts, n)
    {
      if nearest.None? || Distance(w, ts[n]) < Distance(w, ts[nearest.value]) {
        nearest := Some(n);
      }
    }
  }

  /** Step 5, in place: every word is judged by itself. */
  method ChooseSpeakers(ws: array<Said>, ts: seq<Turn>, weight: int -> real)
    requires AllPositive(ts) && PositiveWeights(weight)
    modifies ws
    ensures forall i :: 0 <= i < ws.Length ==> ws[i] == Choice(old(ws[i]), ts, weight)
  {
    for i := 0 to ws.Length
      invariant forall k :: 0 <= k < i ==> ws[k] == Choice(old(ws[k]), ts, weight)
      invariant forall k :: i <= k < ws.Length ==> ws[k] == old(ws[k])
    {
      var w := ws[i];
      var best := FindBest(w, ts, weight);
      if best.Some? {
        ws[i] := w.(speaker := Some(ts[best.value].speaker), direct := true);
      } else {
        var near := FindNearest(w, ts);
        if near.Some? && Distance(w, ts[near.value]) <= REACH {
          ws[i] := w.(speaker := Some(ts[near.value].speaker), direct := false);
        } else {
          ws[i] := w.(speaker := None, direct := false);
        }
      }
    }
  }

  /** The speaker of the last of the first n words that has one. */
  function LastKnown(ws: seq<Said>, first: int, n: nat): int
    requires n <= |ws|
  {
    if n == 0 then first
    else if ws[n - 1].speaker.Some? then ws[n - 1].speaker.value
    else LastKnown(ws, first, n - 1)
  }

  function Filled(ws: seq<Said>, first: int): (r: seq<Said>)
    ensures |r| == |ws|
    ensures forall i :: 0 <= i < |ws| ==> r[i] == ws[i].(speaker := Some(LastKnown(ws, first, i + 1)))
  {
    seq(|ws|, i requires 0 <= i < |ws| => ws[i].(speaker := Some(LastKnown(ws, first, i + 1))))
  }

  /** Step 6, in place: a word without a speaker continues the one before. */
  method FillSpeakers(ws: array<Said>, first: int)
    modifies ws
    ensures ws[..] == Filled(old(ws[..]), first)
  {
    var last := first;
    ghost var was := ws[..];
    for i := 0 to ws.Length
      invariant last == LastKnown(was, first, i)
      invariant forall k :: 0 <= k < i ==> ws[k] == Filled(was, first)[k]
      invariant forall k :: i <= k < ws.Length ==> ws[k] == was[k]
    {
      if ws[i].speaker.Some? {
        last := ws[i].speaker.value;
      } else {
        ws[i] := ws[i].(speaker := Some(last));
      }
    }
  }

  // ---------------------------------------------------------------- what the choice means

  /** The instants from lo on and before hi. */
  ghost function Instants(lo: int, hi: int): (r: set<int>)
    ensures forall x :: x in r <==> lo <= x < hi
    decreases hi - lo
  {
    if lo < hi then Instants(lo, hi - 1) + {hi - 1} else {}
  }

  lemma {:induction false} CountInstants(lo: int, hi: int)
    ensures |Instants(lo, hi)| == if lo < hi then hi - lo else 0
    decreases hi - lo
  {
    if lo < hi {
      CountInstants(lo, hi - 1);
    }
  }

  /** The overlap counts the instants at which both the word and the turn last. */
  lemma {:induction false} OverlapIsCommonTime(w: Said, t: Turn)
    ensures Overlap(w, t) == |Instants(w.start, EndOf(w)) * Instants(t.start, t.end)|
  {
    var lo := if w.start < t.start then t.start else w.start;
    var hi := if EndOf(w) < t.end then EndOf(w) else t.end;
    CountInstants(lo, hi);
    assert Instants(lo, hi) == Instants(w.start, EndOf(w)) * Instants(t.start, t.end);
  }

  function Gap(x: int, y: int): int { if x < y then y - x else x - y }

  ghost predicate Within(x: int, lo: int, hi: int) { lo <= x <= hi }

  /** The distance is the least between an instant of the word and one of the turn. */
  lemma {:induction false} DistanceIsLeast(w: Said, t: Turn)
    requires t.start <= t.end
    ensures forall x, y :: Within(x, w.start, EndOf(w)) && Within(y, t.start, t.end) ==> Distance(w, t) <= Gap(x, y)
    ensures exists x, y :: Within(x, w.start, EndOf(w)) && Within(y, t.start, t.end) && Distance(w, t) == Gap(x, y)
  {
    var x := if EndOf(w) <= t.start then EndOf(w) else if w.start < t.start then t.start else w.start;
    var y := if EndOf(w) <= t.start then t.start else if w.start >= t.end then t.end else x;
    assert Within(x, w.start, EndOf(w)) && Within(y, t.start, t.end) && Distance(w, t) == Gap(x, y);
  }

  /** a suits w at least as well as b: more overlap for its weight. */
  ghost predicate Suits(w: Said, a: Turn, b: Turn, weight: int -> real) {
    Times(Overlap(w, b), WeightOf(weight, a)) <= Times(Overlap(w, a), WeightOf(weight, b))
  }

  lemma {:induction false} QuotientOrder(a: int, b: real, c: int, d: real)
    requires b > 0.0 && d > 0.0
    ensures Quotient(a, b) <= Quotient(c, d) <==> Times(a, d) <= Times(c, b)
  {
    var x, y := Quotient(a, b), Quotient(c, d);
    assert a as real == x * b && c as real == y * d;
    assert Times(a, d) == x * (b * d) && Times(c, b) == y * (b * d);
    ScaledOrder(x, y, b * d);
  }

  lemma {:induction false} ScaledOrder(x: real, y: real, k: real)
    requires k > 0.0
    ensures x <= y <==> x * k <= y * k
  {
    if x <= y {
      assert (y - x) * k >= 0.0;
    } else {
      assert (x - y) * k > 0.0;
    }
  }

  lemma {:induction false} TimesOrder(n: int, x: real, y: real)
    requires n > 0
    ensures x <= y <==> Times(n, x) <= Times(n, y)
  {
    ScaledOrder(x, y, n as real);
  }

  lemma {:induction false} ScoreOrder(w: Said, a: Turn, b: Turn, weight: int -> real)
    requires PositiveWeights(weight)
    ensures Score(w, b, weight) <= Score(w, a, weight) <==> Suits(w, a, b, weight)
  {
    QuotientOrder(Overlap(w, b), WeightOf(weight, b), Overlap(w, a), WeightOf(weight, a));
  }

  /** k overlaps w, nothing overlapping suits it better, and nothing before it suits it as well. */
  ghost predicate FirstBest(w: Said, ts: seq<Turn>, weight: int -> real, n: nat, k: nat)
    requires n <= |ts|
  {
    && k < n && Overlap(w, ts[k]) > 0
    && (forall j :: 0 <= j < n && Overlap(w, ts[j]) > 0 ==> Suits(w, ts[k], ts[j], weight))
    && (forall j :: 0 <= j < k && Overlap(w, ts[j]) > 0 ==> !Suits(w, ts[j], ts[k], weight))
  }

  /** When weights grow with the length: of two turns that overlap a word equally the longer one
      is never taken, so a short interjection wins over a long background turn. */
  lemma {:induction false} ShorterTurnWins(w: Said, ts: seq<Turn>, weight: int -> real, k: nat, j: nat)
    requires PositiveWeights(weight) && forall c, d :: 50 <= c < d ==> weight(c) < weight(d)
    requires FirstBest(w, ts, weight, |ts|, k) && j < |ts| && Overlap(w, ts[j]) == Overlap(w, ts[k])
    ensures Lasting(ts[k]) <= Lasting(ts[j])
  {
    assert Suits(w, ts[k], ts[j], weight);
    TimesOrder(Overlap(w, ts[k]), WeightOf(weight, ts[k]), WeightOf(weight, ts[j]));
  }

  /** k overlaps w, nothing overlapping scores higher, and nothing before it scores as high. */
  ghost predicate FirstHighest(w: Said, ts: seq<Turn>, weight: int -> real, n: nat, k: nat)
    requires n <= |ts| && PositiveWeights(weight)
  {
    && k < n && Overlap(w, ts[k]) > 0
    && (forall j :: 0 <= j < n && Overlap(w, ts[j]) > 0 ==> Score(w, ts[j], weight) <= Score(w, ts[k], weight))
    && (forall j :: 0 <= j < k && Overlap(w, ts[j]) > 0 ==> Score(w, ts[j], weight) < Score(w, ts[k], weight))
  }

  ghost predicate Overlapped(w: Said, ts: seq<Turn>, n: nat)
    requires n <= |ts|
  {
    exists j :: 0 <= j < n && Overlap(w, ts[j]) > 0
  }

  lemma {:induction false} BestTurnIsHighest(w: Said, ts: seq<Turn>, weight: int -> real, n: nat)
    requires n <= |ts| && PositiveWeights(weight)
    ensures BestTurn(w, ts, weight, n).Some? <==> Overlapped(w, ts, n)
    ensures BestTurn(w, ts, weight, n).Some? ==> FirstHighest(w, ts, weight, n, BestTurn(w, ts, weight, n).value)
  {
    if n > 0 {
      BestTurnIsHighest(w, ts, weight, n - 1);
    }
  }

  lemma {:induction false} BestTurnIsFirstBest(w: Said, ts: seq<Turn>, weight: int -> real, n: nat)
    requires n <= |ts| && PositiveWeights(weight)
    ensures BestTurn(w, ts, weight, n).Some? <==> Overlapped(w, ts, n)
    ensures BestTurn(w, ts, weight, n).Some? ==> FirstBest(w, ts, weight, n, BestTurn(w, ts, weight, n).value)
  {
    BestTurnIsHighest(w, ts, weight, n);
    var b := BestTurn(w, ts, weight, n);
    if b.Some? {
      var k := b.value;
      forall j | 0 <= j < n && Overlap(w, ts[j]) > 0
        ensures Suits(w, ts[k], ts[j], weight) && (j < k ==> !Suits(w, ts[j], ts[k], weight))
      {
        ScoreOrder(w, ts[k], ts[j], weight);
        ScoreOrder(w, ts[j], ts[k], weight);
      }
    }
  }

  /** k is nearest to w, and nothing before it is as near. */
  ghost predicate FirstNearest(w: Said, ts: seq<Turn>, n: nat, k: nat)
    requires n <= |ts| && AllPositive(ts)
  {
    && k < n
    && (forall j :: 0 <= j < n ==> Distance(w, ts[k]) <= Distance(w, ts[j]))
    && (forall j :: 0 <= j < k ==> Distance(w, ts[k]) < Distance(w, ts[j]))
  }

  lemma {:induction false} NearestTurnIsFirstNearest(w: Said, ts: seq<Turn>, n: nat)
    requires n <= |ts| && AllPositive(ts)
    ensures NearestTurn(w, ts, n).Some? <==> n > 0
    ensures n > 0 ==> FirstNearest(w, ts, n, NearestTurn(w, ts, n).value)
  {
    if n > 0 {
      NearestTurnIsFirstNearest(w, ts, n - 1);
    }
  }

  ghost predicate InReach(w: Said, ts: seq<Turn>)
    requires AllPositive(ts)
  {
    exists j :: 0 <= j < |ts| && Distance(w, ts[j]) <= 850
  }

  function Chosen(ws: seq<Said>, ts: seq<Turn>, weight: int -> real): (r: seq<Said>)
    requires AllPositive(ts) && PositiveWeights(weight)
    ensures |r| == |ws| && forall i :: 0 <= i < |ws| ==> r[i] == Choice(ws[i], ts, weight)
  {
    seq(|ws|, i requires 0 <= i < |ws| => Choice(ws[i], ts, weight))
  }

  /** The speaker of word i once steps 5 and 6 are done. */
  function SpeakerOf(ws: seq<Said>, ts: seq<Turn>, weight: int -> real, first: int, i: nat): int
    requires AllPositive(ts) && PositiveWeights(weight) && i < |ws|
  {
    Filled(Chosen(ws, ts, weight), first)[i].speaker.value
  }

  /** Attribution is total and optimal: an overlapped word goes to the turn that suits it best, the first of such, a
      word near a turn to the first nearest one, any other to the speaker of the word before. */
  lemma {:induction false} AttributionIsOptimal(ws: seq<Said>, ts: seq<Turn>, weight: int -> real, first: int, i: nat)
    requires AllPositive(ts) && PositiveWeights(weight) && i < |ws|
    ensures Chosen(ws, ts, weight)[i].direct <==> Overlapped(ws[i], ts, |ts|)
    ensures Overlapped(ws[i], ts, |ts|) ==>
      exists k: nat :: FirstBest(ws[i], ts, weight, |ts|, k) && SpeakerOf(ws, ts, weight, first, i) == ts[k].speaker
    ensures !Overlapped(ws[i], ts, |ts|) && InReach(ws[i], ts) ==>
      exists k: nat :: FirstNearest(ws[i], ts, |ts|, k) && SpeakerOf(ws, ts, weight, first, i) == ts[k].speaker
    ensures !Overlapped(ws[i], ts, |ts|) && !InReach(ws[i], ts) ==>
      SpeakerOf(ws, ts, weight, first, i) == if i == 0 then first else SpeakerOf(ws, ts, weight, first, i - 1)
  {
    var w := ws[i];
    BestTurnIsFirstBest(w, ts, weight, |ts|);
    NearestTurnIsFirstNearest(w, ts, |ts|);
    var c := Chosen(ws, ts, weight);
    assert LastKnown(c, first, i + 1) == if c[i].speaker.Some? then c[i].speaker.value else LastKnown(c, first, i);
  }
}
