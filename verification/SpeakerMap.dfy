module SpeakerMap {
  /**
    Chunked diarization, second part: the speakers of a chunk are matched greedily to the
    speakers heard so far, and unmatched ones get a new number.
   */

  /** The unused global speaker with the highest score above `least`, the first of equals. */
  function Best(l: nat, globals: seq<int>, used: set<int>, score: (nat, int) -> real, least: real): (r: (int, real))
    ensures r.1 >= least
    ensures r.1 > least ==> r.0 in globals && r.0 !in used && r.1 == score(l, r.0)
    ensures forall g :: g in globals && g !in used ==> score(l, g) <= r.1
  {
    if globals == [] then (0, least)
    else
      var n := |globals| - 1;
      var b := Best(l, globals[..n], used, score, least);
      assert forall g :: g in globals <==> g in globals[..n] || g == globals[n];
      if globals[n] !in used && score(l, globals[n]) > b.1 then (globals[n], score(l, globals[n])) else b
  }

  const ACCEPT := 0.45

  /** Labels given so far, in the order of the local speakers, and the global ones taken. */
  datatype Mapping = Mapping(labels: seq<int>, used: set<int>)

  /** The next local speaker takes its best match, or the count of global speakers plus the
      count of local ones already mapped as a new number. */
  function MapNext(m: Mapping, globals: seq<int>, score: (nat, int) -> real): Mapping {
    var best := Best(|m.labels|, globals, m.used, score, -1.0);
    if best.1 >= ACCEPT then Mapping(m.labels + [best.0], m.used + {best.0})
    else Mapping(m.labels + [|globals| + |m.labels|], m.used)
  }

  function MapSpeakers(count: nat, globals: seq<int>, score: (nat, int) -> real): (m: Mapping)
    ensures |m.labels| == count
  {
    if count == 0 then Mapping([], {}) else MapNext(MapSpeakers(count - 1, globals, score), globals, score)
  }

  method FindBest(l: nat, globals: seq<int>, used: set<int>, score: (nat, int) -> real)
    returns (best: int, bestScore: real)
    ensures (best, bestScore) == Best(l, globals, used, score, -1.0)
  {
    best, bestScore := 0, -1.0;
    for k := 0 to |globals|
      invariant (best, bestScore) == Best(l, globals[..k], used, score, -1.0)
    {
      assert globals[..k + 1][..k] == globals[..k];
      if globals[k] !in used && score(l, globals[k]) > bestScore {
        best, bestScore := globals[k], score(l, globals[k]);
      }
    }
    assert globals[..|globals|] == globals;
  }

  method BuildSpeakerMap(count: nat, globals: seq<int>, score: (nat, int) -> real) returns (m: Mapping)
    ensures m == MapSpeakers(count, globals, score)
  {
    m := Mapping([], {});
    for i := 0 to count
      invariant m == MapSpeakers(i, globals, score)
    {
      var best, bestScore := FindBest(i, globals, m.used, score);
      if bestScore >= ACCEPT {
        m := Mapping(m.labels + [best], m.used + {best});
      } else {
        m := Mapping(m.labels + [|globals| + |m.labels|], m.used);
      }
    }
  }

  // ---------------------------------------------------------------- whom a speaker is matched to

  /** Global speaker g is free and scores at least 0.45. */
  ghost predicate Acceptable(l: nat, globals: seq<int>, used: set<int>, score: (nat, int) -> real, g: int) {
    g in globals && g !in used && score(l, g) >= 0.45
  }

  /** The k-th global speaker is acceptable; no free one scores higher, none before it as high. */
  ghost predicate IsMatch(l: nat, globals: seq<int>, used: set<int>, score: (nat, int) -> real, k: nat) {
    && k < |globals| && Acceptable(l, globals, used, score, globals[k])
    && forall j :: 0 <= j < |globals| && globals[j] !in used ==>
         score(l, globals[j]) <= score(l, globals[k]) && (j < k ==> score(l, globals[j]) < score(l, globals[k]))
  }

  lemma {:induction false} FirstOfEquals(l: nat, globals: seq<int>, used: set<int>, score: (nat, int) -> real)
    returns (k: nat)
    requires Best(l, globals, used, score, -1.0).1 > -1.0
    ensures k < |globals| && globals[k] == Best(l, globals, used, score, -1.0).0
    ensures forall j :: 0 <= j < k && globals[j] !in used ==>
      score(l, globals[j]) < Best(l, globals, used, score, -1.0).1
  {
    var n := |globals| - 1;
    var before := Best(l, globals[..n], used, score, -1.0);
    if Best(l, globals, used, score, -1.0) == before {
      k := FirstOfEquals(l, globals[..n], used, score);
    } else {
      k := n;
      assert forall j :: 0 <= j < n ==> globals[j] in globals[..n];
    }
  }

  lemma {:induction false} MatchFound(l: nat, globals: seq<int>, used: set<int>, score: (nat, int) -> real)
    returns (k: nat)
    requires Best(l, globals, used, score, -1.0).1 >= 0.45
    ensures IsMatch(l, globals, used, score, k) && globals[k] == Best(l, globals, used, score, -1.0).0
  {
    k := FirstOfEquals(l, globals, used, score);
  }

  lemma {:induction false} LabelsStay(count: nat, globals: seq<int>, score: (nat, int) -> real, i: nat, n: nat)
    requires i < n <= count
    ensures MapSpeakers(count, globals, score).labels[i] == MapSpeakers(n, globals, score).labels[i]
    decreases count
  {
    if n < count {
      LabelsStay(count - 1, globals, score, i, n);
    }
  }

  /** Local speaker i is given the best of the acceptable speakers not given before, which is then
      taken; without one, a new number. */
  lemma {:induction false} MatchedOrNew(count: nat, globals: seq<int>, score: (nat, int) -> real, i: nat, n: nat)
    requires i < count && n == i + 1
    ensures MapSpeakers(0, globals, score).used == {}
    ensures var given, used := MapSpeakers(count, globals, score).labels[i], MapSpeakers(i, globals, score).used;
      if exists g :: Acceptable(i, globals, used, score, g) then
        && (exists k: nat :: IsMatch(i, globals, used, score, k) && given == globals[k])
        && MapSpeakers(n, globals, score).used == used + {given}
      else given == |globals| + i && MapSpeakers(n, globals, score).used == used
  {
    LabelsStay(count, globals, score, i, n);
    var used := MapSpeakers(i, globals, score).used;
    var best := Best(i, globals, used, score, -1.0);
    if best.1 >= 0.45 {
      var k := MatchFound(i, globals, used, score);
      assert Acceptable(i, globals, used, score, globals[k]);
    } else {
      forall g ensures !Acceptable(i, globals, used, score, g) {
      }
    }
  }

  /** None of the next numbers is a label already: true of the labels 0 .. n - 1, not of all. */
  ghost predicate NumbersFree(globals: seq<int>, count: nat) {
    forall g :: g in globals ==> !(|globals| <= g < |globals| + count)
  }

  ghost predicate DistinctLabels(labels: seq<int>) {
    forall i, j :: 0 <= i < j < |labels| ==> labels[i] != labels[j]
  }

  /** With the next numbers free, different local speakers get different labels, each a label
      in use or a new number. */
  lemma {:induction false} LabelsDiffer(count: nat, globals: seq<int>, score: (nat, int) -> real)
    requires NumbersFree(globals, count)
    ensures var m := MapSpeakers(count, globals, score);
      && DistinctLabels(m.labels)
      && (forall g :: g in m.used ==> g in globals)
      && (forall i :: 0 <= i < count ==> m.labels[i] in m.used || m.labels[i] == |globals| + i)
  {
    if count > 0 {
      LabelsDiffer(count - 1, globals, score);
      var p := MapSpeakers(count - 1, globals, score);
      var best := Best(|p.labels|, globals, p.used, score, -1.0);
      if best.1 >= ACCEPT {
        assert best.0 in globals && best.0 !in p.used;
      }
    }
  }

  lemma {:induction false} LabelIsUsedOrNew(count: nat, globals: seq<int>, score: (nat, int) -> real, i: nat)
    requires NumbersFree(globals, count) && i < count
    ensures var l := MapSpeakers(count, globals, score).labels[i]; l in globals || l == |globals| + i
  {
    LabelsDiffer(count, globals, score);
  }

  /** Scores under which speaker j alone is matched, to g. */
  function OnlyMatch(j: nat, g: int): (nat, int) -> real {
    (l, h) => if l == j && h == g then 1.0 else 0.0
  }

  /** With used speakers not including g, the best match of speaker j is g, any other's is poor. */
  lemma {:induction false} BestOnlyMatch(l: nat, globals: seq<int>, j: nat, g: int)
    requires g in globals
    ensures var best := Best(l, globals, {}, OnlyMatch(j, g), -1.0);
      if l == j then best == (g, 1.0) else best.1 <= 0.0
  {
    var best := Best(l, globals, {}, OnlyMatch(j, g), -1.0);
    if l == j {
      assert OnlyMatch(j, g)(l, g) == 1.0;
      assert g !in {};
    }
  }

  lemma {:induction false} BestPoor(l: nat, globals: seq<int>, used: set<int>, j: nat, g: int)
    requires l != j
    ensures Best(l, globals, used, OnlyMatch(j, g), -1.0).1 <= 0.0
  {
  }

  lemma {:induction false} OnlyMatchLabels(count: nat, globals: seq<int>, j: nat, g: int)
    requires g in globals
    ensures count <= j ==> MapSpeakers(count, globals, OnlyMatch(j, g)).used == {}
    ensures forall i: nat :: i < count ==>
      MapSpeakers(count, globals, OnlyMatch(j, g)).labels[i] == if i == j then g else |globals| + i
  {
    if count > 0 {
      OnlyMatchLabels(count - 1, globals, j, g);
      if count - 1 == j {
        BestOnlyMatch(j, globals, j, g);
      } else {
        BestPoor(count - 1, globals, MapSpeakers(count - 1, globals, OnlyMatch(j, g)).used, j, g);
      }
    }
  }

  lemma {:induction false} MapClash(count: nat, globals: seq<int>, g: int) returns (j: nat)
    requires count >= 2 && g in globals && |globals| <= g < |globals| + count
    ensures !DistinctLabels(MapSpeakers(count, globals, OnlyMatch(j, g)).labels)
  {
    var k: nat := g - |globals|;
    j := if k == 0 then 1 else 0;
    OnlyMatchLabels(count, globals, j, g);
    assert MapSpeakers(count, globals, OnlyMatch(j, g)).labels[j] == g;
    assert MapSpeakers(count, globals, OnlyMatch(j, g)).labels[k] == g;
  }

  /** Two local speakers can end up under one label exactly when a next number is taken. */
  lemma {:induction false} MapInjectiveIff(count: nat, globals: seq<int>)
    ensures (forall score :: DistinctLabels(MapSpeakers(count, globals, score).labels))
      <==> (count < 2 || NumbersFree(globals, count))
  {
    if count < 2 || NumbersFree(globals, count) {
      forall score ensures DistinctLabels(MapSpeakers(count, globals, score).labels) {
        if count >= 2 {
          LabelsDiffer(count, globals, score);
        }
      }
    } else {
      var g :| g in globals && |globals| <= g < |globals| + count;
      var j := MapClash(count, globals, g);
    }
  }
}
