/**
  Renaming speakers in the order in which they are first heard. Python sorts the speakers by
  the time they are first heard, a stable sort over the order in which they were met; the new
  number of a speaker is the number of speakers that sort before it.
 */
module Chronology {

  /** One utterance: who, and when it starts. */
  datatype Heard = Heard(speaker: int, start: int)

  /** Speakers in the order in which they are met. */
  function Met(hs: seq<Heard>): (r: seq<int>)
    ensures forall x :: x in r <==> exists i :: 0 <= i < |hs| && hs[i].speaker == x
    ensures forall i, j :: 0 <= i < j < |r| ==> r[i] != r[j]
    ensures |r| <= |hs|
  {
    if hs == [] then []
    else
      var n := |hs| - 1;
      var m := Met(hs[..n]);
      assert forall i :: 0 <= i < n ==> hs[..n][i] == hs[i];
      if hs[n].speaker in m then m else m + [hs[n].speaker]
  }

  /** The start at which a speaker is first met. */
  function FirstStart(hs: seq<Heard>, s: int): int {
    if hs == [] then 0
    else if hs[0].speaker == s then hs[0].start
    else FirstStart(hs[1..], s)
  }

  function Position(xs: seq<int>, s: int): (r: nat)
    ensures s in xs ==> r < |xs| && xs[r] == s
    ensures r <= |xs|
  {
    if xs == [] || xs[0] == s then 0 else 1 + Position(xs[1..], s)
  }

  /** a sorts before b: heard earlier, or at the same time and met earlier. */
  predicate SortsBefore(hs: seq<Heard>, a: int, b: int) {
    var m := Met(hs);
    FirstStart(hs, a) < FirstStart(hs, b)
    || (FirstStart(hs, a) == FirstStart(hs, b) && Position(m, a) < Position(m, b))
  }

  function Earlier(hs: seq<Heard>, s: int): set<int> {
    set x | x in Met(hs) && SortsBefore(hs, x, s)
  }

  /** The new number of speaker s. */
  function Rank(hs: seq<Heard>, s: int): nat { |Earlier(hs, s)| }

  lemma {:induction false} SubsetSize(a: set<int>, b: set<int>)
    requires a <= b
    ensures |a| <= |b| && (a != b ==> |a| < |b|)
  {
    assert b == a + (b - a) && a !! (b - a);
    assert |b| == |a| + |b - a|;
    if |b - a| == 0 {
      assert b - a == {};
      assert b == a;
    }
  }

  lemma {:induction false} RankFollowsOrder(hs: seq<Heard>, a: int, b: int)
    requires a in Met(hs) && b in Met(hs) && SortsBefore(hs, a, b)
    ensures Rank(hs, a) < Rank(hs, b)
  {
    assert a in Earlier(hs, b) && a !in Earlier(hs, a);
    SubsetSize(Earlier(hs, a), Earlier(hs, b));
  }

  lemma {:induction false} SetOfSeqSize(xs: seq<int>)
    requires forall i, j :: 0 <= i < j < |xs| ==> xs[i] != xs[j]
    ensures |set x | x in xs| == |xs|
    decreases |xs|
  {
    if xs != [] {
      var n := |xs| - 1;
      SetOfSeqSize(xs[..n]);
      assert (set x | x in xs) == (set x | x in xs[..n]) + {xs[n]};
    }
  }

  /** The renaming is one-to-one, and its numbers are 0 .. n-1 for n speakers. */
  lemma {:induction false} RankIsInjective(hs: seq<Heard>, a: int, b: int)
    requires a in Met(hs) && b in Met(hs)
    ensures Rank(hs, a) == Rank(hs, b) <==> a == b
    ensures Rank(hs, a) < |Met(hs)|
  {
    var m := Met(hs);
    if a != b {
      assert Position(m, a) != Position(m, b);
      if SortsBefore(hs, a, b) {
        RankFollowsOrder(hs, a, b);
      } else {
        RankFollowsOrder(hs, b, a);
      }
    }
    SetOfSeqSize(m);
    assert a !in Earlier(hs, a);
    SubsetSize(Earlier(hs, a), set x | x in m);
  }

  ghost predicate Chronological(hs: seq<Heard>) {
    forall i, j :: 0 <= i < j < |hs| ==> hs[i].start <= hs[j].start
  }

  lemma {:induction false} MetPrefix(hs: seq<Heard>, n: nat)
    requires n <= |hs|
    ensures Met(hs[..n]) <= Met(hs)
    decreases |hs| - n
  {
    if n == |hs| {
      assert hs[..n] == hs;
    } else {
      MetPrefix(hs, n + 1);
      assert hs[..n + 1][..n] == hs[..n];
    }
  }

  lemma {:induction false} FirstStartOf(hs: seq<Heard>, s: int) returns (k: nat)
    requires s in Met(hs)
    ensures k < |hs| && hs[k].speaker == s && FirstStart(hs, s) == hs[k].start
    ensures forall i :: 0 <= i < k ==> hs[i].speaker != s
    decreases |hs|
  {
    if hs[0].speaker == s {
      k := 0;
    } else {
      var i :| 0 <= i < |hs| && hs[i].speaker == s;
      assert hs[1..][i - 1].speaker == s;
      k := FirstStartOf(hs[1..], s);
      k := k + 1;
      assert forall i :: 0 < i < k ==> hs[i] == hs[1..][i - 1];
    }
  }

  /** Met earlier means first spoken earlier. */
  lemma {:induction false} MetInOrder(hs: seq<Heard>, a: int, b: int, i: nat, j: nat)
    requires i < |hs| && j < |hs| && hs[i].speaker == a && hs[j].speaker == b && a != b
    requires (forall k :: 0 <= k < i ==> hs[k].speaker != a) && (forall k :: 0 <= k < j ==> hs[k].speaker != b)
    ensures Position(Met(hs), a) < Position(Met(hs), b) <==> i < j
  {
    if i < j {
      MetEarlier(hs, a, b, i, j);
    } else {
      MetEarlier(hs, b, a, j, i);
    }
  }

  lemma {:induction false} MetEarlier(hs: seq<Heard>, a: int, b: int, i: nat, j: nat)
    requires i < j < |hs| && hs[i].speaker == a && hs[j].speaker == b && a != b
    requires forall k :: 0 <= k < j ==> hs[k].speaker != b
    ensures Position(Met(hs), a) < Position(Met(hs), b)
  {
    var m, p := Met(hs), Met(hs[..j]);
    MetPrefix(hs, j);
    assert hs[..j][i].speaker == a;
    assert a in p && b !in p;
    var x := Position(m, a);
    var y := Position(p, a);
    assert m[y] == p[y] == a;
    assert x == y;
    assert forall k :: 0 <= k < |p| ==> m[k] != b by {
      forall k | 0 <= k < |p| ensures m[k] != b {
        assert m[k] == p[k];
      }
    }
    assert b in m by {
      assert hs[j].speaker == b;
    }
  }

  /** With nondecreasing starts the first speaker becomes 0, and every label is either in use
      before or the next new number: labels first appear in increasing order. */
  lemma {:induction false} RankInOrderOfAppearance(hs: seq<Heard>, i: nat, j: nat)
    requires Chronological(hs) && i < |hs| && j < |hs|
    requires forall k :: 0 <= k < i ==> hs[k].speaker != hs[i].speaker
    requires forall k :: 0 <= k < j ==> hs[k].speaker != hs[j].speaker
    ensures Rank(hs, hs[i].speaker) < Rank(hs, hs[j].speaker) <==> i < j
    ensures i == 0 ==> Rank(hs, hs[i].speaker) == 0
  {
    var a, b := hs[i].speaker, hs[j].speaker;
    if i != j {
      OrderOfFirsts(hs, i, j);
      if i < j { RankFollowsOrder(hs, a, b); } else { RankFollowsOrder(hs, b, a); }
    }
    if i == 0 {
      forall x | x in Met(hs) ensures !SortsBefore(hs, x, a) {
        var k := FirstStartOf(hs, x);
        if k != 0 {
          OrderOfFirsts(hs, 0, k);
        }
      }
      assert Earlier(hs, a) == {};
    }
  }

  lemma {:induction false} OrderOfFirsts(hs: seq<Heard>, i: nat, j: nat)
    requires Chronological(hs) && i < |hs| && j < |hs| && i != j
    requires forall k :: 0 <= k < i ==> hs[k].speaker != hs[i].speaker
    requires forall k :: 0 <= k < j ==> hs[k].speaker != hs[j].speaker
    ensures hs[i].speaker in Met(hs) && hs[j].speaker in Met(hs)
    ensures SortsBefore(hs, hs[i].speaker, hs[j].speaker) <==> i < j
    ensures SortsBefore(hs, hs[j].speaker, hs[i].speaker) <==> j < i
  {
    var a, b := hs[i].speaker, hs[j].speaker;
    var x := FirstStartOf(hs, a);
    var y := FirstStartOf(hs, b);
    assert x == i && y == j;
    assert a != b;
    MetInOrder(hs, a, b, i, j);
    MetInOrder(hs, b, a, j, i);
  }

  // ---------------------------------------------------------------- renaming twice

  /** The same utterances with every speaker renamed by the ranks in hs. */
  ghost predicate RankedIn(hs: seq<Heard>, rs: seq<Heard>) {
    |rs| == |hs| && forall i :: 0 <= i < |hs| ==> rs[i] == Heard(Rank(hs, hs[i].speaker), hs[i].start)
  }

  lemma {:induction false} RanksTellApart(hs: seq<Heard>, i: nat, j: nat)
    requires i < |hs| && j < |hs|
    ensures Rank(hs, hs[i].speaker) == Rank(hs, hs[j].speaker) <==> hs[i].speaker == hs[j].speaker
  {
    RankIsInjective(hs, hs[i].speaker, hs[j].speaker);
  }

  /** Renaming by rank changes nothing when starts are nondecreasing and ranks were given: each
      speaker's rank among the renamed utterances is the rank it already carries. */
  lemma {:induction false} RankedStays(hs: seq<Heard>, rs: seq<Heard>, i: nat)
    requires Chronological(hs) && RankedIn(hs, rs) && i < |hs|
    ensures Rank(rs, rs[i].speaker) == rs[i].speaker
  {
    var a := hs[i].speaker;
    forall x | x in Earlier(hs, a) ensures Rank(hs, x) in Earlier(rs, rs[i].speaker) {
      EarlierCarriesOver(hs, rs, i, x);
    }
    forall y | y in Earlier(rs, rs[i].speaker) ensures exists x :: x in Earlier(hs, a) && Rank(hs, x) == y {
      EarlierCarriesBack(hs, rs, i, y);
    }
    forall x, y | x in Earlier(hs, a) && y in Earlier(hs, a) && Rank(hs, x) == Rank(hs, y) ensures x == y {
      RankIsInjective(hs, x, y);
    }
    SameSize(Earlier(hs, a), Earlier(rs, rs[i].speaker), s => Rank(hs, s));
  }

  lemma {:induction false} SameSize<T, U>(a: set<T>, b: set<U>, f: T -> U)
    requires forall x :: x in a ==> f(x) in b
    requires forall y :: y in b ==> exists x :: x in a && f(x) == y
    requires forall x, y :: x in a && y in a && f(x) == f(y) ==> x == y
    ensures |a| == |b|
    decreases |a|
  {
    if x :| x in a {
      forall y | y in b - {f(x)} ensures exists z :: z in a - {x} && f(z) == y {
        var z :| z in a && f(z) == y;
        assert z in a - {x};
      }
      SameSize(a - {x}, b - {f(x)}, f);
    } else {
      assert a == {} && b == {};
    }
  }

  lemma {:induction false} EarlierCarriesOver(hs: seq<Heard>, rs: seq<Heard>, i: nat, x: int)
    requires Chronological(hs) && RankedIn(hs, rs) && i < |hs| && x in Earlier(hs, hs[i].speaker)
    ensures Rank(hs, x) in Earlier(rs, rs[i].speaker)
  {
    var k := FirstStartOf(hs, x);
    assert hs[i].speaker in Met(hs);
    var j := FirstStartOf(hs, hs[i].speaker);
    assert k != j;
    OrderOfFirsts(hs, k, j);
    FirstsStay(hs, rs, k);
    FirstsStay(hs, rs, j);
    OrderOfFirsts(rs, k, j);
  }

  lemma {:induction false} EarlierCarriesBack(hs: seq<Heard>, rs: seq<Heard>, i: nat, y: int)
    requires Chronological(hs) && RankedIn(hs, rs) && i < |hs| && y in Earlier(rs, rs[i].speaker)
    ensures exists x :: x in Earlier(hs, hs[i].speaker) && Rank(hs, x) == y
  {
    var k := FirstStartOf(rs, y);
    assert hs[i].speaker in Met(hs) && rs[i].speaker in Met(rs);
    var j := FirstStartOf(hs, hs[i].speaker);
    FirstsStay(hs, rs, j);
    FirstsStayBack(hs, rs, k);
    assert k != j;
    OrderOfFirsts(rs, k, j);
    OrderOfFirsts(hs, k, j);
    assert hs[k].speaker in Earlier(hs, hs[i].speaker);
  }

  /** A speaker's first utterance is the first of its new name as well. */
  lemma {:induction false} FirstsStay(hs: seq<Heard>, rs: seq<Heard>, k: nat)
    requires RankedIn(hs, rs) && k < |hs|
    requires forall i :: 0 <= i < k ==> hs[i].speaker != hs[k].speaker
    ensures forall i :: 0 <= i < k ==> rs[i].speaker != rs[k].speaker
    ensures Chronological(hs) ==> Chronological(rs)
  {
    forall i | 0 <= i < k ensures rs[i].speaker != rs[k].speaker {
      RanksTellApart(hs, i, k);
    }
  }

  lemma {:induction false} FirstsStayBack(hs: seq<Heard>, rs: seq<Heard>, k: nat)
    requires RankedIn(hs, rs) && k < |hs|
    requires forall i :: 0 <= i < k ==> rs[i].speaker != rs[k].speaker
    ensures forall i :: 0 <= i < k ==> hs[i].speaker != hs[k].speaker
  {
    forall i | 0 <= i < k ensures hs[i].speaker != hs[k].speaker {
      RanksTellApart(hs, i, k);
    }
  }
}
