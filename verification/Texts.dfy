/**
  Stripping characters from the ends of a text, and lower and upper case, for letters without
  accents.
 */
module Texts {

  function LowerChar(c: char): char {
    if 'A' <= c <= 'Z' then c - 'A' + 'a' else c
  }

  function UpperChar(c: char): char {
    if 'a' <= c <= 'z' then c - 'a' + 'A' else c
  }

  function Lower(s: string): (r: string)
    ensures |r| == |s| && forall i :: 0 <= i < |s| ==> r[i] == LowerChar(s[i])
  {
    seq(|s|, i requires 0 <= i < |s| => LowerChar(s[i]))
  }

  function Upper(s: string): (r: string)
    ensures |r| == |s| && forall i :: 0 <= i < |s| ==> r[i] == UpperChar(s[i])
  {
    seq(|s|, i requires 0 <= i < |s| => UpperChar(s[i]))
  }

  function StripLeft(drop: char -> bool, s: string): string {
    if s != "" && drop(s[0]) then StripLeft(drop, s[1..]) else s
  }

  function StripRight(drop: char -> bool, s: string): string {
    if s != "" && drop(s[|s| - 1]) then StripRight(drop, s[..|s| - 1]) else s
  }

  function Stripped(drop: char -> bool, s: string): string { StripRight(drop, StripLeft(drop, s)) }

  lemma {:induction false} StripLeftKeepsLast(drop: char -> bool, s: string)
    requires s != "" && !drop(s[|s| - 1])
    ensures var r := StripLeft(drop, s); r != "" && r[|r| - 1] == s[|s| - 1]
    decreases |s|
  {
    if drop(s[0]) {
      StripLeftKeepsLast(drop, s[1..]);
    }
  }

  lemma {:induction false} StripRightEnds(drop: char -> bool, s: string)
    ensures var r := StripRight(drop, s); r == "" || !drop(r[|r| - 1])
    decreases |s|
  {
    if s != "" && drop(s[|s| - 1]) {
      StripRightEnds(drop, s[..|s| - 1]);
    }
  }

  /** What is dropped at the right end does not matter to what is kept. */
  lemma {:induction false} StripRightDrops(drop: char -> bool, s: string, t: string)
    requires forall i :: 0 <= i < |t| ==> drop(t[i])
    ensures StripRight(drop, s + t) == StripRight(drop, s)
    decreases |t|
  {
    if t == "" {
      assert s + t == s;
    } else {
      var n := |t| - 1;
      assert (s + t)[..|s + t| - 1] == s + t[..n];
      StripRightDrops(drop, s, t[..n]);
    }
  }
}
