/**
  The texts of slashed tokens as the normalizer writes them: stripping, reducing doubled slashes,
  and formatting part by part. They satisfy what slash merging asks of them.
 */
module SlashTexts {
  import opened SlashMerging
  import opened Words
  import opened Texts
  import N = NumberTexts

  predicate IsBlank(c: char) { c == ' ' || c == '\t' || c == '\n' || c == '\r' }

  function Trim(s: string): string { Stripped(IsBlank, s) }

  /** "//" becomes "/", from the left, without looking again at what it wrote. */
  function Reduce(s: string): string {
    if |s| < 2 then s
    else if s[0] == '/' && s[1] == '/' then "/" + Reduce(s[2..])
    else [s[0]] + Reduce(s[1..])
  }

  /** Any number of slashes in a row becomes one. */
  function Squeeze(s: string): string {
    if |s| < 2 then s
    else if s[0] == '/' && s[1] == '/' then Squeeze(s[1..])
    else [s[0]] + Squeeze(s[1..])
  }

  function Split(t: string): (r: seq<string>)
    ensures r != []
  {
    if t == "" then [""]
    else
      var n := |t| - 1;
      var s := Split(t[..n]);
      if t[n] == '/' then s + [""] else s[|s| - 1 := s[|s| - 1] + [t[n]]]
  }

  function Join(ps: seq<string>): string
    requires ps != []
  {
    var n := |ps| - 1;
    if n == 0 then ps[0] else Join(ps[..n]) + "/" + ps[n]
  }

  function SuitAcronyms(): seq<string> { ["fhc", "nicn", "ca", "sc", "cs", "cr", "abj", "l", "m", "cv"] }

  /** One stripped part shows the token to be a suit number. */
  predicate SuitPart(p: string) { N.AllDigits(p) || N.NumberWord(Lower(p)) || Lower(p) in SuitAcronyms() }

  predicate SuitNumber(parts: seq<string>) { exists i :: 0 <= i < |parts| && SuitPart(Trim(parts[i])) }

  predicate AllCapitals(p: string) {
    (exists i :: 0 <= i < |p| && 'A' <= p[i] <= 'Z') && forall i :: 0 <= i < |p| ==> !('a' <= p[i] <= 'z')
  }

  /** A stripped part is written as a numeral, in capitals or as it is. */
  function WritePart(suit: bool, p: string): string {
    if N.NumberWord(Lower(p)) then N.Decimal(N.ValueOf(Lower(p)))
    else if suit && (|p| <= 4 || AllCapitals(p)) then Upper(p)
    else p
  }

  function Written(suit: bool, parts: seq<string>): (r: seq<string>)
    ensures |r| == |parts| && forall i :: 0 <= i < |parts| ==> r[i] == WritePart(suit, Trim(parts[i]))
  {
    seq(|parts|, i requires 0 <= i < |parts| => WritePart(suit, Trim(parts[i])))
  }

  function WrittenOut(suit: bool, parts: seq<string>): string
    requires parts != []
  {
    Squeeze(Join(Written(suit, parts)))
  }

  function Formatted(t: string): string { WrittenOut(SuitNumber(Split(t)), Split(t)) }

  function CourtSlashes(): Slashes {
    Slashes(IsBlank, Trim, (a, b) => Reduce(a + b), (a, b) => Reduce(a + "/" + b), Formatted)
  }

  // ---------------------------------------------------------------- the last character

  lemma {:induction false} ReduceKeepsLast(s: string)
    requires s != ""
    ensures Reduce(s) != "" && Reduce(s)[|Reduce(s)| - 1] == s[|s| - 1]
    decreases |s|
  {
    if |s| == 2 && s[0] == '/' && s[1] == '/' {
      assert Reduce(s[2..]) == "";
    } else if |s| >= 2 {
      ReduceKeepsLast(if s[0] == '/' && s[1] == '/' then s[2..] else s[1..]);
    }
  }

  lemma {:induction false} SqueezeKeepsLast(s: string)
    requires s != ""
    ensures Squeeze(s) != "" && Squeeze(s)[|Squeeze(s)| - 1] == s[|s| - 1]
    decreases |s|
  {
    if |s| >= 2 {
      SqueezeKeepsLast(s[1..]);
    }
  }

  predicate EndsSolid(t: string) { t != "" && t[|t| - 1] != '/' && !IsBlank(t[|t| - 1]) }

  lemma {:induction false} SolidStaysSolid(s: string)
    requires EndsSolid(s)
    ensures EndsSolid(Trim(s))
  {
    StripLeftKeepsLast(IsBlank, s);
  }

  /** A part is never written empty, or with a slash or a blank at the end. */
  lemma {:induction false} WrittenSolid(suit: bool, p: string)
    requires EndsSolid(p)
    ensures EndsSolid(WritePart(suit, p))
  {
    var w := WritePart(suit, p);
    if N.NumberWord(Lower(p)) {
      assert N.IsDigit(w[|w| - 1]);
    }
  }

  lemma {:induction false} NothingWritten(suit: bool)
    ensures WritePart(suit, "") == ""
  {
    assert Lower("") == "" && Upper("") == "";
    N.NumberStarts("");
  }

  lemma {:induction false} SplitEndsSolid(t: string)
    requires EndsSolid(t)
    ensures EndsSolid(Split(t)[|Split(t)| - 1])
  {
    var n := |t| - 1;
    var s := Split(t[..n]);
    assert Split(t) == s[|s| - 1 := s[|s| - 1] + [t[n]]];
  }

  lemma {:induction false} JoinEndsSolid(ps: seq<string>)
    requires ps != [] && EndsSolid(ps[|ps| - 1])
    ensures EndsSolid(Join(ps))
  {
    var p := ps[|ps| - 1];
    assert Join(ps)[|Join(ps)| - 1] == p[|p| - 1];
  }

  lemma {:induction false} WrittenEndsSolid(suit: bool, parts: seq<string>)
    requires parts != [] && EndsSolid(parts[|parts| - 1])
    ensures EndsSolid(Written(suit, parts)[|parts| - 1])
  {
    var p := Trim(parts[|parts| - 1]);
    SolidStaysSolid(parts[|parts| - 1]);
    WrittenSolid(suit, p);
  }

  lemma {:induction false} SqueezeEndsSolid(t: string)
    requires EndsSolid(t)
    ensures EndsSolid(Squeeze(t))
  {
    SqueezeKeepsLast(t);
  }

  lemma {:induction false} WrittenOutEndsSolid(suit: bool, parts: seq<string>)
    requires parts != [] && EndsSolid(parts[|parts| - 1])
    ensures EndsSolid(WrittenOut(suit, parts))
  {
    WrittenEndsSolid(suit, parts);
    JoinEndsSolid(Written(suit, parts));
    SqueezeEndsSolid(Join(Written(suit, parts)));
  }

  lemma {:induction false} FormattedEndsSolid(t: string)
    requires EndsSolid(t)
    ensures EndsSolid(Formatted(t))
  {
    SplitEndsSolid(t);
    WrittenOutEndsSolid(SuitNumber(Split(t)), Split(t));
  }

  lemma {:induction false} FormattedEmpty()
    ensures Formatted("") == ""
  {
    assert Split("") == [""] && Trim("") == "";
    NothingWritten(SuitNumber([""]));
    assert Written(SuitNumber([""]), [""]) == [""];
  }

  /** The texts of the normalizer meet the conditions of slash merging. */
  lemma {:induction false} CourtSlashesSound()
    ensures SoundSlashes(CourtSlashes())
  {
    var sl := CourtSlashes();
    forall t ensures Tight(sl, sl.strip(t)) {
      StripRightEnds(IsBlank, StripLeft(IsBlank, t));
    }
    forall a, b | Tight(sl, a) && Tight(sl, b) ensures Tight(sl, sl.append(a, b)) && Tight(sl, sl.link(a, b)) {
      if a + b != "" {
        ReduceKeepsLast(a + b);
      }
      ReduceKeepsLast(a + "/" + b);
    }
    forall t | Tight(sl, t) && !EndsSlash(t) ensures !EndsSlash(sl.strip(sl.format(t))) {
      if t == "" {
        FormattedEmpty();
      } else {
        FormattedEndsSolid(t);
        SolidStaysSolid(Formatted(t));
      }
    }
  }

  // ---------------------------------------------------------------- "FHC", "/", "ABJ"

  /** No two slashes in a row. */
  ghost predicate Single(s: string) {
    forall i, j :: 0 <= i < j < |s| && j == i + 1 ==> s[i] != '/' || s[j] != '/'
  }

  lemma {:induction false} SingleStays(s: string)
    requires Single(s)
    ensures Reduce(s) == s && Squeeze(s) == s
    decreases |s|
  {
    if |s| >= 2 {
      SingleStays(s[1..]);
      assert s[0] != '/' || s[1] != '/';
    }
  }

  /** Neither slash nor blank. */
  ghost predicate Plain(s: string) { s != "" && forall i :: 0 <= i < |s| ==> s[i] != '/' && !IsBlank(s[i]) }

  lemma {:induction false} PlainSplits(s: string, n: nat)
    requires Plain(s) && n <= |s|
    ensures Split(s[..n]) == [s[..n]]
  {
    if n > 0 {
      PlainSplits(s, n - 1);
      assert s[..n][..n - 1] == s[..n - 1];
      assert s[..n - 1] + [s[n - 1]] == s[..n];
      assert s[n - 1] != '/';
    }
  }

  lemma {:induction false} TwoPartsSplit(a: string, b: string, n: nat)
    requires Plain(a) && Plain(b) && n <= |b|
    ensures Split(a + "/" + b[..n]) == [a, b[..n]]
  {
    var t := a + "/" + b[..n];
    if n == 0 {
      assert t[..|a|] == a && a[..|a|] == a;
      PlainSplits(a, |a|);
    } else {
      assert t[..|t| - 1] == a + "/" + b[..n - 1];
      TwoPartsSplit(a, b, n - 1);
      assert b[..n - 1] + [b[n - 1]] == b[..n];
      assert b[n - 1] != '/';
    }
  }

  lemma {:induction false} PlainTrims(s: string)
    requires Plain(s)
    ensures Trim(s) == s
  {
    assert !IsBlank(s[0]) && !IsBlank(s[|s| - 1]);
  }

  lemma {:induction false} JoinTwo(x: string, y: string)
    ensures Join([x, y]) == x + "/" + y
  {
    assert [x, y][..1] == [x];
    assert Join([x]) == x;
  }

  lemma {:induction false} OneIsSuitPart(parts: seq<string>, i: nat)
    requires i < |parts| && Plain(parts[i]) && SuitPart(parts[i])
    ensures SuitNumber(parts)
  {
    PlainTrims(parts[i]);
    assert SuitPart(Trim(parts[i]));
  }

  lemma {:induction false} TwoWritten(a: string, b: string, parts: seq<string>)
    requires Plain(a) && Plain(b) && |parts| == 2 && parts[0] == a && parts[1] == b
    ensures Written(true, parts) == [WritePart(true, a), WritePart(true, b)]
  {
    PlainTrims(a);
    PlainTrims(b);
  }

  /** A slashed token of two plain parts, formatted part by part. */
  lemma {:induction false} TwoPartsFormatted(a: string, b: string, x: string, y: string)
    requires Plain(a) && Plain(b) && SuitPart(a)
    requires x == WritePart(true, a) && y == WritePart(true, b) && Single(x + "/" + y)
    ensures Formatted(a + "/" + b) == x + "/" + y
  {
    assert b[..|b|] == b;
    TwoPartsSplit(a, b, |b|);
    var parts := Split(a + "/" + b);
    OneIsSuitPart(parts, 0);
    TwoWritten(a, b, parts);
    JoinTwo(x, y);
    SingleStays(x + "/" + y);
  }

  /** The second part ends the token. */
  lemma {:induction false} SecondPartRuns(ws: seq<Word>, a: string, b: string)
    requires |ws| == 1 && ws[0].text == b && Plain(a) && Plain(b)
    ensures Run(CourtSlashes(), a + "/", ws) == (a + "/" + b, 1)
  {
    var sl := CourtSlashes();
    PlainTrims(b);
    PlainPair(a, b);
    SingleStays(a + "/" + b);
    assert Run(sl, a + "/" + b, ws[1..]) == (a + "/" + b, 0);
  }

  lemma {:induction false} SlashRuns(ws: seq<Word>, a: string, b: string)
    requires |ws| == 2 && ws[0].text == "/" && ws[1].text == b && Plain(a) && Plain(b)
    ensures Run(CourtSlashes(), a, ws) == (a + "/" + b, 2)
  {
    SlashStays(ws[0].text);
    SingleStays(a + "/");
    SecondPartRuns(ws[1..], a, b);
  }

  lemma {:induction false} SlashStays(t: string)
    requires t == "/"
    ensures Trim(t) == t
  {
  }

  /** Two plain words around a slash. */
  lemma {:induction false} AroundSlash(ws: seq<Word>, a: string, b: string)
    requires |ws| == 3 && ws[0].text == a && ws[1].text == "/" && ws[2].text == b && Plain(a) && Plain(b)
    ensures Merged(CourtSlashes(), ws)
         == [Word(Formatted(a + "/" + b), ws[0].start, ws[2].end, ws[0].speaker)]
  {
    PlainTrims(a);
    SlashStays(ws[1].text);
    SlashRuns(ws[1..], a, b);
    assert ws[3..] == [];
  }

  /** No number word has three letters and starts with f or a. */
  lemma {:induction false} CourtIsNoNumber(c: string)
    requires c == "fhc" || c == "abj"
    ensures !N.NumberWord(c)
  {
    assert |c| == 3 && (c[0] == 'f' || c[0] == 'a');
  }

  lemma {:induction false} CourtWritten(p: string)
    requires p == "FHC" || p == "ABJ"
    ensures Plain(p) && SuitPart(p) && WritePart(true, p) == p
  {
    assert Lower(p) == if p == "FHC" then "fhc" else "abj";
    assert SuitAcronyms()[0] == "fhc" && SuitAcronyms()[6] == "abj";
    CourtIsNoNumber(Lower(p));
    assert Upper(p) == p;
  }

  /** A court and its division, "FHC", "/" and "ABJ", become one token. */
  lemma {:induction false} CourtAndDivision(ws: seq<Word>, a: string, b: string)
    requires |ws| == 3 && ws[0].text == a && ws[1].text == "/" && ws[2].text == b
    requires a == "FHC" && b == "ABJ"
    ensures Merged(CourtSlashes(), ws) == [Word(a + "/" + b, ws[0].start, ws[2].end, ws[0].speaker)]
  {
    CourtWritten(a);
    CourtWritten(b);
    PlainPair(a, b);
    PlainToken(ws, a, b);
  }

  lemma {:induction false} PlainPair(a: string, b: string)
    requires Plain(a) && Plain(b)
    ensures Single(a + "/" + b)
  {
  }

  lemma {:induction false} PlainToken(ws: seq<Word>, a: string, b: string)
    requires |ws| == 3 && ws[0].text == a && ws[1].text == "/" && ws[2].text == b
    requires Plain(a) && Plain(b) && SuitPart(a) && Single(a + "/" + b)
    requires WritePart(true, a) == a && WritePart(true, b) == b
    ensures Merged(CourtSlashes(), ws) == [Word(a + "/" + b, ws[0].start, ws[2].end, ws[0].speaker)]
  {
    TwoPartsFormatted(a, b, a, b);
    AroundSlash(ws, a, b);
  }
}
