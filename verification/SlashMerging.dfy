/**
  Words around a slash become one token: "FHC", "/", "ABJ" is written "FHC/ABJ".
 */
module SlashMerging {
  import opened Words
  import opened Blocks

  predicate IsSlash(t: string) { |t| == 1 && t[0] == '/' }

  predicate EndsSlash(t: string) { |t| > 0 && t[|t| - 1] == '/' }

  predicate StartsSlash(t: string) { |t| > 0 && t[0] == '/' }

  /** How texts are stripped, put together and formatted. */
  datatype Slashes = Slashes(
    blank: char -> bool,
    strip: string -> string,
    append: (string, string) -> string,   // one after the other, doubled slashes reduced
    link: (string, string) -> string,     // with a slash between, doubled slashes reduced
    format: string -> string)             // numbers as digits, suit numbers in capitals

  /** No blank at the end. */
  predicate Tight(sl: Slashes, t: string) { t == "" || !sl.blank(t[|t| - 1]) }

  /** Stripped texts have no blank at the end and putting them together brings none there; then
      formatting does not put a slash at the end. */
  ghost predicate SoundSlashes(sl: Slashes) {
    && (forall t :: Tight(sl, sl.strip(t)))
    && (forall a, b :: Tight(sl, a) && Tight(sl, b) ==> Tight(sl, sl.append(a, b)) && Tight(sl, sl.link(a, b)))
    && (forall t :: Tight(sl, t) && !EndsSlash(t) ==> !EndsSlash(sl.strip(sl.format(t))))
  }

  function Strip(sl: Slashes, w: Word): string { sl.strip(w.text) }

  /** A slashed token starts here: a slash comes next and is not last, or the word ends in one
      and is not last. */
  predicate Starts(sl: Slashes, ws: seq<Word>) {
    || (|ws| > 2 && IsSlash(Strip(sl, ws[1])))
    || (|ws| > 1 && EndsSlash(Strip(sl, ws[0])))
  }

  /** The token goes on with the first of the remaining words. */
  predicate GoesOn(sl: Slashes, text: string, ws: seq<Word>) {
    && ws != []
    && (EndsSlash(text) || StartsSlash(Strip(sl, ws[0])) || (|ws| > 1 && IsSlash(Strip(sl, ws[1]))))
  }

  function Extended(sl: Slashes, text: string, next: Word): string {
    var t := Strip(sl, next);
    if EndsSlash(text) || StartsSlash(t) then sl.append(text, t) else sl.link(text, t)
  }

  /** Text of the token and the number of words it takes from ws. */
  function Run(sl: Slashes, text: string, ws: seq<Word>): (r: (string, nat))
    ensures r.1 <= |ws|
    ensures GoesOn(sl, text, ws) ==> r.1 > 0
    decreases |ws|
  {
    if GoesOn(sl, text, ws) then
      var r := Run(sl, Extended(sl, text, ws[0]), ws[1..]);
      (r.0, r.1 + 1)
    else (text, 0)
  }

  /** The token at the front of ws and the number of words it stands for. */
  function Token(sl: Slashes, ws: seq<Word>): (r: (Word, nat))
    requires Starts(sl, ws)
    ensures 1 < r.1 <= |ws|
    ensures Envelope(ws[..r.1], r.0)
  {
    var run := Run(sl, Strip(sl, ws[0]), ws[1..]);
    assert GoesOn(sl, Strip(sl, ws[0]), ws[1..]);
    (Word(sl.format(run.0), ws[0].start, ws[run.1].end, ws[0].speaker), run.1 + 1)
  }

  function Merged(sl: Slashes, ws: seq<Word>): (r: seq<Word>)
    ensures |r| <= |ws|
  {
    if ws == [] then []
    else if Starts(sl, ws) then [Token(sl, ws).0] + Merged(sl, ws[Token(sl, ws).1..])
    else [ws[0]] + Merged(sl, ws[1..])
  }

  lemma {:induction false} RunFrom(sl: Slashes, text: string, ws: seq<Word>, j: nat)
    requires j < |ws| && GoesOn(sl, text, ws[j..])
    ensures var r := Run(sl, Extended(sl, text, ws[j]), ws[j + 1..]);
      Run(sl, text, ws[j..]) == (r.0, r.1 + 1)
  {
    assert ws[j..][1..] == ws[j + 1..];
  }

  /** One look at the word at j. */
  method Look(sl: Slashes, text: string, ws: seq<Word>, j: nat) returns (on: bool, next: string)
    requires j < |ws|
    ensures on == GoesOn(sl, text, ws[j..]) && (on ==> next == Extended(sl, text, ws[j]))
  {
    var t := Strip(sl, ws[j]);
    on, next := true, text;
    if EndsSlash(text) || IsSlash(t) || StartsSlash(t) {
      next := sl.append(text, t);
    } else if j + 1 < |ws| && IsSlash(Strip(sl, ws[j + 1])) {
      next := sl.link(text, t);
    } else {
      on := false;
    }
  }

  method ScanRun(sl: Slashes, text: string, ws: seq<Word>, i: nat) returns (combined: string, j: nat)
    requires i <= |ws|
    ensures i <= j <= |ws| && (combined, j - i) == Run(sl, text, ws[i..])
  {
    combined, j := text, i;
    ghost var run := Run(sl, text, ws[i..]);
    while j < |ws|
      invariant i <= j <= |ws|
      invariant Run(sl, combined, ws[j..]).0 == run.0 && Run(sl, combined, ws[j..]).1 + j == run.1 + i
    {
      var on, next := Look(sl, combined, ws, j);
      if !on {
        return;
      }
      RunFrom(sl, combined, ws, j);
      combined, j := next, j + 1;
    }
  }

  method ScanToken(sl: Slashes, ws: seq<Word>, i: nat) returns (w: Word, next: nat)
    requires i < |ws| && Starts(sl, ws[i..])
    ensures i < next <= |ws| && (w, next - i) == Token(sl, ws[i..])
  {
    var combined, j := ScanRun(sl, Strip(sl, ws[i]), ws, i + 1);
    assert ws[i..][1..] == ws[i + 1..];
    assert ws[i..][j - 1 - i] == ws[j - 1];
    w, next := Word(sl.format(combined), ws[i].start, ws[j - 1].end, ws[i].speaker), j;
  }

  lemma {:induction false} MergedFrom(sl: Slashes, ws: seq<Word>, i: nat, merged: seq<Word>)
    requires i < |ws|
    ensures Starts(sl, ws[i..]) ==>
      merged + Merged(sl, ws[i..]) == merged + [Token(sl, ws[i..]).0] + Merged(sl, ws[i + Token(sl, ws[i..]).1..])
    ensures !Starts(sl, ws[i..]) ==> merged + Merged(sl, ws[i..]) == merged + [ws[i]] + Merged(sl, ws[i + 1..])
  {
    if Starts(sl, ws[i..]) {
      var n := Token(sl, ws[i..]).1;
      assert ws[i..][n..] == ws[i + n..];
    } else {
      assert ws[i..][1..] == ws[i + 1..];
    }
  }

  method SlashStarts(sl: Slashes, ws: seq<Word>, i: nat) returns (starts: bool)
    requires i < |ws|
    ensures starts == Starts(sl, ws[i..])
  {
    var text := Strip(sl, ws[i]);
    starts := false;
    if i + 2 < |ws| && IsSlash(Strip(sl, ws[i + 1])) {
      starts := true;
    } else if IsSlash(text) && i + 1 < |ws| {
      starts := true;
    } else if EndsSlash(text) && i + 1 < |ws| {
      starts := true;
    }
  }

  /** The next token of the result, from word i on. */
  method NextToken(sl: Slashes, ws: seq<Word>, i: nat, ghost merged: seq<Word>) returns (w: Word, next: nat)
    requires i < |ws|
    ensures i < next <= |ws| && merged + Merged(sl, ws[i..]) == merged + [w] + Merged(sl, ws[next..])
  {
    var starts := SlashStarts(sl, ws, i);
    MergedFrom(sl, ws, i, merged);
    if starts {
      w, next := ScanToken(sl, ws, i);
    } else {
      w, next := ws[i], i + 1;
    }
  }

  method MergeSlashed(sl: Slashes, ws: seq<Word>) returns (merged: seq<Word>)
    ensures merged == Merged(sl, ws)
  {
    merged := [];
    var i := 0;
    while i < |ws|
      invariant 0 <= i <= |ws|
      invariant merged + Merged(sl, ws[i..]) == Merged(sl, ws)
    {
      var w, next := NextToken(sl, ws, i, merged);
      merged := merged + [w];
      i := next;
    }
  }

  // ---------------------------------------------------------------- what the tokens are

  /** Tokens stand for consecutive blocks of words. */
  lemma {:induction false} MergedEnvelops(sl: Slashes, ws: seq<Word>)
    ensures Enveloped(ws, Merged(sl, ws))
    decreases |ws|
  {
    if ws != [] {
      var n := if Starts(sl, ws) then Token(sl, ws).1 else 1;
      MergedEnvelops(sl, ws[n..]);
      EnvelopedCons(ws, Merged(sl, ws[n..]), n, Merged(sl, ws)[0]);
    }
  }

  /** A run stops short of the end only at a text that does not end in a slash. */
  lemma {:induction false} RunStops(sl: Slashes, text: string, ws: seq<Word>)
    requires SoundSlashes(sl) && Tight(sl, text)
    ensures var r := Run(sl, text, ws); Tight(sl, r.0) && (r.1 < |ws| ==> !EndsSlash(r.0))
    decreases |ws|
  {
    if GoesOn(sl, text, ws) {
      RunStops(sl, Extended(sl, text, ws[0]), ws[1..]);
    }
  }

  ghost predicate NoneEndsEarly(sl: Slashes, ws: seq<Word>) {
    forall i :: 0 <= i < |ws| - 1 ==> !EndsSlash(Strip(sl, ws[i]))
  }

  lemma {:induction false} TokenEnds(sl: Slashes, ws: seq<Word>)
    requires SoundSlashes(sl) && Starts(sl, ws) && Token(sl, ws).1 < |ws|
    ensures !EndsSlash(Strip(sl, Token(sl, ws).0))
  {
    RunStops(sl, Strip(sl, ws[0]), ws[1..]);
  }

  lemma {:induction false} NoneEndsCons(sl: Slashes, w: Word, ws: seq<Word>)
    requires NoneEndsEarly(sl, ws) && (ws != [] ==> !EndsSlash(Strip(sl, w)))
    ensures NoneEndsEarly(sl, [w] + ws)
  {
  }

  lemma {:induction false} MergedNonEmpty(sl: Slashes, ws: seq<Word>)
    ensures (Merged(sl, ws) == []) == (ws == [])
  {
  }

  /** After one pass only the last token can end in a slash. */
  lemma {:induction false} OnlyLastEndsInSlash(sl: Slashes, ws: seq<Word>)
    requires SoundSlashes(sl)
    ensures NoneEndsEarly(sl, Merged(sl, ws))
    decreases |ws|
  {
    if ws != [] {
      var n := if Starts(sl, ws) then Token(sl, ws).1 else 1;
      OnlyLastEndsInSlash(sl, ws[n..]);
      MergedNonEmpty(sl, ws[n..]);
      if Starts(sl, ws) && n < |ws| {
        TokenEnds(sl, ws);
      }
      NoneEndsCons(sl, Merged(sl, ws)[0], Merged(sl, ws[n..]));
    }
  }

  lemma {:induction false} NothingStarts(sl: Slashes, ws: seq<Word>)
    requires NoneEndsEarly(sl, ws)
    ensures Merged(sl, ws) == ws
    decreases |ws|
  {
    if ws != [] {
      assert !Starts(sl, ws);
      NothingStarts(sl, ws[1..]);
    }
  }

  /** So a second pass finds nothing to merge. */
  lemma {:induction false} MergedTwice(sl: Slashes, ws: seq<Word>)
    requires SoundSlashes(sl)
    ensures Merged(sl, Merged(sl, ws)) == Merged(sl, ws)
  {
    OnlyLastEndsInSlash(sl, ws);
    NothingStarts(sl, Merged(sl, ws));
  }
}
