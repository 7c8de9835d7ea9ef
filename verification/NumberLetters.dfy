/**
  A number followed by a letter becomes one token: "five", "a" is written "5A".
 */
module NumberLetters {
  import opened Words
  import opened Blocks

  /** The tests on token texts, and the text of a merged pair. */
  datatype Numbers = Numbers(
    number: string -> bool,               // digits, a number word, or tens-units
    letter: string -> bool,               // one alphabetic character
    article: string -> bool,              // the letter a
    rateNoun: string -> bool,             // day, naira, share, ...
    combine: (string, string) -> string)  // digits, upper-case letter, trailing punctuation

  /** A letter or a rate noun is not a number. */
  predicate SoundToken(nl: Numbers, t: string) { nl.letter(t) || nl.rateNoun(t) ==> !nl.number(t) }

  /** A merged pair is neither a number nor a letter. */
  predicate SoundPair(nl: Numbers, a: string, b: string) {
    nl.number(a) && nl.letter(b) ==> !nl.number(nl.combine(a, b)) && !nl.letter(nl.combine(a, b))
  }

  ghost predicate SoundNumbers(nl: Numbers) {
    (forall t :: SoundToken(nl, t)) && forall a, b :: SoundPair(nl, a, b)
  }

  /** The first two words merge; "five a day" is no exhibit number. */
  predicate Merges(nl: Numbers, ws: seq<Word>) {
    && |ws| > 1 && nl.number(ws[0].text) && nl.letter(ws[1].text)
    && !(nl.article(ws[1].text) && |ws| > 2 && nl.rateNoun(ws[2].text))
  }

  function Pair(nl: Numbers, a: Word, b: Word): Word {
    Word(nl.combine(a.text, b.text), a.start, b.end, a.speaker)
  }

  function Merged(nl: Numbers, ws: seq<Word>): (r: seq<Word>)
    ensures |r| <= |ws| && (ws != [] ==> r != [])
  {
    if ws == [] then []
    else if Merges(nl, ws) then [Pair(nl, ws[0], ws[1])] + Merged(nl, ws[2..])
    else [ws[0]] + Merged(nl, ws[1..])
  }

  lemma {:induction false} MergedFrom(nl: Numbers, ws: seq<Word>, i: nat, merged: seq<Word>)
    requires i < |ws|
    ensures Merges(nl, ws[i..]) ==>
      merged + Merged(nl, ws[i..]) == merged + [Pair(nl, ws[i], ws[i + 1])] + Merged(nl, ws[i + 2..])
    ensures !Merges(nl, ws[i..]) ==> merged + Merged(nl, ws[i..]) == merged + [ws[i]] + Merged(nl, ws[i + 1..])
  {
    if Merges(nl, ws[i..]) {
      assert ws[i..][2..] == ws[i + 2..];
    } else {
      assert ws[i..][1..] == ws[i + 1..];
    }
  }

  method LetterFollows(nl: Numbers, ws: seq<Word>, i: nat) returns (valid: bool)
    requires i < |ws|
    ensures valid == Merges(nl, ws[i..])
  {
    valid := false;
    if i + 1 < |ws| && nl.number(ws[i].text) {
      if nl.letter(ws[i + 1].text) {
        valid := true;
        if nl.article(ws[i + 1].text) {
          if i + 2 < |ws| && nl.rateNoun(ws[i + 2].text) {
            valid := false;
          }
        }
      }
    }
  }

  method MergeNumberLetters(nl: Numbers, ws: seq<Word>) returns (merged: seq<Word>)
    ensures merged == Merged(nl, ws)
  {
    merged := [];
    var i := 0;
    while i < |ws|
      invariant 0 <= i <= |ws|
      invariant merged + Merged(nl, ws[i..]) == Merged(nl, ws)
    {
      var valid := LetterFollows(nl, ws, i);
      MergedFrom(nl, ws, i, merged);
      if valid {
        merged := merged + [Pair(nl, ws[i], ws[i + 1])];
        i := i + 2;
      } else {
        merged := merged + [ws[i]];
        i := i + 1;
      }
    }
  }

  /** Tokens stand for blocks of one or two words. */
  lemma {:induction false} MergedEnvelops(nl: Numbers, ws: seq<Word>)
    ensures Enveloped(ws, Merged(nl, ws))
    decreases |ws|
  {
    if ws != [] {
      var n := if Merges(nl, ws) then 2 else 1;
      MergedEnvelops(nl, ws[n..]);
      EnvelopedCons(ws, Merged(nl, ws[n..]), n, Merged(nl, ws)[0]);
    }
  }

  /** The first token of the result: a merged pair or the word itself. */
  lemma {:induction false} FirstOfMerged(nl: Numbers, ws: seq<Word>)
    requires SoundNumbers(nl) && ws != []
    ensures var t := Merged(nl, ws)[0].text;
      (nl.letter(t) || nl.number(t) || nl.rateNoun(ws[0].text) ==> Merged(nl, ws)[0] == ws[0])
  {
    assert SoundToken(nl, ws[0].text);
    if |ws| > 1 {
      assert SoundPair(nl, ws[0].text, ws[1].text);
    }
  }

  lemma {:induction false} NothingNewMerges(nl: Numbers, ws: seq<Word>)
    requires SoundNumbers(nl) && ws != []
    ensures !Merges(nl, Merged(nl, ws))
  {
    var r := Merged(nl, ws);
    if Merges(nl, ws) {
      assert SoundPair(nl, ws[0].text, ws[1].text);
    } else if |ws| > 1 && nl.number(ws[0].text) {
      FirstOfMerged(nl, ws[1..]);
      assert r[1] == Merged(nl, ws[1..])[0];
      if nl.letter(r[1].text) {
        assert SoundToken(nl, ws[1].text);
        assert r[1] == ws[1] && |ws| > 2 && nl.rateNoun(ws[2].text);
        assert Merged(nl, ws[1..]) == [ws[1]] + Merged(nl, ws[1..][1..]);
        assert ws[1..][1..] == ws[2..];
        FirstOfMerged(nl, ws[2..]);
        assert r[2] == ws[2];
      }
    }
  }

  /** No mergeable pair is left, the rate-noun exception included: a second pass changes nothing. */
  lemma {:induction false} MergedTwice(nl: Numbers, ws: seq<Word>)
    requires SoundNumbers(nl)
    ensures Merged(nl, Merged(nl, ws)) == Merged(nl, ws)
    decreases |ws|
  {
    if ws != [] {
      var n := if Merges(nl, ws) then 2 else 1;
      NothingNewMerges(nl, ws);
      assert Merged(nl, ws)[1..] == Merged(nl, ws[n..]);
      MergedTwice(nl, ws[n..]);
    }
  }

  /** At place k a letter follows a number, and not as in "five a day". */
  ghost predicate PairAt(nl: Numbers, ws: seq<Word>, k: nat) {
    && k + 1 < |ws| && nl.number(ws[k].text) && nl.letter(ws[k + 1].text)
    && !(nl.article(ws[k + 1].text) && k + 2 < |ws| && nl.rateNoun(ws[k + 2].text))
  }

  /** The token is a word, or a number and the letter after it, joined. */
  ghost predicate Reads(nl: Numbers, ws: seq<Word>, t: Word) {
    || t in ws
    || exists k: nat :: PairAt(nl, ws, k)
         && t == Word(nl.combine(ws[k].text, ws[k + 1].text), ws[k].start, ws[k + 1].end, ws[k].speaker)
  }

  lemma {:induction false} ReadsLater(nl: Numbers, ws: seq<Word>, n: nat, t: Word)
    requires n <= |ws| && Reads(nl, ws[n..], t)
    ensures Reads(nl, ws, t)
  {
    var rest := ws[n..];
    if t !in rest {
      var k: nat :| PairAt(nl, rest, k)
        && t == Word(nl.combine(rest[k].text, rest[k + 1].text), rest[k].start, rest[k + 1].end, rest[k].speaker);
      assert PairAt(nl, ws, n + k);
    }
  }

  /** Every token of the result reads, and no letter is left behind a number it belongs to. */
  lemma {:induction false} MergedReads(nl: Numbers, ws: seq<Word>, k: nat)
    requires SoundNumbers(nl) && k < |Merged(nl, ws)|
    ensures Reads(nl, ws, Merged(nl, ws)[k]) && !PairAt(nl, Merged(nl, ws), k)
    decreases |ws|
  {
    var r, n := Merged(nl, ws), if Merges(nl, ws) then 2 else 1;
    if k == 0 {
      NothingNewMerges(nl, ws);
      assert Merges(nl, ws) ==> PairAt(nl, ws, k);
    } else {
      assert r[1..] == Merged(nl, ws[n..]);
      MergedReads(nl, ws[n..], k - 1);
      ReadsLater(nl, ws, n, r[k]);
    }
  }
}
