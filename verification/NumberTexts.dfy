/**
  Numbers, letters and rate nouns as the normalizer tells them apart, for letters without accents.
  They satisfy what the merging of numbers and letters asks of them.
 */
module NumberTexts {
  import opened NumberLetters
  import opened Words
  import opened Texts

  predicate IsPunctuation(c: char) {
    || c == '.' || c == ',' || c == '!' || c == '?' || c == ';' || c == ':' || c == '"' || c == '\''
    || c == '(' || c == ')' || c == '[' || c == ']' || c == '{' || c == '}'
  }

  /** Without punctuation at either end, in lower case. */
  function Clean(s: string): string { Lower(Stripped(IsPunctuation, s)) }

  predicate IsDigit(c: char) { '0' <= c <= '9' }

  predicate AllDigits(s: string) { s != "" && forall i :: 0 <= i < |s| ==> IsDigit(s[i]) }

  predicate IsLetter(c: char) { 'a' <= c <= 'z' || 'A' <= c <= 'Z' }

  function Units(): seq<string> {
    ["zero", "one", "two", "three", "four", "five", "six", "seven", "eight", "nine", "ten", "eleven", "twelve",
     "thirteen", "fourteen", "fifteen", "sixteen", "seventeen", "eighteen", "nineteen"]
  }

  function Tens(): seq<string> { ["twenty", "thirty", "forty", "fifty", "sixty", "seventy", "eighty", "ninety"] }

  function RateNouns(): set<string> {
    {"day", "days", "week", "weeks", "month", "months", "year", "years", "time", "times", "minute", "minutes",
     "second", "seconds", "dollar", "dollars", "pound", "pounds", "penny", "pennies", "cent", "cents", "naira",
     "share", "shares", "head", "heads", "piece", "pieces"}
  }

  /** "twenty-five" */
  predicate TensUnits(c: string) {
    exists i :: 0 <= i < |c| && c[i] == '-' && c[..i] in Tens() && c[i + 1..] in Units()
  }

  predicate NumberWord(c: string) { c in Units() || c in Tens() }

  predicate IsNumber(c: string) { AllDigits(c) || NumberWord(c) || TensUnits(c) }

  function Place(ws: seq<string>, w: string): nat {
    if ws == [] || ws[0] == w then 0 else 1 + Place(ws[1..], w)
  }

  /** What a number word stands for. */
  function ValueOf(w: string): nat { if w in Units() then Place(Units(), w) else 10 * (2 + Place(Tens(), w)) }

  function Decimal(n: nat): (r: string)
    ensures AllDigits(r)
  {
    var digit := '0' + (n % 10) as char;
    if n < 10 then [digit] else Decimal(n / 10) + [digit]
  }

  /** Punctuation at the end of a text. */
  function Trail(s: string): string {
    if s != "" && IsPunctuation(s[|s| - 1]) then Trail(s[..|s| - 1]) + [s[|s| - 1]] else ""
  }

  /** What a number in words is looked up or added up to is written in digits; other texts may
      come back as they are. */
  ghost predicate WritesDigits(words: string -> string) {
    forall c :: IsNumber(c) && !AllDigits(c) ==> AllDigits(words(c))
  }

  function Numeral(words: string -> string, c: string): string { if AllDigits(c) then c else words(c) }

  function Combined(words: string -> string, a: string, b: string): string {
    Numeral(words, Clean(a)) + (if Clean(b) == "" then "" else [UpperChar(Clean(b)[0])]) + Trail(b)
  }

  predicate IsOneLetter(c: string) { |c| == 1 && IsLetter(c[0]) }

  predicate IsRateNoun(c: string) { c in RateNouns() }

  predicate NumberText(t: string) { IsNumber(Clean(t)) }

  predicate LetterText(t: string) { IsOneLetter(Clean(t)) }

  predicate ArticleText(t: string) { Clean(t) == "a" }

  predicate RateText(t: string) { IsRateNoun(Clean(t)) }

  function CourtNumbers(words: string -> string): Numbers {
    Numbers(NumberText, LetterText, ArticleText, RateText, (a, b) => Combined(words, a, b))
  }

  // ---------------------------------------------------------------- first letters tell them apart

  /** How number words begin. */
  predicate StartsNumber(w: string) {
    && |w| >= 3
    && (w[0] == 'z' || w[0] == 'o' || w[0] == 'f' || w[0] == 'e'
        || (w[0] == 't' && w[1] != 'i') || (w[0] == 's' && (w[1] == 'i' || w[2] == 'v'))
        || (w[0] == 'n' && w[1] == 'i'))
  }

  /** How rate nouns begin. */
  predicate StartsRate(w: string) {
    && |w| >= 3
    && (w[0] == 'd' || w[0] == 'w' || w[0] == 'm' || w[0] == 'y' || w[0] == 'p' || w[0] == 'c' || w[0] == 'h'
        || (w[0] == 't' && w[1] == 'i') || (w[0] == 's' && w[1] != 'i' && w[2] != 'v') || (w[0] == 'n' && w[1] == 'a'))
  }

  lemma {:induction false} UnitStarts(w: string)
    requires w in Units()
    ensures StartsNumber(w)
  {
  }

  lemma {:induction false} TenStarts(w: string)
    requires w in Tens()
    ensures StartsNumber(w)
  {
  }

  lemma {:induction false} RateStarts(w: string)
    requires w in RateNouns()
    ensures StartsRate(w)
  {
  }

  /** A number is written in digits or begins like a number word. */
  lemma {:induction false} NumberStarts(c: string)
    ensures IsNumber(c) ==> AllDigits(c) || StartsNumber(c)
  {
    if c in Units() {
      UnitStarts(c);
    } else if c in Tens() {
      TenStarts(c);
    } else if TensUnits(c) {
      var i :| 0 <= i < |c| && c[i] == '-' && c[..i] in Tens() && c[i + 1..] in Units();
      TenStarts(c[..i]);
    }
  }

  lemma {:induction false} NoNumber(c: string)
    requires IsRateNoun(c) || IsOneLetter(c)
    ensures !IsNumber(c)
  {
    if IsRateNoun(c) {
      RateStarts(c);
    }
    assert !IsDigit(c[0]);
    assert !AllDigits(c) && !StartsNumber(c);
    NumberStarts(c);
  }

  // ---------------------------------------------------------------- merged pairs

  lemma {:induction false} TrailIsPunctuation(s: string)
    ensures forall i :: 0 <= i < |Trail(s)| ==> IsPunctuation(Trail(s)[i])
  {
    if s != "" && IsPunctuation(s[|s| - 1]) {
      TrailIsPunctuation(s[..|s| - 1]);
    }
  }

  lemma {:induction false} NoPunctuation(c: char)
    requires IsDigit(c) || IsLetter(c)
    ensures !IsPunctuation(c)
  {
  }

  /** A merged pair cleans to its digits and its letter. */
  lemma {:induction false} CleanPair(digits: string, u: char, trail: string)
    requires AllDigits(digits) && 'A' <= u <= 'Z' && forall i :: 0 <= i < |trail| ==> IsPunctuation(trail[i])
    ensures Clean(digits + [u] + trail) == Lower(digits + [u])
  {
    var core := digits + [u];
    NoPunctuation(digits[0]);
    NoPunctuation(u);
    assert (core + trail)[0] == digits[0];
    assert StripLeft(IsPunctuation, core + trail) == core + trail;
    StripRightDrops(IsPunctuation, core, trail);
    assert core[|core| - 1] == u;
  }

  lemma {:induction false} PairIsNoNumber(digits: string, u: char)
    requires AllDigits(digits) && 'A' <= u <= 'Z'
    ensures !IsNumber(Lower(digits + [u]))
  {
    var c := Lower(digits + [u]);
    assert (digits + [u])[0] == digits[0] && (digits + [u])[|digits|] == u;
    assert IsDigit(digits[0]) && c[0] == digits[0];
    assert !IsDigit(c[|digits|]) && !AllDigits(c) && !StartsNumber(c);
    NumberStarts(c);
  }

  /** A merged pair is neither a number nor a letter. */
  lemma {:induction false} CombinedIsNeither(words: string -> string, a: string, b: string)
    requires WritesDigits(words) && NumberText(a) && LetterText(b)
    ensures var c := Clean(Combined(words, a, b)); !IsNumber(c) && !IsOneLetter(c)
  {
    var digits, u := Numeral(words, Clean(a)), UpperChar(Clean(b)[0]);
    TrailIsPunctuation(b);
    CleanPair(digits, u, Trail(b));
    PairIsNoNumber(digits, u);
  }

  /** The tests of the normalizer meet the conditions of merging numbers and letters. */
  lemma {:induction false} CourtNumbersSound(words: string -> string)
    requires WritesDigits(words)
    ensures SoundNumbers(CourtNumbers(words))
  {
    forall t ensures SoundToken(CourtNumbers(words), t) {
      if RateText(t) || LetterText(t) {
        NoNumber(Clean(t));
      }
    }
    forall a, b ensures SoundPair(CourtNumbers(words), a, b) {
      if NumberText(a) && LetterText(b) {
        CombinedIsNeither(words, a, b);
      }
    }
  }

  // ---------------------------------------------------------------- "five", "a"

  /** A text of lower-case letters is clean. */
  lemma {:induction false} LettersAreClean(t: string)
    requires t != "" && forall i :: 0 <= i < |t| ==> 'a' <= t[i] <= 'z'
    ensures Clean(t) == t && Trail(t) == ""
  {
    assert !IsPunctuation(t[0]) && !IsPunctuation(t[|t| - 1]);
  }

  lemma {:induction false} FiveIsNumber(c: string)
    requires c == "five"
    ensures IsNumber(c) && !AllDigits(c)
  {
    assert Units()[5] == "five";
    assert !IsDigit(c[0]);
  }

  lemma {:induction false} FiveAndA(words: string -> string, five: string, a: string, digits: string)
    requires five == "five" && a == "a" && digits == words(five) && digits == "5"
    ensures NumberText(five) && LetterText(a) && Combined(words, five, a) == digits + "A"
  {
    LettersAreClean(five);
    LettersAreClean(a);
    FiveIsNumber(five);
  }

  /** An exhibit number: "five", "a" is written "5A". */
  lemma {:induction false} FiveAIsExhibit(words: string -> string, ws: seq<Word>, digits: string)
    requires |ws| == 2 && ws[0].text == "five" && ws[1].text == "a" && digits == words(ws[0].text) && digits == "5"
    ensures Merged(CourtNumbers(words), ws) == [Word(digits + "A", ws[0].start, ws[1].end, ws[0].speaker)]
  {
    FiveAndA(words, ws[0].text, ws[1].text, digits);
    assert ws[2..] == [];
  }
}
