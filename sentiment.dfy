/**
 * The keyword sentiment of a dream text: matches of each listed positive
 * and negative word between word boundaries are counted, and the balance
 * `(p - n) / (p + n)` is labelled by fixed thresholds. The thresholds are
 * stated as integer inequalities and proved equal to the ratio tests.
 */
module Sentiment {
  import opened Text

  datatype Label = VeryNegative | Negative | Neutral | Positive | VeryPositive

  const PositiveWords: seq<string> := [
    "mutlu", "sevinç", "huzur", "güzel", "harika", "başarı", "aşk", "sevgi",
    "umut", "şans", "kazanmak", "gülmek", "dans", "şarkı", "hediye", "bayram",
    "güneş", "ışık", "çiçek", "bahçe", "cennet", "melek", "barış", "dostluk",
    "zafer", "övgü", "onur", "gurur", "coşku", "neşe", "keyif", "rahatlık"
  ]

  const NegativeWords: seq<string> := [
    "üzgün", "korku", "endişe", "kaygı", "acı", "ölüm", "kaza", "tehlike",
    "düşmek", "kayıp", "yalnız", "terk", "hastalık", "ağrı", "kötü", "karanlık",
    "çığlık", "ağlamak", "öfke", "kavga", "savaş", "kan", "yara", "cehennem",
    "şeytan", "kabus", "dehşet", "panik", "stres", "depresyon", "umutsuz"
  ]

  predicate NonEmptyWords(words: seq<string>) {
    forall i :: 0 <= i < |words| ==> words[i] != ""
  }

  lemma WordListsNonEmpty()
    ensures NonEmptyWords(PositiveWords) && NonEmptyWords(NegativeWords)
  {
  }

  // ---------------------------------------------------------------------
  // Word-boundary matching

  /** `\w` of a regular expression without the `u` flag: ASCII letters, digits and `_`. */
  predicate AsciiWordChar(c: char) {
    'a' <= c <= 'z' || 'A' <= c <= 'Z' || '0' <= c <= '9' || c == '_'
  }

  /** Letters of Turkish text (ASCII, Latin-1 letters, ğ, ı, ş and their capitals) as word characters. */
  predicate LetterWordChar(c: char) {
    AsciiWordChar(c)
    || ('\U{00C0}' <= c <= '\U{00FF}' && c != '\U{00D7}' && c != '\U{00F7}')
    || c == 'ğ' || c == 'Ğ' || c == 'ı' || c == 'İ' || c == 'ş' || c == 'Ş'
  }

  /** `\b` at position `i`: the characters on either side differ in being word characters. */
  predicate Boundary(s: string, i: int, wordChar: char -> bool)
    requires 0 <= i <= |s|
  {
    (i > 0 && wordChar(s[i - 1])) != (i < |s| && wordChar(s[i]))
  }

  /** `\bw\b` matches at position `i`. */
  predicate MatchAt(s: string, w: string, i: int, wordChar: char -> bool) {
    OccursAt(s, w, i) && Boundary(s, i, wordChar) && Boundary(s, i + |w|, wordChar)
  }

  /**
   * The number of matches of the global pattern `/\bw\b/g` from position
   * `i` on: the search resumes at the end of each match.
   */
  function MatchesFrom(s: string, w: string, i: nat, wordChar: char -> bool): nat
    requires w != "" && i <= |s|
    decreases |s| - i
  {
    if i + |w| > |s| then 0
    else if MatchAt(s, w, i, wordChar) then 1 + MatchesFrom(s, w, i + |w|, wordChar)
    else MatchesFrom(s, w, i + 1, wordChar)
  }

  /** The matches counted are at most the positions where the word occurs. */
  lemma {:induction false} MatchesNeedOccurrence(s: string, w: string, i: nat, wordChar: char -> bool)
    requires w != "" && i <= |s|
    requires forall j :: i <= j <= |s| - |w| ==> !OccursAt(s, w, j)
    ensures MatchesFrom(s, w, i, wordChar) == 0
    decreases |s| - i
  {
    if i + |w| <= |s| {
      MatchesNeedOccurrence(s, w, i + 1, wordChar);
    }
  }

  /** Total matches of every word of `words`. */
  function Score(words: seq<string>, s: string, wordChar: char -> bool): nat
    requires NonEmptyWords(words)
  {
    if words == [] then 0
    else Score(words[..|words| - 1], s, wordChar) + MatchesFrom(s, words[|words| - 1], 0, wordChar)
  }

  /** The `forEach` over a word list that adds each word's match count. */
  method CountMatches(words: seq<string>, lowerText: string, wordChar: char -> bool) returns (score: nat)
    requires NonEmptyWords(words)
    ensures score == Score(words, lowerText, wordChar)
  {
    score := 0;
    var i := 0;
    while i < |words|
      invariant 0 <= i <= |words|
      invariant score == Score(words[..i], lowerText, wordChar)
    {
      assert words[..i + 1][..i] == words[..i];
      var matches := MatchesFrom(lowerText, words[i], 0, wordChar);
      score := score + matches;
      i := i + 1;
    }
    assert words[..|words|] == words;
  }

  // ---------------------------------------------------------------------
  // Labelling

  /** The thresholds on `(p - n) / (p + n)`, multiplied out. */
  function Classify(p: nat, n: nat): Label {
    if p + n == 0 then Neutral
    else if p > 3 * n then VeryPositive
    else if 9 * p > 11 * n then Positive
    else if 3 * p < n then VeryNegative
    else if 11 * p < 9 * n then Negative
    else Neutral
  }

  /** The labelling as written, on the real-valued ratio. */
  function RatioLabel(p: nat, n: nat): Label {
    if p + n == 0 then Neutral
    else
      var ratio := (p - n) as real / (p + n) as real;
      if ratio > 0.5 then VeryPositive
      else if ratio > 0.1 then Positive
      else if ratio < -0.5 then VeryNegative
      else if ratio < -0.1 then Negative
      else Neutral
  }

  lemma DivCompare(x: real, y: real, c: real)
    requires y > 0.0
    ensures x / y > c <==> x > c * y
    ensures x / y < c <==> x < c * y
  {
    assert x / y * y == x;
  }

  /** The integer thresholds agree with the ratio tests on every input. */
  lemma ClassifyIsRatio(p: nat, n: nat)
    ensures Classify(p, n) == RatioLabel(p, n)
  {
    if p + n > 0 {
      var x := (p - n) as real;
      var y := (p + n) as real;
      DivCompare(x, y, 0.5);
      DivCompare(x, y, 0.1);
      DivCompare(x, y, -0.5);
      DivCompare(x, y, -0.1);
    }
  }

  function Mirror(l: Label): Label {
    match l
    case VeryNegative => VeryPositive
    case Negative => Positive
    case Neutral => Neutral
    case Positive => Negative
    case VeryPositive => VeryNegative
  }

  function Rank(l: Label): int {
    match l
    case VeryNegative => 0
    case Negative => 1
    case Neutral => 2
    case Positive => 3
    case VeryPositive => 4
  }

  /** Swapping the two counts mirrors the label. */
  lemma ClassifyMirror(p: nat, n: nat)
    ensures Classify(n, p) == Mirror(Classify(p, n))
  {
  }

  /** One more positive match never lowers the label; one more negative match never raises it. */
  lemma ClassifyMonotone(p: nat, n: nat)
    ensures Rank(Classify(p, n)) <= Rank(Classify(p + 1, n))
    ensures Rank(Classify(p, n + 1)) <= Rank(Classify(p, n))
  {
  }

  /** With matches on one side only the label is the extreme one; with none it is neutral. */
  lemma ClassifyOneSided(p: nat, n: nat)
    ensures p > 0 && n == 0 ==> Classify(p, n) == VeryPositive
    ensures p == 0 && n > 0 ==> Classify(p, n) == VeryNegative
    ensures p == 0 && n == 0 ==> Classify(p, n) == Neutral
  {
  }

  /**
   * The label of a text counted with the boundaries the source's pattern has:
   * `\b` knows only ASCII word characters.
   */
  function SentimentAsWritten(text: string): (l: Label)
    ensures l == RatioLabel(Score(PositiveWords, Lower(text), AsciiWordChar), Score(NegativeWords, Lower(text), AsciiWordChar))
  {
    WordListsNonEmpty();
    ClassifyIsRatio(Score(PositiveWords, Lower(text), AsciiWordChar), Score(NegativeWords, Lower(text), AsciiWordChar));
    Classify(Score(PositiveWords, Lower(text), AsciiWordChar), Score(NegativeWords, Lower(text), AsciiWordChar))
  }

  /** The label of a text counted with letter-aware word boundaries. */
  function SentimentOf(text: string): Label {
    WordListsNonEmpty();
    Classify(Score(PositiveWords, Lower(text), LetterWordChar), Score(NegativeWords, Lower(text), LetterWordChar))
  }

  /** `analyzeSentiment`, with word boundaries that count Turkish letters as letters. */
  method AnalyzeSentiment(text: string) returns (sentiment: Label)
    ensures sentiment == SentimentOf(text)
    ensures sentiment == RatioLabel(Score(PositiveWords, Lower(text), LetterWordChar), Score(NegativeWords, Lower(text), LetterWordChar))
  {
    WordListsNonEmpty();
    var lowerText := Lower(text);
    var positiveScore := CountMatches(PositiveWords, lowerText, LetterWordChar);
    var negativeScore := CountMatches(NegativeWords, lowerText, LetterWordChar);
    ClassifyIsRatio(positiveScore, negativeScore);
    sentiment := Classify(positiveScore, negativeScore);
  }

  /**
   * With ASCII-only boundaries, a word that starts with a non-ASCII letter
   * matches only right after an ASCII letter, digit or `_`: never at the
   * start of the text or after a space.
   */
  lemma AsciiBoundaryNeedsWordBefore(s: string, w: string, i: int)
    requires w != "" && !AsciiWordChar(w[0]) && MatchAt(s, w, i, AsciiWordChar)
    ensures i > 0 && AsciiWordChar(s[i - 1])
  {
    assert s[i] == s[i..i + |w|][0];
  }

  /** The dream "ölüm" (death) counts no negative word as written, and one with letter boundaries. */
  lemma DeathNotCountedAsWritten()
    ensures MatchesFrom("ölüm", "ölüm", 0, AsciiWordChar) == 0
    ensures MatchesFrom("ölüm", "ölüm", 0, LetterWordChar) == 1
  {
    assert OccursAt("ölüm", "ölüm", 0);
    assert !Boundary("ölüm", 0, AsciiWordChar);
    assert Boundary("ölüm", 0, LetterWordChar) && Boundary("ölüm", 4, LetterWordChar);
  }

  // ---------------------------------------------------------------------
  // Labels as text

  /** The label strings `analyzeSentiment` returns. */
  function LabelName(l: Label): string {
    match l
    case VeryNegative => "very_negative"
    case Negative => "negative"
    case Neutral => "neutral"
    case Positive => "positive"
    case VeryPositive => "very_positive"
  }

  /** `translateSentimentLabel`. */
  function TranslateSentimentLabel(l: Label): (r: string)
    ensures r != ""
    ensures r == "Nötr" <==> l == Neutral
  {
    match l
    case VeryPositive => "Çok Pozitif"
    case Positive => "Pozitif"
    case Neutral => "Nötr"
    case Negative => "Negatif"
    case VeryNegative => "Çok Negatif"
  }

  /** The five labels have five different names and five different translations. */
  lemma LabelsDistinct(a: Label, b: Label)
    requires a != b
    ensures LabelName(a) != LabelName(b)
    ensures TranslateSentimentLabel(a) != TranslateSentimentLabel(b)
  {
  }
}
