/**
 * The style analyzer: readability metrics over the words and sentences of a
 * post, five penalty ladders (Flesch score, sentence length, passive voice,
 * adverbs, complex words) and a readability score that starts at 100 and
 * loses every penalty.
 *
 * The tokenising the analyzer leans on (`wp_strip_all_tags`, `str_word_count`,
 * the sentence split on `[.!?]+` and the passive and `-ly` regex matches) is
 * not modelled: a text comes with its word list and those counts. Arithmetic
 * is exact over the reals, where PHP uses floating point.
 */
module Style {
  import opened Php

  // ---------------------------------------------------------------- syllables

  predicate IsVowel(c: char) {
    c == 'a' || c == 'e' || c == 'i' || c == 'o' || c == 'u' || c == 'y'
  }

  /** The number of maximal runs of vowels in `s`. */
  function VowelRuns(s: string): (n: nat)
    ensures n <= |s|
    decreases |s|
  {
    if |s| == 0 then 0
    else
      var starts := IsVowel(s[|s| - 1]) && (|s| == 1 || !IsVowel(s[|s| - 2]));
      VowelRuns(s[..|s| - 1]) + (if starts then 1 else 0)
  }

  /**
   * `count_syllables`: the vowel runs of the lower-cased word, one fewer for a
   * final 'e' in a word longer than two letters, and never fewer than one.
   */
  function Syllables(word: string): (n: nat)
    ensures n >= 1
  {
    var w := Lower(word);
    var silentE := if |w| > 2 && w[|w| - 1] == 'e' then 1 else 0;
    var n := VowelRuns(w) - silentE;
    if n < 1 then 1 else n
  }

  /** Runs are separated by a consonant, so a string has at most half its length (rounded up) of them. */
  lemma {:induction false} VowelRunsBound(s: string)
    ensures 2 * VowelRuns(s) <= |s| + (if |s| > 0 && IsVowel(s[|s| - 1]) then 1 else 0)
    decreases |s|
  {
    if |s| > 0 {
      var init := s[..|s| - 1];
      VowelRunsBound(init);
      if |s| > 1 {
        assert init[|init| - 1] == s[|s| - 2];
      }
    }
  }

  /** Gluing two strings joins their runs, except that a run spanning the seam is counted once. */
  lemma {:induction false} VowelRunsAppend(a: string, b: string)
    ensures VowelRuns(a + b) ==
      VowelRuns(a) + VowelRuns(b) - (if |a| > 0 && |b| > 0 && IsVowel(a[|a| - 1]) && IsVowel(b[0]) then 1 else 0)
    decreases |b|
  {
    if |b| == 0 {
      assert a + b == a;
    } else {
      var init := b[..|b| - 1];
      VowelRunsAppend(a, init);
      assert (a + b)[..|a + b| - 1] == a + init;
      if |b| > 1 {
        assert init[0] == b[0];
        assert init[|init| - 1] == b[|b| - 2];
      }
    }
  }

  /** A word without vowels still has one syllable, and a word never has more syllables than letters. */
  lemma SyllablesBounds(word: string)
    ensures Syllables(word) <= if |word| == 0 then 1 else |word|
    ensures (forall i :: 0 <= i < |word| ==> !IsVowel(LowerChar(word[i]))) ==> Syllables(word) == 1
  {
    var w := Lower(word);
    if forall i :: 0 <= i < |word| ==> !IsVowel(LowerChar(word[i])) {
      NoVowelsNoRuns(w);
    }
  }

  lemma {:induction false} NoVowelsNoRuns(s: string)
    requires forall i :: 0 <= i < |s| ==> !IsVowel(s[i])
    ensures VowelRuns(s) == 0
    decreases |s|
  {
    if |s| > 0 {
      NoVowelsNoRuns(s[..|s| - 1]);
    }
  }

  /** The loop of `count_syllables`, with its `previous_was_vowel` flag. */
  method CountSyllables(word: string) returns (n: nat)
    ensures n == Syllables(word)
  {
    var w := Lower(word);
    var syllables := 0;
    var previousWasVowel := false;
    var i := 0;
    while i < |w|
      invariant 0 <= i <= |w|
      invariant syllables == VowelRuns(w[..i])
      invariant previousWasVowel == (i > 0 && IsVowel(w[i - 1]))
    {
      VowelRunsStep(w, i);
      var isVowel := IsVowel(w[i]);
      if isVowel && !previousWasVowel {
        syllables := syllables + 1;
      }
      previousWasVowel := isVowel;
      i := i + 1;
    }
    assert w[..|w|] == w;
    if |w| > 2 && w[|w| - 1] == 'e' {
      syllables := syllables - 1;
    }
    n := if syllables < 1 then 1 else syllables;
  }

  /** One more letter starts a new run exactly when it is a vowel after a non-vowel or at the start. */
  lemma VowelRunsStep(w: string, i: int)
    requires 0 <= i < |w|
    ensures VowelRuns(w[..i + 1]) == VowelRuns(w[..i]) + (if IsVowel(w[i]) && !(i > 0 && IsVowel(w[i - 1])) then 1 else 0)
  {
    var p := w[..i + 1];
    assert p[..|p| - 1] == w[..i];
    assert p[|p| - 1] == w[i];
    if i > 0 {
      assert p[|p| - 2] == w[i - 1];
    }
  }

  // ---------------------------------------------------------------- metrics

  /** The syllables of every word. */
  function TotalSyllables(words: seq<string>): (n: nat)
    ensures n >= |words|
    decreases |words|
  {
    if |words| == 0 then 0 else TotalSyllables(words[..|words| - 1]) + Syllables(words[|words| - 1])
  }

  /** How many words have three syllables or more. */
  function ComplexWords(words: seq<string>): (n: nat)
    ensures n <= |words|
    decreases |words|
  {
    if |words| == 0 then 0
    else ComplexWords(words[..|words| - 1]) + (if Syllables(words[|words| - 1]) >= 3 then 1 else 0)
  }

  /** Every complex word brings at least three syllables and every other word at least one. */
  lemma {:induction false} ComplexWordsSyllables(words: seq<string>)
    ensures TotalSyllables(words) >= |words| + 2 * ComplexWords(words)
    decreases |words|
  {
    if |words| > 0 {
      ComplexWordsSyllables(words[..|words| - 1]);
    }
  }

  /** What `calculate_readability_metrics` returns. */
  datatype Metrics = Metrics(
    wordCount: nat,
    sentenceCount: nat,
    syllableCount: nat,
    flesch: real,
    avgSentenceLength: real,
    avgSyllablesPerWord: real)

  /** The Flesch Reading Ease score, clamped to [0, 100]; 0 without a sentence or a word. */
  function Flesch(words: nat, sentences: nat, syllables: nat): (f: real)
    ensures 0.0 <= f <= 100.0
    ensures sentences == 0 || words == 0 ==> f == 0.0
  {
    if sentences > 0 && words > 0 then
      var f := 206.835 - 1.015 * (words as real / sentences as real) - 84.6 * (syllables as real / words as real);
      if f > 100.0 then 100.0 else if f < 0.0 then 0.0 else f
    else 0.0
  }

  /** A quotient that is 0 when the divisor is 0. */
  function Average(n: nat, d: nat): (a: real)
    ensures d == 0 ==> a == 0.0
    ensures d > 0 ==> a * d as real == n as real
  {
    if d > 0 then n as real / d as real else 0.0
  }

  /** The metrics of a text with the given words and sentence count, rounded as returned. */
  function MetricsOf(words: seq<string>, sentences: nat): (m: Metrics)
    ensures m.wordCount == |words| && m.sentenceCount == sentences
    ensures m.syllableCount == TotalSyllables(words)
    ensures sentences == 0 ==> m.avgSentenceLength == 0.0
    ensures |words| == 0 ==> m.avgSyllablesPerWord == 0.0 && m.flesch == 0.0
  {
    var syllables := TotalSyllables(words);
    Metrics(|words|, sentences, syllables,
            RoundTo(Flesch(|words|, sentences, syllables), 10.0),
            RoundTo(Average(|words|, sentences), 10.0),
            RoundTo(Average(syllables, |words|), 100.0))
  }

  /** `calculate_readability_metrics`: the syllable loop over the words. */
  method CalculateMetrics(words: seq<string>, sentences: nat) returns (m: Metrics)
    ensures m == MetricsOf(words, sentences)
  {
    var syllables := 0;
    var i := 0;
    while i < |words|
      invariant 0 <= i <= |words|
      invariant syllables == TotalSyllables(words[..i])
    {
      assert words[..i + 1][..i] == words[..i];
      var n := CountSyllables(words[i]);
      syllables := syllables + n;
      i := i + 1;
    }
    assert words[..|words|] == words;
    m := Metrics(|words|, sentences, syllables,
                 RoundTo(Flesch(|words|, sentences, syllables), 10.0),
                 RoundTo(Average(|words|, sentences), 10.0),
                 RoundTo(Average(syllables, |words|), 100.0));
  }

  /** The complex-word loop of `analyze_complex_words`. */
  method CountComplexWords(words: seq<string>) returns (n: nat)
    ensures n == ComplexWords(words)
  {
    n := 0;
    var i := 0;
    while i < |words|
      invariant 0 <= i <= |words|
      invariant n == ComplexWords(words[..i])
    {
      assert words[..i + 1][..i] == words[..i];
      var s := CountSyllables(words[i]);
      if s >= 3 {
        n := n + 1;
      }
      i := i + 1;
    }
    assert words[..|words|] == words;
  }

  // ---------------------------------------------------------------- sections

  /** What an issue reports, with the figure its `message` shows. */
  datatype Finding =
    | VeryDifficult(fleschScore: real)
    | Difficult(fleschScore: real)
    | ModeratelyDifficult(fleschScore: real)
    | LongSentences(averageWords: int)
    | HighPassive(percent: int)
    | HighAdverbs(share: real)
    | HighComplex(percent: int)

  /** An entry of `issues`: its `type`, its `message` (as a finding) and `severity`. */
  datatype Issue = Issue(kind: string, message: Finding, severity: string)

  /** A suggestion; `SuggestionText` gives its string. */
  datatype Suggestion =
    | SimplifyLanguage
    | SimplifySentences
    | SimplifySome
    | ExcellentReadability
    | BreakLongSentences
    | ShortenSomeSentences
    | UseActiveVoice
    | ReducePassive
    | FewerAdverbs
    | SimplerWords

  function SuggestionText(s: Suggestion): string {
    match s
    case SimplifyLanguage => "Your content is very difficult to read. Simplify your language, use shorter sentences, and break down complex ideas."
    case SimplifySentences => "Your content is fairly difficult to read. Consider simplifying sentences and using more common words."
    case SimplifySome => "Your content is moderately readable. For broader appeal, consider simplifying some complex sentences."
    case ExcellentReadability => "Excellent readability! Your content is very easy to read and accessible to most audiences."
    case BreakLongSentences => "Your sentences are quite long. Aim for 15-20 words per sentence. Break long sentences into shorter ones."
    case ShortenSomeSentences => "Consider shortening some sentences. Aim for an average of 15-20 words per sentence for optimal readability."
    case UseActiveVoice => "You have a high percentage of passive voice. Convert passive sentences to active voice for stronger, clearer writing."
    case ReducePassive => "Consider reducing passive voice usage. Active voice is typically stronger and more engaging."
    case FewerAdverbs => "You use a lot of adverbs (-ly words). Consider replacing them with stronger verbs for more impactful writing."
    case SimplerWords => "You use many complex words (3+ syllables). Simplify where possible to improve readability."
  }

  /** What one `analyze_*` helper returns. */
  datatype Section = Section(issues: seq<Issue>, suggestions: seq<Suggestion>, penalty: nat)

  /** `analyze_flesch_score`: under 30 costs 30, under 50 costs 20, under 60 costs 10; over 90 earns praise. */
  function FleschSection(score: real): (s: Section)
    ensures s.penalty == (if score < 30.0 then 30 else if score < 50.0 then 20 else if score < 60.0 then 10 else 0)
    ensures s.penalty > 0 <==> s.issues != []
    ensures |s.suggestions| == (if score < 60.0 || score > 90.0 then 1 else 0)
  {
    if score < 30.0 then Section([Issue("error", VeryDifficult(score), "high")], [SimplifyLanguage], 30)
    else if score < 50.0 then Section([Issue("warning", Difficult(score), "medium")], [SimplifySentences], 20)
    else if score < 60.0 then Section([Issue("info", ModeratelyDifficult(score), "low")], [SimplifySome], 10)
    else if score > 90.0 then Section([], [ExcellentReadability], 0)
    else Section([], [], 0)
  }

  /** A more readable text never costs more. */
  lemma FleschPenaltyAntitone(a: real, b: real)
    requires a <= b
    ensures FleschSection(b).penalty <= FleschSection(a).penalty
  {
  }

  /** `analyze_sentence_length`: over 25 words costs 15 with an issue, over 20 costs 5 with a suggestion only. */
  function SentenceSection(avgLength: real): (s: Section)
    ensures s.penalty == (if avgLength > 25.0 then 15 else if avgLength > 20.0 then 5 else 0)
    ensures s.issues != [] <==> avgLength > 25.0
    ensures |s.suggestions| == (if s.penalty > 0 then 1 else 0)
  {
    if avgLength > 25.0 then Section([Issue("warning", LongSentences(Round(avgLength)), "medium")], [BreakLongSentences], 15)
    else if avgLength > 20.0 then Section([], [ShortenSomeSentences], 5)
    else Section([], [], 0)
  }

  /** `count / total * 100`, for a positive total. */
  function Percentage(count: nat, total: nat): real
    requires total > 0
  {
    count as real / total as real * 100.0
  }

  /** A percentage exceeds a bound exactly when the cross-multiplied counts do. */
  lemma PercentageAbove(count: nat, total: nat, bound: nat)
    requires total > 0
    ensures Percentage(count, total) > bound as real <==> 100 * count > bound * total
  {
    var q := count as real / total as real;
    assert q * total as real == count as real;
    assert Percentage(count, total) * total as real == 100.0 * count as real;
  }

  /**
   * `analyze_passive_voice`, judged only when there is a sentence:
   * over 15% passive costs 12 with an issue, over 10% costs 5 with a suggestion only.
   */
  function PassiveSection(passive: nat, sentences: nat): (s: Section)
    ensures sentences == 0 ==> s == Section([], [], 0)
    ensures |s.suggestions| == (if s.penalty > 0 then 1 else 0)
    ensures s.issues != [] <==> s.penalty == 12
  {
    if sentences > 0 then
      var percentage := Percentage(passive, sentences);
      if percentage > 15.0 then Section([Issue("warning", HighPassive(Round(percentage)), "medium")], [UseActiveVoice], 12)
      else if percentage > 10.0 then Section([], [ReducePassive], 5)
      else Section([], [], 0)
    else Section([], [], 0)
  }

  /** The passive ladder in whole numbers: 12 above 15 passives per 100 sentences, 5 above 10. */
  lemma PassivePenalty(passive: nat, sentences: nat)
    ensures PassiveSection(passive, sentences).penalty ==
      if sentences == 0 then 0
      else if 100 * passive > 15 * sentences then 12
      else if 100 * passive > 10 * sentences then 5
      else 0
  {
    if sentences > 0 {
      PercentageAbove(passive, sentences, 15);
      PercentageAbove(passive, sentences, 10);
    }
  }

  /** `analyze_adverbs`, judged only when there is a word: over 5% adverbs costs 8. */
  function AdverbSection(adverbs: nat, words: nat): (s: Section)
    ensures words == 0 ==> s == Section([], [], 0)
    ensures s.penalty == 0 || s.penalty == 8
    ensures s.penalty == 8 <==> s.issues != []
    ensures |s.suggestions| == |s.issues| <= 1
  {
    if words > 0 then
      var percentage := Percentage(adverbs, words);
      if percentage > 5.0 then Section([Issue("info", HighAdverbs(RoundTo(percentage, 10.0)), "low")], [FewerAdverbs], 8)
      else Section([], [], 0)
    else Section([], [], 0)
  }

  /** `analyze_complex_words`, judged only when there is a word: over 20% complex words costs 10. */
  function ComplexSection(complex: nat, words: nat): (s: Section)
    ensures words == 0 ==> s == Section([], [], 0)
    ensures s.penalty == 0 || s.penalty == 10
    ensures s.penalty == 10 <==> s.issues != []
    ensures |s.suggestions| == |s.issues| <= 1
  {
    if words > 0 then
      var percentage := Percentage(complex, words);
      if percentage > 20.0 then Section([Issue("warning", HighComplex(Round(percentage)), "medium")], [SimplerWords], 10)
      else Section([], [], 0)
    else Section([], [], 0)
  }

  /** The adverb and complex-word ladders in whole numbers. */
  lemma WordPenalties(adverbs: nat, complex: nat, words: nat)
    ensures AdverbSection(adverbs, words).penalty == (if words > 0 && 100 * adverbs > 5 * words then 8 else 0)
    ensures ComplexSection(complex, words).penalty == (if words > 0 && 100 * complex > 20 * words then 10 else 0)
  {
    if words > 0 {
      PercentageAbove(adverbs, words, 5);
      PercentageAbove(complex, words, 20);
    }
  }

  // ---------------------------------------------------------------- analyze

  /** A text as the analyzer sees it. */
  datatype Text = Text(
    words: seq<string>,       // str_word_count($text, 1)
    sentences: nat,           // the pieces of preg_split('/[.!?]+/', ..., PREG_SPLIT_NO_EMPTY)
    passives: nat,            // matches of the two passive-voice patterns
    adverbs: nat)             // matches of \b\w+ly\b

  /** What `analyze` returns, without the `analyzed_at` clock reading. */
  datatype Report = Report(score: int, metrics: Metrics, issues: seq<Issue>, suggestions: seq<Suggestion>)

  function Penalty(f: Section, s: Section, p: Section, a: Section, c: Section): nat {
    f.penalty + s.penalty + p.penalty + a.penalty + c.penalty
  }

  /** The report of five sections: 100 less every penalty, at least 0, and the sections' lists in order. */
  function Combine(m: Metrics, f: Section, s: Section, p: Section, a: Section, c: Section): Report {
    var score := 100 - Penalty(f, s, p, a, c);
    Report(if score < 0 then 0 else score, m,
           f.issues + s.issues + p.issues + a.issues + c.issues,
           f.suggestions + s.suggestions + p.suggestions + a.suggestions + c.suggestions)
  }

  /** The report `analyze` gives for a text. */
  function StyleReport(t: Text): Report {
    var m := MetricsOf(t.words, t.sentences);
    Combine(m,
            FleschSection(m.flesch),
            SentenceSection(m.avgSentenceLength),
            PassiveSection(t.passives, t.sentences),
            AdverbSection(t.adverbs, |t.words|),
            ComplexSection(ComplexWords(t.words), |t.words|))
  }

  /** `analyze`: the readability score loses each section's penalty in turn. */
  method Analyze(t: Text) returns (r: Report)
    ensures r == StyleReport(t)
    ensures 25 <= r.score <= 100
  {
    var issues: seq<Issue> := [];
    var suggestions: seq<Suggestion> := [];
    var score := 100;

    var metrics := CalculateMetrics(t.words, t.sentences);

    var flesch := FleschSection(metrics.flesch);
    issues := issues + flesch.issues;
    suggestions := suggestions + flesch.suggestions;
    score := score - flesch.penalty;

    var sentence := SentenceSection(metrics.avgSentenceLength);
    issues := issues + sentence.issues;
    suggestions := suggestions + sentence.suggestions;
    score := score - sentence.penalty;

    var passive := PassiveSection(t.passives, t.sentences);
    issues := issues + passive.issues;
    suggestions := suggestions + passive.suggestions;
    score := score - passive.penalty;

    var adverb := AdverbSection(t.adverbs, |t.words|);
    issues := issues + adverb.issues;
    suggestions := suggestions + adverb.suggestions;
    score := score - adverb.penalty;

    var complexCount := CountComplexWords(t.words);
    var complex := ComplexSection(complexCount, |t.words|);
    issues := issues + complex.issues;
    suggestions := suggestions + complex.suggestions;
    score := score - complex.penalty;

    score := if score < 0 then 0 else score;
    r := Report(score, metrics, issues, suggestions);
    assert [] + flesch.issues == flesch.issues && [] + flesch.suggestions == flesch.suggestions;
    assert r == Combine(metrics, flesch, sentence, passive, adverb, complex);
    ScoreBounds(t);
  }

  /** The penalties add up to at most 30 + 15 + 12 + 8 + 10 = 75, so the score is between 25 and 100. */
  lemma ScoreBounds(t: Text)
    ensures 25 <= StyleReport(t).score <= 100
  {
  }

  /** Every issue costs something: a text with an issue scores below 100. */
  lemma IssuesCost(t: Text)
    ensures StyleReport(t).issues != [] ==> StyleReport(t).score < 100
  {
    var m := MetricsOf(t.words, t.sentences);
    IssuesCostCombine(m, FleschSection(m.flesch), SentenceSection(m.avgSentenceLength),
                      PassiveSection(t.passives, t.sentences), AdverbSection(t.adverbs, |t.words|),
                      ComplexSection(ComplexWords(t.words), |t.words|));
  }

  lemma IssuesCostCombine(m: Metrics, f: Section, s: Section, p: Section, a: Section, c: Section)
    requires f.issues != [] ==> f.penalty > 0
    requires s.issues != [] ==> s.penalty > 0
    requires p.issues != [] ==> p.penalty > 0
    requires a.issues != [] ==> a.penalty > 0
    requires c.issues != [] ==> c.penalty > 0
    ensures Combine(m, f, s, p, a, c).issues != [] ==> Combine(m, f, s, p, a, c).score < 100
  {
    var all := f.issues + s.issues + p.issues + a.issues + c.issues;
    assert |all| == |f.issues| + |s.issues| + |p.issues| + |a.issues| + |c.issues|;
  }

  /** A text without words or sentences scores 70: only the Flesch ladder, at 0, costs anything. */
  lemma EmptyText()
    ensures StyleReport(Text([], 0, 0, 0)).score == 70
  {
  }
}
