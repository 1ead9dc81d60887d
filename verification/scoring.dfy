/**
 * The speech-transcript scorer: eight independent metrics over one
 * transcript and the aggregator that adds them up.
 *
 * What the language-processing libraries report about the transcript is
 * passed in (an `Analysis`): the sentence splitter's sentences with their word
 * tokens, the part-of-speech tags, the sentiment polarity and the number of
 * rhetorical-question matches; the natural logarithm is the parameter `ln`.
 * Word extraction, table look-ups, ratios, threshold ladders, clamps and the
 * sum are computed here. Python floats are exact reals.
 */
module Scoring {
  import opened Text

  /** One sentence from the sentence splitter, with the tokens the word
      tokenizer makes of it. */
  datatype Sentence = Sentence(text: string, tokens: seq<string>)

  /** A (word, part-of-speech tag) pair. */
  datatype Tagged = Tagged(word: string, tag: string)

  /** The polarity the sentiment analyser reports for the whole transcript,
      or the exception it raised. */
  datatype Sentiment = Polarity(polarity: real) | SentimentRaised

  datatype Result<T> = Ok(value: T) | Failure(error: string)

  /**
   * The library results for one transcript.
   * - `sentences`: the sentence splitter's output, each with its word tokens;
   * - `blobTags`: the tag lists of the sentences the agreement scan went
   *   through; when the tagger raises at some sentence, only the lists of the
   *   sentences before it;
   * - `tokenTags`: the tags of the whole transcript's word tokens;
   * - `sentiment`: the transcript's polarity, in [-1, 1] when it is reported;
   * - `rhetoricalQuestions`: the number of matches of three words followed by
   *   whitespace and a question mark.
   */
  datatype Analysis = Analysis(
    sentences: seq<Sentence>,
    blobTags: seq<seq<Tagged>>,
    tokenTags: seq<Tagged>,
    sentiment: Sentiment,
    rhetoricalQuestions: nat)

  const SUBORDINATING_CONJUNCTIONS: seq<string> :=
    ["that", "which", "who", "whom", "whose", "where", "when",
     "if", "unless", "because", "since", "although", "while"]

  const TRANSITIONS: seq<string> :=
    ["however", "therefore", "consequently", "furthermore", "moreover",
     "nevertheless", "nonetheless", "meanwhile", "otherwise", "thus",
     "hence", "accordingly", "additionally", "also", "as a result",
     "for example", "for instance", "in fact", "in addition", "in conclusion",
     "first", "second", "third", "finally", "next", "then", "afterward"]

  /** The entries of `TRANSITIONS` that are a single token. */
  const SINGLE_TOKEN_TRANSITIONS: seq<string> :=
    ["however", "therefore", "consequently", "furthermore", "moreover",
     "nevertheless", "nonetheless", "meanwhile", "otherwise", "thus",
     "hence", "accordingly", "additionally", "also",
     "first", "second", "third", "finally", "next", "then", "afterward"]

  const PRONOUNS: seq<string> :=
    ["he", "she", "it", "they", "this", "that", "these", "those"]

  const FILLER_WORDS: seq<string> :=
    ["like", "um", "uh", "basically", "actually", "you know",
     "sort of", "kind of", "I mean", "well", "so", "anyway"]

  /** The entries of `FILLER_WORDS` that are a single token. */
  const SINGLE_TOKEN_FILLERS: seq<string> :=
    ["like", "um", "uh", "basically", "actually", "well", "so", "anyway"]

  const STOP_WORDS: seq<string> :=
    ["a", "an", "the", "and", "or", "but", "in", "on", "at",
     "to", "for", "of", "with", "by", "from", "as", "is", "was",
     "are", "were", "been", "be", "have", "has", "had", "do",
     "does", "did", "will", "would", "could", "should"]

  const PASSIVE_INDICATORS: seq<string> :=
    ["is", "are", "was", "were", "been", "be"] + ["by"]

  const INTRO_INDICATORS: seq<string> :=
    ["introduction", "today", "in this", "i will", "we will", "let me"]

  const CONCLUSION_INDICATORS: seq<string> :=
    ["conclusion", "in conclusion", "finally", "in summary", "to summarize"]

  const TOPIC_MARKERS: seq<string> := ["this", "today", "we", "i", "here"]

  const SUMMARY_MARKERS: seq<string> := ["therefore", "thus", "in conclusion", "finally"]

  /** The breakdown's category names, in the order the aggregator lists them. */
  const CATEGORIES: seq<string> :=
    ["Grammar", "Vocabulary", "Sentence Complexity", "Coherence",
     "Clarity", "Engagement", "Content Relevance", "Structure"]

  /** The largest value each category can take, in the order of `CATEGORIES`. */
  const CATEGORY_MAXIMA: seq<real> := [10.0, 10.0, 10.0, 10.0, 15.0, 15.0, 20.0, 20.0]

  function Min(x: real, y: real): real {
    if x <= y then x else y
  }

  function Max(x: real, y: real): real {
    if x >= y then x else y
  }

  function Abs(x: real): real {
    if x < 0.0 then -x else x
  }

  /** The lower-cased words of the transcript, `re.findall(r'\b\w+\b', text.lower())`:
      runs of word characters, none exactly when the transcript has no word
      character. */
  function LowerWords(text: string): (ws: seq<string>)
    ensures forall k :: 0 <= k < |ws| ==> IsRun(ws[k], IsWordChar)
    ensures ws == [] <==> forall i :: 0 <= i < |text| ==> !IsWordChar(text[i])
  {
    Words(Lower(text))
  }

  // ---------------------------------------------------------------------
  // Grammar

  /** The distinct token counts of the sentences, `set(sentence_lengths)`. */
  function LengthSet(ss: seq<Sentence>): set<nat> {
    set s | s in ss :: |s.tokens|
  }

  /** Fewer than two distinct sentence lengths. */
  predicate UniformLengths(ss: seq<Sentence>) {
    |LengthSet(ss)| < 2
  }

  /** Fewer than two distinct lengths means every sentence has the same
      number of tokens; in particular a single sentence is uniform. */
  lemma UniformLengthsIffEqual(ss: seq<Sentence>)
    ensures UniformLengths(ss) <==>
      forall i, j :: 0 <= i < |ss| && 0 <= j < |ss| ==> |ss[i].tokens| == |ss[j].tokens|
  {
    var lengths := LengthSet(ss);
    if forall i, j :: 0 <= i < |ss| && 0 <= j < |ss| ==> |ss[i].tokens| == |ss[j].tokens| {
      if ss != [] {
        assert lengths == {|ss[0].tokens|};
      } else {
        assert lengths == {};
      }
    } else {
      var i, j :| 0 <= i < |ss| && 0 <= j < |ss| && |ss[i].tokens| != |ss[j].tokens|;
      var pair := {|ss[i].tokens|, |ss[j].tokens|};
      assert lengths == pair + (lengths - pair);
      assert |lengths| == |pair| + |lengths - pair|;
    }
  }

  /** A non-empty sentence whose first character is not upper case. */
  predicate NotCapitalised(s: Sentence) {
    s.text != [] && !IsUpper(s.text[0])
  }

  predicate IsTerminal(c: char) {
    c == '.' || c == '!' || c == '?'
  }

  /** `re.search(r'[.!?]$', text)`: `$` matches at the end of the text and
      also just before a line feed that ends it. */
  predicate EndsWithTerminal(text: string) {
    || (|text| >= 1 && IsTerminal(text[|text| - 1]))
    || (|text| >= 2 && text[|text| - 1] == '\n' && IsTerminal(text[|text| - 2]))
  }

  /** `$` matches before one final line feed but not before two. */
  lemma EndsWithTerminalAtLineFeed()
    ensures EndsWithTerminal("ok.") && EndsWithTerminal("ok.\n")
    ensures !EndsWithTerminal("ok.\n\n") && !EndsWithTerminal("ok. ")
  {
    assert "ok.\n"[3] == '\n' && "ok.\n"[2] == '.';
    assert "ok.\n\n"[4] == '\n' && "ok.\n\n"[3] == '\n';
  }

  predicate IsVerbTag(tag: string) {
    |tag| >= 2 && tag[..2] == "VB"
  }

  predicate EndsWithS(w: string) {
    w != [] && w[|w| - 1] == 's'
  }

  /** A verb tag right after a singular-noun tag on a word not ending in `s`. */
  predicate AgreementSuspect(prev: Tagged, cur: Tagged) {
    IsVerbTag(cur.tag) && prev.tag == "NN" && !EndsWithS(cur.word)
  }

  /** The positions `i > 0` of one sentence's tags that are suspects. */
  function SuspectsIn(tags: seq<Tagged>): nat {
    if |tags| < 2 then 0
    else SuspectsIn(tags[..|tags| - 1])
         + (if AgreementSuspect(tags[|tags| - 2], tags[|tags| - 1]) then 1 else 0)
  }

  /** The suspects over all scanned sentences. */
  function Suspects(blobTags: seq<seq<Tagged>>): nat {
    if blobTags == [] then 0
    else Suspects(blobTags[..|blobTags| - 1]) + SuspectsIn(blobTags[|blobTags| - 1])
  }

  /** A suspect needs a verb tag, so a sentence without one has none. */
  lemma {:induction false} SuspectsInWithoutVerbs(tags: seq<Tagged>)
    requires forall j :: 0 <= j < |tags| ==> !IsVerbTag(tags[j].tag)
    ensures SuspectsIn(tags) == 0
  {
    if |tags| >= 2 {
      SuspectsInWithoutVerbs(tags[..|tags| - 1]);
    }
  }

  /** Without a verb tag anywhere there are no agreement suspects. */
  lemma {:induction false} SuspectsWithoutVerbs(blobTags: seq<seq<Tagged>>)
    requires forall i, j :: 0 <= i < |blobTags| && 0 <= j < |blobTags[i]| ==> !IsVerbTag(blobTags[i][j].tag)
    ensures Suspects(blobTags) == 0
  {
    if blobTags != [] {
      SuspectsWithoutVerbs(blobTags[..|blobTags| - 1]);
      SuspectsInWithoutVerbs(blobTags[|blobTags| - 1]);
    }
  }

  /** The issue count: one for uniform sentence lengths, one per sentence not
      starting with a capital, one for a missing final punctuation mark and
      one half per agreement suspect. */
  function GrammarIssues(text: string, ss: seq<Sentence>, blobTags: seq<seq<Tagged>>): real {
    (if UniformLengths(ss) then 1.0 else 0.0)
    + Count(ss, NotCapitalised) as real
    + (if EndsWithTerminal(text) then 0.0 else 1.0)
    + 0.5 * Suspects(blobTags) as real
  }

  /** The grammar score: 10 less the issues, never below 0; 0 without sentences. */
  function GrammarOf(text: string, ss: seq<Sentence>, blobTags: seq<seq<Tagged>>): (r: real)
    ensures 0.0 <= r <= 10.0
    ensures ss == [] ==> r == 0.0
  {
    if ss == [] then 0.0
    else Max(0.0, 10.0 - Min(GrammarIssues(text, ss, blobTags), 10.0))
  }

  /** `improved_grammar_score`: counts the issues sentence by sentence and tag
      by tag. */
  method ImprovedGrammarScore(text: string, ss: seq<Sentence>, blobTags: seq<seq<Tagged>>)
    returns (score: real)
    ensures score == GrammarOf(text, ss, blobTags)
  {
    if |ss| == 0 {
      return 0.0;
    }
    var issues := 0.0;
    var lengths := set s | s in ss :: |s.tokens|;
    if |lengths| < 2 {
      issues := issues + 1.0;
    }
    ghost var uniform := issues;
    for i := 0 to |ss|
      invariant issues == uniform + Count(ss[..i], NotCapitalised) as real
    {
      assert ss[..i + 1] == ss[..i] + [ss[i]];
      CountSnoc(ss[..i], ss[i], NotCapitalised);
      if ss[i].text != [] && !IsUpper(ss[i].text[0]) {
        issues := issues + 1.0;
      }
    }
    assert ss[..|ss|] == ss;
    if !EndsWithTerminal(text) {
      issues := issues + 1.0;
    }
    ghost var before := issues;
    for j := 0 to |blobTags|
      invariant issues == before + 0.5 * Suspects(blobTags[..j]) as real
    {
      var tags := blobTags[j];
      ghost var outer := issues;
      for i := 0 to |tags|
        invariant issues == outer + 0.5 * SuspectsIn(tags[..i]) as real
      {
        assert tags[..i + 1][..i] == tags[..i];
        if IsVerbTag(tags[i].tag) && i > 0 {
          var prevTag := tags[i - 1].tag;
          if prevTag == "NN" && !EndsWithS(tags[i].word) {
            issues := issues + 0.5;
          }
        }
      }
      assert tags[..|tags|] == tags;
      assert blobTags[..j + 1][..j] == blobTags[..j];
    }
    assert blobTags[..|blobTags|] == blobTags;
    score := Max(0.0, 10.0 - Min(issues, 10.0));
  }

  /** Full marks exactly when no issue is found. */
  lemma GrammarFullMarks(text: string, ss: seq<Sentence>, blobTags: seq<seq<Tagged>>)
    requires ss != []
    ensures GrammarOf(text, ss, blobTags) == 10.0 <==>
      && !UniformLengths(ss)
      && (forall i :: 0 <= i < |ss| ==> !NotCapitalised(ss[i]))
      && EndsWithTerminal(text)
      && Suspects(blobTags) == 0
  {
    CountPositive(ss, NotCapitalised);
  }

  /** k sentences of equal length, none starting with a capital, and no final
      punctuation: at least k + 2 issues, so at most 10 - (k + 2) points. */
  lemma GrammarUniformLowercaseUnpunctuated(text: string, ss: seq<Sentence>, blobTags: seq<seq<Tagged>>)
    requires ss != []
    requires forall i, j :: 0 <= i < |ss| && 0 <= j < |ss| ==> |ss[i].tokens| == |ss[j].tokens|
    requires forall i :: 0 <= i < |ss| ==> NotCapitalised(ss[i])
    requires !EndsWithTerminal(text)
    ensures GrammarOf(text, ss, blobTags) == Max(0.0, 10.0 - Min(|ss| as real + 2.0 + 0.5 * Suspects(blobTags) as real, 10.0))
    ensures GrammarOf(text, ss, blobTags) <= Max(0.0, 8.0 - |ss| as real)
  {
    UniformLengthsIffEqual(ss);
    CountAll(ss, NotCapitalised);
  }

  // ---------------------------------------------------------------------
  // Vocabulary

  /** Distinct words over words. */
  function TypeTokenRatio(ws: seq<string>): real
    requires ws != []
  {
    |set w | w in ws| as real / |ws| as real
  }

  /** The type-token ratio lies in (0, 1]. */
  lemma TypeTokenRatioBounds(ws: seq<string>)
    requires ws != []
    ensures 0.0 < TypeTokenRatio(ws) <= 1.0
  {
    DistinctBounds(ws);
  }

  function VocabularyTier(adjusted: real): real {
    if adjusted > 2.5 then 10.0
    else if adjusted > 2.0 then 8.0
    else if adjusted > 1.5 then 6.0
    else if adjusted > 1.0 then 4.0
    else 2.0
  }

  /** `vocabulary_richness`: the type-token ratio times the logarithm of the
      word count plus one, mapped through the ladder. Since the ratio is at
      most 1, full marks need ln(n + 1) > 2.5 for n words: with the natural
      logarithm, at least 12 words. */
  function VocabularyRichness(text: string, ln: nat -> real): (r: real)
    ensures r in {0.0, 2.0, 4.0, 6.0, 8.0, 10.0}
    ensures r == 0.0 <==> LowerWords(text) == []
    ensures r == 10.0 ==> ln(|LowerWords(text)| + 1) > 2.5
  {
    var ws := LowerWords(text);
    if ws == [] then 0.0
    else
      var ratio := TypeTokenRatio(ws);
      TypeTokenRatioBounds(ws);
      ScaledAtMost(ratio, ln(|ws| + 1));
      VocabularyTier(ratio * ln(|ws| + 1))
  }

  /** The ladder is strict: a value exactly on a threshold earns the lower
      tier, so an adjusted ratio of exactly 2.5 earns 8. */
  lemma VocabularyLadderStrict()
    ensures VocabularyTier(2.5) == 8.0 && VocabularyTier(2.0) == 6.0
    ensures VocabularyTier(1.5) == 4.0 && VocabularyTier(1.0) == 2.0
  {
  }

  /** A factor in (0, 1] does not enlarge a product past 2.5. */
  lemma ScaledAtMost(t: real, l: real)
    requires 0.0 < t <= 1.0
    ensures VocabularyTier(t * l) == 10.0 ==> l > 2.5
  {
    if l <= 2.5 {
      if l >= 0.0 {
        assert t * l <= 1.0 * l;
      } else {
        assert t * l < 0.0;
      }
    }
  }

  // ---------------------------------------------------------------------
  // Sentence complexity

  /** Some token of the sentence, lower-cased, is a subordinating conjunction. */
  predicate HasSubordinator(s: Sentence) {
    exists k :: 0 <= k < |s.tokens| && Lower(s.tokens[k]) in SUBORDINATING_CONJUNCTIONS
  }

  function TokenTotal(ss: seq<Sentence>): nat {
    if ss == [] then 0 else TokenTotal(ss[..|ss| - 1]) + |ss[|ss| - 1].tokens|
  }

  /** Average tokens per sentence. */
  function AverageLength(ss: seq<Sentence>): real
    requires ss != []
  {
    TokenTotal(ss) as real / |ss| as real
  }

  /** The complexity score: 10 or 8 need a complex sentence and an average
      above 20 or 15; otherwise 6 above an average of 10, else 4; 0 without
      sentences. */
  function ComplexityOf(ss: seq<Sentence>): (r: real)
    ensures r in {0.0, 4.0, 6.0, 8.0, 10.0}
    ensures r == 0.0 <==> ss == []
  {
    if ss == [] then 0.0
    else
      var avg := AverageLength(ss);
      var complex := Count(ss, HasSubordinator);
      if avg > 20.0 && complex > 0 then 10.0
      else if avg > 15.0 && complex > 0 then 8.0
      else if avg > 10.0 then 6.0
      else 4.0
  }

  /** `sentence_complexity`: counts complex and simple sentences in one pass. */
  method SentenceComplexity(ss: seq<Sentence>) returns (score: real)
    ensures score == ComplexityOf(ss)
  {
    if |ss| == 0 {
      return 0.0;
    }
    var avgLength := TokenTotal(ss) as real / |ss| as real;
    var complexSentences, simpleSentences := 0, 0;
    for i := 0 to |ss|
      invariant complexSentences == Count(ss[..i], HasSubordinator)
      invariant complexSentences + simpleSentences == i
    {
      assert ss[..i + 1] == ss[..i] + [ss[i]];
      CountSnoc(ss[..i], ss[i], HasSubordinator);
      if HasSubordinator(ss[i]) {
        complexSentences := complexSentences + 1;
      } else {
        simpleSentences := simpleSentences + 1;
      }
    }
    assert ss[..|ss|] == ss;
    if avgLength > 20.0 && complexSentences > 0 {
      score := 10.0;
    } else if avgLength > 15.0 && complexSentences > 0 {
      score := 8.0;
    } else if avgLength > 10.0 {
      score := 6.0;
    } else {
      score := 4.0;
    }
  }

  /** Full marks exactly when the average exceeds 20 and some sentence holds
      a subordinating conjunction. */
  lemma ComplexityTopTier(ss: seq<Sentence>)
    requires ss != []
    ensures ComplexityOf(ss) == 10.0 <==>
      AverageLength(ss) > 20.0 && exists i :: 0 <= i < |ss| && HasSubordinator(ss[i])
  {
    CountPositive(ss, HasSubordinator);
  }

  /** Without a subordinating conjunction the score never exceeds 6. */
  lemma ComplexityWithoutSubordinator(ss: seq<Sentence>)
    requires forall i :: 0 <= i < |ss| ==> !HasSubordinator(ss[i])
    ensures ComplexityOf(ss) <= 6.0
  {
    CountPositive(ss, HasSubordinator);
  }

  /** The thresholds are strict: an average of exactly 20 with a conjunction earns 8. */
  lemma ComplexityBoundary(ss: seq<Sentence>)
    requires ss != [] && AverageLength(ss) == 20.0
    requires exists i :: 0 <= i < |ss| && HasSubordinator(ss[i])
    ensures ComplexityOf(ss) == 8.0
  {
    CountPositive(ss, HasSubordinator);
  }

  // ---------------------------------------------------------------------
  // Coherence

  predicate IsTransition(w: string) {
    w in TRANSITIONS
  }

  predicate IsSingleTokenTransition(w: string) {
    w in SINGLE_TOKEN_TRANSITIONS
  }

  predicate IsPronoun(w: string) {
    w in PRONOUNS
  }

  function TransitionDensity(ws: seq<string>): real
    requires ws != []
  {
    Count(ws, IsTransition) as real / |ws| as real
  }

  /** `coherence_score`: transition density and pronoun presence mapped
      through the ladder; 0 without words. */
  function CoherenceScore(text: string): (r: real)
    ensures r in {0.0, 4.0, 6.0, 8.0, 10.0}
    ensures r == 0.0 <==> LowerWords(text) == []
  {
    var ws := LowerWords(text);
    if ws == [] then 0.0
    else
      var density := TransitionDensity(ws);
      var pronounCount := Count(ws, IsPronoun);
      if density > 0.05 && pronounCount > 0 then 10.0
      else if density > 0.03 then 8.0
      else if density > 0.01 then 6.0
      else 4.0
  }

  /** Full marks exactly when the density exceeds 0.05 and some word is a
      pronoun; that density without a pronoun earns 8. */
  lemma CoherenceTopTier(text: string)
    requires LowerWords(text) != []
    ensures var ws := LowerWords(text);
      CoherenceScore(text) == 10.0 <==>
        TransitionDensity(ws) > 0.05 && exists i :: 0 <= i < |ws| && IsPronoun(ws[i])
    ensures var ws := LowerWords(text);
      TransitionDensity(ws) > 0.05 && (forall i :: 0 <= i < |ws| ==> !IsPronoun(ws[i])) ==>
        CoherenceScore(text) == 8.0
  {
    CountPositive(LowerWords(text), IsPronoun);
  }

  /** In a text of fewer than 20 words a single transition already makes a
      density above 0.05, so one transition and one pronoun earn full marks. */
  lemma CoherenceShortText(text: string)
    requires |LowerWords(text)| < 20
    requires exists i :: 0 <= i < |LowerWords(text)| && IsTransition(LowerWords(text)[i])
    requires exists i :: 0 <= i < |LowerWords(text)| && IsPronoun(LowerWords(text)[i])
    ensures CoherenceScore(text) == 10.0
  {
    var ws := LowerWords(text);
    CountPositive(ws, IsTransition);
    CountPositive(ws, IsPronoun);
    AboveTwentieth(Count(ws, IsTransition) as real, |ws| as real);
  }

  /** At least one in fewer than twenty is more than 0.05. */
  lemma AboveTwentieth(t: real, n: real)
    requires t >= 1.0 && 0.0 < n < 20.0
    ensures t / n > 0.05
  {
    DivLess(1.0, 20.0, t, n);
  }

  predicate IsFiller(w: string) {
    w in FILLER_WORDS
  }

  predicate IsSingleTokenFiller(w: string) {
    w in SINGLE_TOKEN_FILLERS
  }

  /** Words never contain a space, so the multi-word entries of the
      transition and filler tables ("as a result", "you know", "I mean", ...)
      never match, and the counts are those of the one-word entries. */
  lemma MultiWordEntriesNeverMatch(text: string)
    ensures forall k :: 0 <= k < |LowerWords(text)| ==> ' ' !in LowerWords(text)[k]
    ensures Count(LowerWords(text), IsTransition) == Count(LowerWords(text), IsSingleTokenTransition)
    ensures Count(LowerWords(text), IsFiller) == Count(LowerWords(text), IsSingleTokenFiller)
  {
    var ws := LowerWords(text);
    forall k | 0 <= k < |ws|
      ensures ' ' !in ws[k]
    {
      assert IsRun(ws[k], IsWordChar);
    }
    forall w: string | ' ' !in w
      ensures IsTransition(w) <==> IsSingleTokenTransition(w)
      ensures IsFiller(w) <==> IsSingleTokenFiller(w)
    {
    }
    CountSame(ws, IsTransition, IsSingleTokenTransition);
    CountSame(ws, IsFiller, IsSingleTokenFiller);
  }

  // ---------------------------------------------------------------------
  // Clarity

  predicate IsContentWord(w: string) {
    w !in STOP_WORDS
  }

  /** `max(0, 7 - filler_ratio * 100)` for `fillers` filler words among `n`. */
  function FillerScore(n: nat, fillers: nat): real
    requires n > 0
  {
    Max(0.0, 7.0 - fillers as real / n as real * 100.0)
  }

  /** `content_ratio * 8` for `content` content words among `n`. */
  function ContentScore(n: nat, content: nat): real
    requires n > 0
  {
    content as real / n as real * 8.0
  }

  /** The clarity formula on the counts, capped at 15. */
  function ClarityOf(n: nat, fillers: nat, content: nat): real
    requires n > 0
  {
    Min(15.0, FillerScore(n, fillers) + ContentScore(n, content))
  }

  /** The filler part is at most 7 and the content part at most 8, so the cap
      of 15 never binds. */
  lemma ClarityCapNeverBinds(n: nat, fillers: nat, content: nat)
    requires 0 < n && content <= n
    ensures 0.0 <= FillerScore(n, fillers) <= 7.0
    ensures 0.0 <= ContentScore(n, content) <= 8.0
    ensures ClarityOf(n, fillers, content) == FillerScore(n, fillers) + ContentScore(n, content)
  {
    var ratio := content as real / n as real;
    assert ratio <= 1.0;
    assert ratio * 8.0 <= 8.0;
  }

  /** The clarity formula on the lower-cased words; 0 exactly without words,
      since a word is either a content word or, when every word is a stop
      word, leaves the filler part at 7. */
  function ClarityOfWords(ws: seq<string>): (r: real)
    ensures 0.0 <= r <= 15.0
    ensures r == 0.0 <==> ws == []
  {
    if ws == [] then 0.0
    else
      var fillers, content := Count(ws, IsFiller), Count(ws, IsContentWord);
      FillersAreContentWords(ws);
      ClarityPositive(|ws|, fillers, content);
      ClarityOf(|ws|, fillers, content)
  }

  /** `clarity_score`: 0 exactly without words. */
  function ClarityScore(text: string): (r: real)
    ensures 0.0 <= r <= 15.0
    ensures r == 0.0 <==> LowerWords(text) == []
  {
    ClarityOfWords(LowerWords(text))
  }

  /** With no more fillers than content words the score is positive. */
  lemma ClarityPositive(n: nat, fillers: nat, content: nat)
    requires 0 < n && fillers <= content <= n
    ensures 0.0 < ClarityOf(n, fillers, content) <= 15.0
  {
    ClarityCapNeverBinds(n, fillers, content);
    if content == 0 {
      assert FillerScore(n, fillers) == 7.0;
    } else {
      assert content as real / n as real > 0.0;
    }
  }

  /** Filler words are not stop words, so every filler also counts as a
      content word. */
  lemma FillersAreContentWords(ws: seq<string>)
    ensures Count(ws, IsFiller) <= Count(ws, IsContentWord)
  {
    forall w | IsFiller(w)
      ensures IsContentWord(w)
    {
      FillerIsContentWord(w);
    }
    CountMonotone(ws, IsFiller, IsContentWord);
  }

  /** At a fixed word count and content-word count, more fillers never raise
      the clarity score. */
  lemma ClarityFillerMonotone(n: nat, fillers: nat, fillers': nat, content: nat)
    requires 0 < n && content <= n
    requires fillers <= fillers'
    ensures ClarityOf(n, fillers', content) <= ClarityOf(n, fillers, content)
  {
    var m := n as real;
    assert fillers as real / m <= fillers' as real / m;
    ClarityCapNeverBinds(n, fillers, content);
    ClarityCapNeverBinds(n, fillers', content);
  }

  /** Appending a filler word adds one word, one filler and, since fillers
      are not stop words, one content word. */
  lemma ClarityOfAppendedFiller(ws: seq<string>, w: string)
    requires IsFiller(w)
    ensures ClarityOfWords(ws + [w])
            == ClarityOf(|ws| + 1, Count(ws, IsFiller) + 1, Count(ws, IsContentWord) + 1)
  {
    AppendedFillerCounts(ws, w);
  }

  lemma AppendedFillerCounts(ws: seq<string>, w: string)
    requires IsFiller(w)
    ensures Count(ws + [w], IsFiller) == Count(ws, IsFiller) + 1
    ensures Count(ws + [w], IsContentWord) == Count(ws, IsContentWord) + 1
  {
    FillerIsContentWord(w);
    CountSnoc(ws, w, IsFiller);
    CountSnoc(ws, w, IsContentWord);
  }

  /** No filler word is a stop word. */
  lemma FillerIsContentWord(w: string)
    requires IsFiller(w)
    ensures IsContentWord(w)
  {
    FillerCases(w);
    if w in STOP_WORDS {
      var i :| 0 <= i < |STOP_WORDS| && STOP_WORDS[i] == w;
      StopWordCases(w, i);
      assert false;
    }
  }

  lemma FillerCases(w: string)
    requires IsFiller(w)
    ensures || w == "like" || w == "um" || w == "uh" || w == "basically"
            || w == "actually" || w == "you know" || w == "sort of" || w == "kind of"
            || w == "I mean" || w == "well" || w == "so" || w == "anyway"
  {
  }

  lemma StopWordCases(w: string, i: nat)
    requires i < |STOP_WORDS| && STOP_WORDS[i] == w
    ensures || w == "a" || w == "an" || w == "the" || w == "and" || w == "or" || w == "but" || w == "in" || w == "on"
            || w == "at" || w == "to" || w == "for" || w == "of" || w == "with" || w == "by" || w == "from" || w == "as"
            || w == "is" || w == "was" || w == "are" || w == "were" || w == "been" || w == "be" || w == "have" || w == "has"
            || w == "had" || w == "do" || w == "does" || w == "did" || w == "will" || w == "would" || w == "could" || w == "should"
  {
  }

  lemma DivAtLeast(a: real, b: real, k: real)
    requires b > 0.0 && a >= k * b
    ensures a / b >= k
  {
    var q := a / b;
    assert q * b == a;
    if q < k {
      assert q * b < k * b;
    }
  }

  lemma DivLess(a: real, b: real, c: real, d: real)
    requires b > 0.0 && d > 0.0 && a * d < c * b
    ensures a / b < c / d
  {
    var q, r := a / b, c / d;
    assert q * b == a && r * d == c;
  }

  /**
   * Once fillers make up at least 7% of the words the filler part is 0, and
   * one more filler word (which is also a content word) raises the content
   * part whenever some stop word is present: with "um the" the counts are
   * (2, 1, 1) and the score 4, with "um the um" they are (3, 2, 2) and the
   * score 16/3.
   */
  lemma AppendedFillerCanRaiseClarity(n: nat, fillers: nat, content: nat)
    requires fillers <= content < n
    requires 7 * n <= 100 * fillers
    ensures ClarityOf(n + 1, fillers + 1, content + 1) > ClarityOf(n, fillers, content)
  {
    var m, f, c := n as real, fillers as real, content as real;
    DivAtLeast(f, m, 0.07);
    assert FillerScore(n, fillers) == 0.0;
    DivAtLeast(f + 1.0, m + 1.0, 0.07);
    assert FillerScore(n + 1, fillers + 1) == 0.0;
    DivLess(c, m, c + 1.0, m + 1.0);
    ClarityCapNeverBinds(n, fillers, content);
    ClarityCapNeverBinds(n + 1, fillers + 1, content + 1);
  }

  // ---------------------------------------------------------------------
  // Engagement

  predicate IsPassiveIndicator(w: string) {
    w in PASSIVE_INDICATORS
  }

  /** `engagement_score`: the sentiment call comes first and is not guarded,
      so its exception escapes whatever the text; otherwise 0 without words,
      else 5 + 5 |polarity|, plus up to 5 for questions, plus up to 5 for few
      passive markers, capped at 15. */
  function EngagementScore(text: string, sentiment: Sentiment, questions: nat): (r: Result<real>)
    ensures r.Failure? <==> sentiment.SentimentRaised?
    ensures r.Ok? ==> 0.0 <= r.value <= 15.0
    ensures r.Ok? ==> (r.value == 0.0 <==> LowerWords(text) == [])
    ensures r.Ok? && LowerWords(text) != [] ==> r.value >= 5.0
  {
    match sentiment
    case SentimentRaised => Failure("sentiment analysis raised an exception")
    case Polarity(polarity) =>
      var passiveCount := Count(Split(Lower(text)), IsPassiveIndicator);
      var ws := LowerWords(text);
      if ws == [] then Ok(0.0)
      else
        var passiveRatio := passiveCount as real / |ws| as real;
        var sentimentScore := 5.0 + Abs(polarity) * 5.0;
        var questionScore := Min(5.0, questions as real * 2.0);
        var voiceScore := Max(0.0, 5.0 - passiveRatio * 10.0);
        Ok(Min(15.0, sentimentScore + questionScore + voiceScore))
  }

  /** Only the magnitude of the polarity counts: opposite polarities score
      the same. */
  lemma EngagementPolaritySymmetric(text: string, polarity: real, questions: nat)
    ensures EngagementScore(text, Polarity(polarity), questions)
         == EngagementScore(text, Polarity(-polarity), questions)
  {
  }

  /**
   * The passive markers are counted among the whitespace-separated tokens,
   * which keep their punctuation, while the ratio divides by the words. In
   * "It is." the words are "it" and "is", and "is" is a passive marker, but
   * the tokens are "it" and "is.", neither of which is one: the voice part
   * stays at 5 and a neutral sentence scores 10 rather than 5.
   */
  lemma PassiveMarkerWithPunctuation()
    ensures LowerWords("It is.") == ["it", "is"] && IsPassiveIndicator("is")
    ensures Count(Split(Lower("It is.")), IsPassiveIndicator) == 0
    ensures EngagementScore("It is.", Polarity(0.0), 0) == Ok(10.0)
  {
    ItIsCounts();
    NeutralWithoutPassiveTokens("It is.");
  }

  lemma ItIsCounts()
    ensures LowerWords("It is.") == ["it", "is"]
    ensures Count(Split(Lower("It is.")), IsPassiveIndicator) == 0
  {
    LowerItIs();
    ItIsWords();
    NoPassiveTokenInItIs();
  }

  /** With words but no passive token, no polarity and no question, the
      score is 10: 5 for the sentiment and 5 for the voice. */
  lemma NeutralWithoutPassiveTokens(text: string)
    requires LowerWords(text) != []
    requires Count(Split(Lower(text)), IsPassiveIndicator) == 0
    ensures EngagementScore(text, Polarity(0.0), 0) == Ok(10.0)
  {
  }

  lemma NoPassiveTokenInItIs()
    ensures Count(Split("it is."), IsPassiveIndicator) == 0
  {
    ItIsTokens();
    var tokens := ["it", "is."];
    assert !IsPassiveIndicator(tokens[0]) && !IsPassiveIndicator(tokens[1]);
    CountPositive(tokens, IsPassiveIndicator);
  }

  lemma LowerItIs()
    ensures Lower("It is.") == "it is."
  {
  }

  lemma ItIsWords()
    ensures Words("it is.") == ["it", "is"]
  {
    var seps, ws := ["", " ", "."], ["it", "is"];
    assert "it is." == Interleave(seps, ws);
    RunsOfInterleave(seps, ws, IsWordChar);
  }

  lemma ItIsTokens()
    ensures Split("it is.") == ["it", "is."]
  {
    var seps, ws := ["", " ", ""], ["it", "is."];
    assert "it is." == Interleave(seps, ws);
    RunsOfInterleave(seps, ws, IsNonSpace);
  }

  // ---------------------------------------------------------------------
  // Content relevance

  /** A word made of digits only: the maximal word runs that
      `re.findall(r'\b\d+\b', text)` finds. */
  predicate IsNumeral(w: string) {
    forall i :: 0 <= i < |w| ==> IsDigit(w[i])
  }

  /** `len(set(proper_nouns))`: the distinct words tagged as proper nouns;
      at most one per tag, and none exactly when no tag is "NNP". */
  function UniqueEntities(tags: seq<Tagged>): (n: nat)
    ensures n <= |tags|
    ensures n == 0 <==> forall i :: 0 <= i < |tags| ==> tags[i].tag != "NNP"
  {
    var names := set t | t in tags && t.tag == "NNP" :: t.word;
    ImageBound(tags);
    assert (exists i :: 0 <= i < |tags| && tags[i].tag == "NNP") ==> names != {} by {
      if exists i :: 0 <= i < |tags| && tags[i].tag == "NNP" {
        var i :| 0 <= i < |tags| && tags[i].tag == "NNP";
        assert tags[i].word in names;
      }
    }
    |names|
  }

  /** The proper-noun words are no more than the tags they come from. */
  lemma {:induction false} ImageBound(tags: seq<Tagged>)
    ensures |set t | t in tags && t.tag == "NNP" :: t.word| <= |tags|
  {
    if tags != [] {
      var init := tags[..|tags| - 1];
      var last := tags[|tags| - 1];
      ImageBound(init);
      assert tags == init + [last];
      var before := set t | t in init && t.tag == "NNP" :: t.word;
      var after := set t | t in tags && t.tag == "NNP" :: t.word;
      forall x | x in after
        ensures x in before + {last.word}
      {
        var t :| t in tags && t.tag == "NNP" && t.word == x;
        if t != last {
          assert t in init;
        }
      }
      var bound := before + {last.word};
      assert bound == after + (bound - after);
      assert |bound| == |after| + |bound - after|;
    }
  }

  /** `len(re.findall(r'\b\d+\b', text))`: a match is a digit run with a word
      boundary on both sides, that is a word made of digits only. */
  function NumeralCount(text: string): (n: nat)
    ensures n <= |Words(text)|
    ensures n == 0 <==> forall k :: 0 <= k < |Words(text)| ==> !IsNumeral(Words(text)[k])
  {
    CountPositive(Words(text), IsNumeral);
    Count(Words(text), IsNumeral)
  }

  /** Digits inside a longer word are not a match: "abc123 123abc 42 in 2020"
      holds two numerals. */
  lemma NumeralCountExample()
    ensures NumeralCount("abc123 123abc 42 in 2020") == 2
  {
    ExampleWords();
    ExampleNumerals();
  }

  lemma ExampleWords()
    ensures Words("abc123 123abc 42 in 2020") == ["abc123", "123abc", "42", "in", "2020"]
  {
    var seps := ["", " ", " ", " ", " ", ""];
    assert "abc123 123abc 42 in 2020" == Interleave(seps, ["abc123", "123abc", "42", "in", "2020"]);
    RunsOfInterleave(seps, ["abc123", "123abc", "42", "in", "2020"], IsWordChar);
  }

  lemma ExampleNumerals()
    ensures Count(["abc123", "123abc", "42", "in", "2020"], IsNumeral) == 2
  {
    var ws := ["abc123", "123abc", "42", "in", "2020"];
    assert !IsNumeral(ws[0]) by { assert !IsDigit(ws[0][0]); }
    assert !IsNumeral(ws[1]) by { assert !IsDigit(ws[1][5]); }
    assert !IsNumeral(ws[3]) by { assert !IsDigit(ws[3][0]); }
    CountSnoc(ws[..4], ws[4], IsNumeral);
    CountSnoc(ws[..3], ws[3], IsNumeral);
    CountSnoc(ws[..2], ws[2], IsNumeral);
    CountSnoc(ws[..1], ws[1], IsNumeral);
    CountSnoc(ws[..0], ws[0], IsNumeral);
    assert ws[..4] + [ws[4]] == ws;
    assert ws[..3] + [ws[3]] == ws[..4];
    assert ws[..2] + [ws[2]] == ws[..3];
    assert ws[..1] + [ws[1]] == ws[..2];
    assert ws[..0] + [ws[0]] == ws[..1];
  }

  /** Proper nouns and numerals per word. */
  function InfoDensity(text: string, tags: seq<Tagged>): real
    requires LowerWords(text) != []
  {
    (UniqueEntities(tags) + NumeralCount(text)) as real / |LowerWords(text)| as real
  }

  /** `content_relevance_score`: proper nouns and numbers per word mapped
      through the ladder; 0 without words, at least 5 with one. */
  function ContentRelevanceScore(text: string, tags: seq<Tagged>): (r: real)
    ensures r in {0.0, 5.0, 10.0, 15.0, 20.0}
    ensures r == 0.0 <==> LowerWords(text) == []
  {
    if LowerWords(text) == [] then 0.0
    else
      var density := InfoDensity(text, tags);
      if density > 0.15 then 20.0
      else if density > 0.10 then 15.0
      else if density > 0.05 then 10.0
      else 5.0
  }

  // ---------------------------------------------------------------------
  // Structure

  /** The four independent structure checks. */
  datatype StructureChecks = StructureChecks(
    hasIntro: bool, hasConclusion: bool, firstHasTopic: bool, lastHasSummary: bool)

  /** Substring tests on the lower-cased transcript and on its first and
      last sentences (the same sentence when there is only one). */
  function Checks(text: string, ss: seq<Sentence>): StructureChecks
    requires ss != []
  {
    StructureChecks(
      ContainsAny(Lower(text), INTRO_INDICATORS),
      ContainsAny(Lower(text), CONCLUSION_INDICATORS),
      ContainsAny(Lower(ss[0].text), TOPIC_MARKERS),
      ContainsAny(Lower(ss[|ss| - 1].text), SUMMARY_MARKERS))
  }

  function Passed(c: StructureChecks): nat {
    (if c.hasIntro then 1 else 0) + (if c.hasConclusion then 1 else 0)
    + (if c.firstHasTopic then 1 else 0) + (if c.lastHasSummary then 1 else 0)
  }

  /** Five points per check passed; 0 without sentences. */
  function StructureOf(text: string, ss: seq<Sentence>): (r: real)
    ensures r in {0.0, 5.0, 10.0, 15.0, 20.0}
    ensures ss == [] ==> r == 0.0
  {
    if ss == [] then 0.0 else 5.0 * Passed(Checks(text, ss)) as real
  }

  /** `structure_score`: adds 5 per passed check and caps the sum at 20. */
  method StructureScore(text: string, ss: seq<Sentence>) returns (score: real)
    ensures score == StructureOf(text, ss)
  {
    if |ss| == 0 {
      return 0.0;
    }
    var lowered := Lower(text);
    var hasIntro := ContainsAny(lowered, INTRO_INDICATORS);
    var hasConclusion := ContainsAny(lowered, CONCLUSION_INDICATORS);
    var firstSentence := Lower(ss[0].text);
    var lastSentence := Lower(ss[|ss| - 1].text);
    var firstHasTopic := ContainsAny(firstSentence, TOPIC_MARKERS);
    var lastHasSummary := ContainsAny(lastSentence, SUMMARY_MARKERS);
    var points := 0.0;
    if hasIntro {
      points := points + 5.0;
    }
    if hasConclusion {
      points := points + 5.0;
    }
    if firstHasTopic {
      points := points + 5.0;
    }
    if lastHasSummary {
      points := points + 5.0;
    }
    score := Min(20.0, points);
  }

  /** The topic marker "i" is a substring test: any first sentence with the
      letter i in it passes the topic check. */
  lemma StructureLetterI(text: string, ss: seq<Sentence>)
    requires ss != [] && 'i' in Lower(ss[0].text)
    ensures Checks(text, ss).firstHasTopic
    ensures StructureOf(text, ss) >= 5.0
  {
    var first := Lower(ss[0].text);
    var k :| 0 <= k < |first| && first[k] == 'i';
    assert first[k..k + 1] == TOPIC_MARKERS[3];
    assert OccursAt(first, TOPIC_MARKERS[3], k);
  }

  // ---------------------------------------------------------------------
  // Aggregation

  /** The total and the ordered breakdown. */
  datatype Evaluation = Evaluation(total: real, breakdown: seq<(string, real)>)

  function SumValues(b: seq<(string, real)>): real {
    if b == [] then 0.0 else b[0].1 + SumValues(b[1..])
  }

  /** The breakdown in the fixed category order, with its sum as the total. */
  function Tally(grammar: real, vocab: real, complexity: real, coherence: real,
                 clarity: real, engagement: real, content: real, structure: real): (e: Evaluation)
    requires 0.0 <= grammar <= 10.0 && 0.0 <= vocab <= 10.0
    requires 0.0 <= complexity <= 10.0 && 0.0 <= coherence <= 10.0
    requires 0.0 <= clarity <= 15.0 && 0.0 <= engagement <= 15.0
    requires 0.0 <= content <= 20.0 && 0.0 <= structure <= 20.0
    ensures |e.breakdown| == |CATEGORIES|
    ensures forall i :: 0 <= i < |CATEGORIES| ==> e.breakdown[i].0 == CATEGORIES[i]
    ensures e.breakdown[0].1 == grammar && e.breakdown[1].1 == vocab
    ensures e.breakdown[2].1 == complexity && e.breakdown[3].1 == coherence
    ensures e.breakdown[4].1 == clarity && e.breakdown[5].1 == engagement
    ensures e.breakdown[6].1 == content && e.breakdown[7].1 == structure
    ensures forall i :: 0 <= i < |CATEGORIES| ==> 0.0 <= e.breakdown[i].1 <= CATEGORY_MAXIMA[i]
    ensures e.total == SumValues(e.breakdown)
    ensures 0.0 <= e.total <= 110.0
  {
    var total := grammar + vocab + complexity + coherence + clarity + engagement + content + structure;
    var breakdown := [
      ("Grammar", grammar),
      ("Vocabulary", vocab),
      ("Sentence Complexity", complexity),
      ("Coherence", coherence),
      ("Clarity", clarity),
      ("Engagement", engagement),
      ("Content Relevance", content),
      ("Structure", structure)];
    SumEight(breakdown);
    Evaluation(total, breakdown)
  }

  /**
   * `calculate_improved_score`: the eight metrics in a fixed order and their
   * sum. The category maxima add up to 110, so the total is at most 110; an
   * exception from the sentiment analyser escapes.
   */
  function CalculateImprovedScore(text: string, a: Analysis, ln: nat -> real): (r: Result<Evaluation>)
    ensures r.Failure? <==> a.sentiment.SentimentRaised?
    ensures r.Ok? ==>
      && |r.value.breakdown| == |CATEGORIES|
      && (forall i :: 0 <= i < |CATEGORIES| ==>
            r.value.breakdown[i].0 == CATEGORIES[i] &&
            0.0 <= r.value.breakdown[i].1 <= CATEGORY_MAXIMA[i])
      && r.value.total == SumValues(r.value.breakdown)
      && 0.0 <= r.value.total <= 110.0
    ensures r.Ok? ==>
      && r.value.breakdown[0].1 == GrammarOf(text, a.sentences, a.blobTags)
      && r.value.breakdown[1].1 == VocabularyRichness(text, ln)
      && r.value.breakdown[2].1 == ComplexityOf(a.sentences)
      && r.value.breakdown[3].1 == CoherenceScore(text)
      && r.value.breakdown[4].1 == ClarityScore(text)
      && Ok(r.value.breakdown[5].1) == EngagementScore(text, a.sentiment, a.rhetoricalQuestions)
      && r.value.breakdown[6].1 == ContentRelevanceScore(text, a.tokenTags)
      && r.value.breakdown[7].1 == StructureOf(text, a.sentences)
  {
    match EngagementScore(text, a.sentiment, a.rhetoricalQuestions)
    case Failure(e) => Failure(e)
    case Ok(engagement) =>
      Ok(Tally(GrammarOf(text, a.sentences, a.blobTags), VocabularyRichness(text, ln),
               ComplexityOf(a.sentences), CoherenceScore(text), ClarityScore(text),
               engagement, ContentRelevanceScore(text, a.tokenTags), StructureOf(text, a.sentences)))
  }

  lemma SumEight(b: seq<(string, real)>)
    requires |b| == 8
    ensures SumValues(b) == b[0].1 + b[1].1 + b[2].1 + b[3].1 + b[4].1 + b[5].1 + b[6].1 + b[7].1
  {
    assert SumValues(b[7..]) == b[7].1 + SumValues(b[8..]);
    assert SumValues(b[6..]) == b[6].1 + SumValues(b[7..]);
    assert SumValues(b[5..]) == b[5].1 + SumValues(b[6..]);
    assert SumValues(b[4..]) == b[4].1 + SumValues(b[5..]);
    assert SumValues(b[3..]) == b[3].1 + SumValues(b[4..]);
    assert SumValues(b[2..]) == b[2].1 + SumValues(b[3..]);
    assert SumValues(b[1..]) == b[1].1 + SumValues(b[2..]);
    assert SumValues(b) == b[0].1 + SumValues(b[1..]);
  }

  /** A transcript with no words and no sentences scores 0 in every category
      when the sentiment analyser answers. */
  lemma EmptyTranscriptScoresZero(text: string, a: Analysis, ln: nat -> real)
    requires LowerWords(text) == [] && a.sentences == [] && a.sentiment.Polarity?
    ensures CalculateImprovedScore(text, a, ln).Ok?
    ensures CalculateImprovedScore(text, a, ln).value.total == 0.0
  {
    var e := CalculateImprovedScore(text, a, ln).value;
    SumEight(e.breakdown);
  }

  /** A transcript with at least one word scores at least 16: 2 for
      vocabulary, 4 for coherence, 5 for engagement and 5 for content
      relevance. */
  lemma AnyWordScoresAtLeastSixteen(text: string, a: Analysis, ln: nat -> real)
    requires LowerWords(text) != [] && a.sentiment.Polarity?
    ensures CalculateImprovedScore(text, a, ln).Ok?
    ensures CalculateImprovedScore(text, a, ln).value.total >= 16.0
  {
    var e := CalculateImprovedScore(text, a, ln).value;
    SumEight(e.breakdown);
  }
}
