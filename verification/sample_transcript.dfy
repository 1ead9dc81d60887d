/**
 * A transcript whose total exceeds 100. The score is presented as out of
 * 100, but the category maxima add up to 110, and the two-sentence
 * transcript
 *
 *   Today, 1, 2, 3, this. Finally, 4, 5, 6, 7, however, then.
 *
 * scores at least 101 for every polarity the sentiment analyser may report.
 *
 * The library results are those this text gives: the sentence splitter cuts
 * it after "this.", the word tokenizer makes 10 and 14 tokens of the two
 * sentences (every comma and full stop is a token), the text holds no verb,
 * so no tag is a verb tag, and it holds no question mark, so the
 * rhetorical-question pattern finds nothing. The lemmas take the tags, the
 * polarity and the question count as parameters and need only that no tag
 * is a verb tag. The logarithm must give ln(13) > 2.5, as the natural
 * logarithm does (ln 13 is about 2.565).
 */
module SampleTranscript {
  import opened Text
  import opened Scoring

  const FIRST: string := "Today, 1, " + "2, 3, this."
  const LAST: string := "Finally, 4, " + "5, 6, 7, " + "however, then."
  const TRANSCRIPT: string := FIRST + " " + LAST

  /** The transcript in pieces, each but the last ending in a space. */
  const PIECES: seq<string> :=
    ["Today, 1, ", "2, 3, this. ", "Finally, 4, ", "5, 6, 7, ", "however, then."]
  const LOWER_PIECES: seq<string> :=
    ["today, 1, ", "2, 3, this. ", "finally, 4, ", "5, 6, 7, ", "however, then."]

  /** The word tokenizer's tokens of the two sentences. */
  const FIRST_TOKENS: seq<string> := ["Today", ",", "1", ",", "2", ",", "3", ",", "this", "."]
  const LAST_TOKENS: seq<string> :=
    ["Finally", ",", "4", ",", "5", ",", "6", ",", "7", ",", "however", ",", "then", "."]
  const SENTENCES: seq<Sentence> := [Sentence(FIRST, FIRST_TOKENS), Sentence(LAST, LAST_TOKENS)]

  /** The regular-expression words of the transcript, and of its lower-cased
      form, piece by piece. */
  const WORDS: seq<string> :=
    ["Today", "1"] + (["2", "3", "this"] + (["Finally", "4"] + (["5", "6", "7"] + ["however", "then"])))
  const LOWER_WORDS: seq<string> :=
    ["today", "1"] + (["2", "3", "this"] + (["finally", "4"] + (["5", "6", "7"] + ["however", "then"])))

  /** What `str.split()` makes of the lower-cased transcript. */
  const SPLIT_TOKENS: seq<string> :=
    ["today,", "1,"] + (["2,", "3,", "this."] + (["finally,", "4,"] + (["5,", "6,", "7,"] + ["however,", "then."])))

  /** No tag of the agreement scan is a verb tag. */
  predicate NoVerbTags(blobTags: seq<seq<Tagged>>) {
    forall i, j :: 0 <= i < |blobTags| && 0 <= j < |blobTags[i]| ==> !IsVerbTag(blobTags[i][j].tag)
  }

  // ---------------------------------------------------------------------
  // The transcript, piece by piece

  lemma TranscriptIsJoined()
    ensures TRANSCRIPT == Join(PIECES)
  {
    assert "2, 3, this." + " " == PIECES[1];
    assert Join(PIECES[4..]) == PIECES[4] + [] == PIECES[4];
    assert Join(PIECES) == PIECES[0] + (PIECES[1] + (PIECES[2] + (PIECES[3] + PIECES[4])));
    ConcatAssoc(PIECES[0], "2, 3, this.", " ");
    ConcatAssoc(PIECES[0] + "2, 3, this.", " ", LAST);
    ConcatAssoc(PIECES[2], PIECES[3], PIECES[4]);
  }

  lemma LowerEachPiece()
    ensures LowerEach(PIECES) == LOWER_PIECES
  {
    assert Lower(PIECES[0]) == LOWER_PIECES[0];
    assert Lower(PIECES[1]) == LOWER_PIECES[1];
    assert Lower(PIECES[2]) == LOWER_PIECES[2];
    assert Lower(PIECES[3]) == LOWER_PIECES[3];
    assert Lower(PIECES[4]) == LOWER_PIECES[4];
    assert LowerEach(PIECES[5..]) == [];
  }

  lemma LowerTranscript()
    ensures Lower(TRANSCRIPT) == Join(LOWER_PIECES)
  {
    TranscriptIsJoined();
    LowerJoin(PIECES);
    LowerEachPiece();
  }

  // The words and the split tokens of each piece.

  lemma WordsOfToday()
    ensures Words(PIECES[0]) == ["Today", "1"]
  {
    var seps, ws := ["", ", ", ", "], ["Today", "1"];
    assert PIECES[0] == Interleave(seps, ws);
    RunsOfInterleave(seps, ws, IsWordChar);
  }

  lemma WordsOfLowerToday()
    ensures Words(LOWER_PIECES[0]) == ["today", "1"]
  {
    var seps, ws := ["", ", ", ", "], ["today", "1"];
    assert LOWER_PIECES[0] == Interleave(seps, ws);
    RunsOfInterleave(seps, ws, IsWordChar);
  }

  lemma WordsOfThis()
    ensures Words(PIECES[1]) == ["2", "3", "this"]
  {
    var seps, ws := ["", ", ", ", ", ". "], ["2", "3", "this"];
    assert PIECES[1] == Interleave(seps, ws);
    RunsOfInterleave(seps, ws, IsWordChar);
  }

  lemma WordsOfFinally()
    ensures Words(PIECES[2]) == ["Finally", "4"]
  {
    var seps, ws := ["", ", ", ", "], ["Finally", "4"];
    assert PIECES[2] == Interleave(seps, ws);
    RunsOfInterleave(seps, ws, IsWordChar);
  }

  lemma WordsOfLowerFinally()
    ensures Words(LOWER_PIECES[2]) == ["finally", "4"]
  {
    var seps, ws := ["", ", ", ", "], ["finally", "4"];
    assert LOWER_PIECES[2] == Interleave(seps, ws);
    RunsOfInterleave(seps, ws, IsWordChar);
  }

  lemma WordsOfSeven()
    ensures Words(PIECES[3]) == ["5", "6", "7"]
  {
    var seps, ws := ["", ", ", ", ", ", "], ["5", "6", "7"];
    assert PIECES[3] == Interleave(seps, ws);
    RunsOfInterleave(seps, ws, IsWordChar);
  }

  lemma WordsOfThen()
    ensures Words(PIECES[4]) == ["however", "then"]
  {
    var seps, ws := ["", ", ", "."], ["however", "then"];
    assert PIECES[4] == Interleave(seps, ws);
    RunsOfInterleave(seps, ws, IsWordChar);
  }

  lemma SplitOfToday()
    ensures Split(LOWER_PIECES[0]) == ["today,", "1,"]
  {
    var seps, ws := ["", " ", " "], ["today,", "1,"];
    assert LOWER_PIECES[0] == Interleave(seps, ws);
    RunsOfInterleave(seps, ws, IsNonSpace);
  }

  lemma SplitOfThis()
    ensures Split(LOWER_PIECES[1]) == ["2,", "3,", "this."]
  {
    var seps, ws := ["", " ", " ", " "], ["2,", "3,", "this."];
    assert LOWER_PIECES[1] == Interleave(seps, ws);
    RunsOfInterleave(seps, ws, IsNonSpace);
  }

  lemma SplitOfFinally()
    ensures Split(LOWER_PIECES[2]) == ["finally,", "4,"]
  {
    var seps, ws := ["", " ", " "], ["finally,", "4,"];
    assert LOWER_PIECES[2] == Interleave(seps, ws);
    RunsOfInterleave(seps, ws, IsNonSpace);
  }

  lemma SplitOfSeven()
    ensures Split(LOWER_PIECES[3]) == ["5,", "6,", "7,"]
  {
    var seps, ws := ["", " ", " ", " "], ["5,", "6,", "7,"];
    assert LOWER_PIECES[3] == Interleave(seps, ws);
    RunsOfInterleave(seps, ws, IsNonSpace);
  }

  lemma SplitOfThen()
    ensures Split(LOWER_PIECES[4]) == ["however,", "then."]
  {
    var seps, ws := ["", " ", ""], ["however,", "then."];
    assert LOWER_PIECES[4] == Interleave(seps, ws);
    RunsOfInterleave(seps, ws, IsNonSpace);
  }

  // The whole transcript.

  /** The runs of five parts joined, when no run spans two parts. */
  lemma JoinedRuns(parts: seq<string>, p: char -> bool)
    requires |parts| == 5
    requires forall k :: 0 <= k < 4 ==> parts[k] != [] && !p(parts[k][|parts[k]| - 1])
    ensures Runs(Join(parts), p) ==
      Runs(parts[0], p) + (Runs(parts[1], p) + (Runs(parts[2], p) + (Runs(parts[3], p) + Runs(parts[4], p))))
  {
    RunsJoin(parts, p);
    var r := Runs(parts[4], p);
    var t4, t3, t2, t1 := parts[4..], parts[3..], parts[2..], parts[1..];
    assert t4[1..] == [];
    assert RunsOfParts(t4, p) == r + [] == r;
    assert t3[0] == parts[3] && t3[1..] == t4;
    assert RunsOfParts(t3, p) == Runs(parts[3], p) + r;
    assert t2[0] == parts[2] && t2[1..] == t3;
    assert RunsOfParts(t2, p) == Runs(parts[2], p) + RunsOfParts(t3, p);
    assert t1[0] == parts[1] && t1[1..] == t2;
    assert RunsOfParts(t1, p) == Runs(parts[1], p) + RunsOfParts(t2, p);
  }

  /** Every piece but the last ends in a space. */
  lemma PiecesEndInSpace()
    ensures forall k :: 0 <= k < 4 ==> PIECES[k] != [] && PIECES[k][|PIECES[k]| - 1] == ' '
    ensures forall k :: 0 <= k < 4 ==> LOWER_PIECES[k] != [] && LOWER_PIECES[k][|LOWER_PIECES[k]| - 1] == ' '
  {
  }

  lemma PiecesWords()
    ensures Words(Join(PIECES)) == WORDS
  {
    PiecesEndInSpace();
    JoinedRuns(PIECES, IsWordChar);
    EachPieceWords();
  }

  lemma LowerPiecesWords()
    ensures Words(Join(LOWER_PIECES)) == LOWER_WORDS
  {
    PiecesEndInSpace();
    JoinedRuns(LOWER_PIECES, IsWordChar);
    EachLowerPieceWords();
  }

  lemma LowerPiecesSplit()
    ensures Split(Join(LOWER_PIECES)) == SPLIT_TOKENS
  {
    PiecesEndInSpace();
    JoinedRuns(LOWER_PIECES, IsNonSpace);
    EachLowerPieceSplit();
  }

  lemma EachPieceWords()
    ensures Words(PIECES[0]) == ["Today", "1"] && Words(PIECES[1]) == ["2", "3", "this"]
    ensures Words(PIECES[2]) == ["Finally", "4"] && Words(PIECES[3]) == ["5", "6", "7"]
    ensures Words(PIECES[4]) == ["however", "then"]
  {
    WordsOfToday();
    WordsOfThis();
    WordsOfFinally();
    WordsOfSeven();
    WordsOfThen();
  }

  lemma EachLowerPieceWords()
    ensures Words(LOWER_PIECES[0]) == ["today", "1"] && Words(LOWER_PIECES[1]) == ["2", "3", "this"]
    ensures Words(LOWER_PIECES[2]) == ["finally", "4"] && Words(LOWER_PIECES[3]) == ["5", "6", "7"]
    ensures Words(LOWER_PIECES[4]) == ["however", "then"]
  {
    assert LOWER_PIECES[1] == PIECES[1] && LOWER_PIECES[3] == PIECES[3] && LOWER_PIECES[4] == PIECES[4];
    WordsOfLowerToday();
    WordsOfThis();
    WordsOfLowerFinally();
    WordsOfSeven();
    WordsOfThen();
  }

  lemma EachLowerPieceSplit()
    ensures Split(LOWER_PIECES[0]) == ["today,", "1,"] && Split(LOWER_PIECES[1]) == ["2,", "3,", "this."]
    ensures Split(LOWER_PIECES[2]) == ["finally,", "4,"] && Split(LOWER_PIECES[3]) == ["5,", "6,", "7,"]
    ensures Split(LOWER_PIECES[4]) == ["however,", "then."]
  {
    SplitOfToday();
    SplitOfThis();
    SplitOfFinally();
    SplitOfSeven();
    SplitOfThen();
  }

  lemma TranscriptWords()
    ensures Words(TRANSCRIPT) == WORDS
  {
    TranscriptIsJoined();
    PiecesWords();
  }

  lemma TranscriptLowerWords()
    ensures LowerWords(TRANSCRIPT) == LOWER_WORDS
  {
    LowerTranscript();
    LowerPiecesWords();
  }

  lemma TranscriptSplit()
    ensures Split(Lower(TRANSCRIPT)) == SPLIT_TOKENS
  {
    LowerTranscript();
    LowerPiecesSplit();
  }

  // ---------------------------------------------------------------------
  // The eight metrics

  lemma TwoLengths()
    ensures !UniformLengths(SENTENCES)
  {
    assert |SENTENCES[0].tokens| == 10 && |SENTENCES[1].tokens| == 14;
    assert LengthSet(SENTENCES) == {10, 14};
  }

  lemma BothCapitalised()
    ensures Count(SENTENCES, NotCapitalised) == 0
  {
    assert SENTENCES[0].text[0] == 'T' && SENTENCES[1].text[0] == 'F';
    CountPositive(SENTENCES, NotCapitalised);
  }

  lemma EndsWithFullStop()
    ensures EndsWithTerminal(TRANSCRIPT)
  {
    assert TRANSCRIPT[|TRANSCRIPT| - 1] == LAST[|LAST| - 1] == '.';
  }

  /** Two sentence lengths, both sentences capitalised, a final full stop
      and no verb: no issue at all. */
  lemma TranscriptGrammar(blobTags: seq<seq<Tagged>>)
    requires NoVerbTags(blobTags)
    ensures GrammarOf(TRANSCRIPT, SENTENCES, blobTags) == 10.0
  {
    TwoLengths();
    BothCapitalised();
    EndsWithFullStop();
    SuspectsWithoutVerbs(blobTags);
  }

  lemma TwelveDistinctWords()
    ensures |set w | w in LOWER_WORDS| == 12
  {
    forall i, j | 0 <= i < j < |LOWER_WORDS|
      ensures LOWER_WORDS[i] != LOWER_WORDS[j]
    {
      if |LOWER_WORDS[i]| == |LOWER_WORDS[j]| && LOWER_WORDS[i][0] == LOWER_WORDS[j][0] {
        assert LOWER_WORDS[i][2] != LOWER_WORDS[j][2];
      }
    }
    DistinctCount(LOWER_WORDS);
  }

  /** Twelve distinct words: the ratio is 1 and the adjusted ratio ln(13). */
  lemma VocabularyOfTheseWords(text: string, ln: nat -> real)
    requires LowerWords(text) == LOWER_WORDS
    ensures VocabularyRichness(text, ln) == VocabularyTier(ln(13))
    ensures ln(13) > 2.5 ==> VocabularyRichness(text, ln) == 10.0
  {
    TwelveDistinctWords();
    assert TypeTokenRatio(LOWER_WORDS) == 1.0;
  }

  /** 24 tokens over two sentences: an average of 12, above 10 but not 15. */
  lemma TranscriptComplexity()
    ensures ComplexityOf(SENTENCES) == 6.0
  {
    assert TokenTotal(SENTENCES[..0]) == 0;
    assert SENTENCES[..1][..0] == SENTENCES[..0];
    assert TokenTotal(SENTENCES[..1]) == 10;
    assert SENTENCES[..2] == SENTENCES && SENTENCES[..2][..1] == SENTENCES[..1];
    assert TokenTotal(SENTENCES) == 24;
    assert AverageLength(SENTENCES) == 12.0;
  }

  /** "finally" is a transition and "this" a pronoun, among twelve words. */
  lemma CoherenceOfTheseWords(text: string)
    requires LowerWords(text) == LOWER_WORDS
    ensures CoherenceScore(text) == 10.0
  {
    assert IsTransition(LOWER_WORDS[5]) && IsPronoun(LOWER_WORDS[4]);
    CoherenceShortText(text);
  }

  lemma NoFillers()
    ensures Count(LOWER_WORDS, IsFiller) == 0
  {
    forall i | 0 <= i < |LOWER_WORDS|
      ensures !IsFiller(LOWER_WORDS[i])
    {
    }
    CountPositive(LOWER_WORDS, IsFiller);
  }

  lemma NoStopWords()
    ensures Count(LOWER_WORDS, IsContentWord) == 12
  {
    forall i | 0 <= i < |LOWER_WORDS|
      ensures IsContentWord(LOWER_WORDS[i])
    {
    }
    CountAll(LOWER_WORDS, IsContentWord);
  }

  /** No filler and no stop word: 7 + 8. */
  lemma ClarityOfTheseWords(text: string)
    requires LowerWords(text) == LOWER_WORDS
    ensures ClarityScore(text) == 15.0
  {
    NoFillers();
    NoStopWords();
  }

  lemma NoPassiveTokens()
    ensures Count(SPLIT_TOKENS, IsPassiveIndicator) == 0
  {
    forall i | 0 <= i < |SPLIT_TOKENS|
      ensures !IsPassiveIndicator(SPLIT_TOKENS[i])
    {
    }
    CountPositive(SPLIT_TOKENS, IsPassiveIndicator);
  }

  /** No passive marker: the voice part is 5, so the score is at least 10. */
  lemma EngagementOfTheseWords(text: string, sentiment: Sentiment, questions: nat)
    requires LowerWords(text) == LOWER_WORDS && Split(Lower(text)) == SPLIT_TOKENS
    requires sentiment.Polarity?
    ensures EngagementScore(text, sentiment, questions)
         == Ok(Min(15.0, 10.0 + Abs(sentiment.polarity) * 5.0 + Min(5.0, questions as real * 2.0)))
  {
    NoPassiveTokens();
  }

  lemma SevenNumerals()
    ensures Count(WORDS, IsNumeral) == 7
  {
    var a, b, c, d, e := ["Today", "1"], ["2", "3", "this"], ["Finally", "4"], ["5", "6", "7"], ["however", "then"];
    assert !IsNumeral(a[0]) by { assert !IsDigit(a[0][0]); }
    assert !IsNumeral(b[2]) by { assert !IsDigit(b[2][0]); }
    assert !IsNumeral(c[0]) by { assert !IsDigit(c[0][0]); }
    assert !IsNumeral(e[0]) by { assert !IsDigit(e[0][0]); }
    assert !IsNumeral(e[1]) by { assert !IsDigit(e[1][0]); }
    assert Count(a, IsNumeral) == 1 && Count(c, IsNumeral) == 1;
    assert Count(b[..2], IsNumeral) == 2;
    assert b[..2] + [b[2]] == b;
    CountSnoc(b[..2], b[2], IsNumeral);
    CountAll(d, IsNumeral);
    CountPositive(e, IsNumeral);
    CountAppend(d, e, IsNumeral);
    CountAppend(c, d + e, IsNumeral);
    CountAppend(b, c + (d + e), IsNumeral);
    CountAppend(a, b + (c + (d + e)), IsNumeral);
  }

  /** Seven numerals among twelve words: a density above 0.15 whatever the
      proper nouns. */
  lemma ContentOfTheseWords(text: string, tokenTags: seq<Tagged>)
    requires Words(text) == WORDS && LowerWords(text) == LOWER_WORDS
    ensures NumeralCount(text) == 7
    ensures ContentRelevanceScore(text, tokenTags) == 20.0
  {
    SevenNumerals();
  }

  lemma LowerFirst()
    ensures Lower(FIRST) == LOWER_PIECES[0] + Lower("2, 3, this.")
  {
    LowerConcat(PIECES[0], "2, 3, this.");
    LowerEachPiece();
    assert Lower(PIECES[0]) == LowerEach(PIECES)[0];
  }

  lemma LowerLast()
    ensures Lower(LAST) == LOWER_PIECES[2] + Lower(PIECES[3] + PIECES[4])
  {
    assert LAST == PIECES[2] + (PIECES[3] + PIECES[4]);
    LowerConcat(PIECES[2], PIECES[3] + PIECES[4]);
    LowerEachPiece();
    assert Lower(PIECES[2]) == LowerEach(PIECES)[2];
  }

  lemma FirstHasToday()
    ensures Contains(Lower(FIRST), "today")
  {
    LowerFirst();
    ContainsWitness("", "today", ", 1, ");
    assert "" + "today" + ", 1, " == LOWER_PIECES[0];
    ContainsExtend("", LOWER_PIECES[0], Lower("2, 3, this."), "today");
    assert "" + LOWER_PIECES[0] + Lower("2, 3, this.") == Lower(FIRST);
  }

  lemma LastHasFinally()
    ensures Contains(Lower(LAST), "finally")
  {
    LowerLast();
    ContainsWitness("", "finally", ", 4, ");
    assert "" + "finally" + ", 4, " == LOWER_PIECES[2];
    ContainsExtend("", LOWER_PIECES[2], Lower(PIECES[3] + PIECES[4]), "finally");
    assert "" + LOWER_PIECES[2] + Lower(PIECES[3] + PIECES[4]) == Lower(LAST);
  }

  lemma LowerHalves()
    ensures Lower(TRANSCRIPT) == Lower(FIRST) + (Lower(" ") + Lower(LAST))
  {
    LowerConcat(FIRST + " ", LAST);
    LowerConcat(FIRST, " ");
    ConcatAssoc(Lower(FIRST), Lower(" "), Lower(LAST));
  }

  lemma TranscriptHasToday()
    ensures Contains(Lower(TRANSCRIPT), "today")
  {
    FirstHasToday();
    LowerHalves();
    ContainsExtend([], Lower(FIRST), Lower(" ") + Lower(LAST), "today");
    assert [] + Lower(FIRST) + (Lower(" ") + Lower(LAST)) == Lower(FIRST) + (Lower(" ") + Lower(LAST));
  }

  lemma TranscriptHasFinally()
    ensures Contains(Lower(TRANSCRIPT), "finally")
  {
    LastHasFinally();
    LowerHalves();
    ContainsExtend(Lower(FIRST) + Lower(" "), Lower(LAST), [], "finally");
    ConcatAssoc(Lower(FIRST), Lower(" "), Lower(LAST));
    assert Lower(FIRST) + Lower(" ") + Lower(LAST) + [] == Lower(FIRST) + Lower(" ") + Lower(LAST);
  }

  /** "today" opens both the transcript and its first sentence, and
      "finally" opens its last: all four checks pass. */
  lemma TranscriptStructure()
    ensures StructureOf(TRANSCRIPT, SENTENCES) == 20.0
  {
    TranscriptHasToday();
    TranscriptHasFinally();
    FirstHasToday();
    LastHasFinally();
    assert INTRO_INDICATORS[1] == "today" && CONCLUSION_INDICATORS[2] == "finally";
    assert TOPIC_MARKERS[1] == "today" && SUMMARY_MARKERS[3] == "finally";
  }

  // The transcript's own scores.

  lemma TranscriptVocabulary(ln: nat -> real)
    ensures VocabularyRichness(TRANSCRIPT, ln) == VocabularyTier(ln(13))
    ensures ln(13) > 2.5 ==> VocabularyRichness(TRANSCRIPT, ln) == 10.0
  {
    TranscriptLowerWords();
    VocabularyOfTheseWords(TRANSCRIPT, ln);
  }

  lemma TranscriptCoherence()
    ensures CoherenceScore(TRANSCRIPT) == 10.0
  {
    TranscriptLowerWords();
    CoherenceOfTheseWords(TRANSCRIPT);
  }

  lemma TranscriptClarity()
    ensures ClarityScore(TRANSCRIPT) == 15.0
  {
    TranscriptLowerWords();
    ClarityOfTheseWords(TRANSCRIPT);
  }

  lemma TranscriptEngagement(sentiment: Sentiment, questions: nat)
    requires sentiment.Polarity?
    ensures EngagementScore(TRANSCRIPT, sentiment, questions)
         == Ok(Min(15.0, 10.0 + Abs(sentiment.polarity) * 5.0 + Min(5.0, questions as real * 2.0)))
  {
    TranscriptLowerWords();
    TranscriptSplit();
    EngagementOfTheseWords(TRANSCRIPT, sentiment, questions);
  }

  lemma TranscriptContent(tokenTags: seq<Tagged>)
    ensures NumeralCount(TRANSCRIPT) == 7
    ensures ContentRelevanceScore(TRANSCRIPT, tokenTags) == 20.0
  {
    TranscriptWords();
    TranscriptLowerWords();
    ContentOfTheseWords(TRANSCRIPT, tokenTags);
  }

  // ---------------------------------------------------------------------
  // The total

  /**
   * With the tokens of the two sentences, any tags without a verb tag, any
   * proper nouns, any polarity and any question count, the transcript
   * scores 10 for grammar, 6 for complexity, 10 for coherence, 15 for
   * clarity, 20 for content and 20 for structure, plus the vocabulary tier
   * of ln(13) and an engagement of at least 10. With ln(13) > 2.5 that is
   * at least 101; with no question, as the text has none, at most 106.
   */
  lemma TotalAboveHundred(a: Analysis, ln: nat -> real)
    requires a.sentences == SENTENCES && NoVerbTags(a.blobTags) && a.sentiment.Polarity?
    ensures CalculateImprovedScore(TRANSCRIPT, a, ln).Ok?
    ensures CalculateImprovedScore(TRANSCRIPT, a, ln).value.total ==
      81.0 + VocabularyTier(ln(13))
      + Min(15.0, 10.0 + Abs(a.sentiment.polarity) * 5.0 + Min(5.0, a.rhetoricalQuestions as real * 2.0))
    ensures ln(13) > 2.5 ==> CalculateImprovedScore(TRANSCRIPT, a, ln).value.total >= 101.0
  {
    TranscriptSentenceScores(a, ln);
    TranscriptWordScores(a);
    TotalOfScores(TRANSCRIPT, a, ln);
  }

  /** The four scores that depend on the sentences or the whole text. */
  lemma TranscriptSentenceScores(a: Analysis, ln: nat -> real)
    requires a.sentences == SENTENCES && NoVerbTags(a.blobTags)
    ensures GrammarOf(TRANSCRIPT, a.sentences, a.blobTags) == 10.0
    ensures VocabularyRichness(TRANSCRIPT, ln) == VocabularyTier(ln(13))
    ensures ComplexityOf(a.sentences) == 6.0
    ensures StructureOf(TRANSCRIPT, a.sentences) == 20.0
  {
    TranscriptGrammar(a.blobTags);
    TranscriptVocabulary(ln);
    TranscriptComplexity();
    TranscriptStructure();
  }

  /** The four scores that depend on the words alone. */
  lemma TranscriptWordScores(a: Analysis)
    requires a.sentiment.Polarity?
    ensures CoherenceScore(TRANSCRIPT) == 10.0 && ClarityScore(TRANSCRIPT) == 15.0
    ensures EngagementScore(TRANSCRIPT, a.sentiment, a.rhetoricalQuestions)
      == Ok(Min(15.0, 10.0 + Abs(a.sentiment.polarity) * 5.0 + Min(5.0, a.rhetoricalQuestions as real * 2.0)))
    ensures ContentRelevanceScore(TRANSCRIPT, a.tokenTags) == 20.0
  {
    TranscriptCoherence();
    TranscriptClarity();
    TranscriptEngagement(a.sentiment, a.rhetoricalQuestions);
    TranscriptContent(a.tokenTags);
  }

  /** The sum, for any text and analysis with the transcript's eight scores. */
  lemma TotalOfScores(text: string, a: Analysis, ln: nat -> real)
    requires a.sentiment.Polarity?
    requires GrammarOf(text, a.sentences, a.blobTags) == 10.0
    requires VocabularyRichness(text, ln) == VocabularyTier(ln(13))
    requires ComplexityOf(a.sentences) == 6.0
    requires CoherenceScore(text) == 10.0 && ClarityScore(text) == 15.0
    requires EngagementScore(text, a.sentiment, a.rhetoricalQuestions)
      == Ok(Min(15.0, 10.0 + Abs(a.sentiment.polarity) * 5.0 + Min(5.0, a.rhetoricalQuestions as real * 2.0)))
    requires ContentRelevanceScore(text, a.tokenTags) == 20.0
    requires StructureOf(text, a.sentences) == 20.0
    ensures CalculateImprovedScore(text, a, ln).Ok?
    ensures CalculateImprovedScore(text, a, ln).value.total ==
      81.0 + VocabularyTier(ln(13))
      + Min(15.0, 10.0 + Abs(a.sentiment.polarity) * 5.0 + Min(5.0, a.rhetoricalQuestions as real * 2.0))
    ensures ln(13) > 2.5 ==> CalculateImprovedScore(text, a, ln).value.total >= 101.0
  {
    SumEight(CalculateImprovedScore(text, a, ln).value.breakdown);
  }
}
