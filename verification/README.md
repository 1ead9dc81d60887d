# Speech transcript scoring, modelled in Dafny

This project models the scoring core of a speech-evaluation tool. The tool
takes one transcript and scores it on eight independent metrics:

| category | maximum |
|---|---|
| grammar | 10 |
| vocabulary | 10 |
| sentence complexity | 10 |
| coherence | 10 |
| clarity | 15 |
| engagement | 15 |
| content relevance | 20 |
| structure | 20 |

`calculate_improved_score` returns the sum of the eight scores and a
breakdown of them in a fixed order.

- `text.dfy` (module `Text`) covers the text operations the metrics rely on,
  on ASCII text:
  - lower-casing;
  - word extraction with `\b\w+\b`;
  - whitespace splitting;
  - substring search;
  - counting.
  It also proves how word extraction behaves on text built from known words
  and separators.
- `scoring.dfy` (module `Scoring`) covers the metrics, their word tables and
  the aggregator.
  - Grammar and sentence complexity update counters in loops in the source.
    They are methods with loop invariants, each proved equal to a
    specification function (`GrammarOf`, `ComplexityOf`).
  - Structure adds points in four straight-line steps. It is a method of four
    conditional additions, proved equal to `StructureOf`.
  - The other metrics are functions.
  - Lemmas state the properties of each metric: when it gives full marks,
    what its thresholds do at the boundary, and how it depends on its
    tables.

The outputs of the language-processing libraries are inputs to the model,
held in an `Analysis`:

- the sentences, with their word tokens;
- the part-of-speech tags;
- the sentiment polarity, or the exception the sentiment call raised;
- the number of rhetorical-question matches.

- `sample_transcript.dfy` (module `SampleTranscript`) scores one concrete
  two-sentence transcript, "Today, 1, 2, 3, this. Finally, 4, 5, 6, 7,
  however, then.", metric by metric, and shows that its total exceeds 100.
  The library results it assumes are the ones this text produces. The
  sentence splitter cuts after "this.". The word tokenizer makes 10 and 14
  tokens, each comma and full stop being one. No word is a verb, so no tag
  is a verb tag. The text has no question mark, so the rhetorical-question
  pattern finds nothing. The polarity and the proper nouns may be anything.

The natural logarithm is the parameter `ln`. Python's floating-point values
are exact reals.

Three behaviours of the code are worth stating plainly:

- The score is presented as out of 100: `main` prints it as `/100`
  (scoring.py:332) and the web front end labels it "Overall Score (out of
  100)" (app.py:34). The category maxima add up to 110, however.
  `CalculateImprovedScore` bounds the total by 110. `TotalAboveHundred`
  exhibits a transcript that scores above 100 with the natural logarithm:
  91 plus an engagement score between 10 and 15, so between 101 and 106
  when no rhetorical question is found.
- The sentiment call in `engagement_score` has no guard. An exception there
  leaves `calculate_improved_score`. The model returns `Failure` in that case.
- Appending a filler word can raise the clarity score. Filler words are not
  stop words, so every filler is also a content word, and appending one adds
  one to the word count, the filler count and the content-word count
  (`AppendedFillerCounts`, `ClarityOfAppendedFiller`). Once fillers make up
  7% of the words, the filler part is 0, and one more filler raises the
  score whenever some stop word is present (`AppendedFillerCanRaiseClarity`,
  stated on the three counts). For example, "um the" scores 4 and
  "um the um" scores 16/3. At a fixed word count and content-word
  count, more fillers never raise the score (`ClarityFillerMonotone`).
  Appending a filler changes both counts, and the score can then rise.

## Model

| member | source | states |
|---|---|---|
| Text.Lower | scoring.py:60 | lower-casing keeps the length, lowers each character, leaves no upper-case letter and keeps every character's word-character class |
| Text.Split | scoring.py:191 | whitespace splitting yields runs of non-space characters; it yields nothing exactly when the text is all whitespace |
| Text.LowerConcat | scoring.py:60 | lower-casing distributes over concatenation |
| Text.Runs | scoring.py:60 | every extracted token is a non-empty run of word characters; no token is extracted exactly when the text has no word character |
| Text.RunsOfInterleave | scoring.py:60 | a text made of word runs and non-empty separators without word characters tokenises back to exactly those runs, in order |
| Text.RunsSkipSeparator | scoring.py:191 | leading separators do not change the tokens |
| Text.RunsConcat | scoring.py:60 | text cut after a non-word character has the words of its two parts, in order |
| Text.LowerJoin | scoring.py:60 | lower-casing a text made of parts lower-cases each part |
| Text.RunsJoin | scoring.py:60 | a text made of parts that each end outside a run has the runs of its parts, in order |
| Text.Contains | scoring.py:244-254 | the substring test holds exactly when the substring occurs at some index |
| Text.ContainsWitness | scoring.py:244-254 | a text that has the substring at a known place contains it |
| Text.ContainsExtend | scoring.py:244-254 | a substring found in part of a text is found in the whole text |
| Text.CountPositive | scoring.py:103-112 | a count is positive exactly when some element qualifies |
| Text.CountAll | scoring.py:27-29 | when every element qualifies, every element is counted |
| Text.CountMonotone | scoring.py:160-166 | a weaker predicate counts at least as many elements |
| Text.CountAppend | scoring.py:215 | the count over two lists one after the other is the sum of their counts |
| Text.DistinctBounds | scoring.py:65 | a list has at least one and at most its length distinct elements |
| Text.DistinctCount | scoring.py:65 | a list of pairwise distinct elements has as many distinct elements as elements |
| Scoring.LowerWords | scoring.py:60 | the words of a transcript are runs of word characters; there are none exactly when the transcript has no word character |
| Scoring.EndsWithTerminalAtLineFeed | scoring.py:32 | the end anchor also matches before one final line feed: "ok." and "ok.\n" pass, "ok.\n\n" and "ok. " do not |
| Scoring.UniformLengthsIffEqual | scoring.py:22-24 | fewer than two distinct sentence lengths means all sentences have the same token count |
| Scoring.GrammarOf | scoring.py:13-56 | the grammar score lies in [0, 10] and is 0 without sentences |
| Scoring.ImprovedGrammarScore | scoring.py:13-56 | the issue-counting loops compute exactly `GrammarOf` |
| Scoring.SuspectsWithoutVerbs | scoring.py:40-51 | without a verb tag in any scanned sentence there is no agreement suspect |
| Scoring.GrammarFullMarks | scoring.py:19-56 | full marks exactly when lengths vary, every sentence starts with a capital, the text ends in `.`, `!` or `?`, and no agreement suspect is found |
| Scoring.GrammarUniformLowercaseUnpunctuated | scoring.py:19-33 | k equal-length lowercase sentences without final punctuation give at least k + 2 issues, so at most max(0, 8 - k) points |
| Scoring.TypeTokenRatioBounds | scoring.py:65 | the type-token ratio lies in (0, 1] |
| Scoring.VocabularyRichness | scoring.py:58-80 | the score is one of 0, 2, 4, 6, 8 or 10; it is 0 exactly without words; 10 requires ln(n + 1) > 2.5 for n words |
| Scoring.VocabularyLadderStrict | scoring.py:71-80 | a value exactly on a threshold earns the lower tier |
| Scoring.ScaledAtMost | scoring.py:68-72 | scaling by a ratio in (0, 1] cannot reach the top tier unless the logarithm alone exceeds 2.5 |
| Scoring.ComplexityOf | scoring.py:82-116 | the score is one of 0, 4, 6, 8 or 10, and 0 exactly without sentences |
| Scoring.SentenceComplexity | scoring.py:82-116 | the counting loop computes exactly `ComplexityOf` |
| Scoring.ComplexityTopTier | scoring.py:100-110 | 10 exactly when the average length exceeds 20 and some sentence holds a subordinating conjunction |
| Scoring.ComplexityWithoutSubordinator | scoring.py:103-116 | without a subordinating conjunction the score is at most 6 |
| Scoring.ComplexityBoundary | scoring.py:109-112 | an average of exactly 20 with a conjunction earns 8 |
| Scoring.CoherenceScore | scoring.py:118-149 | the score is one of 0, 4, 6, 8 or 10, and 0 exactly without words |
| Scoring.CoherenceTopTier | scoring.py:135-145 | 10 exactly when the transition density exceeds 0.05 and some word is a pronoun; that density without a pronoun gives 8 |
| Scoring.CoherenceShortText | scoring.py:129-143 | in a text of fewer than 20 words, one transition and one pronoun earn 10 |
| Scoring.MultiWordEntriesNeverMatch | scoring.py:121-160 | words contain no space, so the multi-word transition and filler entries never match and the counts equal those of the one-word entries |
| Scoring.ClarityCapNeverBinds | scoring.py:174-179 | the filler part is at most 7 and the content part at most 8, so the cap of 15 never changes the result |
| Scoring.ClarityOfWords | scoring.py:155-179 | the clarity formula on words lies in [0, 15] and is 0 exactly when there are no words |
| Scoring.ClarityScore | scoring.py:150-179 | the clarity score lies in [0, 15] and is 0 exactly when the transcript has no words |
| Scoring.ClarityPositive | scoring.py:160-179 | with at least one word and no more fillers than content words, the clarity formula is positive |
| Scoring.FillerIsContentWord | scoring.py:152-166 | no filler word is a stop word |
| Scoring.FillersAreContentWords | scoring.py:152-166 | there are never more fillers than content words |
| Scoring.ClarityFillerMonotone | scoring.py:160-179 | at a fixed word count and content count, more fillers never raise the score |
| Scoring.AppendedFillerCounts | scoring.py:160-166 | appending a filler word adds one to both the filler count and the content-word count |
| Scoring.ClarityOfAppendedFiller | scoring.py:155-179 | appending a filler word gives the clarity formula on one more word, one more filler and one more content word |
| Scoring.AppendedFillerCanRaiseClarity | scoring.py:160-179 | once fillers are at least 7% of the words and some stop word is present, one more filler raises the score |
| Scoring.EngagementScore | scoring.py:181-203 | failure exactly when the sentiment call raises; otherwise the score lies in [0, 15], is 0 exactly without words, and is at least 5 with words |
| Scoring.EngagementPolaritySymmetric | scoring.py:199 | opposite polarities give the same score |
| Scoring.NeutralWithoutPassiveTokens | scoring.py:191-203 | with words, no passive marker among the split tokens, polarity 0 and no question, the score is 10 |
| Scoring.PassiveMarkerWithPunctuation | scoring.py:190-196 | passive markers are counted among whitespace-split tokens, which keep punctuation: in "It is." the word "is" is a marker but the token "is." is not, so the count is 0 and the score 10 |
| Scoring.UniqueEntities | scoring.py:211-212 | the number of distinct proper nouns is at most the number of tags, and 0 exactly when no tag is NNP |
| Scoring.NumeralCount | scoring.py:215 | the numeral count is at most the number of word runs, and 0 exactly when no word run is all digits |
| Scoring.NumeralCountExample | scoring.py:215 | digits inside a longer word do not count: "abc123 123abc 42 in 2020" holds 2 numerals |
| Scoring.ContentRelevanceScore | scoring.py:205-232 | the score is one of 0, 5, 10, 15 or 20, and 0 exactly without words |
| Scoring.StructureOf | scoring.py:234-266 | the score is a multiple of 5 between 0 and 20, and 0 without sentences |
| Scoring.StructureScore | scoring.py:234-266 | the point-adding steps compute exactly `StructureOf` |
| Scoring.StructureLetterI | scoring.py:249-253 | the topic marker "i" is a substring test: any first sentence containing the letter i passes the topic check |
| Scoring.Tally | scoring.py:283-294 | the breakdown lists the eight categories in order; each value stays within its maximum; the total is the sum of the values and lies in [0, 110] |
| Scoring.CalculateImprovedScore | scoring.py:268-294 | failure exactly when the sentiment call raises; otherwise the breakdown holds each metric's score under its category name, and the total is their sum, in [0, 110] |
| Scoring.EmptyTranscriptScoresZero | scoring.py:268-294 | a transcript with no words and no sentences totals 0 |
| Scoring.AnyWordScoresAtLeastSixteen | scoring.py:268-294 | a transcript with a word totals at least 16: 2 for vocabulary, 4 for coherence, 5 for engagement and 5 for content relevance |
| SampleTranscript.TranscriptWords | scoring.py:215 | the sample's words, not lower-cased, are Today, 1, 2, 3, this, Finally, 4, 5, 6, 7, however and then |
| SampleTranscript.TranscriptLowerWords | scoring.py:60 | the sample's lower-cased words are today, 1, 2, 3, this, finally, 4, 5, 6, 7, however and then |
| SampleTranscript.TranscriptSplit | scoring.py:191 | the sample's whitespace tokens keep their commas and full stops: today, through then. |
| SampleTranscript.TranscriptGrammar | scoring.py:13-56 | two capitalised sentences of 10 and 14 tokens, a final full stop and no verb tag earn 10 |
| SampleTranscript.VocabularyOfTheseWords | scoring.py:58-80 | twelve distinct words give the vocabulary tier of ln(13), which is 10 when ln(13) > 2.5 |
| SampleTranscript.TranscriptComplexity | scoring.py:82-116 | 24 tokens over two sentences, an average of 12, earn 6 |
| SampleTranscript.CoherenceOfTheseWords | scoring.py:118-149 | the transition "finally" and the pronoun "this" among twelve words earn 10 |
| SampleTranscript.ClarityOfTheseWords | scoring.py:150-179 | no filler and no stop word earn 15 |
| SampleTranscript.EngagementOfTheseWords | scoring.py:181-203 | no passive marker among the tokens: the score is min(15, 10 + 5 abs(polarity) + min(5, 2 q)) |
| SampleTranscript.TranscriptEngagement | scoring.py:181-203 | the sample's engagement is min(15, 10 + 5 abs(polarity) + min(5, 2 q)) |
| SampleTranscript.ContentOfTheseWords | scoring.py:205-232 | seven numerals among twelve words earn 20, whatever the proper nouns |
| SampleTranscript.TranscriptStructure | scoring.py:234-266 | "today" in the transcript and its first sentence, and "finally" in the transcript and its last, pass all four checks: 20 |
| SampleTranscript.TotalAboveHundred | scoring.py:268-294 | the sample totals 81 plus the vocabulary tier of ln(13) plus its engagement; with ln(13) > 2.5, as for the natural logarithm, that is at least 101 |

## Left out

- The `nltk.download` calls at import time and all calls into NLTK and
  TextBlob are left out. These are sentence splitting, word tokenising,
  part-of-speech tagging and sentiment. Their results are inputs held in
  `Analysis`.
- `math.log` is the parameter `ln`. Nothing about the natural logarithm is
  assumed except where a lemma says so.
- The rhetorical-question count (the regular expression on scoring.py:187)
  is an input. It is used only as a number.
- The `try`/`except` around the TextBlob agreement scan is modelled by its
  input. `blobTags` holds the tag lists of the sentences scanned before an
  exception, so an exception keeps the issues already counted.
- The NLTK calls `sent_tokenize`, `word_tokenize` and `pos_tag`
  (scoring.py:15, 22, 84, 89, 96-97, 208-209, 236) are assumed to return.
  They are not guarded, and they can raise, for instance `LookupError` when
  the downloads at scoring.py:3-6 fetched nothing. Such an exception would
  leave `calculate_improved_score`. The model does not capture it: its
  `Failure` arises only from the sentiment call.
- `main` and its console reading and printing are left out, as is the web
  front end in app.py. Neither computes a score.
- Text is ASCII only. Python's Unicode case mapping, Unicode `\w` and
  Unicode whitespace are not modelled.
- Floating-point rounding is not modelled; ratios and sums are exact reals.
- Scoring.VocabularyRichness: the top-tier condition is stated for an
  arbitrary `ln`. The consequence that at least 12 words are needed holds
  only for the natural logarithm.
- Scoring.AppendedFillerCanRaiseClarity: stated on the word, filler and
  content-word counts, not as one statement on word lists. The bridge to
  word lists is `ClarityOfAppendedFiller` together with `AppendedFillerCounts`
  and `FillersAreContentWords`.
- SampleTranscript.TotalAboveHundred: the library results for the sample
  (its two sentences and their tokens, and tags without a verb tag) are
  requirements of the lemma, not derived, because the libraries are not
  modelled. The polarity, the proper nouns and the question count are left
  free.
