# TF-IDF classifier scoring, modelled in Dafny

This project models the scoring core of the TF-IDF text classifier in
`TfIdfClassifierFactory.java`. It covers four things:

- the weighting formulas: standard TF-IDF, raw frequency and presence (the
  source calls the last one THREHOLD);
- the factory, which holds the formula in force;
- the trained classifier's `getCandidates`;
- `cosSquare`, the squared-cosine score of a document profile against a
  category profile.

The model is written over exact `real` arithmetic.

Modules, one per concept:

- `Frequencies` (`frequencies.dfy`) models a frequency profile. It maps each
  token to its count.
  - It is kept as the sequence of its entries in iteration order, because
    the score walks those entries and its value depends on their order.
  - `Frequency` returns 0 for an absent token.
  - `TokenCount` is taken to be the sum of all counts.
  - `FromTokens` counts a token sequence.
- `Formulas` (`formulas.dfy`) holds the three built-in formulas, plus any
  caller-supplied formula as `Custom`. The natural logarithm is a parameter
  `ln` and is left uninterpreted.
- `Similarity` (`similarity.dfy`) models `cosSquare` as written.
  - `CosSquare` and `ComputeCosSquare` pick the shorter profile by token
    count; on a tie the document is the shorter one.
  - They walk only the shorter profile's entries and keep the three running
    sums of the Java loop. The product sum adds `shortModSq * longTfIdf` at
    each step, as line 127 does.
  - The reference definitions `ShortWeights`, `LongWeights`, `SumSq` and
    `RunningProduct` describe those sums in closed form.
- `CorrectedSimilarity` (`corrected.dfy`) does two things:
  - it exhibits the defect of line 127 (see Findings);
  - it defines the score with line 127 corrected and nothing else changed:
    the squared cosine over the shorter profile's tokens. The
    Cauchy-Schwarz inequality proves that this score lies in [0, 1]. A
    profile with distinct tokens and some non-zero weight scores exactly 1
    against itself, and the score does not depend
    on the iteration order of either table.
- `Classification` (`classification.dfy`) models the classifier and its
  candidate list: one result per category, in the iteration order of the
  category table. `CandidatesIntended` is the same list scored with the
  corrected product update.
- `ClassifierFactory` (`factory.dfy`) models the factory: the default
  formula, the setter and getter, and how a trained model becomes a
  classifier.

Modelling choices that shape the results:

- The shorter profile is the one with the smaller `getTokenCount()` (line
  111); on a tie the document is the one walked. `TokenCount` is taken to
  be the sum of the counts, since `ImmutableFrequencies` is not part of
  this model.
- The score depends on argument order. On a tie of token counts the
  document is always the one walked, and the walk's result depends on
  which profile is walked and in what order
  (`CorrectedSimilarity.AsWrittenCounterexample`). With different token
  counts the order does not matter (`Similarity.SwapWhenCountsDiffer`).
  The tie asymmetry survives the correction of line 127
  (`CorrectedSimilarity.IntendedTieAsymmetry`).
- When a squared magnitude is 0 the model returns 0 where Java yields NaN.

## Model

| member | source | states |
|---|---|---|
| `Frequencies.Frequency` | src/com/github/chungkwong/classifier/TfIdfClassifierFactory.java:123-124 | the count looked up for a token is 0 when the token is not a key of the profile, and never exceeds the profile's token count |
| `Frequencies.FrequencyOfEntry` | src/com/github/chungkwong/classifier/TfIdfClassifierFactory.java:119-123 | in a profile without repeated tokens, the value of an iterated entry is what a lookup of its key returns, so the walk and the lookup agree |
| `Frequencies.Increment` | src/com/github/chungkwong/classifier/TfIdfClassifierFactory.java:105 | counting one more occurrence of t raises the frequency of t by one and no other; the token count grows by one; the keys gain t; distinct keys and positive counts are kept |
| `Frequencies.FromTokens` | src/com/github/chungkwong/classifier/TfIdfClassifierFactory.java:105 | the profile of a token sequence gives every token its number of occurrences (the multiset count), has the sequence's length as token count, has exactly the sequence's tokens as keys, and has distinct keys with positive counts |
| `Frequencies.FromTokensExample` | src/com/github/chungkwong/classifier/TfIdfClassifierFactory.java:105 | the profile of a, b, a, c, a gives a three times, b once, an absent token zero times, and five occurrences in all |
| `Frequencies.TokenCountBounds` | src/com/github/chungkwong/classifier/TfIdfClassifierFactory.java:111 | no entry's count exceeds the token count the shorter profile is chosen by, and with positive counts the token count is at least the number of keys |
| `Frequencies.TokenCountIsSum` | src/com/github/chungkwong/classifier/TfIdfClassifierFactory.java:111 | the token count is the sum over the entries of their counts, the form that is invariant under reordering |
| `Frequencies.SumOverPermutation` | src/com/github/chungkwong/classifier/TfIdfClassifierFactory.java:119 | a sum over a table's entries is the same for every iteration order of the same entries |
| `Frequencies.SameTableAgrees` | src/com/github/chungkwong/classifier/TfIdfClassifierFactory.java:111-124 | two iteration orders of the same table agree on every lookup and on the token count |
| `Formulas.StandardZeroAtZero` | src/com/github/chungkwong/classifier/TfIdfClassifierFactory.java:30-32 | the standard formula weighs a token with frequency 0 as 0, whatever the document statistics |
| `Formulas.CalculateCases` | src/com/github/chungkwong/classifier/TfIdfClassifierFactory.java:30-44 | the built-in formulas weigh an absent token 0; the standard formula also weighs 0 a token in no training document; the frequency formula is the count; the presence formula is 0 exactly for an absent token and otherwise 1 |
| `Formulas.FrequencyIsCount` | src/com/github/chungkwong/classifier/TfIdfClassifierFactory.java:36-38 | the frequency formula is the raw count and ignores the document statistics |
| `Formulas.ThresholdIsPresence` | src/com/github/chungkwong/classifier/TfIdfClassifierFactory.java:42-44 | the presence formula is 0 exactly when the frequency is 0, is always 0 or 1, and ignores the document statistics |
| `Formulas.BuiltInZeroAtZero` | src/com/github/chungkwong/classifier/TfIdfClassifierFactory.java:30-44 | all three built-in formulas weigh an absent token as 0 |
| `Formulas.CountingFormulasNonNegative` | src/com/github/chungkwong/classifier/TfIdfClassifierFactory.java:36-44 | the frequency and presence formulas never give a negative weight |
| `Similarity.Arrange` | src/com/github/chungkwong/classifier/TfIdfClassifierFactory.java:110-117 | the pair is the two profiles in some order, the shorter has at most the longer's token count, and on a tie the document is the shorter |
| `Similarity.TfIdfCases` | src/com/github/chungkwong/classifier/TfIdfClassifierFactory.java:123-124 | a weight follows its formula: 0 for an absent token under the built-in formulas, 0 under the standard formula for a token without document frequency, the count under the frequency formula, presence under the presence formula |
| `Similarity.StepUpdatesInOrder` | src/com/github/chungkwong/classifier/TfIdfClassifierFactory.java:125-127 | one iteration never lowers either sum of squares, and the product grows by the longer weight times the shorter sum of squares already updated in the same iteration |
| `Similarity.ScoreQuotient` | src/com/github/chungkwong/classifier/TfIdfClassifierFactory.java:129 | the score times the two squared magnitudes is the squared product sum when they are non-zero, so it is non-negative when they are positive; it is 0 when either is 0 |
| `Similarity.Accumulate` | src/com/github/chungkwong/classifier/TfIdfClassifierFactory.java:118-128 | after the walk both sums of squared weights are non-negative |
| `Similarity.CosSquare` | src/com/github/chungkwong/classifier/TfIdfClassifierFactory.java:109-130 | the score is never negative, for every formula |
| `Similarity.ComputeCosSquare` | src/com/github/chungkwong/classifier/TfIdfClassifierFactory.java:109-130 | the loop with the Java update order (shortModSq updated before the product reads it) computes `CosSquare`; the loop invariant says the three accumulators equal the walk of the entries seen so far |
| `Similarity.FoldIsSums` | src/com/github/chungkwong/classifier/TfIdfClassifierFactory.java:125-127 | folding the three updates over two weight sequences gives the sum of the squared shorter weights, the sum of the squared longer weights, and the running-sum product sum over i of (sum over j <= i of s_j^2) times l_i |
| `Similarity.AccumulateIsFold` | src/com/github/chungkwong/classifier/TfIdfClassifierFactory.java:118-128 | the walk over the shorter profile is the fold over its weights and the matching weights of the longer profile |
| `Similarity.AccumulateIsSums` | src/com/github/chungkwong/classifier/TfIdfClassifierFactory.java:118-128 | the accumulators after the walk are, in closed form, the running-sum product and the two sums of squares of the weight sequences |
| `Similarity.ProductNonNegative` | src/com/github/chungkwong/classifier/TfIdfClassifierFactory.java:127 | with a formula that never gives a negative weight, the product sum is non-negative |
| `Similarity.SwapWhenCountsDiffer` | src/com/github/chungkwong/classifier/TfIdfClassifierFactory.java:111-117 | when the token counts differ, swapping document and category gives the same shorter/longer pair and the same score |
| `Similarity.AccumulateReadsShorterTokensOnly` | src/com/github/chungkwong/classifier/TfIdfClassifierFactory.java:119-124 | the walk depends on the longer profile and the document frequencies only at the shorter profile's tokens: changing them elsewhere leaves every accumulator unchanged |
| `Similarity.CategoryOutsideDocumentIgnored` | src/com/github/chungkwong/classifier/TfIdfClassifierFactory.java:111-124 | when the document is shorter, the category's counts and the document frequencies of tokens the document lacks do not affect the score |
| `Similarity.DocumentOutsideCategoryIgnored` | src/com/github/chungkwong/classifier/TfIdfClassifierFactory.java:111-124 | when the category is shorter, the document's counts and the document frequencies of tokens the category lacks do not affect the score |
| `Similarity.ThresholdIgnoresMagnitude` | src/com/github/chungkwong/classifier/TfIdfClassifierFactory.java:119-128 | under the presence formula, profiles with the same tokens in the same order and the same presence in the longer profile give the same accumulators, whatever the counts |
| `Similarity.LongModSqZero` | src/com/github/chungkwong/classifier/TfIdfClassifierFactory.java:124-126 | when every longer weight met in the walk is 0, the longer sum of squares is 0 |
| `Similarity.DisjointScoresZero` | src/com/github/chungkwong/classifier/TfIdfClassifierFactory.java:109-130 | profiles with no token in common score 0 under any formula that weighs an absent token as 0 |
| `Similarity.EmptyDocumentScoresZero` | src/com/github/chungkwong/classifier/TfIdfClassifierFactory.java:105-130 | the empty document scores 0 against every category |
| `CorrectedSimilarity.CounterexampleSums` | src/com/github/chungkwong/classifier/TfIdfClassifierFactory.java:118-128 | with raw counts, walking {0: 1, 1: 2} in the order (0, 1) leaves product 11 and both squared sums 5; in the order (1, 0) the product is 13 |
| `CorrectedSimilarity.AsWrittenCounterexample` | src/com/github/chungkwong/classifier/TfIdfClassifierFactory.java:127 | as written, one table scores 121/25 against itself in one iteration order and 169/25 in the other, both above 1, and swapping two equal-count arguments changes the score |
| `CorrectedSimilarity.SingleTokenSums` | src/com/github/chungkwong/classifier/TfIdfClassifierFactory.java:118-128 | as written, the document [(0, 2)] walked against [(0, k), (1, 10)] leaves product 4k and squared magnitudes 4 and k^2, for every positive k |
| `CorrectedSimilarity.SingleTokenQuotient` | src/com/github/chungkwong/classifier/TfIdfClassifierFactory.java:129 | the quotient product^2/(shortModSq*longModSq) of the accumulators 4k, 4 and k^2 is 4 for every positive k: the longer weight k cancels |
| `CorrectedSimilarity.AsWrittenSingleTokenScore` | src/com/github/chungkwong/classifier/TfIdfClassifierFactory.java:127 | as written, that one-token document scores 4, its own weight squared, for every positive count k of the token in the category |
| `CorrectedSimilarity.CosSquareIntended` | src/com/github/chungkwong/classifier/TfIdfClassifierFactory.java:109-130 | with the product accumulated as a dot product, the score lies in [0, 1] for every formula and every pair of profiles |
| `CorrectedSimilarity.SelfScoreIsOne` | src/com/github/chungkwong/classifier/TfIdfClassifierFactory.java:118-129 | with the corrected product, a profile with distinct tokens and some non-zero weight scores exactly 1 against itself |
| `CorrectedSimilarity.IntendedCounterexampleScore` | src/com/github/chungkwong/classifier/TfIdfClassifierFactory.java:118-129 | the corrected score of the counterexample table against itself is 1 |
| `CorrectedSimilarity.WeightsAreSums` | src/com/github/chungkwong/classifier/TfIdfClassifierFactory.java:119-127 | the squared magnitudes and the corrected product are sums over the shorter profile's entries |
| `CorrectedSimilarity.CosSquareOfSameTable` | src/com/github/chungkwong/classifier/TfIdfClassifierFactory.java:119-129 | the corrected score of a walk is the same for every iteration order of the shorter table and for every longer table with the same lookups |
| `CorrectedSimilarity.IntendedIgnoresEntryOrder` | src/com/github/chungkwong/classifier/TfIdfClassifierFactory.java:109-129 | the corrected score of two tables does not depend on the iteration order of either |
| `CorrectedSimilarity.IntendedTieAsymmetry` | src/com/github/chungkwong/classifier/TfIdfClassifierFactory.java:110-117 | on a tie of token counts the corrected score still depends on the argument order: {0: 1, 1: 1, 2: 1} against {0: 3} scores 1/3, the reverse scores 1 |
| `CorrectedSimilarity.IntendedLongerMagnitudeTruncated` | src/com/github/chungkwong/classifier/TfIdfClassifierFactory.java:124-126 | the corrected score counts the longer profile only at the shorter profile's tokens: {0: 1} against {0: 1, 1: 100} scores 1 |
| `Classification.ScoreAll` | src/com/github/chungkwong/classifier/TfIdfClassifierFactory.java:106-107 | mapping over the category table yields one result per entry, in order, with that entry's category and the score of the document against that entry's profile |
| `Classification.Candidates` | src/com/github/chungkwong/classifier/TfIdfClassifierFactory.java:104-108 | one result per category, in table order, each naming its category and carrying the score `CosSquare` computes (line 127 as written) for the document's profile against that category's profile, which is non-negative |
| `Classification.OneResultPerCategory` | src/com/github/chungkwong/classifier/TfIdfClassifierFactory.java:104-108 | the results name exactly the classifier's categories, and when the categories are distinct (a map's keys) no category is named twice |
| `Classification.CandidatesIgnoreMax` | src/com/github/chungkwong/classifier/TfIdfClassifierFactory.java:104-107 | the candidate list does not depend on `max` |
| `Classification.EmptyObjectScoresZero` | src/com/github/chungkwong/classifier/TfIdfClassifierFactory.java:104-108 | an empty token stream scores 0 against every category |
| `Classification.DisjointCategoryScoresZero` | src/com/github/chungkwong/classifier/TfIdfClassifierFactory.java:104-108 | a token stream sharing no token with a category scores 0 against it under any formula that weighs an absent token as 0 |
| `Classification.CandidatesIntended` | src/com/github/chungkwong/classifier/TfIdfClassifierFactory.java:104-108 | the candidate list with the corrected score: one result per category, in order, every score in [0, 1] |
| `Classification.IntendedExactMatchScoresOne` | src/com/github/chungkwong/classifier/TfIdfClassifierFactory.java:104-108 | with the corrected score, a document whose table is a category's table, in whatever iteration order either is kept, and which has some non-zero weight, gets score 1 for that category |
| `ClassifierFactory.NewFactory` | src/com/github/chungkwong/classifier/TfIdfClassifierFactory.java:49-51 | a new factory's formula is the standard one |
| `ClassifierFactory.SetTfIdfFormula` | src/com/github/chungkwong/classifier/TfIdfClassifierFactory.java:57-60 | after setting a formula, the getter returns it |
| `ClassifierFactory.GetTfIdfFormula` | src/com/github/chungkwong/classifier/TfIdfClassifierFactory.java:64-66 | the getter returns the formula the factory holds, which determines the factory |
| `ClassifierFactory.LastSetWins` | src/com/github/chungkwong/classifier/TfIdfClassifierFactory.java:57-66 | of two settings the later one is in force, and the factory is as if only it had been made |
| `ClassifierFactory.SetCurrentIsIdentity` | src/com/github/chungkwong/classifier/TfIdfClassifierFactory.java:57-66 | setting the formula the getter returns leaves the factory unchanged |
| `ClassifierFactory.GetClassifier` | src/com/github/chungkwong/classifier/TfIdfClassifierFactory.java:67-71 | the classifier takes the model's category profiles, document frequencies and sample count, and the factory's current formula |
| `ClassifierFactory.ClassifierUsesFactoryFormula` | src/com/github/chungkwong/classifier/TfIdfClassifierFactory.java:49-71 | a classifier from a new factory weighs with the standard formula; after a setter call it weighs with the formula set |
| `ClassifierFactory.FactoryCandidates` | src/com/github/chungkwong/classifier/TfIdfClassifierFactory.java:67-71 | the classifier a factory builds scores each category of the model with the score `CosSquare` computes (line 127 as written) under the formula set on the factory and the model's statistics |

## Left out

- `src/main/java/com/github/chungkwong/classifier/Main.java` is not part of this model. It is the command-line driver (files, console output).
- `ImmutableFrequencies` and `FrequenciesModel` are not part of this model. They are represented by `Frequencies.Profile` (a sequence of entries) and `ClassifierFactory.FrequenciesModel` (a record of the three statistics the factory reads). `createModel` is left out with them.
- `Frequencies.FromTokens`: entries appear in the order their tokens first occur. The real table iterates in hash order, which is not visible here. Every statement about `CosSquare` holds for any entry order, and `AsWrittenCounterexample` shows the score depends on that order.
- Floating point is not modelled. The arithmetic is exact over `real`, with no rounding, overflow, Infinity or NaN. Counts are unbounded `nat` instead of 64-bit `long`.
- `Formulas.Calculate`: the standard formula with document frequency 0 and a positive frequency divides by zero in Java (Infinity, or NaN when the document count is also 0). The model returns 0 there. So a document token that no training document contains weighs +Infinity in Java; a category lacking that token weighs it 0, line 127 adds Infinity times 0, which is NaN, and Java scores NaN against every such category whose token count is at least the document's, where the model gives a finite score.
- `Similarity.Score`: when a squared magnitude is 0, Java computes 0/0 = NaN. The model returns score 0 there.
- `CorrectedSimilarity.CosSquareIntended`: it corrects line 127 only. The longer profile's squared magnitude still sums only over the shorter profile's tokens (line 126), so the value is not the cosine of the full profiles (`IntendedLongerMagnitudeTruncated`: 1 where the full squared cosine is 1/10001). On a tie of token counts it still depends on the argument order (`IntendedTieAsymmetry`).
- `ClassifierFactory.SetTfIdfFormula`: the factory is modelled as an immutable value. Java updates the receiver in place and returns `this` (lines 58-59); the model returns the updated value, so aliasing and the identity of the returned object are not modelled.
- `Math.log` is the uninterpreted parameter `ln`. No property that depends on its values is stated, such as monotonicity, or a closer document scoring higher under the standard formula.
- `Classification.Candidates`: `max` is accepted and unused, as in the source. No sorting or truncation is modelled, because the source does none.
- `toString` returns the constant name "TF-IDF" and is left out.
- The Java stream and collector plumbing is represented by a sequence comprehension in table order.

## Findings

| source | as written | input that shows it | evidently intended | confidence | as-written member | corrected member |
|---|---|---|---|---|---|---|
| src/com/github/chungkwong/classifier/TfIdfClassifierFactory.java:127 | `product+=shortModSq*longTfIdf` adds the running sum of squared shorter weights times the longer weight | with the frequency formula, the table {0: 1, 1: 2} against itself: iterated (0, 1) the score is 121/25; iterated (1, 0) it is 169/25 | `product+=shortTfIdf*longTfIdf`, so the score is the squared cosine over the shorter profile's tokens: in [0, 1], 1 for a profile with distinct tokens and some non-zero weight against itself, independent of iteration order | high (not executed) | `CorrectedSimilarity.AsWrittenCounterexample` | `CorrectedSimilarity.CosSquareIntended` |

The same update makes a one-token document score its own weight squared,
whatever the token's count in the category: with raw counts, [(0, 2)]
scores 4 against [(0, k), (1, 10)] for every positive k
(`CorrectedSimilarity.AsWrittenSingleTokenScore`, from the accumulators
`CorrectedSimilarity.SingleTokenSums` gives and the quotient
`CorrectedSimilarity.SingleTokenQuotient` takes). The corrected score does
not see the longer profile's other tokens either: {0: 1} scores 1 against
{0: 1, 1: 100} (`CorrectedSimilarity.IntendedLongerMagnitudeTruncated`,
see Left out).

A further consequence of the standard formula's division (see
`Formulas.Calculate` under Left out): a document token that no training
document contains makes Java's score NaN against every category lacking it
whose token count is at least the document's; the model's score there is
finite.
