/** The trained TF-IDF classifier: one frequency profile per category plus
    the corpus statistics, and the candidate list it returns for a
    document. */
module Classification {
  import opened Frequencies
  import opened Similarity
  import Formulas
  import CorrectedSimilarity

  /** A score paired with the category it was computed for. */
  datatype ClassificationResult<C> = ClassificationResult(score: real, category: C)

  /** The profiles of the categories, in the iteration order of their table,
      the document frequency of every token, the number of training
      documents and the weighting formula. */
  datatype TfIdfClassifier<C, T> = TfIdfClassifier(
    profiles: seq<(C, Profile<T>)>,
    documentFrequencies: Profile<T>,
    documentCount: nat,
    tfIdfFormula: Formulas.Formula)

  /** No category has two profiles (the profiles form a map). */
  ghost predicate DistinctCategories<C, T>(profiles: seq<(C, Profile<T>)>) {
    forall i, j :: 0 <= i < j < |profiles| ==> profiles[i].0 != profiles[j].0
  }

  /** The categories the classifier knows. */
  function Categories<C, T>(profiles: seq<(C, Profile<T>)>): set<C> {
    set i | 0 <= i < |profiles| :: profiles[i].0
  }

  /** The weighting the classifier scores with, given the logarithm. */
  function WeightingOf<C, T>(cl: TfIdfClassifier<C, T>, ln: real -> real): Weighting<T> {
    Weighting(cl.documentFrequencies, cl.documentCount, cl.tfIdfFormula, ln)
  }

  /** One result per profile, in the profiles' order, each scoring the
      document against that profile with `score`. */
  function ScoreAll<C, T>(document: Profile<T>, profiles: seq<(C, Profile<T>)>,
                          score: (Profile<T>, Profile<T>) -> real): (r: seq<ClassificationResult<C>>)
    ensures |r| == |profiles|
    ensures forall i :: 0 <= i < |r| ==>
      r[i].category == profiles[i].0 && r[i].score == score(document, profiles[i].1)
  {
    if |profiles| == 0 then []
    else [ClassificationResult(score(document, profiles[0].1), profiles[0].0)]
         + ScoreAll(document, profiles[1..], score)
  }

  /** The candidates for the token sequence `tokens`: its profile scored
      against every category with the score `CosSquare` computes (line 127
      as written), under the classifier's weighting. The bound `max` is accepted and not used: every category is returned,
      unsorted. */
  function Candidates<C, T(==, !new)>(cl: TfIdfClassifier<C, T>, ln: real -> real, tokens: seq<T>, max: int)
    : (r: seq<ClassificationResult<C>>)
    ensures |r| == |cl.profiles|
    ensures forall i :: 0 <= i < |r| ==>
      r[i].category == cl.profiles[i].0
      && r[i].score == CosSquare(WeightingOf(cl, ln), FromTokens(tokens), cl.profiles[i].1)
      && r[i].score >= 0.0
  {
    ScoreAll(FromTokens(tokens), cl.profiles, (d, c) => CosSquare(WeightingOf(cl, ln), d, c))
  }

  /** The results name exactly the classifier's categories, and with
      distinct categories no category is named twice: one result per
      category. */
  lemma OneResultPerCategory<C, T(!new)>(cl: TfIdfClassifier<C, T>, ln: real -> real, tokens: seq<T>, max: int)
    ensures var r := Candidates(cl, ln, tokens, max);
      (set i | 0 <= i < |r| :: r[i].category) == Categories(cl.profiles)
      && (DistinctCategories(cl.profiles) ==> forall i, j :: 0 <= i < j < |r| ==> r[i].category != r[j].category)
  {
    var r := Candidates(cl, ln, tokens, max);
    SameCategories(r, cl.profiles);
  }

  /** A result list whose i-th category is the i-th profile's category. */
  lemma SameCategories<C, T>(r: seq<ClassificationResult<C>>, profiles: seq<(C, Profile<T>)>)
    requires |r| == |profiles|
    requires forall i :: 0 <= i < |r| ==> r[i].category == profiles[i].0
    ensures (set i | 0 <= i < |r| :: r[i].category) == Categories(profiles)
    ensures DistinctCategories(profiles) ==> forall i, j :: 0 <= i < j < |r| ==> r[i].category != r[j].category
  {
    forall c | c in Categories(profiles) ensures c in (set i | 0 <= i < |r| :: r[i].category) {
      var j :| 0 <= j < |profiles| && profiles[j].0 == c;
      assert r[j].category == c;
    }
  }

  /** The result does not depend on `max`. */
  lemma CandidatesIgnoreMax<C, T(!new)>(cl: TfIdfClassifier<C, T>, ln: real -> real, tokens: seq<T>, max: int, max': int)
    ensures Candidates(cl, ln, tokens, max) == Candidates(cl, ln, tokens, max')
  {
  }

  /** An empty token sequence scores 0 against every category. */
  lemma EmptyObjectScoresZero<C, T(!new)>(cl: TfIdfClassifier<C, T>, ln: real -> real, max: int)
    ensures forall x :: x in Candidates(cl, ln, [], max) ==> x.score == 0.0
  {
    var r := Candidates(cl, ln, [], max);
    forall x | x in r ensures x.score == 0.0 {
      var i :| 0 <= i < |r| && r[i] == x;
      EmptyDocumentScoresZero(WeightingOf(cl, ln), cl.profiles[i].1);
    }
  }

  /** A token sequence sharing no token with a category scores 0 against it
      under a formula that weighs an absent token 0 (all three built-in
      formulas do). */
  lemma DisjointCategoryScoresZero<C, T(!new)>(cl: TfIdfClassifier<C, T>, ln: real -> real, tokens: seq<T>, max: int, i: nat)
    requires Formulas.ZeroAtZero(cl.tfIdfFormula, ln)
    requires i < |cl.profiles|
    requires forall t :: t in tokens ==> t !in Tokens(cl.profiles[i].1)
    ensures Candidates(cl, ln, tokens, max)[i].score == 0.0
  {
    DisjointScoresZero(WeightingOf(cl, ln), FromTokens(tokens), cl.profiles[i].1);
  }

  /** The candidates with the corrected product update (the squared cosine
      over the shorter profile's tokens): every score lies in [0, 1]. */
  function CandidatesIntended<C, T(==, !new)>(cl: TfIdfClassifier<C, T>, ln: real -> real, tokens: seq<T>, max: int)
    : (r: seq<ClassificationResult<C>>)
    ensures |r| == |cl.profiles|
    ensures forall i :: 0 <= i < |r| ==>
      r[i].category == cl.profiles[i].0
      && r[i].score == CorrectedSimilarity.CosSquareIntended(WeightingOf(cl, ln), FromTokens(tokens), cl.profiles[i].1)
      && 0.0 <= r[i].score <= 1.0
  {
    ScoreAll(FromTokens(tokens), cl.profiles,
             (d, c) => CorrectedSimilarity.CosSquareIntended(WeightingOf(cl, ln), d, c))
  }

  /** With the corrected score, a document whose table is a category's
      table (in whatever order either is iterated), and which has some
      non-zero weight, matches that category with score 1. */
  lemma IntendedExactMatchScoresOne<C, T(!new)>(cl: TfIdfClassifier<C, T>, ln: real -> real, tokens: seq<T>, max: int, i: nat)
    requires i < |cl.profiles|
    requires SameTable(cl.profiles[i].1, FromTokens(tokens))
    requires SumSq(ShortWeights(WeightingOf(cl, ln), FromTokens(tokens))) != 0.0
    ensures CandidatesIntended(cl, ln, tokens, max)[i].score == 1.0
  {
    var w, document := WeightingOf(cl, ln), FromTokens(tokens);
    CorrectedSimilarity.IntendedIgnoresEntryOrder(w, document, cl.profiles[i].1, document, document);
    CorrectedSimilarity.SelfScoreIsOne(w, document);
  }
}
