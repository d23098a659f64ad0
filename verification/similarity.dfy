/** The squared-cosine score of a document profile against a category
    profile, as the classifier computes it: the profile with the smaller
    token count is "shorter", only its entries are walked, in its iteration
    order, and three running sums are kept. The product sum adds the running
    sum of squared shorter weights times the longer weight at each step. */
module Similarity {
  import opened Frequencies
  import Formulas

  /** What the classifier weighs tokens with: the corpus document
      frequencies, the training document count, the formula and the
      logarithm the `Standard` formula uses. */
  datatype Weighting<T> = Weighting(
    documentFrequencies: Profile<T>,
    documentCount: nat,
    formula: Formulas.Formula,
    ln: real -> real)

  /** The weight of `token` occurring `freq` times. */
  function TfIdf<T(==)>(w: Weighting<T>, freq: nat, token: T): real {
    Formulas.Calculate(w.formula, w.ln, freq, Frequency(w.documentFrequencies, token), w.documentCount)
  }

  /** The weight of a token follows its formula: 0 for an absent token under
      the built-in formulas, 0 under `Standard` for a token without document
      frequency, the count under `Frequency`, presence under `Threshold`. */
  lemma TfIdfCases<T>(w: Weighting<T>, freq: nat, token: T)
    ensures freq == 0 && !w.formula.Custom? ==> TfIdf(w, freq, token) == 0.0
    ensures w.formula.Standard? && token !in Tokens(w.documentFrequencies) ==> TfIdf(w, freq, token) == 0.0
    ensures w.formula.Frequency? ==> TfIdf(w, freq, token) == freq as real
    ensures w.formula.Threshold? ==> (TfIdf(w, freq, token) == 0.0 <==> freq == 0)
  {
  }

  /** The (shorter, longer) pair: the category is shorter only when the
      document has strictly more token occurrences; on a tie the document is
      the shorter one. */
  function Arrange<T>(document: Profile<T>, category: Profile<T>): (pair: (Profile<T>, Profile<T>))
    ensures TokenCount(pair.0) <= TokenCount(pair.1)
    ensures multiset{pair.0, pair.1} == multiset{document, category}
    ensures TokenCount(document) == TokenCount(category) ==> pair == (document, category)
  {
    if TokenCount(document) > TokenCount(category) then (category, document) else (document, category)
  }

  /** The three accumulators of the loop. */
  datatype Sums = Sums(product: real, shortModSq: real, longModSq: real)

  /** One loop iteration with shorter weight `s` and longer weight `l`. */
  function Step(acc: Sums, s: real, l: real): (r: Sums)
  {
    var shortModSq := acc.shortModSq + s * s;
    Sums(acc.product + shortModSq * l, shortModSq, acc.longModSq + l * l)
  }

  /** A step never lowers either sum of squares, and the product grows by
      the longer weight times the shorter sum of squares already updated
      with this step's weight, not times the shorter weight. */
  lemma StepUpdatesInOrder(acc: Sums, s: real, l: real)
    ensures Step(acc, s, l).shortModSq >= acc.shortModSq
    ensures Step(acc, s, l).longModSq >= acc.longModSq
    ensures Step(acc, s, l).product - acc.product == Step(acc, s, l).shortModSq * l
    ensures Step(acc, s, l).product - acc.product == (acc.shortModSq + s * s) * l
  {
  }

  /** The accumulators after walking all entries of `shorter`, each weighed
      by its own count and by its token's frequency in `longer`. */
  function Accumulate<T(==)>(w: Weighting<T>, shorter: Profile<T>, longer: Profile<T>): (acc: Sums)
    ensures acc.shortModSq >= 0.0 && acc.longModSq >= 0.0
    decreases |shorter|
  {
    if |shorter| == 0 then Sums(0.0, 0.0, 0.0)
    else
      var n := |shorter| - 1;
      var e := shorter[n];
      Step(Accumulate(w, shorter[..n], longer), TfIdf(w, e.count, e.token), TfIdf(w, Frequency(longer, e.token), e.token))
  }

  /** The final quotient, with 0 when a squared magnitude is 0. */
  function Score(acc: Sums): (r: real)
  {
    if acc.shortModSq * acc.longModSq == 0.0 then 0.0
    else acc.product * acc.product / (acc.shortModSq * acc.longModSq)
  }

  /** With both magnitudes non-zero the score is the quotient whose product
      with the two squared magnitudes is the squared product sum, so it is
      non-negative when they are positive; with either magnitude 0 it is 0. */
  lemma ScoreQuotient(acc: Sums)
    ensures acc.shortModSq * acc.longModSq == 0.0 ==> Score(acc) == 0.0
    ensures acc.shortModSq * acc.longModSq != 0.0 ==>
      Score(acc) * (acc.shortModSq * acc.longModSq) == acc.product * acc.product
    ensures acc.shortModSq * acc.longModSq > 0.0 ==> Score(acc) >= 0.0
  {
  }

  /** The score of `document` against `category`. */
  function CosSquare<T(==)>(w: Weighting<T>, document: Profile<T>, category: Profile<T>): (r: real)
    ensures r >= 0.0
  {
    var (shorter, longer) := Arrange(document, category);
    var acc := Accumulate(w, shorter, longer);
    assert acc.shortModSq * acc.longModSq >= 0.0;
    Score(acc)
  }

  /** The loop of the classifier, computing the same score. */
  method ComputeCosSquare<T(==)>(w: Weighting<T>, document: Profile<T>, category: Profile<T>) returns (score: real)
    ensures score == CosSquare(w, document, category)
    ensures score >= 0.0
  {
    var shorter, longer;
    if TokenCount(document) > TokenCount(category) {
      shorter, longer := category, document;
    } else {
      shorter, longer := document, category;
    }
    assert (shorter, longer) == Arrange(document, category);
    var product, shortModSq, longModSq := 0.0, 0.0, 0.0;
    var i := 0;
    while i < |shorter|
      invariant 0 <= i <= |shorter|
      invariant Sums(product, shortModSq, longModSq) == Accumulate(w, shorter[..i], longer)
    {
      var token := shorter[i].token;
      var shortTfIdf := TfIdf(w, shorter[i].count, token);
      var longTfIdf := TfIdf(w, Frequency(longer, token), token);
      ghost var before := Sums(product, shortModSq, longModSq);
      shortModSq := shortModSq + shortTfIdf * shortTfIdf;
      longModSq := longModSq + longTfIdf * longTfIdf;
      product := product + shortModSq * longTfIdf;
      StepProduct(before, shortTfIdf, longTfIdf, shortModSq);
      AccumulateSnoc(w, shorter, longer, i);
      i := i + 1;
    }
    assert shorter[..i] == shorter;
    score := Score(Sums(product, shortModSq, longModSq));
  }

  /** The product update reads the shorter sum as already updated. */
  lemma StepProduct(acc: Sums, s: real, l: real, shortModSq: real)
    requires shortModSq == acc.shortModSq + s * s
    ensures Step(acc, s, l) == Sums(acc.product + shortModSq * l, shortModSq, acc.longModSq + l * l)
  {
  }

  /** Walking one more entry is one more `Step`. */
  lemma AccumulateSnoc<T>(w: Weighting<T>, shorter: Profile<T>, longer: Profile<T>, i: nat)
    requires i < |shorter|
    ensures Accumulate(w, shorter[..i + 1], longer)
         == Step(Accumulate(w, shorter[..i], longer),
                 TfIdf(w, shorter[i].count, shorter[i].token),
                 TfIdf(w, Frequency(longer, shorter[i].token), shorter[i].token))
  {
    assert shorter[..i + 1][..i] == shorter[..i];
  }

  // Reference definitions of the accumulated sums, over the weight sequences.

  /** The weights of the shorter profile's entries, in iteration order. */
  function ShortWeights<T(==)>(w: Weighting<T>, shorter: Profile<T>): seq<real> {
    seq(|shorter|, i requires 0 <= i < |shorter| => TfIdf(w, shorter[i].count, shorter[i].token))
  }

  /** The weights, in the longer profile, of the shorter profile's tokens. */
  function LongWeights<T(==)>(w: Weighting<T>, shorter: Profile<T>, longer: Profile<T>): seq<real> {
    seq(|shorter|, i requires 0 <= i < |shorter| => TfIdf(w, Frequency(longer, shorter[i].token), shorter[i].token))
  }

  /** The sum of the squares of `ws`. */
  function SumSq(ws: seq<real>): (r: real)
    ensures r >= 0.0
  {
    if |ws| == 0 then 0.0 else ws[0] * ws[0] + SumSq(ws[1..])
  }

  /** The sum over i of (s[0]^2 + ... + s[i]^2) * l[i]. */
  function RunningProduct(ss: seq<real>, ls: seq<real>): real
    requires |ss| == |ls|
    decreases |ss|
  {
    if |ss| == 0 then 0.0
    else
      var n := |ss| - 1;
      RunningProduct(ss[..n], ls[..n]) + SumSq(ss) * ls[n]
  }

  lemma {:induction false} SumSqSnoc(ws: seq<real>, x: real)
    ensures SumSq(ws + [x]) == SumSq(ws) + x * x
    decreases |ws|
  {
    if |ws| > 0 {
      assert (ws + [x])[1..] == ws[1..] + [x];
      SumSqSnoc(ws[1..], x);
    } else {
      assert ws + [x] == [x];
    }
  }

  /** The accumulators after `Step`ping through paired weight sequences. */
  function Fold(ss: seq<real>, ls: seq<real>): Sums
    requires |ss| == |ls|
    decreases |ss|
  {
    if |ss| == 0 then Sums(0.0, 0.0, 0.0)
    else
      var n := |ss| - 1;
      Step(Fold(ss[..n], ls[..n]), ss[n], ls[n])
  }

  /** Stepping through weights leaves the sum of squares, the sum of squares
      and the running-sum product in the accumulators. */
  lemma {:induction false} FoldIsSums(ss: seq<real>, ls: seq<real>)
    requires |ss| == |ls|
    ensures Fold(ss, ls) == Sums(RunningProduct(ss, ls), SumSq(ss), SumSq(ls))
    decreases |ss|
  {
    if |ss| > 0 {
      var n := |ss| - 1;
      FoldIsSums(ss[..n], ls[..n]);
      assert ss == ss[..n] + [ss[n]];
      assert ls == ls[..n] + [ls[n]];
      SumSqSnoc(ss[..n], ss[n]);
      SumSqSnoc(ls[..n], ls[n]);
      StepProduct(Fold(ss[..n], ls[..n]), ss[n], ls[n], SumSq(ss));
    }
  }

  /** Walking the entries is stepping through their weights. */
  lemma {:induction false} AccumulateIsFold<T>(w: Weighting<T>, shorter: Profile<T>, longer: Profile<T>)
    ensures Accumulate(w, shorter, longer) == Fold(ShortWeights(w, shorter), LongWeights(w, shorter, longer))
    decreases |shorter|
  {
    if |shorter| > 0 {
      var n := |shorter| - 1;
      assert ShortWeights(w, shorter[..n]) == ShortWeights(w, shorter)[..n];
      assert LongWeights(w, shorter[..n], longer) == LongWeights(w, shorter, longer)[..n];
      AccumulateIsFold(w, shorter[..n], longer);
    }
  }

  /** After the walk, `shortModSq` is the sum of the squared shorter weights,
      `longModSq` the sum of the squared longer weights, and `product` the
      running-sum form of the product. */
  lemma AccumulateIsSums<T>(w: Weighting<T>, shorter: Profile<T>, longer: Profile<T>)
    ensures Accumulate(w, shorter, longer)
         == Sums(RunningProduct(ShortWeights(w, shorter), LongWeights(w, shorter, longer)),
                 SumSq(ShortWeights(w, shorter)),
                 SumSq(LongWeights(w, shorter, longer)))
  {
    AccumulateIsFold(w, shorter, longer);
    FoldIsSums(ShortWeights(w, shorter), LongWeights(w, shorter, longer));
  }

  /** With a formula that never weighs negatively, the product sum is not
      negative either. */
  lemma {:induction false} ProductNonNegative<T>(w: Weighting<T>, shorter: Profile<T>, longer: Profile<T>)
    requires Formulas.NonNegative(w.formula, w.ln)
    ensures Accumulate(w, shorter, longer).product >= 0.0
    decreases |shorter|
  {
    if |shorter| > 0 {
      var n := |shorter| - 1;
      var e := shorter[n];
      ProductNonNegative(w, shorter[..n], longer);
      var l := TfIdf(w, Frequency(longer, e.token), e.token);
      assert l >= 0.0;
      var acc := Accumulate(w, shorter[..n], longer);
      StepKeepsProductNonNegative(acc, TfIdf(w, e.count, e.token), l);
    }
  }

  lemma StepKeepsProductNonNegative(acc: Sums, s: real, l: real)
    requires acc.product >= 0.0 && acc.shortModSq >= 0.0 && l >= 0.0
    ensures Step(acc, s, l).product >= 0.0
  {
    assert (acc.shortModSq + s * s) * l >= 0.0;
  }

  /** When the token counts differ, the order of the two arguments does not
      matter. */
  lemma SwapWhenCountsDiffer<T>(w: Weighting<T>, document: Profile<T>, category: Profile<T>)
    requires TokenCount(document) != TokenCount(category)
    ensures Arrange(document, category) == Arrange(category, document)
    ensures CosSquare(w, document, category) == CosSquare(w, category, document)
  {
  }

  /** The walk reads the longer profile and the document frequencies only at
      the shorter profile's tokens. */
  lemma AccumulateReadsShorterTokensOnly<T>(
    w: Weighting<T>, shorter: Profile<T>, longer: Profile<T>, longer': Profile<T>, documentFrequencies': Profile<T>)
    requires forall t :: t in Tokens(shorter) ==>
               Frequency(longer, t) == Frequency(longer', t)
               && Frequency(w.documentFrequencies, t) == Frequency(documentFrequencies', t)
    ensures Accumulate(w, shorter, longer)
         == Accumulate(w.(documentFrequencies := documentFrequencies'), shorter, longer')
  {
    var w' := w.(documentFrequencies := documentFrequencies');
    forall i | 0 <= i < |shorter|
      ensures ShortWeights(w, shorter)[i] == ShortWeights(w', shorter)[i]
      ensures LongWeights(w, shorter, longer)[i] == LongWeights(w', shorter, longer')[i]
    {
      assert shorter[i].token in Tokens(shorter);
    }
    assert ShortWeights(w, shorter) == ShortWeights(w', shorter);
    assert LongWeights(w, shorter, longer) == LongWeights(w', shorter, longer');
    AccumulateIsSums(w, shorter, longer);
    AccumulateIsSums(w', shorter, longer');
  }

  /** When the document is the shorter profile, the category's counts and
      the document frequencies outside the document's tokens do not affect
      the score. */
  lemma CategoryOutsideDocumentIgnored<T>(
    w: Weighting<T>, document: Profile<T>, category: Profile<T>, category': Profile<T>, documentFrequencies': Profile<T>)
    requires TokenCount(document) <= TokenCount(category)
    requires TokenCount(document) <= TokenCount(category')
    requires forall t :: t in Tokens(document) ==>
               Frequency(category, t) == Frequency(category', t)
               && Frequency(w.documentFrequencies, t) == Frequency(documentFrequencies', t)
    ensures CosSquare(w, document, category)
         == CosSquare(w.(documentFrequencies := documentFrequencies'), document, category')
  {
    AccumulateReadsShorterTokensOnly(w, document, category, category', documentFrequencies');
  }

  /** When the category is the shorter profile, the document's counts and
      the document frequencies outside the category's tokens do not affect
      the score. */
  lemma DocumentOutsideCategoryIgnored<T>(
    w: Weighting<T>, document: Profile<T>, document': Profile<T>, category: Profile<T>, documentFrequencies': Profile<T>)
    requires TokenCount(document) > TokenCount(category)
    requires TokenCount(document') > TokenCount(category)
    requires forall t :: t in Tokens(category) ==>
               Frequency(document, t) == Frequency(document', t)
               && Frequency(w.documentFrequencies, t) == Frequency(documentFrequencies', t)
    ensures CosSquare(w, document, category)
         == CosSquare(w.(documentFrequencies := documentFrequencies'), document', category)
  {
    AccumulateReadsShorterTokensOnly(w, category, document, document', documentFrequencies');
  }

  /** Under `Threshold`, only presence matters: two walks whose entries have
      the same tokens, and whose counts are zero at the same places on both
      sides, accumulate the same sums. */
  lemma ThresholdIgnoresMagnitude<T>(
    w: Weighting<T>, shorter: Profile<T>, longer: Profile<T>, shorter': Profile<T>, longer': Profile<T>)
    requires w.formula.Threshold?
    requires |shorter| == |shorter'|
    requires forall i :: 0 <= i < |shorter| ==>
               shorter[i].token == shorter'[i].token
               && (shorter[i].count == 0 <==> shorter'[i].count == 0)
               && (Frequency(longer, shorter[i].token) == 0 <==> Frequency(longer', shorter[i].token) == 0)
    ensures Accumulate(w, shorter, longer) == Accumulate(w, shorter', longer')
  {
    assert ShortWeights(w, shorter) == ShortWeights(w, shorter');
    assert LongWeights(w, shorter, longer) == LongWeights(w, shorter', longer');
    AccumulateIsSums(w, shorter, longer);
    AccumulateIsSums(w, shorter', longer');
  }

  /** If no token of the shorter profile has a non-zero weight in the longer
      one, the longer squared magnitude stays 0. */
  lemma {:induction false} LongModSqZero<T>(w: Weighting<T>, shorter: Profile<T>, longer: Profile<T>)
    requires forall i :: 0 <= i < |shorter| ==> TfIdf(w, Frequency(longer, shorter[i].token), shorter[i].token) == 0.0
    ensures Accumulate(w, shorter, longer).longModSq == 0.0
    decreases |shorter|
  {
    if |shorter| > 0 {
      var n := |shorter| - 1;
      LongModSqZero(w, shorter[..n], longer);
    }
  }

  /** A document that shares no token with a category scores 0 against it,
      for any formula that weighs an absent token 0. */
  lemma DisjointScoresZero<T>(w: Weighting<T>, document: Profile<T>, category: Profile<T>)
    requires Formulas.ZeroAtZero(w.formula, w.ln)
    requires Tokens(document) !! Tokens(category)
    ensures CosSquare(w, document, category) == 0.0
  {
    var (shorter, longer) := Arrange(document, category);
    forall i | 0 <= i < |shorter|
      ensures TfIdf(w, Frequency(longer, shorter[i].token), shorter[i].token) == 0.0
    {
      assert shorter[i].token in Tokens(shorter);
      assert Frequency(longer, shorter[i].token) == 0;
    }
    LongModSqZero(w, shorter, longer);
  }

  /** A document with no tokens scores 0 against every category. */
  lemma EmptyDocumentScoresZero<T(!new)>(w: Weighting<T>, category: Profile<T>)
    ensures CosSquare(w, FromTokens<T>([]), category) == 0.0
  {
  }
}
