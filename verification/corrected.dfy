/** The score with the one-line fix of the product update, next to the loop
    as the classifier writes it. The classifier adds (running sum of squared
    shorter weights) x (longer weight) to the product at each step; a cosine
    needs (shorter weight) x (longer weight). `CosSquareIntended` makes that
    one change and nothing else, so it is the squared cosine of the two
    profiles' weights over the shorter profile's tokens: the longer
    profile's magnitude still counts only those tokens, and on a tie of
    token counts the argument order still matters (`IntendedTieAsymmetry`).
    It is proved to lie in [0, 1], to score a profile against itself as 1
    and not to depend on the order in which the tables are iterated;
    `AsWrittenCounterexample` shows the loop as written does none of these. */
module CorrectedSimilarity {
  import opened Frequencies
  import opened Similarity
  import Formulas

  /** The dot product of two weight sequences. */
  function Dot(ss: seq<real>, ls: seq<real>): real
    requires |ss| == |ls|
  {
    if |ss| == 0 then 0.0 else ss[0] * ls[0] + Dot(ss[1..], ls[1..])
  }

  /** 2xy(s . l) <= x^2 |l|^2 + y^2 |s|^2, since the difference is the sum
      of the squares (x l[i] - y s[i])^2. */
  lemma {:induction false} CrossTerm(x: real, y: real, ss: seq<real>, ls: seq<real>)
    requires |ss| == |ls|
    ensures 2.0 * x * y * Dot(ss, ls) <= x * x * SumSq(ls) + y * y * SumSq(ss)
    decreases |ss|
  {
    if |ss| > 0 {
      var s, t := ss[0], ls[0];
      var d, a, b := Dot(ss[1..], ls[1..]), SumSq(ss[1..]), SumSq(ls[1..]);
      CrossTerm(x, y, ss[1..], ls[1..]);
      SquaredDifference(x * t, y * s);
      Distribute(x * x, t * t, b);
      Distribute(y * y, s * s, a);
      Distribute(2.0 * x * y, s * t, d);
      assert (x * t) * (x * t) == x * x * (t * t);
      assert (y * s) * (y * s) == y * y * (s * s);
      assert 2.0 * (x * t) * (y * s) == 2.0 * x * y * (s * t);
    }
  }

  lemma SquaredDifference(u: real, v: real)
    ensures 0.0 <= (u - v) * (u - v) == u * u - 2.0 * u * v + v * v
  {
  }

  lemma Distribute(k: real, u: real, v: real)
    ensures k * (u + v) == k * u + k * v
  {
  }

  /** Cauchy-Schwarz: the squared dot product is at most the product of the
      squared magnitudes. */
  lemma {:induction false} CauchySchwarz(ss: seq<real>, ls: seq<real>)
    requires |ss| == |ls|
    ensures Dot(ss, ls) * Dot(ss, ls) <= SumSq(ss) * SumSq(ls)
    decreases |ss|
  {
    if |ss| > 0 {
      var x, y := ss[0], ls[0];
      var d, a, b := Dot(ss[1..], ls[1..]), SumSq(ss[1..]), SumSq(ls[1..]);
      CauchySchwarz(ss[1..], ls[1..]);
      CrossTerm(x, y, ss[1..], ls[1..]);
      assert (x * y + d) * (x * y + d) == x * x * (y * y) + 2.0 * x * y * d + d * d;
      assert (x * x + a) * (y * y + b) == x * x * (y * y) + x * x * b + y * y * a + a * b;
    }
  }

  lemma {:induction false} DotSelf(ss: seq<real>)
    ensures Dot(ss, ss) == SumSq(ss)
    decreases |ss|
  {
    if |ss| > 0 {
      DotSelf(ss[1..]);
    }
  }

  /** The squared cosine of two weight sequences, 0 when either has
      magnitude 0. */
  function CosSquareOf(ss: seq<real>, ls: seq<real>): (r: real)
    requires |ss| == |ls|
    ensures 0.0 <= r <= 1.0
  {
    if SumSq(ss) == 0.0 || SumSq(ls) == 0.0 then 0.0
    else
      CauchySchwarz(ss, ls);
      Ratio(Dot(ss, ls), SumSq(ss), SumSq(ls))
  }

  /** d^2 / (a b), which Cauchy-Schwarz keeps within [0, 1]. */
  function Ratio(d: real, a: real, b: real): (r: real)
    requires a > 0.0 && b > 0.0
    requires d * d <= a * b
    ensures 0.0 <= r <= 1.0
  {
    PositiveProduct(a, b);
    QuotientAtMostOne(d * d, a * b);
    d * d / (a * b)
  }

  lemma QuotientAtMostOne(x: real, y: real)
    requires 0.0 <= x <= y && y != 0.0
    ensures 0.0 <= x / y <= 1.0
  {
  }

  lemma PositiveProduct(a: real, b: real)
    requires a > 0.0 && b > 0.0
    ensures a * b > 0.0
  {
  }

  lemma RatioSelf(a: real)
    requires a > 0.0
    ensures Ratio(a, a, a) == 1.0
  {
    DivSelf(a, a);
  }

  lemma DivSelf(a: real, b: real)
    requires a > 0.0 && b > 0.0
    ensures (a * b) / (a * b) == 1.0
  {
    PositiveProduct(a, b);
  }

  /** The score with the product accumulated as a true dot product: the
      squared cosine of the weights at the shorter profile's tokens. The
      longer profile's weights at other tokens are not counted. */
  function CosSquareIntended<T(==)>(w: Weighting<T>, document: Profile<T>, category: Profile<T>): (r: real)
    ensures 0.0 <= r <= 1.0
  {
    var (shorter, longer) := Arrange(document, category);
    CosSquareOf(ShortWeights(w, shorter), LongWeights(w, shorter, longer))
  }

  /** A profile without repeated tokens and with some non-zero weight scores
      exactly 1 against itself. */
  lemma SelfScoreIsOne<T>(w: Weighting<T>, p: Profile<T>)
    requires DistinctTokens(p)
    requires SumSq(ShortWeights(w, p)) != 0.0
    ensures CosSquareIntended(w, p, p) == 1.0
  {
    var ss := ShortWeights(w, p);
    forall i | 0 <= i < |p| ensures LongWeights(w, p, p)[i] == ss[i] {
      FrequencyOfEntry(p, i);
    }
    assert LongWeights(w, p, p) == ss;
    assert CosSquareIntended(w, p, p) == CosSquareOf(ss, ss);
    DotSelf(ss);
    RatioSelf(SumSq(ss));
  }

  // Order independence: the corrected score sees the shorter profile only
  // through sums over its entries.

  /** The weight of an entry's token in `longer`. */
  function LongerWeight<T(==)>(w: Weighting<T>, longer: Profile<T>, e: Entry<T>): real {
    TfIdf(w, Frequency(longer, e.token), e.token)
  }

  /** The squared own weight of an entry. */
  function ShortSquare<T(==)>(w: Weighting<T>): Entry<T> -> real {
    (e: Entry<T>) => TfIdf(w, e.count, e.token) * TfIdf(w, e.count, e.token)
  }

  /** The squared weight of an entry's token in `longer`. */
  function LongSquare<T(==)>(w: Weighting<T>, longer: Profile<T>): Entry<T> -> real {
    (e: Entry<T>) => LongerWeight(w, longer, e) * LongerWeight(w, longer, e)
  }

  /** The own weight of an entry times its token's weight in `longer`. */
  function CrossWeight<T(==)>(w: Weighting<T>, longer: Profile<T>): Entry<T> -> real {
    (e: Entry<T>) => TfIdf(w, e.count, e.token) * LongerWeight(w, longer, e)
  }

  /** The two squared magnitudes and the dot product are sums over the
      shorter profile's entries. */
  lemma WeightsAreSums<T>(w: Weighting<T>, shorter: Profile<T>, longer: Profile<T>)
    ensures SumSq(ShortWeights(w, shorter)) == SumOver(ShortSquare(w), shorter)
    ensures SumSq(LongWeights(w, shorter, longer)) == SumOver(LongSquare(w, longer), shorter)
    ensures Dot(ShortWeights(w, shorter), LongWeights(w, shorter, longer)) == SumOver(CrossWeight(w, longer), shorter)
  {
    ShortSquaresAreSum(w, shorter);
    LongSquaresAreSum(w, shorter, longer);
    CrossIsSum(w, shorter, longer);
  }

  lemma {:induction false} ShortSquaresAreSum<T>(w: Weighting<T>, shorter: Profile<T>)
    ensures SumSq(ShortWeights(w, shorter)) == SumOver(ShortSquare(w), shorter)
    decreases |shorter|
  {
    if |shorter| > 0 {
      var ss := ShortWeights(w, shorter);
      assert ss[1..] == ShortWeights(w, shorter[1..]);
      ShortSquaresAreSum(w, shorter[1..]);
      ShortSquareAtHead(w, shorter);
      SumSqHead(ss);
    }
  }

  lemma {:induction false} LongSquaresAreSum<T>(w: Weighting<T>, shorter: Profile<T>, longer: Profile<T>)
    ensures SumSq(LongWeights(w, shorter, longer)) == SumOver(LongSquare(w, longer), shorter)
    decreases |shorter|
  {
    if |shorter| > 0 {
      var ls := LongWeights(w, shorter, longer);
      assert ls[1..] == LongWeights(w, shorter[1..], longer);
      LongSquaresAreSum(w, shorter[1..], longer);
      LongSquareAtHead(w, shorter, longer);
      SumSqHead(ls);
    }
  }

  lemma {:induction false} CrossIsSum<T>(w: Weighting<T>, shorter: Profile<T>, longer: Profile<T>)
    ensures Dot(ShortWeights(w, shorter), LongWeights(w, shorter, longer)) == SumOver(CrossWeight(w, longer), shorter)
    decreases |shorter|
  {
    if |shorter| > 0 {
      var ss, ls := ShortWeights(w, shorter), LongWeights(w, shorter, longer);
      assert ss[1..] == ShortWeights(w, shorter[1..]);
      assert ls[1..] == LongWeights(w, shorter[1..], longer);
      CrossIsSum(w, shorter[1..], longer);
      CrossAtHead(w, shorter, longer);
      DotHead(ss, ls);
    }
  }

  lemma CrossAtHead<T>(w: Weighting<T>, shorter: Profile<T>, longer: Profile<T>)
    requires |shorter| > 0
    ensures CrossWeight(w, longer)(shorter[0]) == ShortWeights(w, shorter)[0] * LongWeights(w, shorter, longer)[0]
  {
    assert ShortWeights(w, shorter)[0] == TfIdf(w, shorter[0].count, shorter[0].token);
    assert LongWeights(w, shorter, longer)[0] == LongerWeight(w, longer, shorter[0]);
  }

  lemma ShortSquareAtHead<T>(w: Weighting<T>, shorter: Profile<T>)
    requires |shorter| > 0
    ensures ShortSquare(w)(shorter[0]) == ShortWeights(w, shorter)[0] * ShortWeights(w, shorter)[0]
  {
    assert ShortWeights(w, shorter)[0] == TfIdf(w, shorter[0].count, shorter[0].token);
  }

  lemma LongSquareAtHead<T>(w: Weighting<T>, shorter: Profile<T>, longer: Profile<T>)
    requires |shorter| > 0
    ensures LongSquare(w, longer)(shorter[0]) == LongWeights(w, shorter, longer)[0] * LongWeights(w, shorter, longer)[0]
  {
    assert LongWeights(w, shorter, longer)[0] == LongerWeight(w, longer, shorter[0]);
  }

  lemma SumSqHead(ws: seq<real>)
    requires |ws| > 0
    ensures SumSq(ws) == ws[0] * ws[0] + SumSq(ws[1..])
  {
  }

  lemma DotHead(ss: seq<real>, ls: seq<real>)
    requires |ss| == |ls| > 0
    ensures Dot(ss, ls) == ss[0] * ls[0] + Dot(ss[1..], ls[1..])
  {
  }

  /** Longer profiles that agree on every lookup give the same weights. */
  lemma LongWeightsByLookup<T>(w: Weighting<T>, shorter: Profile<T>, longer: Profile<T>, longer': Profile<T>)
    requires forall t :: Frequency(longer, t) == Frequency(longer', t)
    ensures LongWeights(w, shorter, longer) == LongWeights(w, shorter, longer')
  {
  }

  /** The corrected score of a reordered shorter profile against a longer
      profile of the same table is unchanged. */
  lemma {:induction false} CosSquareOfSameTable<T>(
    w: Weighting<T>, shorter: Profile<T>, longer: Profile<T>, shorter': Profile<T>, longer': Profile<T>)
    requires multiset(shorter) == multiset(shorter')
    requires forall t :: Frequency(longer, t) == Frequency(longer', t)
    ensures CosSquareOf(ShortWeights(w, shorter), LongWeights(w, shorter, longer))
         == CosSquareOf(ShortWeights(w, shorter'), LongWeights(w, shorter', longer'))
  {
    LongWeightsByLookup(w, shorter', longer, longer');
    WeightsAreSums(w, shorter, longer);
    WeightsAreSums(w, shorter', longer);
    SumOverPermutation(ShortSquare(w), shorter, shorter');
    SumOverPermutation(LongSquare(w, longer), shorter, shorter');
    SumOverPermutation(CrossWeight(w, longer), shorter, shorter');
  }

  /** The corrected score depends on the two tables and not on the order in
      which either is iterated. */
  lemma IntendedIgnoresEntryOrder<T>(
    w: Weighting<T>, document: Profile<T>, category: Profile<T>, document': Profile<T>, category': Profile<T>)
    requires SameTable(document, document')
    requires SameTable(category, category')
    ensures CosSquareIntended(w, document, category) == CosSquareIntended(w, document', category')
  {
    SameTableAgrees(document, document');
    SameTableAgrees(category, category');
    if TokenCount(document) > TokenCount(category) {
      CosSquareOfSameTable(w, category, document, category', document');
    } else {
      CosSquareOfSameTable(w, document, category, document', category');
    }
  }

  /** A walk over two entries is two `Step`s from zero. */
  lemma AccumulateTwo<T>(w: Weighting<T>, shorter: Profile<T>, longer: Profile<T>)
    requires |shorter| == 2
    ensures Accumulate(w, shorter, longer)
         == Step(Step(Sums(0.0, 0.0, 0.0),
                      TfIdf(w, shorter[0].count, shorter[0].token),
                      TfIdf(w, Frequency(longer, shorter[0].token), shorter[0].token)),
                 TfIdf(w, shorter[1].count, shorter[1].token),
                 TfIdf(w, Frequency(longer, shorter[1].token), shorter[1].token))
  {
    assert shorter[..1][..0] == [];
    AccumulateSnoc(w, shorter, longer, 0);
    AccumulateSnoc(w, shorter, longer, 1);
    assert shorter[..2] == shorter;
  }

  /** The sums of the two-entry walks with weights (1, 1) then (2, 2), and
      (2, 2) then (1, 1). */
  lemma StepExamples()
    ensures Step(Step(Sums(0.0, 0.0, 0.0), 1.0, 1.0), 2.0, 2.0) == Sums(11.0, 5.0, 5.0)
    ensures Step(Step(Sums(0.0, 0.0, 0.0), 2.0, 2.0), 1.0, 1.0) == Sums(13.0, 5.0, 5.0)
  {
    assert Step(Sums(0.0, 0.0, 0.0), 1.0, 1.0) == Sums(1.0, 1.0, 1.0);
    assert Step(Sums(1.0, 1.0, 1.0), 2.0, 2.0) == Sums(11.0, 5.0, 5.0);
    assert Step(Sums(0.0, 0.0, 0.0), 2.0, 2.0) == Sums(8.0, 4.0, 4.0);
    assert Step(Sums(8.0, 4.0, 4.0), 1.0, 1.0) == Sums(13.0, 5.0, 5.0);
  }

  /** The example weighting: raw counts, no corpus statistics. */
  function CounterexampleWeighting(): Weighting<int> {
    Weighting([], 0, Formulas.Frequency, x => x)
  }

  /** The table {0: 1, 1: 2} iterated in the order (0, 1). */
  function Forward(): Profile<int> {
    [Entry(0, 1), Entry(1, 2)]
  }

  /** The same table iterated in the order (1, 0). */
  function Backward(): Profile<int> {
    [Entry(1, 2), Entry(0, 1)]
  }

  lemma CounterexampleTables()
    ensures forall t :: Frequency(Forward(), t) == Frequency(Backward(), t)
    ensures TokenCount(Forward()) == 3 == TokenCount(Backward())
  {
    assert Forward()[1..] == [Entry(1, 2)] && Backward()[1..] == [Entry(0, 1)];
  }

  lemma CounterexampleSums(longer: Profile<int>)
    requires longer == Forward() || longer == Backward()
    ensures Accumulate(CounterexampleWeighting(), Forward(), longer) == Sums(11.0, 5.0, 5.0)
    ensures Accumulate(CounterexampleWeighting(), Backward(), longer) == Sums(13.0, 5.0, 5.0)
  {
    var w := CounterexampleWeighting();
    CounterexampleTables();
    assert Frequency(longer, 0) == 1 && Frequency(longer, 1) == 2 by {
      assert Forward()[1..] == [Entry(1, 2)] && Backward()[1..] == [Entry(0, 1)];
    }
    assert TfIdf(w, 1, 0) == 1.0 && TfIdf(w, 2, 1) == 2.0;
    AccumulateTwo(w, Forward(), longer);
    AccumulateTwo(w, Backward(), longer);
    StepExamples();
  }

  /** With the `Frequency` formula, the table {0: 1, 1: 2} walked in the
      order (0, 1) scores 121/25 against itself, above 1; the same table
      walked in the order (1, 0) scores 169/25; and the two orders, having
      equal token counts, give different scores when swapped. */
  lemma AsWrittenCounterexample()
    ensures forall t :: Frequency(Forward(), t) == Frequency(Backward(), t)
    ensures CosSquare(CounterexampleWeighting(), Forward(), Forward()) == 121.0 / 25.0
    ensures CosSquare(CounterexampleWeighting(), Backward(), Backward()) == 169.0 / 25.0
    ensures CosSquare(CounterexampleWeighting(), Forward(), Backward())
         != CosSquare(CounterexampleWeighting(), Backward(), Forward())
  {
    CounterexampleTables();
    CounterexampleSums(Forward());
    CounterexampleSums(Backward());
    ScoreExamples();
    CounterexampleScore(Forward(), Forward());
    CounterexampleScore(Backward(), Backward());
    CounterexampleScore(Forward(), Backward());
    CounterexampleScore(Backward(), Forward());
  }

  /** The two orders tie on token count, so the first argument is walked. */
  lemma CounterexampleScore(document: Profile<int>, category: Profile<int>)
    requires document == Forward() || document == Backward()
    requires category == Forward() || category == Backward()
    ensures CosSquare(CounterexampleWeighting(), document, category)
         == Score(Accumulate(CounterexampleWeighting(), document, category))
  {
    CounterexampleTables();
  }

  lemma ScoreExamples()
    ensures Score(Sums(11.0, 5.0, 5.0)) == 121.0 / 25.0
    ensures Score(Sums(13.0, 5.0, 5.0)) == 169.0 / 25.0
  {
  }

  /** Line 127 as written: a one-token document of count 2 scores 4, its own
      weight squared, against a category holding that token at any positive
      count k next to a token of count 10: the longer weight cancels out. */
  lemma AsWrittenSingleTokenScore(k: nat)
    requires k > 0
    ensures CosSquare(CounterexampleWeighting(), [Entry(0, 2)], [Entry(0, k), Entry(1, 10)]) == 4.0
  {
    SingleTokenSums(k);
    SingleTokenQuotient(k);
  }

  /** The accumulators 4k, 4 and k^2 give score 4 for every positive k. */
  lemma SingleTokenQuotient(k: nat)
    requires k > 0
    ensures Score(Sums(4.0 * (k as real), 4.0, (k as real) * (k as real))) == 4.0
  {
    var b := (k as real) * (k as real);
    assert b > 0.0;
    assert (4.0 * (k as real)) * (4.0 * (k as real)) == 4.0 * (4.0 * b);
    FourTimesQuotient(4.0 * b);
  }

  lemma FourTimesQuotient(x: real)
    requires x != 0.0
    ensures (4.0 * x) / x == 4.0
  {
  }

  /** The document [(0, 2)] is the shorter profile against [(0, k), (1, 10)]
      and accumulates product 4k, squared magnitude 4 and k^2 for the
      category. */
  lemma SingleTokenSums(k: nat)
    requires k > 0
    ensures CosSquare(CounterexampleWeighting(), [Entry(0, 2)], [Entry(0, k), Entry(1, 10)])
         == Score(Sums(4.0 * (k as real), 4.0, (k as real) * (k as real)))
  {
    SingleTokenWalk(CounterexampleWeighting(), [Entry(0, 2)], [Entry(0, k), Entry(1, 10)], k);
  }

  lemma SingleTokenWalk(w: Weighting<int>, document: Profile<int>, category: Profile<int>, k: nat)
    requires k > 0
    requires w == CounterexampleWeighting() && document == [Entry(0, 2)] && category == [Entry(0, k), Entry(1, 10)]
    ensures Arrange(document, category) == (document, category)
    ensures Accumulate(w, document, category) == Sums(4.0 * (k as real), 4.0, (k as real) * (k as real))
  {
    assert TokenCount(category) == k + 10 by {
      assert category[1..] == [Entry(1, 10)];
      assert TokenCount([Entry(1, 10)]) == 10;
    }
    assert TokenCount(document) == 2;
    assert Frequency(category, 0) == k;
    AccumulateSnoc(w, document, category, 0);
    assert document[..1] == document && document[..0] == [];
  }

  /** The corrected score of the same profile against itself is 1. */
  lemma IntendedCounterexampleScore()
    ensures CosSquareIntended(CounterexampleWeighting(), Forward(), Forward()) == 1.0
  {
    var w := CounterexampleWeighting();
    var p := Forward();
    assert ShortWeights(w, p) == [1.0, 2.0];
    assert SumSq([1.0, 2.0]) == 5.0 by {
      assert [1.0, 2.0][1..] == [2.0];
      assert [2.0][1..] == [];
    }
    SelfScoreIsOne(w, p);
  }

  /** Three tokens counted once each. */
  function ThreeOnes(): Profile<int> {
    [Entry(0, 1), Entry(1, 1), Entry(2, 1)]
  }

  /** One token counted three times. */
  function OneThree(): Profile<int> {
    [Entry(0, 3)]
  }

  /** The correction keeps the longer profile's magnitude restricted to the
      shorter profile's tokens: a single token matches a category holding it
      once beside a token of count 100 with score 1, where the cosine of the
      full profiles is 1/10001. */
  lemma IntendedLongerMagnitudeTruncated()
    ensures CosSquareIntended(CounterexampleWeighting(), [Entry(0, 1)], [Entry(0, 1), Entry(1, 100)]) == 1.0
  {
    var w, document, category := CounterexampleWeighting(), [Entry(0, 1)], [Entry(0, 1), Entry(1, 100)];
    assert TokenCount(category) == 101 by {
      assert category[1..] == [Entry(1, 100)];
      assert TokenCount([Entry(1, 100)]) == 100;
    }
    assert TokenCount(document) == 1;
    assert Frequency(category, 0) == 1;
    assert ShortWeights(w, document) == [1.0];
    assert LongWeights(w, document, category) == [1.0];
    assert SumSq([1.0]) == 1.0 && Dot([1.0], [1.0]) == 1.0;
    RatioSelf(1.0);
  }

  /** The correction keeps the walk over the shorter profile only, so on a
      tie of token counts the argument order still matters: walking the
      three ones gives 1/3, walking the single entry gives 1. */
  lemma IntendedTieAsymmetry()
    ensures TokenCount(ThreeOnes()) == 3 == TokenCount(OneThree())
    ensures CosSquareIntended(CounterexampleWeighting(), ThreeOnes(), OneThree()) == 1.0 / 3.0
    ensures CosSquareIntended(CounterexampleWeighting(), OneThree(), ThreeOnes()) == 1.0
  {
    var w := CounterexampleWeighting();
    var a, b := ThreeOnes(), OneThree();
    assert a[1..] == [Entry(1, 1), Entry(2, 1)] && a[1..][1..] == [Entry(2, 1)];
    TieWalkingThreeOnes(w, a, b);
    TieWalkingOneThree(w, a, b);
  }

  lemma TieWalkingThreeOnes(w: Weighting<int>, a: Profile<int>, b: Profile<int>)
    requires w == CounterexampleWeighting() && a == ThreeOnes() && b == OneThree()
    requires TokenCount(a) == TokenCount(b)
    ensures CosSquareIntended(w, a, b) == 1.0 / 3.0
  {
    var ss, ls := ShortWeights(w, a), LongWeights(w, a, b);
    assert Frequency(b, 1) == 0 && Frequency(b, 2) == 0 by { assert b[1..] == []; }
    assert ss == [1.0, 1.0, 1.0];
    assert ls == [3.0, 0.0, 0.0];
    ThreeTermSums();
    assert CosSquareIntended(w, a, b) == Ratio(3.0, 3.0, 9.0);
  }

  lemma ThreeTermSums()
    ensures SumSq([1.0, 1.0, 1.0]) == 3.0
    ensures SumSq([3.0, 0.0, 0.0]) == 9.0
    ensures Dot([1.0, 1.0, 1.0], [3.0, 0.0, 0.0]) == 3.0
  {
    var ones, l := [1.0, 1.0, 1.0], [3.0, 0.0, 0.0];
    assert ones[1..] == [1.0, 1.0] && ones[1..][1..] == [1.0] && ones[1..][1..][1..] == [];
    assert l[1..] == [0.0, 0.0] && l[1..][1..] == [0.0] && l[1..][1..][1..] == [];
    assert SumSq([1.0]) == 1.0 && SumSq([1.0, 1.0]) == 2.0;
    assert SumSq([0.0]) == 0.0 && SumSq([0.0, 0.0]) == 0.0;
    assert Dot([1.0], [0.0]) == 0.0 && Dot([1.0, 1.0], [0.0, 0.0]) == 0.0;
  }

  lemma TieWalkingOneThree(w: Weighting<int>, a: Profile<int>, b: Profile<int>)
    requires w == CounterexampleWeighting() && a == ThreeOnes() && b == OneThree()
    requires TokenCount(a) == TokenCount(b)
    ensures CosSquareIntended(w, b, a) == 1.0
  {
    var ss, ls := ShortWeights(w, b), LongWeights(w, b, a);
    assert ss == [3.0];
    assert ls == [1.0];
    assert ss[1..] == [] && ls[1..] == [];
    assert SumSq(ss) == 3.0 * 3.0 + SumSq([]);
    assert SumSq(ls) == 1.0 * 1.0 + SumSq([]);
    assert Dot(ss, ls) == 3.0 * 1.0 + Dot([], []);
    assert SumSq(ss) == 9.0 && SumSq(ls) == 1.0 && Dot(ss, ls) == 3.0;
    assert CosSquareIntended(w, b, a) == Ratio(3.0, 9.0, 1.0);
  }
}
