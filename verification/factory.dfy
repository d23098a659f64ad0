/** The classifier factory: it holds the weighting formula (the standard
    TF-IDF formula unless another is set) and turns a trained frequency
    model into a classifier that scores with that formula. */
module ClassifierFactory {
  import opened Frequencies
  import Formulas
  import opened Classification
  import Similarity

  /** The statistics gathered in training: the profile of every category,
      the number of training documents containing each token, and the number
      of training documents. */
  datatype FrequenciesModel<C, T> = FrequenciesModel(
    tokenFrequencies: seq<(C, Profile<T>)>,
    totalDocumentFrequencies: Profile<T>,
    sampleCount: nat)

  /** A factory is its current formula. */
  datatype TfIdfClassifierFactory = TfIdfClassifierFactory(tfIdfFormula: Formulas.Formula)

  /** A new factory weighs with the standard formula. */
  function NewFactory(): (factory: TfIdfClassifierFactory)
    ensures GetTfIdfFormula(factory).Standard?
  {
    TfIdfClassifierFactory(Formulas.Standard)
  }

  /** The factory with its formula replaced by `formula`. */
  function SetTfIdfFormula(factory: TfIdfClassifierFactory, formula: Formulas.Formula): (r: TfIdfClassifierFactory)
    ensures GetTfIdfFormula(r) == formula
  {
    factory.(tfIdfFormula := formula)
  }

  /** The formula in force, which is all a factory holds. */
  function GetTfIdfFormula(factory: TfIdfClassifierFactory): (r: Formulas.Formula)
    ensures TfIdfClassifierFactory(r) == factory
  {
    factory.tfIdfFormula
  }

  /** The classifier for a trained model: the model's profiles and document
      statistics, scored with the factory's current formula. */
  function GetClassifier<C, T>(factory: TfIdfClassifierFactory, model: FrequenciesModel<C, T>): (cl: TfIdfClassifier<C, T>)
    ensures cl.tfIdfFormula == GetTfIdfFormula(factory)
    ensures cl.profiles == model.tokenFrequencies
    ensures cl.documentFrequencies == model.totalDocumentFrequencies
    ensures cl.documentCount == model.sampleCount
  {
    TfIdfClassifier(model.tokenFrequencies, model.totalDocumentFrequencies, model.sampleCount, factory.tfIdfFormula)
  }

  /** Of two settings, the later one is the formula in force. */
  lemma LastSetWins(factory: TfIdfClassifierFactory, first: Formulas.Formula, second: Formulas.Formula)
    ensures SetTfIdfFormula(SetTfIdfFormula(factory, first), second) == SetTfIdfFormula(factory, second)
    ensures GetTfIdfFormula(SetTfIdfFormula(SetTfIdfFormula(factory, first), second)) == second
  {
  }

  /** Setting the formula the factory already has changes nothing. */
  lemma SetCurrentIsIdentity(factory: TfIdfClassifierFactory)
    ensures SetTfIdfFormula(factory, GetTfIdfFormula(factory)) == factory
  {
  }

  /** A classifier from a new factory weighs with the standard formula; after
      `SetTfIdfFormula(f)` it weighs with `f`. */
  lemma ClassifierUsesFactoryFormula<C, T>(model: FrequenciesModel<C, T>, formula: Formulas.Formula)
    ensures GetClassifier(NewFactory(), model).tfIdfFormula.Standard?
    ensures GetClassifier(SetTfIdfFormula(NewFactory(), formula), model).tfIdfFormula == formula
  {
  }

  /** End to end: the classifier of a trained model, from a factory set to
      `formula`, scores a token sequence against the i-th category with the
      score `CosSquare` computes (line 127 as written) under `formula` and
      the model's document statistics. */
  lemma FactoryCandidates<C, T(!new)>(factory: TfIdfClassifierFactory, formula: Formulas.Formula,
                                      model: FrequenciesModel<C, T>, ln: real -> real, tokens: seq<T>, max: int, i: nat)
    requires i < |model.tokenFrequencies|
    ensures var r := Candidates(GetClassifier(SetTfIdfFormula(factory, formula), model), ln, tokens, max);
      |r| == |model.tokenFrequencies|
      && r[i].category == model.tokenFrequencies[i].0
      && r[i].score == Similarity.CosSquare(
           Similarity.Weighting(model.totalDocumentFrequencies, model.sampleCount, formula, ln),
           FromTokens(tokens), model.tokenFrequencies[i].1)
  {
  }
}
