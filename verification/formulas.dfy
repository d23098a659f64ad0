/** The TF-IDF weighting formulas: each maps (token frequency, document
    frequency of the token, number of training documents) to a weight.
    The natural logarithm is a parameter `ln`, left uninterpreted. */
module Formulas {

  /** The three built-in formulas and any caller-supplied one. */
  datatype Formula =
    | Standard
    | Frequency
    | Threshold
    | Custom(calculate: (nat, nat, nat) -> real)

  /** The weight of a token seen `freq` times, present in `docFreq` of
      `docCount` training documents. */
  function Calculate(f: Formula, ln: real -> real, freq: nat, docFreq: nat, docCount: nat): (r: real)
  {
    match f
    case Standard =>
      if freq == 0 || docFreq == 0 then 0.0
      else (1.0 + ln(freq as real)) * ln(1.0 + (docCount as real) / (docFreq as real))
    case Frequency => freq as real
    case Threshold => if freq == 0 then 0.0 else 1.0
    case Custom(calculate) => calculate(freq, docFreq, docCount)
  }

  /** What each built-in formula promises: an absent token weighs 0 under
      all three; `Standard` also weighs 0 a token no training document
      contains (where Java divides by zero); `Frequency` is the count;
      `Threshold` is 0 or 1 according to presence. */
  lemma CalculateCases(f: Formula, ln: real -> real, freq: nat, docFreq: nat, docCount: nat)
    ensures !f.Custom? && freq == 0 ==> Calculate(f, ln, freq, docFreq, docCount) == 0.0
    ensures f.Standard? && docFreq == 0 ==> Calculate(f, ln, freq, docFreq, docCount) == 0.0
    ensures f.Frequency? ==> Calculate(f, ln, freq, docFreq, docCount) == freq as real
    ensures f.Threshold? ==> (Calculate(f, ln, freq, docFreq, docCount) == 0.0 <==> freq == 0)
    ensures f.Threshold? ==> Calculate(f, ln, freq, docFreq, docCount) in {0.0, 1.0}
  {
  }

  /** A formula that gives weight 0 to a token that does not occur. */
  ghost predicate ZeroAtZero(f: Formula, ln: real -> real) {
    forall docFreq: nat, docCount: nat :: Calculate(f, ln, 0, docFreq, docCount) == 0.0
  }

  /** A formula that never gives a negative weight. */
  ghost predicate NonNegative(f: Formula, ln: real -> real) {
    forall freq: nat, docFreq: nat, docCount: nat :: Calculate(f, ln, freq, docFreq, docCount) >= 0.0
  }

  /** `Standard` gives 0 to an absent token whatever the document
      statistics, including a document frequency of 0. */
  lemma StandardZeroAtZero(ln: real -> real, docFreq: nat, docCount: nat)
    ensures Calculate(Standard, ln, 0, docFreq, docCount) == 0.0
  {
  }

  /** `Frequency` is the raw count and ignores the document statistics. */
  lemma FrequencyIsCount(ln: real -> real, freq: nat, docFreq: nat, docCount: nat)
    ensures Calculate(Frequency, ln, freq, docFreq, docCount) == freq as real
  {
  }

  /** `Threshold` is 0 exactly when the token is absent, 1 otherwise, and
      ignores the document statistics. */
  lemma ThresholdIsPresence(ln: real -> real, freq: nat, docFreq: nat, docCount: nat, docFreq': nat, docCount': nat)
    ensures Calculate(Threshold, ln, freq, docFreq, docCount) == 0.0 <==> freq == 0
    ensures Calculate(Threshold, ln, freq, docFreq, docCount) == 0.0 || Calculate(Threshold, ln, freq, docFreq, docCount) == 1.0
    ensures Calculate(Threshold, ln, freq, docFreq, docCount) == Calculate(Threshold, ln, freq, docFreq', docCount')
  {
  }

  /** The three built-in formulas give weight 0 to an absent token. */
  lemma BuiltInZeroAtZero(f: Formula, ln: real -> real)
    requires !f.Custom?
    ensures ZeroAtZero(f, ln)
  {
  }

  /** `Frequency` and `Threshold` never give a negative weight. */
  lemma CountingFormulasNonNegative(f: Formula, ln: real -> real)
    requires f.Frequency? || f.Threshold?
    ensures NonNegative(f, ln)
  {
  }
}
