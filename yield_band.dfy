/**
 * The yield-level decision made after `predict_yield`: the estimate is
 * compared with the crop's `good` and `average` cut-offs from
 * `crop_yield_ranges`, the higher band winning at equality.
 */
module YieldBand {
  import opened Wrappers

  datatype Band = Good | Average | Poor

  /** One entry of `crop_yield_ranges`: the keys "good" and "average". */
  datatype Thresholds = Thresholds(good: real, average: real)

  /** What the page reports after a prediction: the estimate always, the level when known. */
  datatype YieldReport = YieldReport(estimate: real, level: Option<Band>)

  /** The level text shown for a band. */
  function Label(b: Band): string
  {
    match b
    case Good => "\U{1F7E2} Good Yield"
    case Average => "\U{1F7E1} Average Yield"
    case Poor => "\U{1F534} Poor Yield"
  }

  /** The warning shown when the crop has no threshold entry. */
  const CategoryUnavailable := "\U{26A0}\U{FE0F} Yield category not available for this crop."

  /**
   * The level text shown for a prediction outcome. This is the label inside the
   * "Yield Level" info box, or the warning shown instead when the crop has no
   * cut-offs.
   */
  function LevelMessage(r: YieldReport): string
  {
    match r.level
    case Some(b) => Label(b)
    case None => CategoryUnavailable
  }

  /**
   * The four shown texts (three labels and the warning) are pairwise distinct,
   * so equal texts mean equal levels. This is a fact about the display strings,
   * not about the classifier.
   */
  lemma LevelMessageIdentifiesLevel(a: YieldReport, b: YieldReport)
    requires LevelMessage(a) == LevelMessage(b)
    ensures a.level == b.level
  {
    assert LevelMessage(a)[0] == LevelMessage(b)[0];
  }

  /** The `if`/`elif`/`else` chain over one crop's thresholds. */
  function BandOf(estimate: real, t: Thresholds): (b: Band)
    ensures b == Good <==> estimate >= t.good
    ensures b == Average <==> t.average <= estimate < t.good
    ensures b == Poor <==> estimate < t.good && estimate < t.average
  {
    if estimate >= t.good then Good
    else if estimate >= t.average then Average
    else Poor
  }

  /** The prediction outcome for `crop` given the whole `crop_yield_ranges` table. */
  function Classify(crop: string, estimate: real, ranges: map<string, Thresholds>): (r: YieldReport)
    ensures r.estimate == estimate
    ensures r.level.None? <==> crop !in ranges
    ensures crop in ranges ==> r.level == Some(BandOf(estimate, ranges[crop]))
  {
    if crop in ranges then YieldReport(estimate, Some(BandOf(estimate, ranges[crop])))
    else YieldReport(estimate, None)
  }

  /** Rank of a band, higher is better. */
  function Rank(b: Band): nat
  {
    match b
    case Poor => 0
    case Average => 1
    case Good => 2
  }

  /** A larger estimate never falls into a lower band. */
  lemma BandMonotone(x: real, y: real, t: Thresholds)
    requires x <= y
    ensures Rank(BandOf(x, t)) <= Rank(BandOf(y, t))
  {
  }

  /** Equality with a cut-off counts as the higher band; just below it, the lower one. */
  lemma BandAtCutOffs(t: Thresholds, eps: real)
    requires t.average < t.good
    requires 0.0 < eps <= t.good - t.average
    ensures BandOf(t.good, t) == Good
    ensures BandOf(t.average, t) == Average
    ensures BandOf(t.good - eps, t) == Average
    ensures BandOf(t.average - eps, t) == Poor
  {
  }

  /** When `average` is not below `good`, no estimate is ever classified Average. */
  lemma NoAverageBandWhenCutOffsCross(t: Thresholds, estimate: real)
    requires t.good <= t.average
    ensures BandOf(estimate, t) != Average
  {
  }
}
