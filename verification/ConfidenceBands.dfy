/**
 * The confidence band attached to every prediction: a coarse label derived
 * from the predicted probability of hypertension alone. Probabilities far
 * from the decision point 0.5 are High, those near it Low, and a band in
 * between Medium. Both prediction paths use this one function.
 */
module ConfidenceBands {

  datatype Band = Low | Medium | High

  /**
   * The band of a probability. The outer thresholds 0.3 and 0.7 are tested
   * strictly, so they fall into Medium; the inner thresholds 0.4 and 0.6 are
   * tested strictly too, so they fall into Low.
   */
  function Confidence(p: real): (b: Band)
    ensures b == High <==> p < 0.3 || p > 0.7
    ensures b == Medium <==> (0.3 <= p < 0.4) || (0.6 < p <= 0.7)
    ensures b == Low <==> 0.4 <= p <= 0.6
  {
    if p < 0.3 || p > 0.7 then High
    else if p < 0.4 || p > 0.6 then Medium
    else Low
  }

  /** The text the service reports for a band. */
  function Name(b: Band): (s: string)
    ensures s in {"Low", "Medium", "High"}
  {
    match b
    case Low => "Low"
    case Medium => "Medium"
    case High => "High"
  }

  /** Distinct bands are reported with distinct texts. */
  lemma NameInjective(a: Band, b: Band)
    requires Name(a) == Name(b)
    ensures a == b
  {
  }

  /** Distance of a probability from the decision point 0.5. */
  function Margin(p: real): (d: real)
    ensures d >= 0.0
    ensures d == p - 0.5 || d == 0.5 - p
  {
    if p >= 0.5 then p - 0.5 else 0.5 - p
  }

  /**
   * The bands as a function of the margin alone: High beyond 0.2, Medium
   * beyond 0.1, Low otherwise. The threshold chain is this rule, so the band
   * of p and of 1 - p agree.
   */
  lemma BandsByMargin(p: real)
    ensures Confidence(p) == (if Margin(p) > 0.2 then High else if Margin(p) > 0.1 then Medium else Low)
    ensures Confidence(1.0 - p) == Confidence(p)
  {
  }

  /** Rank of a band: Low below Medium below High. */
  function Rank(b: Band): nat {
    match b
    case Low => 0
    case Medium => 1
    case High => 2
  }

  /** A probability at least as far from 0.5 as another never has the lower band. */
  lemma BandMonotoneInMargin(p: real, q: real)
    requires Margin(p) <= Margin(q)
    ensures Rank(Confidence(p)) <= Rank(Confidence(q))
  {
    BandsByMargin(p);
    BandsByMargin(q);
  }

  /** The band of each threshold itself, and of a few illustrative values between and beyond them. */
  lemma BoundaryBands()
    ensures Confidence(0.3) == Medium && Confidence(0.7) == Medium
    ensures Confidence(0.4) == Low && Confidence(0.6) == Low
    ensures Confidence(0.45) == Low && Confidence(0.75) == High && Confidence(0.82) == High
    ensures Confidence(0.0) == High && Confidence(1.0) == High
  {
  }
}
