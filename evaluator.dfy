/** The verdict shown when the schedule is evaluated: a first-match cascade over
    the surplus, balance and flow readings. */
module Evaluator {

  /** The four outcomes (each shown with a fixed title and description). */
  datatype Verdict = Optimal | Overloaded | Unstable | Acceptable

  /** The cascade of `evaluate`. Its thresholds make the rule order matter only
      between Optimal and Acceptable: Overloaded holds exactly when balance is
      below 50 (Optimal needs at least 70), and Unstable exactly when balance is
      at least 50 and flow below 55 (Optimal needs at least 70). */
  function Classify(b: int, f: int, s: int): (v: Verdict)
    ensures v == Optimal <==> s >= 75 && b >= 70 && f >= 70
    ensures v == Overloaded <==> b < 50
    ensures v == Unstable <==> b >= 50 && f < 55
    ensures v == Acceptable <==> b >= 50 && f >= 55 && !(s >= 75 && b >= 70 && f >= 70)
  {
    if s >= 75 && b >= 70 && f >= 70 then Optimal
    else if b < 50 then Overloaded
    else if f < 55 then Unstable
    else Acceptable
  }
}
