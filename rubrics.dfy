/** The pass thresholds of the rounds (the rubric texts are only forwarded to the scorer). */
module Rubrics {
  import opened Outcomes
  import opened Rounds

  /** The minimum average score that passes a round. */
  function Threshold(rd: Round): (t: real)
    ensures 2.5 <= t <= 3.0
    ensures rd != Screening ==> t == 3.0
    ensures rd == Screening ==> t == 2.5
  {
    match rd
    case Screening => 2.5
    case Technical => 3.0
    case Scenario => 3.0
  }

  /** `THRESHOLDS.get(name)`: a threshold exactly for the three round names. */
  function ThresholdOf(name: string): (t: Option<real>)
    ensures t.Some? <==> Parse(name).Some?
    ensures t.Some? ==> t.value == Threshold(Parse(name).value)
  {
    match Parse(name)
    case Some(rd) => Some(Threshold(rd))
    case None => None
  }
}
