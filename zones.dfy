/** The two threshold classifiers of the target Commercial Ratio: the
    performance zone shown on the gauge and the industry benchmark quartile. */
module Zones {

  datatype Zone = Unsustainable | Balanced | Underinvesting

  /** `getCRZone`: below 0.75 the growth spend is unsustainable, above 1.25 the
      company underinvests, and the closed interval between is balanced. The
      three bands partition the reals. */
  function GetCRZone(ratio: real): (z: Zone)
    ensures z == Unsustainable <==> ratio < 0.75
    ensures z == Balanced <==> 0.75 <= ratio <= 1.25
    ensures z == Underinvesting <==> 1.25 < ratio
  {
    if ratio < 0.75 then Unsustainable
    else if ratio > 1.25 then Underinvesting
    else Balanced
  }

  /** The conditional that picks the sales and the marketing "target state"
      text on the functional-impact tab; unlike `getCRZone` it tests the
      balanced band explicitly and leaves underinvesting to the last branch.
      The tab and the gauge never disagree about the zone. */
  function TargetStateZone(ratio: real): (z: Zone)
    ensures z == GetCRZone(ratio)
  {
    if ratio < 0.75 then Unsustainable
    else if ratio >= 0.75 && ratio <= 1.25 then Balanced
    else Underinvesting
  }

  /** Position of a zone along the ratio axis. */
  function ZoneRank(z: Zone): (rank: nat)
  {
    match z
    case Unsustainable => 0
    case Balanced => 1
    case Underinvesting => 2
  }

  /** Raising the ratio never moves the gauge back to a lower zone. */
  lemma ZoneMonotone(r1: real, r2: real)
    requires r1 <= r2
    ensures ZoneRank(GetCRZone(r1)) <= ZoneRank(GetCRZone(r2))
  {
  }

  /** Both breakpoints belong to the balanced zone. */
  lemma ZoneBoundaries()
    ensures GetCRZone(0.7499) == Unsustainable && GetCRZone(0.75) == Balanced
    ensures GetCRZone(1.25) == Balanced && GetCRZone(1.2501) == Underinvesting
  {
  }

  datatype Quartile = Bottom | Second | Third | Top

  /** The benchmark quartile of a ratio against the industry breakpoints 0.40
      (bottom quartile), 0.85 (median) and 1.20 (top quartile); each breakpoint
      opens the higher band. Exactly one band holds for every ratio. */
  function QuartileOf(ratio: real): (q: Quartile)
    ensures q == Bottom <==> ratio < 0.40
    ensures q == Second <==> 0.40 <= ratio < 0.85
    ensures q == Third <==> 0.85 <= ratio < 1.20
    ensures q == Top <==> 1.20 <= ratio
  {
    if ratio < 0.40 then Bottom
    else if ratio >= 0.40 && ratio < 0.85 then Second
    else if ratio >= 0.85 && ratio < 1.20 then Third
    else Top
  }

  /** Position of a quartile, bottom first. */
  function QuartileRank(q: Quartile): (rank: nat)
  {
    match q
    case Bottom => 0
    case Second => 1
    case Third => 2
    case Top => 3
  }

  /** A higher ratio never lands in a lower quartile. */
  lemma QuartileMonotone(r1: real, r2: real)
    requires r1 <= r2
    ensures QuartileRank(QuartileOf(r1)) <= QuartileRank(QuartileOf(r2))
  {
  }

  /** The quartile breakpoints on both sides. */
  lemma QuartileBoundaries()
    ensures QuartileOf(0.39) == Bottom && QuartileOf(0.40) == Second
    ensures QuartileOf(0.84) == Second && QuartileOf(0.85) == Third
    ensures QuartileOf(1.19) == Third && QuartileOf(1.20) == Top
  {
  }

  /** The quartile the benchmark text states for the current ratio of 0.51. */
  const StatedCurrentQuartile := Bottom

  /** The stated quartile is not the one the component's own breakpoints give
      for 0.51, nor for the exact current ratio 86.58 / 169.19 = 0.5117…:
      both lie between the bottom-quartile mark 0.40 and the median 0.85. */
  lemma StatedCurrentQuartileDisagrees(currentRatio: real)
    requires 0.505 <= currentRatio < 0.515
    ensures QuartileOf(0.51) != StatedCurrentQuartile
    ensures QuartileOf(currentRatio) != StatedCurrentQuartile
    ensures QuartileOf(currentRatio) == Second
  {
  }
}
