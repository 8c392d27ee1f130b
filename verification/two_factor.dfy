/**
 The two-factor assessment of the monitoring path
 (src/services/riskAssessmentService.js): 24-hour rainfall and an optional
 river gauge level are each bucketed against the configured cutoffs
 (config/config.js) into Minimal / Low / Medium / High, and the overall
 level is the more severe of the two.
 */
module TwoFactor {
  import opened Common

  datatype RiskLevel = Minimal | Low | Medium | High

  /** The service's `riskValues` table: Minimal 0 up to High 3. */
  function Severity(l: RiskLevel): nat
  {
    match l
    case Minimal => 0
    case Low => 1
    case Medium => 2
    case High => 3
  }

  /** The level of a severity value, as `find` over the `riskValues` keys returns it. */
  function LevelOfSeverity(n: nat): (l: RiskLevel)
    requires n <= 3
    ensures Severity(l) == n
  {
    if n == 3 then High else if n == 2 then Medium else if n == 1 then Low else Minimal
  }

  datatype Cutoffs = Cutoffs(low: real, medium: real, high: real)

  /** 24-hour rainfall cutoffs, in mm. */
  const Rainfall24hCutoffs := Cutoffs(50.0, 100.0, 150.0)

  /** River gauge cutoffs, in metres. */
  const RiverLevelCutoffs := Cutoffs(2.0, 3.0, 4.0)

  /**
   A value against three ascending cutoffs (`>=` each): the severity is the
   number of cutoffs the value reaches.
   */
  function Bucket(x: real, c: Cutoffs): (l: RiskLevel)
    ensures c.low <= c.medium <= c.high ==>
      Severity(l) == Ind(x >= c.low) + Ind(x >= c.medium) + Ind(x >= c.high)
  {
    if x >= c.high then High
    else if x >= c.medium then Medium
    else if x >= c.low then Low
    else Minimal
  }

  function AssessRainfallRisk(rainfall: real): (l: RiskLevel)
    ensures Severity(l) == Ind(rainfall >= 50.0) + Ind(rainfall >= 100.0) + Ind(rainfall >= 150.0)
  {
    Bucket(rainfall, Rainfall24hCutoffs)
  }

  function AssessRiverLevelRisk(level: real): (l: RiskLevel)
    ensures Severity(l) == Ind(level >= 2.0) + Ind(level >= 3.0) + Ind(level >= 4.0)
  {
    Bucket(level, RiverLevelCutoffs)
  }

  /** More rain, or a higher river, never lowers its bucket. */
  lemma BucketsMonotone(a: real, b: real)
    requires a <= b
    ensures Severity(AssessRainfallRisk(a)) <= Severity(AssessRainfallRisk(b))
    ensures Severity(AssessRiverLevelRisk(a)) <= Severity(AssessRiverLevelRisk(b))
  {
  }

  /** The cutoffs are inclusive: 150 mm is already High, 49.9 mm still Minimal. */
  lemma RainfallBoundaries()
    ensures AssessRainfallRisk(150.0) == High && AssessRainfallRisk(149.9) == Medium
    ensures AssessRainfallRisk(100.0) == Medium && AssessRainfallRisk(50.0) == Low
    ensures AssessRainfallRisk(49.9) == Minimal
  {
  }

  /** The individual buckets; the river bucket is absent when no river level was given. */
  datatype Details = Details(rainfall: RiskLevel, riverLevel: Option<RiskLevel>)

  /** The overall level: the more severe bucket when both exist, else the rainfall bucket. */
  function OverallRisk(d: Details): (l: RiskLevel)
    ensures d.riverLevel.None? ==> l == d.rainfall
    ensures Severity(l) >= Severity(d.rainfall)
    ensures d.riverLevel.Some? ==> Severity(l) >= Severity(d.riverLevel.value)
    ensures l == d.rainfall || (d.riverLevel.Some? && l == d.riverLevel.value)
  {
    match d.riverLevel
    case Some(river) =>
      var maxRisk := if Severity(d.rainfall) >= Severity(river) then Severity(d.rainfall) else Severity(river);
      LevelOfSeverity(maxRisk)
    case None => d.rainfall
  }

  /** Taking the more severe bucket does not depend on which one came from the river. */
  lemma OverallRiskSymmetric(a: RiskLevel, b: RiskLevel)
    ensures OverallRisk(Details(a, Some(b))) == OverallRisk(Details(b, Some(a)))
  {
  }

  datatype Assessment = Assessment(riskLevel: RiskLevel, details: Details)

  /**
   The service's `assessRisk`: a river level that is absent or zero (falsy)
   is not bucketed; the details keep each bucket as computed.
   */
  function AssessRisk(rainfall24h: real, riverLevel: Option<real>): (a: Assessment)
    ensures a.details.rainfall == AssessRainfallRisk(rainfall24h)
    ensures a.details.riverLevel.Some? <==> riverLevel.Some? && riverLevel.value != 0.0
    ensures a.details.riverLevel.Some? ==> a.details.riverLevel.value == AssessRiverLevelRisk(riverLevel.value)
    ensures a.details.riverLevel.None? ==> a.riskLevel == a.details.rainfall
    ensures a.details.riverLevel.Some? ==>
      Severity(a.riskLevel) == (if Severity(a.details.rainfall) >= Severity(a.details.riverLevel.value)
                                then Severity(a.details.rainfall) else Severity(a.details.riverLevel.value))
  {
    var details := Details(
      AssessRainfallRisk(rainfall24h),
      if riverLevel.Some? && riverLevel.value != 0.0 then Some(AssessRiverLevelRisk(riverLevel.value)) else None);
    Assessment(OverallRisk(details), details)
  }

  /** A river level of 0 is treated exactly as a missing one. */
  lemma ZeroRiverLevelSameAsAbsent(rainfall24h: real)
    ensures AssessRisk(rainfall24h, Some(0.0)) == AssessRisk(rainfall24h, None)
  {
  }

  /** The monitoring path passes rainfall only: its level is the rainfall bucket. */
  lemma RainfallOnlyAssessment(rainfall24h: real)
    ensures AssessRisk(rainfall24h, None).riskLevel == AssessRainfallRisk(rainfall24h)
    ensures AssessRisk(rainfall24h, None).details.riverLevel.None?
  {
  }
}
