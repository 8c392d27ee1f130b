/**
 The four-factor risk scorer of routes/floodPrediction.js: the river-basin
 discharge thresholds, the four step-function sub-scores, the weighted
 composite score and its tier (low / moderate / high / severe).
 */
module FourFactor {
  import opened Common

  datatype Tier = Low | Moderate | High | Severe

  function Rank(t: Tier): nat
  {
    match t
    case Low => 0
    case Moderate => 1
    case High => 2
    case Severe => 3
  }

  // ---------------------------------------------------------------------------
  // River-basin thresholds (m³/s)
  // ---------------------------------------------------------------------------

  datatype BasinThresholds = BasinThresholds(low: int, moderate: int, high: int, severe: int)

  const Ganga := BasinThresholds(10000, 12000, 14000, 15000)

  const RiverThresholds: map<string, BasinThresholds> := map[
    "Ganga" := Ganga,
    "Brahmaputra" := BasinThresholds(12000, 14000, 16000, 20000),
    "Yamuna" := BasinThresholds(2000, 3000, 4000, 5000),
    "Godavari" := BasinThresholds(3000, 4000, 5000, 6000)
  ]

  predicate Ascending(t: BasinThresholds)
  {
    t.low < t.moderate < t.high < t.severe
  }

  /** The basin's thresholds: a known basin gets its own table, a missing or unknown name gets Ganga's. */
  function ThresholdsFor(basin: Option<string>): (t: BasinThresholds)
    ensures Ascending(t)
    ensures t in RiverThresholds.Values
    ensures basin.Some? && basin.value in RiverThresholds ==> t == RiverThresholds[basin.value]
    ensures (basin.None? || basin.value !in RiverThresholds) ==> t == Ganga
  {
    assert RiverThresholds["Ganga"] == Ganga;
    if basin.Some? && basin.value in RiverThresholds then RiverThresholds[basin.value] else Ganga
  }

  // ---------------------------------------------------------------------------
  // Sub-scores
  // ---------------------------------------------------------------------------

  predicate IsSubScore(x: int)
  {
    x == 20 || x == 40 || x == 60 || x == 80 || x == 100
  }

  /**
   Level risk: 20 plus 20 for every basin threshold the level reaches
   (`>=`, so a level equal to a threshold is in that threshold's tier).
   */
  function LevelRisk(currentLevel: int, t: BasinThresholds): (r: int)
    ensures IsSubScore(r)
    ensures t.low <= t.moderate <= t.high <= t.severe ==>
      r == 20 + 20 * (Ind(currentLevel >= t.low) + Ind(currentLevel >= t.moderate)
                      + Ind(currentLevel >= t.high) + Ind(currentLevel >= t.severe))
  {
    if currentLevel >= t.severe then 100
    else if currentLevel >= t.high then 80
    else if currentLevel >= t.moderate then 60
    else if currentLevel >= t.low then 40
    else 20
  }

  /** Rainfall risk: 20 plus 20 for every cutoff 0.8, 1.0, 1.2, 1.5 that current/threshold reaches. */
  function RainfallRisk(m: Metric): (r: int)
    ensures IsSubScore(r)
    ensures var q := Divide(m.current, m.threshold);
      r == 20 + 20 * (Ind(AtLeast(q, 0.8)) + Ind(AtLeast(q, 1.0)) + Ind(AtLeast(q, 1.2)) + Ind(AtLeast(q, 1.5)))
  {
    var ratio := Divide(m.current, m.threshold);
    if AtLeast(ratio, 1.5) then 100
    else if AtLeast(ratio, 1.2) then 80
    else if AtLeast(ratio, 1.0) then 60
    else if AtLeast(ratio, 0.8) then 40
    else 20
  }

  /** Moisture risk: 20 plus 20 for every cutoff 0.8, 0.85, 0.9, 0.95 that current/threshold reaches. */
  function MoistureRisk(m: Metric): (r: int)
    ensures IsSubScore(r)
    ensures var q := Divide(m.current, m.threshold);
      r == 20 + 20 * (Ind(AtLeast(q, 0.8)) + Ind(AtLeast(q, 0.85)) + Ind(AtLeast(q, 0.9)) + Ind(AtLeast(q, 0.95)))
  {
    var ratio := Divide(m.current, m.threshold);
    if AtLeast(ratio, 0.95) then 100
    else if AtLeast(ratio, 0.9) then 80
    else if AtLeast(ratio, 0.85) then 60
    else if AtLeast(ratio, 0.8) then 40
    else 20
  }

  /**
   Capacity risk, inverted: 20 plus 20 for every cutoff 0.8, 0.7, 0.6, 0.5
   that current/threshold is at or below (less capacity left, more risk).
   */
  function CapacityRisk(m: Metric): (r: int)
    ensures IsSubScore(r)
    ensures var q := Divide(m.current, m.threshold);
      r == 20 + 20 * (Ind(AtMost(q, 0.8)) + Ind(AtMost(q, 0.7)) + Ind(AtMost(q, 0.6)) + Ind(AtMost(q, 0.5)))
  {
    var ratio := Divide(m.current, m.threshold);
    if AtMost(ratio, 0.5) then 100
    else if AtMost(ratio, 0.6) then 80
    else if AtMost(ratio, 0.7) then 60
    else if AtMost(ratio, 0.8) then 40
    else 20
  }

  /** current/threshold as a real, for a positive threshold. */
  function RatioOf(m: Metric): real
    requires m.threshold > 0
  {
    m.current as real / m.threshold as real
  }

  /** A higher level never lowers the level risk, whatever the thresholds. */
  lemma LevelRiskMonotone(a: int, b: int, t: BasinThresholds)
    requires a <= b
    ensures LevelRisk(a, t) <= LevelRisk(b, t)
  {
  }

  /** A level exactly at a threshold of an ascending table is scored in that threshold's tier. */
  lemma LevelRiskAtThresholds(t: BasinThresholds)
    requires Ascending(t)
    ensures LevelRisk(t.low - 1, t) == 20
    ensures LevelRisk(t.low, t) == 40
    ensures LevelRisk(t.moderate, t) == 60
    ensures LevelRisk(t.high, t) == 80
    ensures LevelRisk(t.severe, t) == 100
  {
  }

  lemma RainfallRiskMonotone(m1: Metric, m2: Metric)
    requires m1.threshold > 0 && m2.threshold > 0
    requires RatioOf(m1) <= RatioOf(m2)
    ensures RainfallRisk(m1) <= RainfallRisk(m2)
  {
  }

  lemma MoistureRiskMonotone(m1: Metric, m2: Metric)
    requires m1.threshold > 0 && m2.threshold > 0
    requires RatioOf(m1) <= RatioOf(m2)
    ensures MoistureRisk(m1) <= MoistureRisk(m2)
  {
  }

  /** Less remaining capacity never lowers the capacity risk. */
  lemma CapacityRiskAntitone(m1: Metric, m2: Metric)
    requires m1.threshold > 0 && m2.threshold > 0
    requires RatioOf(m1) <= RatioOf(m2)
    ensures CapacityRisk(m1) >= CapacityRisk(m2)
  {
  }

  // ---------------------------------------------------------------------------
  // Composite score and tier
  // ---------------------------------------------------------------------------

  datatype Factors = Factors(levelRisk: int, rainfallRisk: int, moistureRisk: int, capacityRisk: int)

  predicate ValidFactors(f: Factors)
  {
    IsSubScore(f.levelRisk) && IsSubScore(f.rainfallRisk) && IsSubScore(f.moistureRisk) && IsSubScore(f.capacityRisk)
  }

  /** The weighted sum 0.4 / 0.2 / 0.2 / 0.2, before rounding. */
  function RawScore(f: Factors): real
  {
    f.levelRisk as real * 0.4 + f.rainfallRisk as real * 0.2 + f.moistureRisk as real * 0.2 + f.capacityRisk as real * 0.2
  }

  /** The weights make the raw score an exact integer: a multiple of 4 between 20 and 100. */
  lemma RawScoreIsWholeMultipleOfFour(f: Factors)
    requires ValidFactors(f)
    ensures var n := (2 * f.levelRisk + f.rainfallRisk + f.moistureRisk + f.capacityRisk) / 5;
      && RawScore(f) == n as real
      && 5 * n == 2 * f.levelRisk + f.rainfallRisk + f.moistureRisk + f.capacityRisk
      && 20 <= n <= 100
      && n % 4 == 0
  {
    var a, b, c, d := SubScoreSteps(f.levelRisk), SubScoreSteps(f.rainfallRisk),
                      SubScoreSteps(f.moistureRisk), SubScoreSteps(f.capacityRisk);
    var k := 2 * a + b + c + d;
    var n := 4 * k;
    MultipleOfFour(k);
    assert 5 * n == 2 * f.levelRisk + f.rainfallRisk + f.moistureRisk + f.capacityRisk;
    assert n == (2 * f.levelRisk + f.rainfallRisk + f.moistureRisk + f.capacityRisk) / 5;
  }

  lemma MultipleOfFour(k: int)
    ensures (4 * k) % 4 == 0
  {
  }

  /** A sub-score is 20 times a step count from 1 to 5. */
  function SubScoreSteps(x: int): (k: int)
    requires IsSubScore(x)
    ensures 1 <= k <= 5 && x == 20 * k
  {
    x / 20
  }

  /** The tier of a composite score: cut at 80, 60 and 40, with no gap and no overlap. */
  function TierOf(score: real): (t: Tier)
    ensures t == Severe <==> score >= 80.0
    ensures t == High <==> 60.0 <= score < 80.0
    ensures t == Moderate <==> 40.0 <= score < 60.0
    ensures t == Low <==> score < 40.0
  {
    if score >= 80.0 then Severe
    else if score >= 60.0 then High
    else if score >= 40.0 then Moderate
    else Low
  }

  /** A higher score never gets a lower tier. */
  lemma TierMonotone(a: real, b: real)
    requires a <= b
    ensures Rank(TierOf(a)) <= Rank(TierOf(b))
  {
  }

  datatype FloodRisk = FloodRisk(score: int, tier: Tier, factors: Factors)

  /**
   The composite assessment: the four sub-scores, the rounded weighted score
   (which equals (2·level + rainfall + moisture + capacity) / 5) and the
   tier of the unrounded score.
   */
  function CalculateFloodRisk(currentLevel: int, rainfall: Metric, moisture: Metric, capacity: Metric,
                              riverBasin: Option<string>): (r: FloodRisk)
    ensures ValidFactors(r.factors)
    ensures r.factors == Factors(LevelRisk(currentLevel, ThresholdsFor(riverBasin)), RainfallRisk(rainfall),
                                 MoistureRisk(moisture), CapacityRisk(capacity))
    ensures 5 * r.score == 2 * r.factors.levelRisk + r.factors.rainfallRisk + r.factors.moistureRisk + r.factors.capacityRisk
    ensures 20 <= r.score <= 100 && r.score % 4 == 0
    ensures r.tier == TierOf(r.score as real)
  {
    var thresholds := ThresholdsFor(riverBasin);
    var f := Factors(LevelRisk(currentLevel, thresholds), RainfallRisk(rainfall), MoistureRisk(moisture), CapacityRisk(capacity));
    var raw := RawScore(f);
    RawScoreIsWholeMultipleOfFour(f);
    var n := (2 * f.levelRisk + f.rainfallRisk + f.moistureRisk + f.capacityRisk) / 5;
    RoundOfWhole(n);
    FloodRisk(Round(raw), TierOf(raw), f)
  }

  /** Raising any sub-score never lowers the composite score or the tier. */
  lemma HigherFactorsNeverLowerTier(a: Factors, b: Factors)
    requires ValidFactors(a) && ValidFactors(b)
    requires a.levelRisk <= b.levelRisk && a.rainfallRisk <= b.rainfallRisk
    requires a.moistureRisk <= b.moistureRisk && a.capacityRisk <= b.capacityRisk
    ensures RawScore(a) <= RawScore(b)
    ensures Rank(TierOf(RawScore(a))) <= Rank(TierOf(RawScore(b)))
  {
    RawScoreIsWholeMultipleOfFour(a);
    RawScoreIsWholeMultipleOfFour(b);
    TierMonotone(RawScore(a), RawScore(b));
  }
}
