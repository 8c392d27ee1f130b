/**
 The `GET /location/:state/:city` handler of routes/floodPrediction.js.
 Given the query results (the city's flood events, newest first, and the
 first matching area profile) it fails with one of the handler's errors.
 As written it never gets further than the soil request: the request's
 parameters read `coordinates.latitude` of the profile, a path the profile
 schema does not declare, so the read throws and the handler answers 500.
 `IntendedReport` is the handler as evidently meant, given the soil-wetness
 reading: it assembles the full report from the derived metrics, the
 composite risk and the advisory.
 */
module Prediction {
  import opened Common
  import opened Records
  import opened Derivation
  import opened FourFactor
  import opened Advisory

  /** The handler's failures, in the order it checks them; `FetchFailed` is its `catch`. */
  datatype PredictionError = AreaNotFound | NoHistory | FetchFailed

  /** The HTTP status each failure is answered with. */
  function StatusOf(e: PredictionError): (code: int)
    ensures e == FetchFailed <==> code == 500
    ensures e != FetchFailed <==> code == 404
  {
    match e
    case AreaNotFound => 404
    case NoHistory => 404
    case FetchFailed => 500
  }

  /**
   The soil-wetness request's outcome: it failed, or it answered with the
   series at `properties.parameter.SOILWET1` (`None` when that path is missing).
   */
  datatype SoilReading = Unreachable | Answered(series: Option<seq<real>>)

  /** The query keeps at most the five newest events. */
  const HistoryLimit := 5

  function NewestFive(events: seq<FloodEvent>): (r: seq<FloodEvent>)
    ensures |r| == if |events| < HistoryLimit then |events| else HistoryLimit
    ensures r == events[..|r|]
  {
    if |events| < HistoryLimit then events else events[..HistoryLimit]
  }

  datatype FloodReport = FloodReport(
    currentLevel: int,
    dangerLevel: int,
    rainfall: Metric,
    soilMoisture: SoilMoisture,
    basinCapacity: Metric,
    historicalEvents: seq<FloodEvent>,
    floodRisk: FloodRisk,
    riskAssessment: RiskAssessment)

  /** A profile holds every measurement the metric derivation reads. */
  predicate Usable(profile: Option<AreaProfile>)
  {
    profile.Some? ==> Measured(profile.value)
  }

  /** A series that was read is non-empty. */
  predicate ReadableSoil(soil: SoilReading)
  {
    soil.Answered? && soil.series.Some? ==> |soil.series.value| > 0
  }

  /**
   The handler as written. `events` are the city's flood events sorted
   newest first; `profile` is the first matching area profile. A missing
   profile is reported before missing history. Past both checks the soil
   request's parameters read `areaCharacteristics.coordinates.latitude`; the
   profile schema declares no `coordinates` path, so `coordinates` is
   undefined, reading `.latitude` throws a TypeError, and the `catch`
   answers 500. The soil reading is never consulted.
   */
  function PredictFlood(events: seq<FloodEvent>, profile: Option<AreaProfile>): (r: Result<FloodReport, PredictionError>)
    ensures profile.None? <==> r == Err(AreaNotFound)
    ensures r == Err(NoHistory) <==> profile.Some? && |events| == 0
    ensures r == Err(FetchFailed) <==> profile.Some? && |events| > 0
  {
    if profile.None? then Err(AreaNotFound)
    else if |events| == 0 then Err(NoHistory)
    else Err(FetchFailed)
  }

  /** The handler as written never returns a report. */
  lemma HandlerNeverReports(events: seq<FloodEvent>, profile: Option<AreaProfile>)
    ensures PredictFlood(events, profile).Err?
  {
  }

  /**
   The handler as written agrees with the intended one on every failure,
   and answers 500 exactly where the intended one returns a report.
   */
  lemma AsWrittenFailsWhereIntendedReports(events: seq<FloodEvent>, profile: Option<AreaProfile>, soil: SoilReading)
    requires Usable(profile) && ReadableSoil(soil)
    ensures IntendedReport(events, profile, soil).Ok? ==> PredictFlood(events, profile) == Err(FetchFailed)
    ensures IntendedReport(events, profile, soil).Err? ==> PredictFlood(events, profile) == IntendedReport(events, profile, soil)
  {
  }

  /**
   The handler as evidently intended: the soil request is made for the
   area and answers with `soil`. A missing profile is reported before
   missing history, and both before a failed soil request. The profile is
   passed where a river-basin name is read, and profiles have no such
   field, so every report is scored against the Ganga thresholds.
   */
  function IntendedReport(events: seq<FloodEvent>, profile: Option<AreaProfile>, soil: SoilReading): (r: Result<FloodReport, PredictionError>)
    requires Usable(profile) && ReadableSoil(soil)
    ensures profile.None? <==> r == Err(AreaNotFound)
    ensures r == Err(NoHistory) <==> profile.Some? && |events| == 0
    ensures r == Err(FetchFailed) <==> profile.Some? && |events| > 0 && soil.Unreachable?
    ensures r.Ok? ==>
      var history := NewestFive(events);
      var p := profile.value;
      && r.value.historicalEvents == history
      && r.value.currentLevel == CurrentLevel(history, p)
      && r.value.dangerLevel == DangerLevel(history, p)
      && r.value.currentLevel <= r.value.dangerLevel
      && r.value.rainfall == Rainfall(history, p)
      && r.value.basinCapacity == BasinCapacity(history, p)
      && r.value.soilMoisture == SoilMoistureFrom(soil.series)
      && r.value.floodRisk == CalculateFloodRisk(r.value.currentLevel, r.value.rainfall, r.value.soilMoisture.AsMetric(),
                                                 r.value.basinCapacity, None)
      && r.value.riskAssessment == GenerateRiskAssessment(r.value.floodRisk, p)
  {
    if profile.None? then Err(AreaNotFound)
    else if |events| == 0 then Err(NoHistory)
    else if soil.Unreachable? then Err(FetchFailed)
    else
      var p := profile.value;
      var history := NewestFive(events);
      var currentLevel := CurrentLevel(history, p);
      var dangerLevel := DangerLevel(history, p);
      CurrentLevelAtMostDanger(history, p);
      var rainfall := Rainfall(history, p);
      var moisture := SoilMoistureFrom(soil.series);
      var capacity := BasinCapacity(history, p);
      var risk := CalculateFloodRisk(currentLevel, rainfall, moisture.AsMetric(), capacity, None);
      Ok(FloodReport(currentLevel, dangerLevel, rainfall, moisture, capacity, history, risk,
                     GenerateRiskAssessment(risk, p)))
  }

  /** Events older than the fifth newest never change the intended report. */
  lemma OnlyFiveNewestMatter(events: seq<FloodEvent>, older: seq<FloodEvent>, profile: Option<AreaProfile>, soil: SoilReading)
    requires Usable(profile) && ReadableSoil(soil)
    requires |events| >= HistoryLimit
    ensures IntendedReport(events + older, profile, soil) == IntendedReport(events, profile, soil)
  {
    assert NewestFive(events + older) == NewestFive(events);
  }

  /**
   For discharges up to 100000 m³/s, an area farther from the river or higher
   up never gets a lower capacity sub-score.
   */
  lemma FartherOrHigherNeverLowersCapacityRisk(events: seq<FloodEvent>, p: AreaProfile, q: AreaProfile)
    requires |events| > 0
    requires forall i :: 0 <= i < |events| ==> events[i].level as real <= 100000.0
    requires p.distanceFromRiver.value.Numeric() && p.elevation.value.Numeric()
    requires q.distanceFromRiver.value.Numeric() && q.elevation.value.Numeric()
    requires p.distanceFromRiver.value.AsReal() <= q.distanceFromRiver.value.AsReal()
    requires p.elevation.value.AsReal() <= q.elevation.value.AsReal()
    ensures CapacityRisk(BasinCapacity(events, q)) >= CapacityRisk(BasinCapacity(events, p))
  {
    CapacityNeverRisesFartherOrHigher(events, p, q);
    var mp, mq := BasinCapacity(events, p), BasinCapacity(events, q);
    DivideMonotone(mq.current as real, mp.current as real, 80.0);
    CapacityRiskAntitone(mq, mp);
  }

  /**
   Every report is scored against Ganga's thresholds: its level risk is the
   one those thresholds give the current level.
   */
  lemma ScoredAgainstGanga(events: seq<FloodEvent>, profile: Option<AreaProfile>, soil: SoilReading)
    requires Usable(profile) && ReadableSoil(soil)
    requires profile.Some? && |events| > 0 && soil.Answered?
    ensures var report := IntendedReport(events, profile, soil).value;
            report.floodRisk.factors.levelRisk == LevelRisk(report.currentLevel, Ganga)
  {
  }

  /**
   With Ganga's thresholds a level scores above 20 only from 10000 scaled
   units, that is a mean discharge of about 91 million m³/s over the recent
   events; any realistic history keeps the level risk at its floor.
   */
  lemma LevelRiskFloorBelowNinetyMillion(events: seq<FloodEvent>, profile: Option<AreaProfile>, soil: SoilReading)
    requires Usable(profile) && ReadableSoil(soil)
    requires profile.Some? && |events| > 0 && soil.Answered?
    requires forall i :: 0 <= i < |events| ==> events[i].level < 90000000.0
    ensures IntendedReport(events, profile, soil).value.floodRisk.factors.levelRisk == 20
  {
    var history := NewestFive(events);
    assert forall i :: 0 <= i < |history| ==> history[i] == events[i];
    CurrentLevelBelowGangaLow(history, profile.value);
    ScoredAgainstGanga(events, profile, soil);
  }

  /** Levels below 90 million m³/s scale to at most 9900, under Ganga's lowest threshold. */
  lemma CurrentLevelBelowGangaLow(history: seq<FloodEvent>, p: AreaProfile)
    requires |history| > 0
    requires forall i :: 0 <= i < |history| ==> history[i].level < 90000000.0
    ensures CurrentLevel(history, p) <= 9900 < Ganga.low
  {
    var recent := Levels(Recent(history));
    assert forall i :: 0 <= i < |recent| ==> recent[i] <= 90000000.0;
    MeanAtMostBound(recent, 90000000.0);
    MeanNonNegative(recent);
    var avg := Mean(recent);
    var d := DrainageFactor(p.drainageSystem);
    assert 0.0 <= d <= 1.1;
    MultiplyMonotone(avg, 90000000.0, d, 1.1);
    DivideMonotone(avg * d, 99000000.0, LevelScale);
    assert ScaledMean(avg, p.drainageSystem) == avg * d / LevelScale;
    RoundMonotone(avg * d / LevelScale, 9900.0);
    RoundOfWhole(9900);
  }

  /** A mean never exceeds a bound that every element respects. */
  lemma MeanAtMostBound(s: seq<real>, bound: real)
    requires |s| > 0
    requires forall i :: 0 <= i < |s| ==> s[i] <= bound
    ensures Mean(s) <= bound
  {
    MeanAtMostMax(s);
  }
}
