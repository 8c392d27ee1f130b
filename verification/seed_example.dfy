/**
 The sample city the repository seeds its database with (scripts/initDb.js):
 three Patna flood events and the Gandhi Maidan area profile. The handler as
 written answers it with a 500; the intended report, with the soil-wetness
 series missing from the answer, is pinned down value by value.
 */
module SeedExample {
  import opened Common
  import opened Records
  import opened Derivation
  import FourFactor
  import Advisory
  import opened Prediction

  const E2020 := FloodEvent("bihar", "patna", "gandhi maidan", 2020, 8, 82000.0,
                            "Major flooding in Gandhi Maidan", ["Gandhi Maidan", "Fraser Road", "Exhibition Road"],
                            2.0, 5000000.0, 500.0)
  const E2019 := FloodEvent("bihar", "patna", "gandhi maidan", 2019, 7, 78000.0,
                            "Moderate flooding in nearby areas", ["Gandhi Maidan", "Fraser Road"],
                            0.0, 2000000.0, 200.0)
  const E2018 := FloodEvent("bihar", "patna", "gandhi maidan", 2018, 9, 75000.0,
                            "Minor flooding in low-lying areas", ["Gandhi Maidan"],
                            0.0, 1000000.0, 100.0)

  /** The seeded events as the query returns them: newest first. */
  const SeedEvents: seq<FloodEvent> := [E2020, E2019, E2018]

  const SeedProfile := AreaProfile("bihar", "patna", "gandhi maidan",
                                   Measure(Num(53.0), "meters"), Measure(Num(1.2), "kilometers"),
                                   Drainage.Moderate, UrbanDevelopment.High,
                                   Measure(Num(15000.0), "per square km"), "Alluvial",
                                   Measure(Num(15.0), "percent"), true)

  lemma SeedCurrentLevel()
    ensures CurrentLevel(SeedEvents, SeedProfile) == 8
  {
    assert Recent(SeedEvents) == SeedEvents;
    var ls := Levels(SeedEvents);
    assert ls == [82000.0, 78000.0, 75000.0];
    SumOfThree(ls);
    assert ScaledMean(Mean(ls), SeedProfile.drainageSystem) == 235000.0 / 30000.0;
  }

  lemma SeedDangerLevel()
    ensures DangerLevel(SeedEvents, SeedProfile) == 12
  {
    var ls := Levels(SeedEvents);
    assert ls == [82000.0, 78000.0, 75000.0];
    assert Max(ls) == 82000.0;
    assert ScaledPeak(82000.0, SeedProfile) == 11.808;
  }

  lemma SeedRainfall()
    ensures Rainfall(SeedEvents, SeedProfile) == Metric(72, 118)
  {
    var ts := Thousandths(SeedEvents);
    assert ts == [82.0, 78.0, 75.0];
    SumOfThree(ts);
    assert Mean(ts) == 235.0 / 3.0;
    assert Mean(ts) * (1.0 - 15.0 / 200.0) == 43.475 / 0.6;
    assert Mean(ts) * 1.5 == 117.5;
  }

  lemma SeedBasinCapacity()
    ensures BasinCapacity(SeedEvents, SeedProfile) == Metric(20, 80)
  {
    var hs := Headroom(SeedEvents);
    assert hs == [18.0, 22.0, 25.0];
    SumOfThree(hs);
    assert Mean(hs) == 65.0 / 3.0;
    assert Mean(hs) * (1.0 + (1.0 - 1.2 / 10.0) + (1.0 - 53.0 / 1000.0)) / 3.0 == 183.755 / 9.0;
  }

  const SeedRisk := FourFactor.FloodRisk(40, FourFactor.Tier.Moderate, FourFactor.Factors(20, 20, 40, 100))

  /** Sub-scores 20, 20, 40 and 100 weigh to 40: the moderate tier. */
  lemma SeedScore()
    ensures FourFactor.CalculateFloodRisk(8, Metric(72, 118), FallbackMoisture.AsMetric(), Metric(20, 80), None) == SeedRisk
  {
    var risk := FourFactor.CalculateFloodRisk(8, Metric(72, 118), FallbackMoisture.AsMetric(), Metric(20, 80), None);
    assert FourFactor.RainfallRisk(Metric(72, 118)) == 20;
    assert FourFactor.MoistureRisk(Metric(75, 90)) == 40;
    assert FourFactor.CapacityRisk(Metric(20, 80)) == 100;
    assert risk.factors == FourFactor.Factors(20, 20, 40, 100);
    assert risk.score == 40;
  }

  /** A moderate tier with only the capacity sub-score at 80 or more. */
  lemma SeedAdvice()
    ensures Advisory.GenerateRiskAssessment(SeedRisk, SeedProfile)
         == Advisory.RiskAssessment([Advisory.StayAlert, Advisory.ReviewEvacuationPlans, Advisory.CapacityWarning], None)
  {
    Advisory.SelectedFactorWarnings(SeedRisk.factors);
  }

  /** The handler as written answers the seeded city with the 500 failure. */
  lemma SeedCityAnswered500()
    ensures PredictFlood(SeedEvents, Some(SeedProfile)) == Err(FetchFailed)
    ensures StatusOf(PredictFlood(SeedEvents, Some(SeedProfile)).error) == 500
  {
  }

  /**
   The whole seeded report, as intended: levels 8 and 12, rainfall 72 of 118, the
   fallback moisture, capacity 20 of 80; sub-scores 20, 20, 40 and 100 give
   the score 40 and the moderate tier, so only the capacity warning is added
   and no evacuation zones are listed.
   */
  lemma SeedReport()
    ensures IntendedReport(SeedEvents, Some(SeedProfile), Answered(None))
         == Ok(FloodReport(8, 12, Metric(72, 118), FallbackMoisture, Metric(20, 80), SeedEvents, SeedRisk,
                           Advisory.RiskAssessment([Advisory.StayAlert, Advisory.ReviewEvacuationPlans, Advisory.CapacityWarning],
                                                   None)))
  {
    var r := IntendedReport(SeedEvents, Some(SeedProfile), Answered(None));
    assert NewestFive(SeedEvents) == SeedEvents;
    assert r.Ok? && r.value.historicalEvents == SeedEvents;
    SeedCurrentLevel();
    SeedDangerLevel();
    assert r.value.currentLevel == 8 && r.value.dangerLevel == 12;
    SeedRainfall();
    SeedBasinCapacity();
    assert r.value.rainfall == Metric(72, 118) && r.value.basinCapacity == Metric(20, 80);
    assert r.value.soilMoisture == FallbackMoisture;
    SeedScore();
    assert r.value.floodRisk == SeedRisk;
    SeedAdvice();
  }
}
