/**
 Metric derivation of the four-factor engine (routes/floodPrediction.js):
 the current and danger river levels, the rainfall and basin-capacity
 `{current, threshold}` pairs derived from the recent flood events and the
 area profile, and soil moisture with its trend derived from the soil-wetness
 series. Every decimal factor is an exact `real`; `Math.round` is `Round`.
 */
module Derivation {
  import opened Common
  import opened Records

  /** Discharge (m³/s) to the engine's level unit: divide by this. */
  const LevelScale: real := 10000.0

  /** Discharge of each event, in list order. */
  function Levels(events: seq<FloodEvent>): (ls: seq<real>)
    ensures |ls| == |events|
    ensures forall i :: 0 <= i < |events| ==> ls[i] == events[i].level as real
  {
    seq(|events|, i requires 0 <= i < |events| => events[i].level as real)
  }

  lemma LevelsNonNegative(events: seq<FloodEvent>)
    ensures forall i :: 0 <= i < |Levels(events)| ==> Levels(events)[i] >= 0.0
  {
  }

  function DrainageFactor(d: Drainage): real
  {
    match d
    case Poor => 1.1
    case Moderate => 1.0
    case Good => 0.9
    case Excellent => 0.8
  }

  function UrbanFactor(u: UrbanDevelopment): real
  {
    match u
    case Low => 1.0
    case Medium => 1.1
    case High => 1.2
  }

  function FloodProneFactor(floodProne: bool): real
  {
    if floodProne then 1.2 else 1.1
  }

  /** The up-to-three most recent events (`slice(0, 3)` of a newest-first list). */
  function Recent(events: seq<FloodEvent>): (r: seq<FloodEvent>)
    ensures |r| == if |events| < 3 then |events| else 3
    ensures r == events[..|r|]
  {
    if |events| < 3 then events else events[..3]
  }

  /**
   Current level: the mean discharge of the three most recent events,
   scaled by the drainage factor and divided by 10000, rounded.
   */
  function CurrentLevel(events: seq<FloodEvent>, p: AreaProfile): (r: int)
    requires |events| > 0
    ensures r >= 0
    ensures var exact := ScaledMean(Mean(Levels(Recent(events))), p.drainageSystem);
      r as real - 0.5 <= exact < r as real + 0.5
  {
    var ls := Levels(Recent(events));
    MeanNonNegative(ls);
    RoundMonotone(0.0, ScaledMean(Mean(ls), p.drainageSystem));
    Round(ScaledMean(Mean(ls), p.drainageSystem))
  }

  /** A mean discharge in level units, adjusted for drainage. */
  function ScaledMean(avg: real, d: Drainage): (x: real)
    ensures avg >= 0.0 ==> x >= 0.0
  {
    avg * DrainageFactor(d) / LevelScale
  }

  /** A peak discharge in level units, raised for flood-prone and urbanised areas. */
  function ScaledPeak(m: real, p: AreaProfile): (x: real)
    ensures m >= 0.0 ==> x >= 0.0
  {
    m * FloodProneFactor(p.floodProne) * UrbanFactor(p.urbanDevelopment) / LevelScale
  }

  /** Danger level: the largest discharge of all events, scaled by the flood-prone and urban factors. */
  function DangerLevel(events: seq<FloodEvent>, p: AreaProfile): (r: int)
    requires |events| > 0
    ensures r >= 0
    ensures var exact := ScaledPeak(Max(Levels(events)), p);
      r as real - 0.5 <= exact < r as real + 0.5
  {
    var m := Max(Levels(events));
    assert m >= 0.0 by { assert m in Levels(events); }
    RoundMonotone(0.0, ScaledPeak(m, p));
    Round(ScaledPeak(m, p))
  }

  /** With three or more events the current level is the rounded drainage-scaled mean of the newest three. */
  lemma CurrentLevelOfNewestThree(events: seq<FloodEvent>, p: AreaProfile)
    requires |events| >= 3
    ensures CurrentLevel(events, p)
         == Round((events[0].level + events[1].level + events[2].level) as real
                  * DrainageFactor(p.drainageSystem) / 30000.0)
  {
    var ls := Levels(Recent(events));
    assert ls == [events[0].level as real, events[1].level as real, events[2].level as real];
    SumOfThree(ls);
    var total := (events[0].level + events[1].level + events[2].level) as real;
    var d := DrainageFactor(p.drainageSystem);
    assert Mean(ls) == total / 3.0;
    assert ScaledMean(total / 3.0, p.drainageSystem) == total * d / 30000.0;
  }

  /** Events beyond the third never change the current level. */
  lemma CurrentLevelOnlyRecentThree(events: seq<FloodEvent>, older: seq<FloodEvent>, p: AreaProfile)
    requires |events| >= 3
    ensures CurrentLevel(events + older, p) == CurrentLevel(events, p)
  {
    assert Recent(events + older) == Recent(events);
  }

  /** The danger level is determined by the largest discharge among the events. */
  lemma DangerLevelOnlyMax(a: seq<FloodEvent>, b: seq<FloodEvent>, p: AreaProfile)
    requires |a| > 0 && |b| > 0
    requires Max(Levels(a)) == Max(Levels(b))
    ensures DangerLevel(a, p) == DangerLevel(b, p)
  {
  }

  /**
   An otherwise identical flood-prone area never gets a lower danger level,
   and gets a strictly higher one once the peak discharge reaches 100000.
   */
  lemma FloodProneNeverLowersDanger(events: seq<FloodEvent>, p: AreaProfile)
    requires |events| > 0
    ensures DangerLevel(events, p.(floodProne := true)) >= DangerLevel(events, p.(floodProne := false))
    ensures Max(Levels(events)) >= 100000.0 ==>
      DangerLevel(events, p.(floodProne := true)) > DangerLevel(events, p.(floodProne := false))
  {
    var m := Max(Levels(events));
    assert m >= 0.0 by { assert m in Levels(events); }
    var u := UrbanFactor(p.urbanDevelopment);
    PeakFactorGap(m, u);
    assert ScaledPeak(m, p.(floodProne := false)) == m * 1.1 * u / LevelScale;
    assert ScaledPeak(m, p.(floodProne := true)) == m * 1.2 * u / LevelScale;
  }

  /** The flood-prone factor adds m * u / 100000 to the scaled peak: at least one unit from 100000 on. */
  lemma PeakFactorGap(m: real, u: real)
    requires m >= 0.0 && u >= 1.0
    ensures m * 1.1 * u / LevelScale <= m * 1.2 * u / LevelScale
    ensures m >= 100000.0 ==> m * 1.1 * u / LevelScale + 1.0 <= m * 1.2 * u / LevelScale
  {
    assert m * 1.2 * u / LevelScale - m * 1.1 * u / LevelScale == m * u / 100000.0;
    MultiplyMonotone(0.0, m, 0.0, u);
    if m >= 100000.0 {
      MultiplyMonotone(100000.0, m, 1.0, u);
    }
  }

  /** The current level never exceeds the danger level of the same history. */
  lemma CurrentLevelAtMostDanger(events: seq<FloodEvent>, p: AreaProfile)
    requires |events| > 0
    ensures CurrentLevel(events, p) <= DangerLevel(events, p)
  {
    var recent := Levels(Recent(events));
    MeanNonNegative(recent);
    RecentMeanAtMostMax(events);
    ScaledLevelsOrdered(Mean(recent), Max(Levels(events)), p);
  }

  /** Drainage scales a level by at most 1.1 and the peak factors raise it by at least 1.1. */
  lemma ScaledLevelsOrdered(avg: real, m: real, p: AreaProfile)
    requires 0.0 <= avg <= m
    ensures Round(ScaledMean(avg, p.drainageSystem)) <= Round(ScaledPeak(m, p))
  {
    var d, f, u := DrainageFactor(p.drainageSystem), FloodProneFactor(p.floodProne), UrbanFactor(p.urbanDevelopment);
    assert 0.0 <= d <= 1.1 && 1.1 <= f && 1.0 <= u;
    ScaledRealsOrdered(avg, m, d, f, u);
    assert ScaledMean(avg, p.drainageSystem) == avg * d / LevelScale;
    assert ScaledPeak(m, p) == m * f * u / LevelScale;
  }

  lemma ScaledRealsOrdered(avg: real, m: real, d: real, f: real, u: real)
    requires 0.0 <= avg <= m
    requires 0.0 <= d <= 1.1 && 1.1 <= f && 1.0 <= u
    ensures Round(avg * d / LevelScale) <= Round(m * f * u / LevelScale)
  {
    MultiplyMonotone(1.1, f, 1.0, u);
    MultiplyMonotone(avg, m, d, f * u);
    assert m * f * u == m * (f * u);
    DivideMonotone(avg * d, m * f * u, LevelScale);
    RoundMonotone(avg * d / LevelScale, m * f * u / LevelScale);
  }

  lemma RecentMeanAtMostMax(events: seq<FloodEvent>)
    requires |events| > 0
    ensures Mean(Levels(Recent(events))) <= Max(Levels(events))
  {
    var recent := Levels(Recent(events));
    MeanAtMostMax(recent);
    var mr := Max(recent);
    assert mr in Levels(events) by {
      var i :| 0 <= i < |recent| && recent[i] == mr;
      assert Levels(events)[i] == mr;
    }
  }

  lemma MultiplyMonotone(a: real, b: real, c: real, d: real)
    requires 0.0 <= a <= b && 0.0 <= c <= d
    ensures a * c <= b * d
  {
    assert a * c <= b * c;
    assert b * c <= b * d;
  }

  /** Rainfall: the mean of discharge/1000, reduced by vegetation cover; threshold 1.5 times the mean. */
  function Rainfall(events: seq<FloodEvent>, p: AreaProfile): (r: Metric)
    requires |events| > 0
    requires p.vegetationCover.value.Numeric()
    ensures r.threshold >= 0
    ensures var avg, vf := Mean(Thousandths(events)), 1.0 - p.vegetationCover.value.AsReal() / 200.0;
      r.current as real - 0.5 <= avg * vf < r.current as real + 0.5
    ensures var avg := Mean(Thousandths(events));
      r.threshold as real - 0.5 <= avg * 1.5 < r.threshold as real + 0.5
  {
    var avg := Mean(Thousandths(events));
    MeanNonNegative(Thousandths(events));
    var vegetationFactor := 1.0 - p.vegetationCover.value.AsReal() / 200.0;
    RoundMonotone(0.0, avg * 1.5);
    Metric(Round(avg * vegetationFactor), Round(avg * 1.5))
  }

  /**
   Rainfall averages over every event passed in, not only the newest three:
   a discharge in the fourth event alone still sets the threshold.
   */
  lemma RainfallCountsEveryEvent(events: seq<FloodEvent>, p: AreaProfile)
    requires |events| == 4
    requires events[0].level == 0.0 && events[1].level == 0.0 && events[2].level == 0.0
    requires p.vegetationCover.value.Numeric()
    ensures Rainfall(events, p).threshold == Round(events[3].level as real * 1.5 / 4000.0)
  {
    var ts := Thousandths(events);
    SumOfThree(ts[..3]);
    assert Sum(ts) == Sum(ts[..3]) + ts[3];
    assert Mean(ts) == events[3].level as real / 4000.0;
  }

  /** `event.level / 1000` for each event. */
  function Thousandths(events: seq<FloodEvent>): (ts: seq<real>)
    ensures |ts| == |events|
    ensures forall i :: 0 <= i < |events| ==> ts[i] == events[i].level as real / 1000.0 && ts[i] >= 0.0
  {
    seq(|events|, i requires 0 <= i < |events| => events[i].level as real / 1000.0)
  }

  /** With non-negative vegetation cover the derived rainfall never exceeds its threshold. */
  lemma RainfallWithinThreshold(events: seq<FloodEvent>, p: AreaProfile)
    requires |events| > 0
    requires p.vegetationCover.value.Numeric() && p.vegetationCover.value.AsReal() >= 0.0
    ensures Rainfall(events, p).current <= Rainfall(events, p).threshold
  {
    var avg := Mean(Thousandths(events));
    MeanNonNegative(Thousandths(events));
    var vf := 1.0 - p.vegetationCover.value.AsReal() / 200.0;
    assert vf <= 1.0;
    assert avg * vf <= avg * 1.5;
    RoundMonotone(avg * vf, avg * 1.5);
  }

  /**
   Basin capacity: the mean of 100 - discharge/1000, scaled by the mean of
   1, the distance factor 1 - distance/10 and the elevation factor
   1 - elevation/1000; threshold 80.
   */
  function BasinCapacity(events: seq<FloodEvent>, p: AreaProfile): (r: Metric)
    requires |events| > 0
    requires p.distanceFromRiver.value.Numeric() && p.elevation.value.Numeric()
    ensures r.threshold == 80
    ensures var exact := ScaledCapacity(Mean(Headroom(events)), p.distanceFromRiver.value.AsReal(), p.elevation.value.AsReal());
            r.current as real - 0.5 <= exact < r.current as real + 0.5
  {
    var base := Mean(Headroom(events));
    Metric(Round(ScaledCapacity(base, p.distanceFromRiver.value.AsReal(), p.elevation.value.AsReal())), 80)
  }

  /** A mean headroom scaled by the distance and elevation factors. */
  function ScaledCapacity(base: real, distance: real, elevation: real): real
  {
    base * (1.0 + (1.0 - distance / 10.0) + (1.0 - elevation / 1000.0)) / 3.0
  }

  /**
   For discharges of at most 100000 m³/s (a non-negative headroom), an area
   farther from the river or higher up never gets a larger capacity: both
   factors fall as their measurement grows.
   */
  lemma CapacityNeverRisesFartherOrHigher(events: seq<FloodEvent>, p: AreaProfile, q: AreaProfile)
    requires |events| > 0
    requires forall i :: 0 <= i < |events| ==> events[i].level as real <= 100000.0
    requires p.distanceFromRiver.value.Numeric() && p.elevation.value.Numeric()
    requires q.distanceFromRiver.value.Numeric() && q.elevation.value.Numeric()
    requires p.distanceFromRiver.value.AsReal() <= q.distanceFromRiver.value.AsReal()
    requires p.elevation.value.AsReal() <= q.elevation.value.AsReal()
    ensures BasinCapacity(events, q).current <= BasinCapacity(events, p).current
  {
    var hs := Headroom(events);
    assert forall i :: 0 <= i < |hs| ==> hs[i] >= 0.0;
    MeanNonNegative(hs);
    ScaledCapacityAntitone(Mean(hs), p.distanceFromRiver.value.AsReal(), q.distanceFromRiver.value.AsReal(),
                           p.elevation.value.AsReal(), q.elevation.value.AsReal());
  }

  lemma ScaledCapacityAntitone(base: real, d1: real, d2: real, e1: real, e2: real)
    requires base >= 0.0 && d1 <= d2 && e1 <= e2
    ensures Round(ScaledCapacity(base, d2, e2)) <= Round(ScaledCapacity(base, d1, e1))
  {
    var f1 := 1.0 + (1.0 - d1 / 10.0) + (1.0 - e1 / 1000.0);
    var f2 := 1.0 + (1.0 - d2 / 10.0) + (1.0 - e2 / 1000.0);
    assert f2 <= f1;
    assert base * f2 <= base * f1 by {
      assert base * (f1 - f2) >= 0.0;
    }
    RoundMonotone(ScaledCapacity(base, d2, e2), ScaledCapacity(base, d1, e1));
  }

  /** `100 - event.level / 1000` for each event. */
  function Headroom(events: seq<FloodEvent>): (hs: seq<real>)
    ensures |hs| == |events|
    ensures forall i :: 0 <= i < |events| ==> hs[i] == 100.0 - events[i].level as real / 1000.0 && hs[i] <= 100.0
  {
    seq(|events|, i requires 0 <= i < |events| => 100.0 - events[i].level as real / 1000.0)
  }

  // ---------------------------------------------------------------------------
  // Soil moisture from the soil-wetness series
  // ---------------------------------------------------------------------------

  datatype Trend = Increasing | Decreasing | Stable

  datatype SoilMoisture = SoilMoisture(current: int, threshold: int, trend: Trend)
  {
    /** The `{current, threshold}` pair the moisture scorer reads. */
    function AsMetric(): Metric
    {
      Metric(current, threshold)
    }
  }

  /** What is reported when the series cannot be read. */
  const FallbackMoisture := SoilMoisture(75, 90, Stable)

  /** Consecutive differences `s[i+1] - s[i]`. */
  function Differences(s: seq<real>): (d: seq<real>)
    requires |s| >= 1
    ensures |d| == |s| - 1
    ensures forall i :: 0 <= i < |d| ==> d[i] == s[i + 1] - s[i]
  {
    seq(|s| - 1, i requires 0 <= i < |s| - 1 => s[i + 1] - s[i])
  }

  /** The last three samples (`slice(-3)`), or all of them when there are fewer. */
  function LastThree(values: seq<real>): (r: seq<real>)
    ensures |r| == if |values| < 3 then |values| else 3
    ensures r == values[|values| - |r|..]
  {
    if |values| < 3 then values else values[|values| - 3..]
  }

  /** The direction of the recent samples: mean consecutive change above 0.1, below -0.1, or neither. */
  function TrendOf(values: seq<real>): (t: Trend)
    ensures |values| < 2 ==> t == Stable
    ensures |values| >= 2 ==>
      var r := LastThree(values);
      && (t == Increasing ==> r[0] < r[|r| - 1])
      && (t == Decreasing ==> r[|r| - 1] < r[0])
  {
    if |values| < 2 then Stable
    else
      var diffs := Differences(LastThree(values));
      SumOfDifferences(LastThree(values));
      QuotientSign(Sum(diffs), |diffs| as real);
      var avg := Sum(diffs) / |diffs| as real;
      if avg > 0.1 then Increasing
      else if avg < -0.1 then Decreasing
      else Stable
  }

  /** A quotient by a positive number past ±0.1 has the numerator's sign. */
  lemma QuotientSign(num: real, k: real)
    requires k > 0.0
    ensures num / k > 0.1 ==> num > 0.0
    ensures num / k < -0.1 ==> num < 0.0
  {
    if num <= 0.0 {
      assert num / k <= 0.0;
    }
    if num >= 0.0 {
      assert num / k >= 0.0;
    }
  }

  /** Consecutive differences telescope: their sum is the last sample minus the first. */
  lemma {:induction false} SumOfDifferences(s: seq<real>)
    requires |s| >= 1
    ensures Sum(Differences(s)) == s[|s| - 1] - s[0]
    decreases |s|
  {
    if |s| > 1 {
      var init := s[..|s| - 1];
      SumOfDifferences(init);
      assert Differences(s)[..|s| - 2] == Differences(init);
    }
  }

  /**
   The trend is decided by the change across the last (up to three) samples
   alone: with `k` of them, the mean change is `(last - first) / (k - 1)`.
   */
  lemma TrendIsNetChange(values: seq<real>)
    requires |values| >= 2
    ensures var r := LastThree(values);
            var avg := (r[|r| - 1] - r[0]) / (|r| - 1) as real;
            TrendOf(values) == (if avg > 0.1 then Increasing else if avg < -0.1 then Decreasing else Stable)
  {
    SumOfDifferences(LastThree(values));
  }

  /** Samples older than the last three never change the trend. */
  lemma TrendOnlyLastThree(older: seq<real>, values: seq<real>)
    requires |values| >= 3
    ensures TrendOf(older + values) == TrendOf(values)
  {
    assert LastThree(older + values) == LastThree(values);
  }

  /**
   Soil moisture from the series read at `properties.parameter.SOILWET1`
   (`None` when that path is missing): the latest sample and 1.1 times the
   largest, as percentages, with the trend; the fixed fallback otherwise.
   */
  function SoilMoistureFrom(series: Option<seq<real>>): (r: SoilMoisture)
    requires series.Some? ==> |series.value| > 0
    ensures series.None? ==> r == SoilMoisture(75, 90, Stable)
    ensures series.Some? ==> r.trend == TrendOf(series.value)
    ensures series.Some? ==>
      exists i :: 0 <= i < |series.value| && r.threshold == Round(series.value[i] * 1.1 * 100.0)
                  && forall j :: 0 <= j < |series.value| ==> series.value[j] <= series.value[i]
    ensures series.Some? && (forall i :: 0 <= i < |series.value| ==> series.value[i] >= 0.0) ==>
              forall i :: 0 <= i < |series.value| ==> Round(series.value[i] * 100.0) <= r.threshold
  {
    match series
    case None => FallbackMoisture
    case Some(values) =>
      var m := Max(values);
      ThresholdFromLargest(values);
      assert forall i :: 0 <= i < |values| && values[i] >= 0.0 ==> values[i] * 100.0 <= m * 1.1 * 100.0;
      assert forall i :: 0 <= i < |values| && values[i] >= 0.0 ==> Round(values[i] * 100.0) <= Round(m * 1.1 * 100.0) by {
        forall i | 0 <= i < |values| && values[i] >= 0.0 {
          RoundMonotone(values[i] * 100.0, m * 1.1 * 100.0);
        }
      }
      SoilMoisture(Round(values[|values| - 1] * 100.0), Round(m * 1.1 * 100.0), TrendOf(values))
  }

  /** With non-negative samples the current moisture never exceeds its threshold. */
  lemma MoistureWithinThreshold(series: seq<real>)
    requires |series| > 0
    requires forall i :: 0 <= i < |series| ==> series[i] >= 0.0
    ensures SoilMoistureFrom(Some(series)).current <= SoilMoistureFrom(Some(series)).threshold
  {
  }

  /** The threshold is 110% of the largest sample, which is one of the samples. */
  lemma ThresholdFromLargest(values: seq<real>)
    requires |values| > 0
    ensures exists i :: 0 <= i < |values| && Round(Max(values) * 1.1 * 100.0) == Round(values[i] * 1.1 * 100.0)
                        && forall j :: 0 <= j < |values| ==> values[j] <= values[i]
  {
    var m := Max(values);
    assert m in values;
    var top :| 0 <= top < |values| && values[top] == m;
    assert forall j :: 0 <= j < |values| ==> values[j] <= values[top];
    assert Round(m * 1.1 * 100.0) == Round(values[top] * 1.1 * 100.0);
  }

  /** The current moisture is the latest sample as a rounded percentage, whatever came before it. */
  lemma CurrentIsLatestSample(earlier: seq<real>, latest: real)
    ensures SoilMoistureFrom(Some(earlier + [latest])).current == Round(latest * 100.0)
  {
    assert (earlier + [latest])[|earlier|] == latest;
  }
}
