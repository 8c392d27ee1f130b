/**
 The advisory part of the four-factor report (routes/floodPrediction.js):
 the ordered recommendation list and the cumulative evacuation zones.
 */
module Advisory {
  import opened Common
  import opened FourFactor
  import Records

  /** Every recommendation the engine can issue; `Text` is the string it shows. */
  datatype Recommendation =
    | ImmediateEvacuation | EmergencyServicesAlert
    | PrepareEvacuation | MonitorRiverLevels
    | StayAlert | ReviewEvacuationPlans
    | MonitorForecasts | NormalActivities
    | LevelWarning | RainfallWarning | MoistureWarning | CapacityWarning
  {
    function Text(): string
    {
      match this
      case ImmediateEvacuation => "Immediate evacuation recommended"
      case EmergencyServicesAlert => "Emergency services on high alert"
      case PrepareEvacuation => "Prepare for possible evacuation"
      case MonitorRiverLevels => "Monitor river levels closely"
      case StayAlert => "Stay alert for changing conditions"
      case ReviewEvacuationPlans => "Review evacuation plans"
      case MonitorForecasts => "Monitor weather forecasts"
      case NormalActivities => "Maintain normal activities with caution"
      case LevelWarning => "River levels approaching critical threshold"
      case RainfallWarning => "Heavy rainfall expected - prepare for flash floods"
      case MoistureWarning => "High soil moisture - increased flood risk"
      case CapacityWarning => "Basin capacity critical - prepare for overflow"
    }
  }

  /** The two fixed recommendations every tier starts with. */
  function BaseAdvice(t: Tier): (r: seq<Recommendation>)
    ensures |r| == 2
  {
    match t
    case Severe => [ImmediateEvacuation, EmergencyServicesAlert]
    case High => [PrepareEvacuation, MonitorRiverLevels]
    case Moderate => [StayAlert, ReviewEvacuationPlans]
    case Low => [MonitorForecasts, NormalActivities]
  }

  /** One warning per factor, in the order level, rainfall, moisture, capacity. */
  const FactorWarnings: seq<Recommendation> := [LevelWarning, RainfallWarning, MoistureWarning, CapacityWarning]

  /** The sub-scores in the same order as the warnings. */
  function FactorValues(f: Factors): seq<int>
  {
    [f.levelRisk, f.rainfallRisk, f.moistureRisk, f.capacityRisk]
  }

  /** The messages whose paired value is at least 80, in their original order. */
  function Selected(vals: seq<int>, msgs: seq<Recommendation>): seq<Recommendation>
    requires |vals| == |msgs|
  {
    if |vals| == 0 then []
    else (if vals[0] >= 80 then [msgs[0]] else []) + Selected(vals[1..], msgs[1..])
  }

  /**
   The recommendations: the tier's two fixed strings, then the warning of
   every factor scored 80 or more, in factor order.
   */
  function Recommendations(t: Tier, f: Factors): (r: seq<Recommendation>)
    ensures 2 <= |r| <= 6
    ensures r[..2] == BaseAdvice(t)
    ensures r[2..] == Selected(FactorValues(f), FactorWarnings)
    ensures forall i :: 0 <= i < 4 ==> (FactorWarnings[i] in r <==> FactorValues(f)[i] >= 80)
  {
    var base := BaseAdvice(t);
    var warnings :=
      (if f.levelRisk >= 80 then [LevelWarning] else [])
      + (if f.rainfallRisk >= 80 then [RainfallWarning] else [])
      + (if f.moistureRisk >= 80 then [MoistureWarning] else [])
      + (if f.capacityRisk >= 80 then [CapacityWarning] else []);
    SelectedFactorWarnings(f);
    assert (base + warnings)[..2] == base;
    assert (base + warnings)[2..] == warnings;
    base + warnings
  }

  /** `Selected` over the four factors, unfolded one factor at a time. */
  lemma SelectedFactorWarnings(f: Factors)
    ensures Selected(FactorValues(f), FactorWarnings)
         == (if f.levelRisk >= 80 then [LevelWarning] else [])
          + (if f.rainfallRisk >= 80 then [RainfallWarning] else [])
          + (if f.moistureRisk >= 80 then [MoistureWarning] else [])
          + (if f.capacityRisk >= 80 then [CapacityWarning] else [])
  {
    var v, m := FactorValues(f), FactorWarnings;
    var v3, m3 := v[3..], m[3..];
    assert v3[1..] == [] && m3[1..] == [];
    assert Selected(v3, m3) == (if v[3] >= 80 then [m[3]] else []);
    assert v[2..][1..] == v3 && m[2..][1..] == m3;
    assert Selected(v[2..], m[2..]) == (if v[2] >= 80 then [m[2]] else []) + Selected(v3, m3);
    assert v[1..][1..] == v[2..] && m[1..][1..] == m[2..];
    assert Selected(v[1..], m[1..]) == (if v[1] >= 80 then [m[1]] else []) + Selected(v[2..], m[2..]);
    assert Selected(v, m) == (if v[0] >= 80 then [m[0]] else []) + Selected(v[1..], m[1..]);
  }

  /** An evacuation zone: its number, what to do and which areas it covers. */
  datatype Zone = Zone(level: int, description: string, areas: seq<string>)

  const Zone1 := Zone(1, "Immediate evacuation required", ["Riverside settlements", "Low-lying areas"])
  const Zone2 := Zone(2, "Prepare for evacuation", ["Suburban areas", "Agricultural land"])
  const Zone3 := Zone(3, "Monitor situation", ["Urban areas", "Higher ground"])

  /**
   The evacuation zones, each pushed by its own `if`: zone 1 within 1 km and at
   most 10 m up, zone 2 within 3 km and at most 20 m up, zone 3 within 5 km.
   Each condition implies the next, so the list is always a suffix of [1, 2, 3].
   A missing value never qualifies; a null one compares as 0.
   */
  function EvacuationZones(p: Records.AreaProfile): (r: seq<Zone>)
    ensures r == [] || r == [Zone3] || r == [Zone2, Zone3] || r == [Zone1, Zone2, Zone3]
    ensures Zone1 in r <==> p.distanceFromRiver.value.AtMost(1.0) && p.elevation.value.AtMost(10.0)
    ensures Zone2 in r <==> p.distanceFromRiver.value.AtMost(3.0) && p.elevation.value.AtMost(20.0)
    ensures Zone3 in r <==> p.distanceFromRiver.value.AtMost(5.0)
  {
    var distance, elevation := p.distanceFromRiver.value, p.elevation.value;
    (if distance.AtMost(1.0) && elevation.AtMost(10.0) then [Zone1] else [])
    + (if distance.AtMost(3.0) && elevation.AtMost(20.0) then [Zone2] else [])
    + (if distance.AtMost(5.0) then [Zone3] else [])
  }

  /** Half a kilometre from the river at 5 m: all three zones, in order. */
  lemma CloseLowAreaGetsAllZones(p: Records.AreaProfile)
    requires p.distanceFromRiver.value == Records.Num(0.5) && p.elevation.value == Records.Num(5.0)
    ensures EvacuationZones(p) == [Zone1, Zone2, Zone3]
  {
  }

  /** Null distance and elevation compare as 0: all three zones. A missing distance: none. */
  lemma NullMeasurementsGetAllZones(p: Records.AreaProfile, q: Records.AreaProfile)
    requires p.distanceFromRiver.value == Records.Null && p.elevation.value == Records.Null
    requires q.distanceFromRiver.value == Records.Undefined
    ensures EvacuationZones(p) == [Zone1, Zone2, Zone3]
    ensures EvacuationZones(q) == []
  {
  }

  datatype RiskAssessment = RiskAssessment(recommendations: seq<Recommendation>, evacuationZones: Option<seq<Zone>>)

  /** The report's advice: recommendations always, zones only for the high and severe tiers. */
  function GenerateRiskAssessment(risk: FloodRisk, p: Records.AreaProfile): (a: RiskAssessment)
    ensures a.evacuationZones.Some? <==> risk.tier == High || risk.tier == Severe
    ensures a.evacuationZones.Some? ==> a.evacuationZones.value == EvacuationZones(p)
    ensures 2 <= |a.recommendations| <= 6
    ensures a.recommendations[..2] == BaseAdvice(risk.tier)
    ensures a.recommendations[2..] == Selected(FactorValues(risk.factors), FactorWarnings)
  {
    var recommendations := Recommendations(risk.tier, risk.factors);
    var zones := if risk.tier == High || risk.tier == Severe then Some(EvacuationZones(p)) else None;
    RiskAssessment(recommendations, zones)
  }
}
