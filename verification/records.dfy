/**
 The two stored records of the system, as their database schemas constrain
 them: a historical flood event and the static profile of an area. Values
 of the validated types satisfy the schema's invariants by construction
 (month in 1..12, non-negative discharge, trimmed non-empty names, the
 drainage and urbanisation enumerations); `MakeFloodEvent` and
 `MakeAreaProfile` model the schema's casting of a raw document: trimming,
 defaults and the list of paths that fail validation.
 */
module Records {
  import opened Common

  // ---------------------------------------------------------------------------
  // String trimming as String.prototype.trim does it
  // ---------------------------------------------------------------------------

  /** The characters JavaScript's trim removes: WhiteSpace and LineTerminator. */
  predicate IsJsSpace(c: char)
  {
    || c == ' ' || c == '\t' || c == '\n' || c == '\r'
    || c == '\U{000B}' || c == '\U{000C}' || c == '\U{00A0}' || c == '\U{1680}'
    || ('\U{2000}' <= c <= '\U{200A}')
    || c == '\U{2028}' || c == '\U{2029}' || c == '\U{202F}' || c == '\U{205F}'
    || c == '\U{3000}' || c == '\U{FEFF}'
  }

  predicate IsTrimmed(s: string)
  {
    |s| == 0 || (!IsJsSpace(s[0]) && !IsJsSpace(s[|s| - 1]))
  }

  function TrimStart(s: string): (r: string)
    ensures |r| <= |s| && r == s[|s| - |r|..]
    ensures forall i :: 0 <= i < |s| - |r| ==> IsJsSpace(s[i])
    ensures |r| > 0 ==> !IsJsSpace(r[0])
  {
    if |s| > 0 && IsJsSpace(s[0]) then TrimStart(s[1..]) else s
  }

  function TrimEnd(s: string): (r: string)
    ensures |r| <= |s| && r == s[..|r|]
    ensures forall i :: |r| <= i < |s| ==> IsJsSpace(s[i])
    ensures |r| > 0 ==> !IsJsSpace(r[|r| - 1])
  {
    if |s| > 0 && IsJsSpace(s[|s| - 1]) then TrimEnd(s[..|s| - 1]) else s
  }

  /** The schema's `trim: true`: drops leading and trailing spaces and nothing else. */
  function Trim(s: string): (r: string)
    ensures IsTrimmed(r)
    ensures |r| <= |s|
    ensures exists i :: TrimSplit(s, i, r)
  {
    var a := TrimStart(s);
    var r := TrimEnd(a);
    StrippedEndsSplit(s, a, r);
    r
  }

  /** Stripping spaces from the front of `s` giving `a`, then from the back of `a` giving `r`, splits `s`. */
  lemma StrippedEndsSplit(s: string, a: string, r: string)
    requires |a| <= |s| && a == s[|s| - |a|..]
    requires forall k :: 0 <= k < |s| - |a| ==> IsJsSpace(s[k])
    requires |a| > 0 ==> !IsJsSpace(a[0])
    requires |r| <= |a| && r == a[..|r|]
    requires forall k :: |r| <= k < |a| ==> IsJsSpace(a[k])
    requires |r| > 0 ==> !IsJsSpace(r[|r| - 1])
    ensures IsTrimmed(r)
    ensures TrimSplit(s, |s| - |a|, r)
  {
    var i := |s| - |a|;
    forall k | i + |r| <= k < |s|
      ensures IsJsSpace(s[k])
    {
      assert s[k] == a[k - i];
    }
    assert |r| > 0 ==> r[0] == a[0];
  }

  /** `r` is `s` with the spaces before index `i` and after `i + |r|` removed. */
  predicate TrimSplit(s: string, i: int, r: string)
  {
    && 0 <= i && i + |r| <= |s|
    && r == s[i..i + |r|]
    && (forall k :: 0 <= k < i ==> IsJsSpace(s[k]))
    && (forall k :: i + |r| <= k < |s| ==> IsJsSpace(s[k]))
  }

  lemma {:induction false} TrimStartOfTrimmed(s: string)
    requires |s| == 0 || !IsJsSpace(s[0])
    ensures TrimStart(s) == s
  {
  }

  /** Trimming a stored name again changes nothing. */
  lemma TrimIdempotent(s: string)
    ensures Trim(Trim(s)) == Trim(s)
  {
    var t := Trim(s);
    TrimOfTrimmed(t);
  }

  lemma TrimOfTrimmed(t: string)
    requires IsTrimmed(t)
    ensures Trim(t) == t
  {
    TrimStartOfTrimmed(t);
    assert TrimEnd(t) == t;
  }

  /** A non-empty trimmed string: how state, city and area are stored. */
  type Name = s: string | |s| > 0 && IsTrimmed(s) witness "x"

  // ---------------------------------------------------------------------------
  // FloodEvent (models/FloodEvent.js)
  // ---------------------------------------------------------------------------

  type Month = m: int | 1 <= m <= 12 witness 1

  /** A discharge in m³/s; the schema sets `min: 0`. */
  type Discharge = x: real | x >= 0.0

  datatype FloodEvent = FloodEvent(
    state: Name,
    city: Name,
    area: Name,
    year: int,
    month: Month,
    level: Discharge,
    impact: string,
    affectedAreas: seq<string>,
    casualties: real,
    damage: real,
    evacuationCount: real)

  /** A document as submitted, before the schema casts and validates it. */
  datatype RawFloodEvent = RawFloodEvent(
    state: Option<string>,
    city: Option<string>,
    area: Option<string>,
    year: Option<int>,
    month: Option<int>,
    level: Option<real>,
    impact: Option<string>,
    affectedAreas: seq<string>,
    casualties: Option<real>,
    damage: Option<real>,
    evacuationCount: Option<real>)

  /** Paths the schema validator can report. */
  datatype Field =
    | StateField | CityField | AreaField
    | YearField | MonthField | LevelField | ImpactField
    | DrainageField | UrbanField | SoilTypeField

  /** A required string passes when present and non-empty (after the trim setter, if any). */
  predicate RequiredString(v: Option<string>)
  {
    v.Some? && |v.value| > 0
  }

  /** A required, trimmed string passes when something other than spaces was given. */
  predicate NamePresent(v: Option<string>)
  {
    v.Some? && |Trim(v.value)| > 0
  }

  /** A required, trimmed string field: the stored value, if it validates. */
  function RequiredName(v: Option<string>): (r: Option<Name>)
    ensures r.Some? <==> v.Some? && RequiredString(Some(Trim(v.value)))
    ensures r.Some? ==> r.value == Trim(v.value)
  {
    if NamePresent(v) then Some(Trim(v.value)) else None
  }

  predicate MonthValid(m: Option<int>)
  {
    m.Some? && 1 <= m.value <= 12
  }

  predicate LevelValid(l: Option<real>)
  {
    l.Some? && l.value >= 0.0
  }

  /** The paths the event schema validates. */
  const EventFields: set<Field> := {StateField, CityField, AreaField, YearField, MonthField, LevelField, ImpactField}

  /** The validator's verdict on one path of an event. */
  predicate EventFieldFails(raw: RawFloodEvent, f: Field)
  {
    match f
    case StateField => !NamePresent(raw.state)
    case CityField => !NamePresent(raw.city)
    case AreaField => !NamePresent(raw.area)
    case YearField => raw.year.None?
    case MonthField => !MonthValid(raw.month)
    case LevelField => !LevelValid(raw.level)
    case ImpactField => !RequiredString(raw.impact)
    case _ => false
  }

  /** Every failing path is reported, not just the first. */
  function FloodEventErrors(raw: RawFloodEvent): set<Field>
  {
    set f | f in EventFields && EventFieldFails(raw, f)
  }

  /** The schema's rules for an event: required fields present, month in range, level non-negative. */
  predicate EventAcceptable(raw: RawFloodEvent)
  {
    && NamePresent(raw.state)
    && NamePresent(raw.city)
    && NamePresent(raw.area)
    && raw.year.Some?
    && MonthValid(raw.month)
    && LevelValid(raw.level)
    && RequiredString(raw.impact)
  }

  /** The validator reports nothing exactly for an acceptable event; month and level are reported exactly when out of bounds. */
  lemma FloodEventErrorsSpec(raw: RawFloodEvent)
    ensures FloodEventErrors(raw) == {} <==> EventAcceptable(raw)
    ensures MonthField in FloodEventErrors(raw) <==> !MonthValid(raw.month)
    ensures LevelField in FloodEventErrors(raw) <==> !LevelValid(raw.level)
  {
    assert MonthField in FloodEventErrors(raw) <==> EventFieldFails(raw, MonthField);
    assert LevelField in FloodEventErrors(raw) <==> EventFieldFails(raw, LevelField);
    if EventAcceptable(raw) {
      AcceptableEventHasNoErrors(raw);
    } else {
      UnacceptableEventHasErrors(raw);
    }
  }

  lemma AcceptableEventHasNoErrors(raw: RawFloodEvent)
    requires EventAcceptable(raw)
    ensures FloodEventErrors(raw) == {}
  {
    forall f | f in EventFields
      ensures !EventFieldFails(raw, f)
    {
    }
  }

  lemma UnacceptableEventHasErrors(raw: RawFloodEvent)
    requires !EventAcceptable(raw)
    ensures FloodEventErrors(raw) != {}
  {
    var f :=
      if !NamePresent(raw.state) then StateField
      else if !NamePresent(raw.city) then CityField
      else if !NamePresent(raw.area) then AreaField
      else if raw.year.None? then YearField
      else if !MonthValid(raw.month) then MonthField
      else if !LevelValid(raw.level) then LevelField
      else ImpactField;
    assert EventFieldFails(raw, f);
    assert f in FloodEventErrors(raw);
  }

  /** Casts and validates a raw event: every failing path is reported, defaults fill the rest. */
  function MakeFloodEvent(raw: RawFloodEvent): (r: Result<FloodEvent, set<Field>>)
    ensures r.Ok? <==> EventAcceptable(raw)
    ensures r.Err? ==> r.error != {}
    ensures r.Err? ==> (MonthField in r.error <==> raw.month.None? || raw.month.value < 1 || raw.month.value > 12)
    ensures r.Err? ==> (LevelField in r.error <==> raw.level.None? || raw.level.value < 0.0)
    ensures r.Ok? ==>
      && r.value.state == Trim(raw.state.value)
      && r.value.city == Trim(raw.city.value)
      && r.value.area == Trim(raw.area.value)
      && r.value.year == raw.year.value
      && r.value.month as int == raw.month.value
      && r.value.level as real == raw.level.value
      && r.value.impact == raw.impact.value
      && r.value.affectedAreas == raw.affectedAreas
    ensures r.Ok? ==>
      && r.value.casualties == (if raw.casualties.Some? then raw.casualties.value else 0.0)
      && r.value.damage == (if raw.damage.Some? then raw.damage.value else 0.0)
      && r.value.evacuationCount == (if raw.evacuationCount.Some? then raw.evacuationCount.value else 0.0)
  {
    if !EventAcceptable(raw) then
      FloodEventErrorsSpec(raw);
      Err(FloodEventErrors(raw))
    else
      Ok(FloodEvent(
        RequiredName(raw.state).value,
        RequiredName(raw.city).value,
        RequiredName(raw.area).value,
        raw.year.value,
        raw.month.value,
        raw.level.value,
        raw.impact.value,
        raw.affectedAreas,
        raw.casualties.GetOr(0.0),
        raw.damage.GetOr(0.0),
        raw.evacuationCount.GetOr(0.0)))
  }

  // ---------------------------------------------------------------------------
  // AreaCharacteristic (models/AreaCharacteristic.js)
  // ---------------------------------------------------------------------------

  datatype Drainage = Poor | Moderate | Good | Excellent

  datatype UrbanDevelopment = Low | Medium | High

  function DrainageName(d: Drainage): string
  {
    match d
    case Poor => "Poor"
    case Moderate => "Moderate"
    case Good => "Good"
    case Excellent => "Excellent"
  }

  function UrbanName(u: UrbanDevelopment): string
  {
    match u
    case Low => "Low"
    case Medium => "Medium"
    case High => "High"
  }

  /** The schema's enum validator on `drainageSystem`. */
  function ParseDrainage(s: string): (r: Option<Drainage>)
    ensures r.Some? <==> s in {"Poor", "Moderate", "Good", "Excellent"}
    ensures r.Some? ==> DrainageName(r.value) == s
  {
    if s == "Poor" then Some(Poor)
    else if s == "Moderate" then Some(Moderate)
    else if s == "Good" then Some(Good)
    else if s == "Excellent" then Some(Excellent)
    else None
  }

  /** The schema's enum validator on `urbanDevelopment`. */
  function ParseUrban(s: string): (r: Option<UrbanDevelopment>)
    ensures r.Some? <==> s in {"Low", "Medium", "High"}
    ensures r.Some? ==> UrbanName(r.value) == s
  {
    if s == "Low" then Some(Low)
    else if s == "Medium" then Some(Medium)
    else if s == "High" then Some(High)
    else None
  }

  /** The enum validators pass when the value is one of the enumerated names. */
  predicate DrainageGiven(v: Option<string>)
  {
    v.Some? && v.value in {"Poor", "Moderate", "Good", "Excellent"}
  }

  predicate UrbanGiven(v: Option<string>)
  {
    v.Some? && v.value in {"Low", "Medium", "High"}
  }

  /** Every enumerated name is accepted, and read back as itself. */
  lemma EnumRoundTrip(d: Drainage, u: UrbanDevelopment)
    ensures ParseDrainage(DrainageName(d)) == Some(d)
    ensures ParseUrban(UrbanName(u)) == Some(u)
  {
  }

  /**
   A number the schema declares but does not require: missing from the
   document (read as `undefined`), stored as `null`, or a number.
   */
  datatype NumberField = Undefined | Null | Num(x: real)
  {
    /** `field <= c` in JavaScript: undefined converts to NaN and compares false, null converts to 0. */
    predicate AtMost(c: real)
    {
      match this
      case Undefined => false
      case Null => 0.0 <= c
      case Num(x) => x <= c
    }

    /** Arithmetic on the field gives a number: anything but undefined, which gives NaN. */
    predicate Numeric()
    {
      !Undefined?
    }

    /** The number arithmetic sees: null converts to 0. */
    function AsReal(): real
      requires Numeric()
    {
      if Null? then 0.0 else x
    }
  }

  /** A `{value, unit}` sub-document; the schema does not require the value. */
  datatype Measure = Measure(value: NumberField, unit: string)

  datatype RawMeasure = RawMeasure(value: NumberField, unit: Option<string>)

  /**
   The stored area profile. There is no river-basin field: the schema does
   not declare one, so a document never carries it.
   */
  datatype AreaProfile = AreaProfile(
    state: Name,
    city: Name,
    area: Name,
    elevation: Measure,
    distanceFromRiver: Measure,
    drainageSystem: Drainage,
    urbanDevelopment: UrbanDevelopment,
    populationDensity: Measure,
    soilType: string,
    vegetationCover: Measure,
    floodProne: bool)

  datatype RawAreaProfile = RawAreaProfile(
    state: Option<string>,
    city: Option<string>,
    area: Option<string>,
    elevation: RawMeasure,
    distanceFromRiver: RawMeasure,
    drainageSystem: Option<string>,
    urbanDevelopment: Option<string>,
    populationDensity: RawMeasure,
    soilType: Option<string>,
    vegetationCover: RawMeasure,
    floodProne: Option<bool>)

  function WithDefaultUnit(m: RawMeasure, unit: string): Measure
  {
    Measure(m.value, m.unit.GetOr(unit))
  }

  /** The paths the area schema validates. */
  const ProfileFields: set<Field> := {StateField, CityField, AreaField, DrainageField, UrbanField, SoilTypeField}

  /** The validator's verdict on one path of a profile. */
  predicate ProfileFieldFails(raw: RawAreaProfile, f: Field)
  {
    match f
    case StateField => !NamePresent(raw.state)
    case CityField => !NamePresent(raw.city)
    case AreaField => !NamePresent(raw.area)
    case DrainageField => !DrainageGiven(raw.drainageSystem)
    case UrbanField => !UrbanGiven(raw.urbanDevelopment)
    case SoilTypeField => !RequiredString(raw.soilType)
    case _ => false
  }

  function AreaProfileErrors(raw: RawAreaProfile): set<Field>
  {
    set f | f in ProfileFields && ProfileFieldFails(raw, f)
  }

  /** The schema's rules for a profile: names present, enums valid, soil type given. */
  predicate ProfileAcceptable(raw: RawAreaProfile)
  {
    && NamePresent(raw.state)
    && NamePresent(raw.city)
    && NamePresent(raw.area)
    && DrainageGiven(raw.drainageSystem)
    && UrbanGiven(raw.urbanDevelopment)
    && RequiredString(raw.soilType)
  }

  /** The validator reports nothing exactly for an acceptable profile. */
  lemma AreaProfileErrorsSpec(raw: RawAreaProfile)
    ensures AreaProfileErrors(raw) == {} <==> ProfileAcceptable(raw)
  {
    if ProfileAcceptable(raw) {
      AcceptableProfileHasNoErrors(raw);
    } else {
      UnacceptableProfileHasErrors(raw);
    }
  }

  lemma AcceptableProfileHasNoErrors(raw: RawAreaProfile)
    requires ProfileAcceptable(raw)
    ensures AreaProfileErrors(raw) == {}
  {
    forall f | f in ProfileFields
      ensures !ProfileFieldFails(raw, f)
    {
    }
  }

  lemma UnacceptableProfileHasErrors(raw: RawAreaProfile)
    requires !ProfileAcceptable(raw)
    ensures AreaProfileErrors(raw) != {}
  {
    var f :=
      if !NamePresent(raw.state) then StateField
      else if !NamePresent(raw.city) then CityField
      else if !NamePresent(raw.area) then AreaField
      else if !DrainageGiven(raw.drainageSystem) then DrainageField
      else if !UrbanGiven(raw.urbanDevelopment) then UrbanField
      else SoilTypeField;
    assert ProfileFieldFails(raw, f);
    assert f in AreaProfileErrors(raw);
  }

  /** Casts and validates a raw profile, filling the unit and flood-prone defaults. */
  function MakeAreaProfile(raw: RawAreaProfile): (r: Result<AreaProfile, set<Field>>)
    ensures r.Ok? <==> ProfileAcceptable(raw)
    ensures r.Err? ==> r.error != {}
    ensures r.Ok? ==>
      && r.value.state == Trim(raw.state.value)
      && r.value.city == Trim(raw.city.value)
      && r.value.area == Trim(raw.area.value)
      && DrainageName(r.value.drainageSystem) == raw.drainageSystem.value
      && UrbanName(r.value.urbanDevelopment) == raw.urbanDevelopment.value
      && r.value.floodProne == (raw.floodProne.Some? && raw.floodProne.value)
      && r.value.soilType == raw.soilType.value
    ensures r.Ok? ==>
      && r.value.elevation == Measure(raw.elevation.value, if raw.elevation.unit.Some? then raw.elevation.unit.value else "meters")
      && r.value.distanceFromRiver == Measure(raw.distanceFromRiver.value, if raw.distanceFromRiver.unit.Some? then raw.distanceFromRiver.unit.value else "kilometers")
      && r.value.populationDensity == Measure(raw.populationDensity.value, if raw.populationDensity.unit.Some? then raw.populationDensity.unit.value else "per square km")
      && r.value.vegetationCover == Measure(raw.vegetationCover.value, if raw.vegetationCover.unit.Some? then raw.vegetationCover.unit.value else "percent")
  {
    if !ProfileAcceptable(raw) then
      AreaProfileErrorsSpec(raw);
      Err(AreaProfileErrors(raw))
    else
      Ok(AreaProfile(
        RequiredName(raw.state).value,
        RequiredName(raw.city).value,
        RequiredName(raw.area).value,
        WithDefaultUnit(raw.elevation, "meters"),
        WithDefaultUnit(raw.distanceFromRiver, "kilometers"),
        ParseDrainage(raw.drainageSystem.value).value,
        ParseUrban(raw.urbanDevelopment.value).value,
        WithDefaultUnit(raw.populationDensity, "per square km"),
        raw.soilType.value,
        WithDefaultUnit(raw.vegetationCover, "percent"),
        raw.floodProne.GetOr(false)))
  }

  /** The measurements the metric derivations compute with are all defined (a null one computes as 0). */
  predicate Measured(p: AreaProfile)
  {
    p.elevation.value.Numeric() && p.distanceFromRiver.value.Numeric() && p.vegetationCover.value.Numeric()
  }

  // ---------------------------------------------------------------------------
  // The unique index on (state, city, area)
  // ---------------------------------------------------------------------------

  datatype AreaKey = AreaKey(state: string, city: string, area: string)

  function KeyOf(p: AreaProfile): AreaKey
  {
    AreaKey(p.state, p.city, p.area)
  }

  predicate UniqueKeys(db: seq<AreaProfile>)
  {
    forall i, j :: 0 <= i < j < |db| ==> KeyOf(db[i]) != KeyOf(db[j])
  }

  /** Inserting into the collection: a duplicate key is refused, anything else is appended. */
  function InsertProfile(db: seq<AreaProfile>, p: AreaProfile): (r: Result<seq<AreaProfile>, AreaKey>)
    ensures r.Err? <==> exists i :: 0 <= i < |db| && KeyOf(db[i]) == KeyOf(p)
    ensures r.Err? ==> r.error == KeyOf(p)
    ensures r.Ok? ==> r.value == db + [p]
    ensures UniqueKeys(db) && r.Ok? ==> UniqueKeys(r.value)
  {
    if exists i :: 0 <= i < |db| && KeyOf(db[i]) == KeyOf(p) then Err(KeyOf(p))
    else Ok(db + [p])
  }
}
