# FloodShield core, modelled in Dafny

FloodShield is a flood-risk web service. This project models its decision
logic as pure Dafny functions and proves properties of it.

- **Four-factor engine** (`routes/floodPrediction.js`). It derives four
  metrics for a city from stored flood events and the area profile: the
  current river level, rainfall, soil moisture and basin capacity. Each
  metric becomes a step sub-score of 20–100 against fixed cutoffs. The
  sub-scores are weighted 0.4/0.2/0.2/0.2 into a composite score, which gets
  a tier (low / moderate / high / severe). The report adds recommendations,
  plus cumulative evacuation zones for the high and severe tiers.
- **Two-factor monitor** (`src/services/riskAssessmentService.js` with the
  cutoffs of `config/config.js`). It buckets 24-hour rainfall and an
  optional river level into Minimal / Low / Medium / High and keeps the more
  severe bucket.
- **24-hour rainfall total** (`src/services/weatherService.js`).
- **Stored records** (`models/FloodEvent.js`, `models/AreaCharacteristic.js`).
  Covers the schemas' casting and validation (trim, required, enum, min/max,
  defaults) and the unique `(state, city, area)` index.
- **Sign-in gate and session flags** of the web front end (`index.js`).

Files and modules:

| file | module | contents |
|---|---|---|
| `common.dfy` | `Common` | `Option`/`Result`, `Math.round`, left-fold `Sum`, `Mean`, `Max`, JavaScript division (`Ratio`: finite, ±Infinity, NaN) and comparisons on it |
| `records.dfy` | `Records` | `String.prototype.trim`, `FloodEvent`, `AreaProfile`, schema validation, unique index |
| `derivation.dfy` | `Derivation` | current / danger level, rainfall, basin capacity, soil moisture, trend |
| `four_factor.dfy` | `FourFactor` | basin thresholds, the four scorers, composite score and tier |
| `advisory.dfy` | `Advisory` | recommendations, evacuation zones, the risk-assessment block |
| `prediction.dfy` | `Prediction` | the `GET /location/:state/:city` handler, its errors, whole-report properties |
| `seed_example.dfy` | `SeedExample` | the report for the repository's seeded Patna data, value by value |
| `two_factor.dfy` | `TwoFactor` | the monitoring assessment |
| `hourly_rainfall.dfy` | `HourlyRainfall` | the 24-hour rainfall fold |
| `credentials.dfy` | `Credentials` | the email regular expression and password length rule |
| `session.dfy` | `Session` | login, logout, volunteer login / sign-up / logout, the two guards |

Modelling choices:

- **Numbers.** JavaScript numbers are exact `real`s here. `Math.round(x)` is
  `⌊x + 0.5⌋`. A division `current / threshold` yields a `Ratio`, so a zero
  threshold gives Infinity or NaN and the `>=` / `<=` cutoffs then behave as
  in JavaScript (NaN compares false).
- **Composite score.** The weighted score of four sub-scores from
  {20, 40, 60, 80, 100} is always a whole multiple of 4. Rounding it
  therefore changes nothing, and the tier of the rounded score equals the
  tier of the raw one.
- **The handler.** It receives its database answers as parameters: the
  city's events, sorted newest first, of which it keeps five, and the first
  matching profile, or none. As written it never returns a report (see
  "## Findings"): `Prediction.PredictFlood` models that. The report the
  code evidently means to return is `Prediction.IntendedReport`. It also
  takes the soil-wetness reading: failed, path missing, or a series.
- **Unrequired numbers.** A profile's `elevation`, `distanceFromRiver`,
  `populationDensity` and `vegetationCover` values are `Records.NumberField`s:
  missing (`undefined`), `null`, or a number. In JavaScript `undefined <= c`
  is false and arithmetic on it gives NaN, while `null` compares and
  computes as 0. The zones use these comparisons. The derivations accept
  `null` as 0 and require the value not to be missing.
- **Object.values order.** The series is the object's values in key order.
  The keys are `YYYYMMDD` dates, which JavaScript enumerates in ascending
  numeric order, that is chronologically.
- **River basin.** The handler passes the area profile where
  `calculateFloodRisk` reads `characteristics.riverBasin`. The profile
  schema has no such field, so the basin is always absent. Every report is
  therefore scored against the Ganga thresholds (`Prediction.ScoredAgainstGanga`).
- **Level units.** The current level is a discharge divided by 10000. The
  thresholds are raw discharges (10000 and up). The level sub-score thus
  stays at 20 unless the recent mean discharge reaches about 91 million
  m³/s (`Prediction.LevelRiskFloorBelowNinetyMillion`). The model keeps the
  code's scales as they are.

Further facts about the code that the model follows:

- The soil-moisture fallback returns the plain values 75 / 90 / stable,
  with nothing marking them as a fallback.
- The event schema puts no lower bound on `casualties`, `damage` or
  `evacuationCount`. Those fields are unconstrained reals here.
- The zone comments describe distance bands (1–3 km, 3–5 km). The conditions
  themselves have only upper bounds, so a close, low area is listed in
  all three zones.
- The capacity's distance and elevation factors fall as their measurement
  grows. So for discharges up to 100000 m³/s, an area farther from the river
  or higher up never gets a higher capacity
  (`Derivation.CapacityNeverRisesFartherOrHigher`). It therefore never gets
  a lower capacity sub-score (`Prediction.FartherOrHigherNeverLowersCapacityRisk`).
  Rounding can leave both equal.

## Model

| member | source | states |
|---|---|---|
| Common.Round | routes/floodPrediction.js:331-344 | `Math.round` as used by every metric: the result is the integer within half a unit of the argument, ties going up |
| Common.Max | routes/floodPrediction.js:346-358 | `Math.max(...levels)`: the result is one of the values and no value exceeds it |
| Common.MeanAtMostMax | routes/floodPrediction.js:331-358 | an average of discharges never exceeds their maximum, which ties the current-level mean to the danger-level max |
| Common.Divide | routes/floodPrediction.js:199-232 | `current / threshold` is finite exactly when the threshold is non-zero, and then multiplies back to `current` |
| Common.SumAppend | src/services/weatherService.js:63-67 | the left-fold sum distributes over concatenation |
| Records.Trim | models/FloodEvent.js:4-18 | the `trim: true` setter returns a string with no JavaScript whitespace at either end, obtained by removing only whitespace from both ends |
| Records.TrimIdempotent | models/AreaCharacteristic.js:4-18 | trimming a stored name again leaves it unchanged |
| Records.RequiredName | models/FloodEvent.js:4-18 | a required trimmed field is stored exactly when present and non-empty after trimming, and the stored value is the trimmed text |
| Records.FloodEventErrorsSpec | models/FloodEvent.js:3-37 | the validator's set of failing paths is empty exactly for an acceptable event; the month path is in it exactly when the month is missing or outside 1..12, the level path exactly when the level is missing or negative |
| Records.MakeFloodEvent | models/FloodEvent.js:3-57 | an event validates exactly when state, city and area are non-empty after trimming, year is present, month is in 1..12, level ≥ 0 and impact is non-empty; the month and level paths are reported exactly when they violate their bounds; a stored event holds the trimmed names and the submitted year, month, level, impact and affected areas; casualties, damage and evacuations default to 0 |
| Records.AreaProfileErrorsSpec | models/AreaCharacteristic.js:3-53 | the validator's set of failing paths is empty exactly when every name is non-empty after trimming, both enums hold one of their names and the soil type is given |
| Records.MakeAreaProfile | models/AreaCharacteristic.js:3-69 | a profile validates exactly when the names are non-empty after trimming, drainage and urban development are enum members and soil type is non-empty; a stored profile holds the trimmed names, the submitted soil type, the enums read back as the submitted names, and each measurement's submitted value with its unit defaulting to meters / kilometers / per square km / percent; flood-prone defaults to false |
| Records.ParseDrainage | models/AreaCharacteristic.js:33-37 | a drainage value is accepted exactly when it is one of Poor, Moderate, Good, Excellent, and the member it yields carries that name |
| Records.ParseUrban | models/AreaCharacteristic.js:38-42 | an urban-development value is accepted exactly when it is one of Low, Medium, High, and the member it yields carries that name |
| Records.EnumRoundTrip | models/AreaCharacteristic.js:33-42 | every drainage and urban-development member is accepted by its enum validator and read back as itself |
| Records.InsertProfile | models/AreaCharacteristic.js:71-72 | the unique index refuses a profile exactly when its (state, city, area) key is already stored and otherwise appends it; uniqueness of keys is preserved |
| Derivation.CurrentLevelOfNewestThree | routes/floodPrediction.js:331-344 | with three or more events the current level is the rounded sum of the three newest discharges times the drainage factor over 30000, i.e. their mean (not their largest) scaled to level units |
| Derivation.CurrentLevelOnlyRecentThree | routes/floodPrediction.js:331-344 | the current level is decided by the three newest events: older events never change it |
| Derivation.DangerLevel | routes/floodPrediction.js:346-358 | `calculateDangerLevel` is within half a unit of the largest discharge of all events times the flood-prone (1.2 / 1.1) and urban factors over 10000, and is never negative |
| Derivation.DangerLevelOnlyMax | routes/floodPrediction.js:346-358 | the danger level depends on the events only through their largest discharge |
| Derivation.FloodProneNeverLowersDanger | routes/floodPrediction.js:346-358 | a flood-prone area (factor 1.2 against 1.1) never gets a lower danger level, and gets a strictly higher one once the peak discharge reaches 100000 m³/s |
| Derivation.ScaledLevelsOrdered | routes/floodPrediction.js:331-358 | a mean at most the peak, scaled by the drainage factor (at most 1.1), never rounds above the peak scaled by the flood-prone factor (at least 1.1) and the urban factor (at least 1.0) |
| Derivation.CurrentLevel | routes/floodPrediction.js:331-344 | `calculateCurrentLevel` is within half a unit of the mean discharge of the (up to) three newest events times the drainage factor over 10000, and is never negative |
| Derivation.CurrentLevelAtMostDanger | routes/floodPrediction.js:331-358 | for any history and profile the current level never exceeds the danger level |
| Derivation.Rainfall | routes/floodPrediction.js:360-371 | `calculateRainfall` averages `level / 1000` over every event passed in: the current value is within half a unit of that mean times `1 - vegetationCover / 200`, the threshold within half a unit of 1.5 times it and never negative |
| Derivation.RainfallCountsEveryEvent | routes/floodPrediction.js:360-371 | the average runs over every event passed in, not only the newest three: with four events of which only the fourth has a discharge x, the threshold is x × 1.5 / 4000, rounded |
| Derivation.RainfallWithinThreshold | routes/floodPrediction.js:360-371 | with a non-negative vegetation cover the derived rainfall never exceeds its threshold |
| Derivation.BasinCapacity | routes/floodPrediction.js:415-427 | the capacity threshold is always 80, and the current capacity is within half a unit (ties up) of the mean headroom scaled by the mean of 1, the distance factor and the elevation factor, a null measurement counting as 0 |
| Derivation.CapacityNeverRisesFartherOrHigher | routes/floodPrediction.js:415-427 | for discharges of at most 100000 m³/s, a larger distance from the river or a higher elevation never raises the capacity |
| Prediction.FartherOrHigherNeverLowersCapacityRisk | routes/floodPrediction.js:415-427 | for discharges of at most 100000 m³/s, a larger distance from the river or a higher elevation never lowers the capacity sub-score |
| Derivation.SumOfDifferences | routes/floodPrediction.js:403-413 | consecutive differences telescope to last minus first |
| Derivation.TrendOf | routes/floodPrediction.js:403-413 | fewer than two samples give `stable`; with two or more, an increasing trend means the last of the final (up to) three samples is above the first of them, a decreasing one that it is below |
| Derivation.TrendIsNetChange | routes/floodPrediction.js:403-413 | the trend is the net change over the last (up to) three samples divided by their gaps, compared with ±0.1 |
| Derivation.TrendOnlyLastThree | routes/floodPrediction.js:403-413 | samples older than the last three never change the trend |
| Derivation.SoilMoistureFrom | routes/floodPrediction.js:373-401 | a missing series gives the fallback 75 / 90 / stable; otherwise the trend is that of the series, the threshold is the rounded 110% (as a percentage) of a sample no sample exceeds, and with non-negative samples every sample, as a rounded percentage, is within the threshold |
| Derivation.CurrentIsLatestSample | routes/floodPrediction.js:383-390 | the current moisture is the latest sample as a rounded percentage, whatever samples precede it |
| Derivation.MoistureWithinThreshold | routes/floodPrediction.js:373-401 | with non-negative samples the current moisture never exceeds its threshold |
| FourFactor.ThresholdsFor | routes/floodPrediction.js:11-36 | a known basin name gets its own table, a missing or unknown one gets the Ganga table; every table is strictly ascending |
| FourFactor.LevelRisk | routes/floodPrediction.js:190-196 | the level sub-score is 20 plus 20 for each basin threshold reached (`>=`) |
| FourFactor.LevelRiskAtThresholds | routes/floodPrediction.js:190-196 | a level exactly at a threshold is scored in that threshold's tier, one below the lowest is 20 |
| FourFactor.LevelRiskMonotone | routes/floodPrediction.js:190-196 | a higher level never lowers the level sub-score |
| FourFactor.RainfallRisk | routes/floodPrediction.js:199-208 | the rainfall sub-score is 20 plus 20 for each of 0.8, 1.0, 1.2, 1.5 that current/threshold reaches, with JavaScript division by zero |
| FourFactor.RainfallRiskMonotone | routes/floodPrediction.js:199-208 | a higher rainfall ratio never lowers the rainfall sub-score |
| FourFactor.MoistureRisk | routes/floodPrediction.js:211-220 | the moisture sub-score is 20 plus 20 for each of 0.8, 0.85, 0.9, 0.95 that current/threshold reaches |
| FourFactor.MoistureRiskMonotone | routes/floodPrediction.js:211-220 | a higher moisture ratio never lowers the moisture sub-score |
| FourFactor.CapacityRisk | routes/floodPrediction.js:223-232 | the capacity sub-score is 20 plus 20 for each of 0.8, 0.7, 0.6, 0.5 that current/threshold is at or below |
| FourFactor.CapacityRiskAntitone | routes/floodPrediction.js:223-232 | more remaining capacity never raises the capacity sub-score |
| FourFactor.RawScoreIsWholeMultipleOfFour | routes/floodPrediction.js:142-166 | the 0.4/0.2/0.2/0.2 weighted score equals (2·level + rainfall + moisture + capacity)/5, a whole multiple of 4 between 20 and 100 |
| FourFactor.TierOf | routes/floodPrediction.js:165-175 | the tier is severe exactly from 80, high exactly on [60, 80), moderate exactly on [40, 60), low exactly below 40 |
| FourFactor.TierMonotone | routes/floodPrediction.js:165-175 | a higher score never gets a lower tier |
| FourFactor.CalculateFloodRisk | routes/floodPrediction.js:142-187 | the composite holds the four sub-scores of its inputs against the basin's thresholds; 5 × score = 2·level + rainfall + moisture + capacity; the score is a multiple of 4 in [20, 100]; the tier is the tier of the score |
| FourFactor.HigherFactorsNeverLowerTier | routes/floodPrediction.js:142-187 | raising any sub-score never lowers the composite score or its tier |
| Advisory.Recommendations | routes/floodPrediction.js:260-293 | 2 to 6 recommendations: the tier's two fixed ones first, then exactly the warnings of the factors scored 80 or more, in level, rainfall, moisture, capacity order |
| Advisory.SelectedFactorWarnings | routes/floodPrediction.js:278-290 | the warning filter over the four factors keeps a factor's warning exactly when its sub-score is at least 80 |
| Advisory.EvacuationZones | routes/floodPrediction.js:296-328 | zone 1 is listed exactly within 1 km and at most 10 m up, zone 2 exactly within 3 km and at most 20 m up, zone 3 exactly within 5 km, each compared as JavaScript does (a missing value never qualifies, a null one compares as 0); the list is a suffix of [1, 2, 3] |
| Advisory.CloseLowAreaGetsAllZones | routes/floodPrediction.js:296-328 | half a kilometre from the river at 5 m gets all three zones in order |
| Advisory.NullMeasurementsGetAllZones | routes/floodPrediction.js:296-328 | a profile with null distance and elevation gets all three zones; one with a missing distance gets none |
| Advisory.GenerateRiskAssessment | routes/floodPrediction.js:235-257 | zones are present exactly for the high and severe tiers and are then the area's zones; the recommendations are as above |
| Prediction.PredictFlood | routes/floodPrediction.js:39-139 | as written: a missing profile fails with not-found before a missing history does; any found profile with at least one event fails with the 500 of the `catch`, since reading `coordinates.latitude` (line 90) throws |
| Prediction.HandlerNeverReports | routes/floodPrediction.js:85-93 | the handler as written never returns a report |
| Prediction.AsWrittenFailsWhereIntendedReports | routes/floodPrediction.js:39-139 | the handler as written returns the intended handler's failures unchanged and answers 500 exactly where the intended handler returns a report |
| Prediction.IntendedReport | routes/floodPrediction.js:39-139 | intended: a missing profile fails with not-found before a missing history does, and both before a failed soil request; otherwise the report holds the derived metrics of the five newest events, its current level is at most its danger level, and the risk and advice are computed from them with no basin name |
| Prediction.NewestFive | routes/floodPrediction.js:44-50 | `.limit(5)` keeps the first min(5, n) events of the sorted list, in order |
| Prediction.StatusOf | routes/floodPrediction.js:58-72 | the two not-found failures answer 404; only the `catch` (lines 132-137) answers 500 |
| Prediction.OnlyFiveNewestMatter | routes/floodPrediction.js:44-50 | events beyond the five newest never change the intended report |
| Prediction.ScoredAgainstGanga | routes/floodPrediction.js:107-113 | every intended report's level sub-score is the one Ganga's thresholds give its current level |
| Prediction.LevelRiskFloorBelowNinetyMillion | routes/floodPrediction.js:142-196 | when every event's discharge is below 90 million m³/s the level sub-score of the intended report is 20 |
| Prediction.CurrentLevelBelowGangaLow | routes/floodPrediction.js:331-344 | discharges below 90 million m³/s give a current level of at most 9900, under Ganga's lowest threshold |
| SeedExample.SeedReport | scripts/initDb.js:11-79 | the intended report for the seeded Patna data has levels 8 and 12, rainfall 72 of 118, the moisture fallback, capacity 20 of 80, score 40, the moderate tier, the capacity warning and no zones |
| SeedExample.SeedCityAnswered500 | routes/floodPrediction.js:85-93 | the handler as written answers the seeded Patna city with the 500 failure |
| SeedExample.SeedCurrentLevel | routes/floodPrediction.js:331-344 | the seeded events give current level 8 |
| SeedExample.SeedDangerLevel | routes/floodPrediction.js:346-358 | the seeded events give danger level 12 |
| SeedExample.SeedRainfall | routes/floodPrediction.js:360-371 | the seeded events give rainfall 72 with threshold 118 |
| SeedExample.SeedBasinCapacity | routes/floodPrediction.js:415-427 | the seeded events give capacity 20 with threshold 80 |
| SeedExample.SeedScore | routes/floodPrediction.js:142-187 | sub-scores 20, 20, 40, 100 give score 40 and the moderate tier |
| SeedExample.SeedAdvice | routes/floodPrediction.js:235-293 | the moderate seeded report gets the two moderate recommendations, the capacity warning and no zones |
| TwoFactor.Bucket | src/services/riskAssessmentService.js:31-55 | a value's bucket has severity equal to the number of ascending cutoffs it reaches (`>=`) |
| TwoFactor.AssessRainfallRisk | src/services/riskAssessmentService.js:31-40 | rainfall severity counts the cutoffs 50, 100, 150 mm reached |
| TwoFactor.AssessRiverLevelRisk | src/services/riskAssessmentService.js:46-55 | river severity counts the cutoffs 2, 3, 4 m reached |
| TwoFactor.RainfallBoundaries | config/config.js:13-17 | the cutoffs are inclusive: 150 mm is High, 149.9 Medium, 100 Medium, 50 Low, 49.9 Minimal |
| TwoFactor.BucketsMonotone | src/services/riskAssessmentService.js:31-55 | more rain or a higher river never lowers the bucket |
| TwoFactor.LevelOfSeverity | src/services/riskAssessmentService.js:62-75 | the reverse lookup in the severity table returns the level with that severity |
| TwoFactor.OverallRisk | src/services/riskAssessmentService.js:61-80 | without a river bucket the overall level is the rainfall bucket; with one it is one of the two and at least as severe as each |
| TwoFactor.OverallRiskSymmetric | src/services/riskAssessmentService.js:61-80 | the overall level does not depend on which bucket came from the river |
| TwoFactor.AssessRisk | src/services/riskAssessmentService.js:11-25 | the river level is bucketed exactly when present and non-zero; the overall level is the rainfall bucket without it and the more severe bucket with it |
| TwoFactor.ZeroRiverLevelSameAsAbsent | src/services/riskAssessmentService.js:14 | a river level of 0 is treated exactly as a missing one |
| TwoFactor.RainfallOnlyAssessment | src/app.js:83 | the monitoring loop's `assessRisk(rainfall24h)` has no river bucket, and its level is the rainfall bucket |
| HourlyRainfall.Calculate24HourRainfall | src/services/weatherService.js:63-67 | the total is the sum of the `1h` amounts actually reported; no hours gives 0 |
| HourlyRainfall.TotalIsSumOfPresent | src/services/weatherService.js:63-67 | hours without a `rain` object or `1h` amount add nothing to the fold |
| HourlyRainfall.TotalAppend | src/services/weatherService.js:63-67 | totals of consecutive stretches of hours add up |
| HourlyRainfall.TotalPermutationInvariant | src/services/weatherService.js:63-67 | the total does not depend on the order of the hourly records |
| HourlyRainfall.Total | src/services/weatherService.js:63-67 | the `reduce` over the hours: non-negative contributions give a non-negative total |
| Credentials.IndexOf | index.js:61-62 | the first `@` found is an `@` with none before it, and none found means none present |
| Credentials.ValidEmailIffPattern | index.js:61-62 | the computed email test accepts exactly the strings matching `^[a-zA-Z0-9._%+-]+@[a-zA-Z0-9.-]+\.[a-zA-Z]{2,}$` |
| Credentials.PatternDeterminesSplit | index.js:61-62 | a match of the expression is split at the first `@` and the last `.`, and is accepted |
| Credentials.LastIndexOf | index.js:61-62 | the last `.` found is a `.` with none after it, and none found means none present |
| Credentials.FirstAtAfterLocalPart | index.js:61-62 | an `@` preceded only by local-part characters is the first `@` |
| Credentials.LastDotBeforeLetters | index.js:61-62 | a `.` followed only by letters is the last `.` |
| Credentials.AcceptedEmailHasOneAt | index.js:61-62 | an accepted email has exactly one `@`, after a non-empty local part |
| Credentials.ShortPasswordRejected | index.js:62 | a password of fewer than 7 characters is rejected whatever the email |
| Credentials.ValidCredentials | index.js:61-62 | the sign-in gate passes exactly when the email matches the regular expression and the password has at least 7 characters |
| Credentials.TaggedAddressAccepted | index.js:61-62 | `user.name+tag@example.co` is accepted |
| Credentials.EmptyLocalPartRejected | index.js:61-62 | an address starting with `@` is rejected |
| Credentials.TwoAtSignsRejected | index.js:61-62 | an address with two `@` is rejected |
| Credentials.ShortTopLevelDomainRejected | index.js:61-62 | a one-character top-level domain is rejected |
| Session.Login | index.js:56-74 | valid credentials sign the user in with that email and go to `/`; invalid ones leave the session as it was and go back to `/login`; the volunteer part is untouched |
| Session.Logout | index.js:76-79 | the session is destroyed: both flags and both records cleared, redirect to `/login` |
| Session.VolunteerLogin | index.js:116-130 | valid credentials store a volunteer holding only the email; invalid ones change nothing; the user login is untouched |
| Session.VolunteerSignup | index.js:132-152 | valid credentials store the form's names, email, phone and location (never the password); invalid ones change nothing |
| Session.VolunteerLogout | index.js:154-158 | clears the volunteer flag and record and nothing else |
| Session.RequireAuth | index.js:30-36 | a request passes exactly when the user flag is set, else it redirects to `/login` |
| Session.RequireVolunteerAuth | index.js:39-45 | a request passes exactly when the volunteer flag is set, else it redirects to `/volunteer` |
| Session.StepPreservesConsistency | index.js:56-158 | every handler keeps each flag in step with its record and only ever stores emails that passed validation |
| Session.RunPreservesConsistency | index.js:56-158 | any sequence of requests keeps the session consistent |
| Session.SignedInOnlyByAcceptedLogin | index.js:56-74 | starting from a fresh session, a signed-in email is always one that some accepted login request carried |
| Session.VolunteerRequestsKeepUserGate | index.js:116-158 | volunteer requests never change the verdict of the `requireAuth` guard function |
| Session.LogoutClosesBothGates | index.js:76-79 | after a logout both guard functions (`requireAuth`, `requireVolunteerAuth`) redirect |

## Left out

- Database queries, the HTTP framework, template rendering, logging and the
  OpenWeatherMap / NASA POWER requests are not modelled. Their answers are
  parameters of the handler, and a failed soil request is the `Unreachable`
  reading of the intended report. The query's sort by year and month is assumed: `events` arrive
  newest first.
- The JSON shape of responses is abstracted. Left out: the `error` /
  `message` strings, the `timestamp` of the two-factor assessment, the
  score summary fields, and `formatAreaCharacteristics` (pure string
  formatting of the profile).
- IEEE floating point: numbers are exact reals. A decimal such as 0.1 or
  1.1 is its exact value, not the nearest double.
- Derivation.Rainfall, Derivation.BasinCapacity: require the measurements
  they read not to be missing (a `null` one computes as 0). In the code a
  missing value makes the metric NaN. `Prediction.IntendedReport` therefore
  requires a found profile to be `Measured`.
- Derivation.SoilMoistureFrom: requires a series that was read to be
  non-empty. In the code an empty series gives `Math.max()` = -Infinity and
  a NaN current value. Non-numeric samples and the fill value NASA POWER
  uses for missing days are not modelled either.
- The unused average in `calculateSoilMoistureFromNASA` is not modelled: it
  affects no output.
- FourFactor.ThresholdsFor: looks up basin names in a plain map. In the code
  a name inherited from `Object.prototype` (such as `"constructor"`) would
  be truthy and bypass the Ganga fallback. No stored profile carries a
  basin name, so this never arises in the handler.
- Records.MakeFloodEvent: `year` and `month` are integers. Mongoose would
  also accept fractional numbers, and its casting of strings to numbers is
  not modelled. The `createdAt` and `lastUpdated` timestamps are left out
  (clock). An explicit `null` for `casualties`, `damage` or
  `evacuationCount` is not modelled: Mongoose keeps it instead of the 0
  default, and nothing computes with those fields.
- Credentials.ValidCredentials: compares the password's length in Unicode
  characters. JavaScript counts UTF-16 code units, so a password with
  characters outside the Basic Multilingual Plane is measured shorter here
  than in the code. A field missing from the request body is not modelled.
  A missing email is tested as the string "undefined", which fails the
  expression, so the handler redirects without reading the password. A
  missing password with a matching email makes `password.length` throw.
- The `GET /login` redirect for a signed-in user, and the pages that only
  render templates, are not modelled.
- The guard functions `requireAuth` and `requireVolunteerAuth` (index.js:30-45)
  are defined, but no route and no `app.use` in index.js mounts either of
  them. The model states each guard's verdict on a session. It does not
  claim that any page is protected by them.
- `src/app.js` and its monitoring loop are not part of this model, except
  for its call `assessRisk(rainfall24h)` without a river level
  (`TwoFactor.RainfallOnlyAssessment`). `scripts/initDb.js` is not part of
  this model except for its sample data, used as a worked example.

## Findings

| source | as written | input that shows it | evidently intended | confidence | as-written member | corrected member |
|---|---|---|---|---|---|---|
| routes/floodPrediction.js:85-93 | the soil request's parameters read `areaCharacteristics.coordinates.latitude`, but the profile schema (models/AreaCharacteristic.js:3-69) declares no `coordinates` path, so `coordinates` is undefined, the read throws, and the `catch` answers 500 | any city with a stored profile and at least one event, such as the seeded Patna data: answered 500 | the request is made at the area's coordinates and the report is returned | high; not executed | Prediction.PredictFlood, Prediction.HandlerNeverReports, SeedExample.SeedCityAnswered500 | Prediction.IntendedReport, SeedExample.SeedReport |
