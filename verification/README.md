# Useless Shadow calculator — a Dafny model

The Useless Shadow app takes a person's height and unit, a position on Earth,
a compass direction, a shoe brand, a weather choice and a local date and time.
It computes how long the person's shadow is, in feet, in Planck lengths, in
light-years and in horses. It then turns the shadow length into a
pseudo-mystical "soul interpretation".

This project models that core:

- `schema.dfy` (module `Schema`): the input schema `shadowCalculationSchema`, as a
  parser `Parse` from a record of possibly missing fields to a typed record, plus
  the predicate `Valid`. It also holds the shapes of the results record and of
  the interpretation record.
- `shadow_calculations.dfy` (module `ShadowCalculations`): `calculateShadowLength`
  and `getDayOfYear`. The chain is: height in feet, day of the year, clock hour,
  declination, equation of time, standard meridian, local solar time, hour angle,
  altitude, the 5° gate, and the shadow record.
- `soul_interpretations.dfy` (module `SoulInterpretations`): `generateSoulInterpretation`.
  It has three half-open bands of shadow length, a fixed title and three fixed
  traits per band, and a description template per band.
- `js_math.dfy` (module `JsMath`): `Math.abs`, `Math.round`, `Math.PI`. It also
  holds the trigonometric functions, as a parameter record `Trig`, and
  `TrigAxioms`, the only facts about them that the proofs use. These are the
  Pythagorean identity, the range of the principal arcsine, and a positive
  tangent on (0, π/2].
- `js_date.dfy` (module `JsDate`): a wall-clock `Date` on the proleptic Gregorian
  calendar, and the millisecond offsets that `getTime()` differences produce.

Every operation is pure in the source, so every operation here is a function.
Properties about one call are `ensures` clauses. Properties relating several
calls are lemmas.

Where the source hands a value to the host, the model takes it as a parameter:

- `Math.sin`, `Math.cos`, `Math.tan` and `Math.asin` are the record `trig`.
- `Number.prototype.toExponential(2)` is the function `toExponential: real -> string`.
- `Number.prototype.toFixed(2)` is the function `toFixed: real -> string`.
- The parsed local date is a `LocalDateTime`.

## Model

| member | source | states |
|---|---|---|
| `Schema.Parse` | shared/schema.ts:3-13 | accepts exactly the records whose height is a positive number, whose unit, direction, brand and weather are among the listed labels, whose latitude is in [-90, 90] and longitude in [-180, 180] (bounds included), and which have date and time strings; what it accepts is `Valid` and serialises back to the input |
| `Schema.Valid` | shared/schema.ts:3-13 | a typed record is valid (height > 0, latitude in [-90, 90], longitude in [-180, 180]) exactly when the schema accepts its serialisation |
| `Schema.ParseToRaw` | shared/schema.ts:3-13 | every `Valid` record survives serialisation and validation unchanged |
| `Schema.PositiveNumber` | shared/schema.ts:4 | `z.number().positive()` keeps a value iff it is present and strictly positive |
| `Schema.NumberInRange` | shared/schema.ts:6-7 | `min(lo).max(hi)` keeps a value iff it is present and `lo <= v <= hi` |
| `Schema.HeightUnitFromLabel` | shared/schema.ts:5 | a unit is parsed iff the label is one of `ft`, `cm`, `m`, and the parsed unit prints back as that label |
| `Schema.DirectionFromLabel` | shared/schema.ts:8 | a direction is parsed iff the label is one of the eight compass points, and it prints back as that label |
| `Schema.ShoeBrandFromLabel` | shared/schema.ts:9 | a brand is parsed iff the label is one of the eight listed brands (including `New Balance`), and it prints back as that label |
| `Schema.WeatherFromLabel` | shared/schema.ts:10 | a weather value is parsed iff the label is one of `sunny`, `rainy`, `cloudy`, `foggy`, and it prints back as that label |
| `Schema.LabelsRoundTrip` | shared/schema.ts:5-10 | every enumeration value is parsed back from its own label |
| `Schema.MissingWeatherRejected` | shared/schema.ts:10 | a record without a weather value is rejected, whatever else it holds |
| `Schema.DateAndTimeUnconstrained` | shared/schema.ts:11-12 | replacing the date and time by any strings keeps an accepted record accepted |
| `ShadowCalculations.HeightInFeet` | client/src/lib/shadow-calculations.ts:7-12 | a positive height gives a positive height in feet, and zero stays zero |
| `ShadowCalculations.HeightInFeetByUnit` | client/src/lib/shadow-calculations.ts:7-12 | `ft` is kept, `cm` is multiplied by 0.0328084, `m` by 3.28084 |
| `ShadowCalculations.HeightInFeetLinear` | client/src/lib/shadow-calculations.ts:7-12 | the conversion commutes with scaling the height |
| `ShadowCalculations.HundredCentimetresAreOneMetre` | client/src/lib/shadow-calculations.ts:9-11 | 100·h cm and h m give the same height in feet |
| `ShadowCalculations.HeightInFeetMonotone` | client/src/lib/shadow-calculations.ts:7-12 | a greater positive height gives a greater height in feet |
| `ShadowCalculations.GetDayOfYear` | client/src/lib/shadow-calculations.ts:120-124 | the whole days between the start of 31 December of the year before and the date equal the days before the month plus the day of the month, and lie in 1..365, or 1..366 in a leap year |
| `ShadowCalculations.DayOfYearEnds` | client/src/lib/shadow-calculations.ts:120-124 | 1 January is day 1 and 31 December is day 365, or 366 in a Gregorian leap year, at any time of day |
| `ShadowCalculations.DayOfYearNextDay` | client/src/lib/shadow-calculations.ts:120-124 | the next calendar day has the next day number within a year; on 1 January the count restarts at 1, and the day before was the year's last |
| `ShadowCalculations.HourDecimal` | client/src/lib/shadow-calculations.ts:17 | the decimal hour is in [0, 24), and its fraction is the minutes over 60 |
| `ShadowCalculations.DegToRad` | client/src/lib/shadow-calculations.ts:34-36 | the conversion to radians is undone by the `180 / Math.PI` of line 41, and takes (0°, 90°] into (0, π/2] |
| `ShadowCalculations.Declination` | client/src/lib/shadow-calculations.ts:20 | the declination stays within ±23.45° |
| `ShadowCalculations.EquationOfTime` | client/src/lib/shadow-calculations.ts:23-24 | the equation of time stays within ±18.9 minutes |
| `ShadowCalculations.StandardMeridian` | client/src/lib/shadow-calculations.ts:27 | the meridian is a multiple of 15 within (lon − 7.5, lon + 7.5], and lies in [-180, 180] for a valid longitude |
| `JsMath.Round` | client/src/lib/shadow-calculations.ts:27 | `Math.round` gives the integer within (x − 0.5, x + 0.5] |
| `ShadowCalculations.LongitudeCorrection` | client/src/lib/shadow-calculations.ts:28 | four minutes per degree of meridian offset make a correction in (-0.5, 0.5] hours |
| `ShadowCalculations.LocalSolarTime` | client/src/lib/shadow-calculations.ts:28 | with an equation of time within its ±18.9-minute bound, local solar time is within 0.815 hours of the clock |
| `ShadowCalculations.HourAngle` | client/src/lib/shadow-calculations.ts:31 | the hour angle is zero exactly at local solar noon, and positive exactly after it |
| `ShadowCalculations.HourAnglePerHour` | client/src/lib/shadow-calculations.ts:31 | the hour angle changes by 15° per hour |
| `ShadowCalculations.UnitCombination` | client/src/lib/shadow-calculations.ts:39-40 | sin·sin + cos·cos·c lies in [-1, 1] for two points on the unit circle and a cosine c in [-1, 1] |
| `ShadowCalculations.SinAltitude` | client/src/lib/shadow-calculations.ts:39-40 | the argument handed to `Math.asin` is always inside its domain [-1, 1] |
| `ShadowCalculations.SunAltitude` | client/src/lib/shadow-calculations.ts:15-41 | the altitude computed from the position and the local date and time is between -90° and 90° |
| `ShadowCalculations.ShadowAngleTangent` | client/src/lib/shadow-calculations.ts:44-58 | above the 5° gate and up to 90° the tangent of the altitude is positive, so the division is defined |
| `ShadowCalculations.ShadowFromAltitude` | client/src/lib/shadow-calculations.ts:44-72 | the altitude is reported in both branches; there is a shadow iff the altitude is above 5° (5° itself gives none); without one the record is all zeros with `"0"` strings; feet and horses are never negative |
| `ShadowCalculations.ShadowBranch` | client/src/lib/shadow-calculations.ts:57-72 | above the gate, feet = \|height / tan α\| and horses × 8 = feet; for a positive height the absolute value changes nothing, feet × tan α = height, and the Planck and light-year strings format the shadow in metres over those lengths |
| `ShadowCalculations.CalculateShadowLength` | client/src/lib/shadow-calculations.ts:3-73 | the record reports the altitude computed from the position and local time, which lies in [-90, 90], and is the gate applied to the height in feet at that altitude |
| `ShadowCalculations.CalculateShadowLengthGate` | client/src/lib/shadow-calculations.ts:44-72 | for any input: a shadow iff the altitude is above 5°; otherwise the all-zero record; feet, horses ≥ 0 and horses × 8 = feet |
| `ShadowCalculations.CalculateShadowLengthShadow` | client/src/lib/shadow-calculations.ts:57-72 | when there is a shadow: the tangent is positive and feet = \|height in feet / tan α\|; for a valid input the shadow is positive, times the tangent gives back the height, and the unit strings are its conversions |
| `ShadowCalculations.NoShadowAtThreshold` | client/src/lib/shadow-calculations.ts:44-55 | at exactly 5° there is no shadow, and feet and horses are 0 |
| `ShadowCalculations.ScaledQuotient` | client/src/lib/shadow-calculations.ts:58-69 | with the same tangent, heights in the ratio k give feet and horses in the ratio k |
| `ShadowCalculations.ShadowFromAltitudeScales` | client/src/lib/shadow-calculations.ts:44-72 | at a fixed altitude, feet and horses scale linearly with the height in feet, and the gate does not move |
| `ShadowCalculations.HeightScalesAtAltitude` | client/src/lib/shadow-calculations.ts:7-72 | the same, for a height in any unit |
| `ShadowCalculations.SunIgnoresHeight` | client/src/lib/shadow-calculations.ts:3-73 | changing the height leaves the altitude alone: the new record is the gate applied to the new height at the old altitude |
| `ShadowCalculations.ShadowScalesWithHeight` | client/src/lib/shadow-calculations.ts:3-73 | scaling the input height by k > 0 keeps the altitude and the gate and scales feet and horses by k |
| `ShadowCalculations.ShadowFromAltitudeMonotone` | client/src/lib/shadow-calculations.ts:58-66 | above the gate, a greater positive height in feet gives a strictly longer shadow |
| `ShadowCalculations.TallerCastsLonger` | client/src/lib/shadow-calculations.ts:3-73 | for a valid input that casts a shadow, a taller person at the same place and time casts a strictly longer one |
| `SoulInterpretations.BandOf` | client/src/lib/shadow-calculations.ts:87-104 | Focused iff feet < 2, Balanced iff 2 ≤ feet < 5, Profound iff feet ≥ 5 |
| `SoulInterpretations.BandOfMonotone` | client/src/lib/shadow-calculations.ts:87-104 | a longer shadow never falls in an earlier band |
| `SoulInterpretations.BandBoundaries` | client/src/lib/shadow-calculations.ts:87-104 | exactly 2 and exactly 5 fall into the higher band |
| `SoulInterpretations.Title` | client/src/lib/shadow-calculations.ts:88-104 | each band has its own title, and each of the three titles belongs to exactly one band |
| `SoulInterpretations.Traits` | client/src/lib/shadow-calculations.ts:90-110 | three traits per band, named Directness/Clarity/Presence, Balance/Wisdom/Growth or Vision/Influence/Depth, with the band's three fixed descriptions and icons arrow-right/eye/circle, scale/book/trending-up or telescope/ripple/layers |
| `SoulInterpretations.BandsDistinguished` | client/src/lib/shadow-calculations.ts:87-110 | no two bands share a title or an icon list |
| `SoulInterpretations.ToLower` | client/src/lib/shadow-calculations.ts:97 | lower-casing keeps the length, maps each character to its lower-case form (an ASCII capital to the letter 32 code points on, anything else to itself) and leaves no upper-case ASCII letter |
| `SoulInterpretations.ToLowerIdempotent` | client/src/lib/shadow-calculations.ts:97 | lower-casing twice is lower-casing once |
| `SoulInterpretations.LowerDirectionLabelIsLowered` | client/src/lib/shadow-calculations.ts:97 | a lower-cased direction label is its lower-case spelling |
| `SoulInterpretations.LowerDirectionLabelInjective` | client/src/lib/shadow-calculations.ts:97 | no two directions share a lower-case spelling |
| `SoulInterpretations.PartIsInfix` | client/src/lib/shadow-calculations.ts:87-111 | every piece of a template literal occurs in the resulting text |
| `SoulInterpretations.FocusedDescription` | client/src/lib/shadow-calculations.ts:89 | the first template contains the formatted length and the shoe brand |
| `SoulInterpretations.BalancedDescription` | client/src/lib/shadow-calculations.ts:97 | the middle template contains the formatted length, the direction and the shoe brand |
| `SoulInterpretations.ProfoundDescription` | client/src/lib/shadow-calculations.ts:105 | the last template contains the formatted length and the shoe brand |
| `SoulInterpretations.Description` | client/src/lib/shadow-calculations.ts:87-105 | every band's text contains the formatted length and the brand, and the middle band's text also contains the direction |
| `SoulInterpretations.GenerateSoulInterpretation` | client/src/lib/shadow-calculations.ts:75-118 | three traits; the title, trait names, trait descriptions and icons of the band that `results.feet` falls in; a description containing `toFixed(feet)` and the brand label and, in the middle band, the lower-cased direction |
| `SoulInterpretations.ReadingDependsOnlyOnFeet` | client/src/lib/shadow-calculations.ts:80 | two results records with the same `feet` give the same reading |
| `SoulInterpretations.SameBandSameTraits` | client/src/lib/shadow-calculations.ts:87-117 | two readings whose lengths fall in the same band have the same title and the same traits, whatever the inputs |
| `SoulInterpretations.ReadingIgnoresOtherInputs` | client/src/lib/shadow-calculations.ts:79 | of the input only the brand matters, plus the direction in the middle band; height, position, weather, date and time never do |
| `SoulInterpretations.BalancedReadingNamesDirection` | client/src/lib/shadow-calculations.ts:96-97 | in the middle band the reading names whichever direction the input faces, lower-cased |
| `SoulInterpretations.NoShadowIsFocused` | client/src/lib/shadow-calculations.ts:87-88 | a no-shadow record (length 0) reads as "The Focused Soul" |
| `JsMath.Abs` | client/src/lib/shadow-calculations.ts:66-69 | `Math.abs` is non-negative and equals x or −x |
| `JsMath.SinCosBounded` | client/src/lib/shadow-calculations.ts:20-24 | under the trigonometric assumptions, sine and cosine lie in [-1, 1] |
| `JsDate.DaysInMonth` | client/src/lib/shadow-calculations.ts:120-124 | months have 28 to 31 days, and 29 exactly in February of a leap year |
| `JsDate.DaysBeforeMonthEnd` | client/src/lib/shadow-calculations.ts:120-124 | the twelve months add up to 365 or 366 days |
| `JsDate.DaysBeforeMonthMonotone` | client/src/lib/shadow-calculations.ts:120-124 | each later month starts at least 28 days later |
| `JsDate.NextDay` | client/src/lib/shadow-calculations.ts:120-124 | the next day keeps the time of day and stays in the year, or is 1 January of the next |

## Left out

- Numeric trigonometry: `Math.sin`, `Math.cos`, `Math.tan` and `Math.asin` are not computed. They are the parameter `trig`, constrained only by `TrigAxioms`: the Pythagorean identity, an arcsine in [-π/2, π/2] on [-1, 1], and a positive tangent on (0, π/2]. No concrete altitude, declination or equation-of-time value is proved. `TrigAxiomsSatisfiable` shows that the assumptions are consistent.
- `ShadowCalculations.CalculateShadowLength`: requires `TrigAxioms(trig)`, as do `Declination`, `EquationOfTime`, `SinAltitude` and `SunAltitude`. This is an assumption about the host's maths library, not a demand on callers of `calculateShadowLength`.
- IEEE doubles: arithmetic is on mathematical reals. Rounding, overflow and NaN are not modelled. An unparseable date gives NaN in the source, so `altitude > 5` is false and the all-zero record is returned. That path is not modelled.
- Number formatting: `toExponential(2)` and `toFixed(2)` are the opaque parameters `toExponential` and `toFixed`.
- `ShadowCalculations.CalculateShadowLengthShadow`: the Planck and light-year strings are stated only for a positive height. The source formats the signed raw length, which equals `feet` when the height is positive, as every valid input's is.
- Parsing `new Date(`${date}T${time}`)` in host local time, and daylight-saving shifts: the model takes the parsed wall-clock reading as a `LocalDateTime`. Its timeline has 24-hour days, so `getDayOfYear`'s `Math.floor(diff / msPerDay)` is exact. A daylight-saving transition between 1 January and the date is not modelled.
- `ShadowCalculations.GetDayOfYear`, `ShadowCalculations.DayOfYearEnds` and `ShadowCalculations.DayOfYearNextDay`: the `Date` constructor reads years 0 to 99 as 1900 to 1999, so for such a year `new Date(year, 0, 0)` (line 121 of `client/src/lib/shadow-calculations.ts`) starts the count in the twentieth century and the source returns a large negative day number. The model counts from 31 December of the year itself and does not model that rule. Years outside the range a `Date` can hold, where the source computes with NaN, are not modelled either; `LocalDateTime` has an unbounded year.
- `SoulInterpretations.ToLower`: lower-cases ASCII letters only. `String.prototype.toLowerCase` covers all of Unicode, but it is only applied to the ASCII direction labels.
- `SoulInterpretations.GenerateSoulInterpretation`: states that the description contains the formatted length, the brand and, in the middle band, the direction. The full sentence of each band is the body of `FocusedDescription`, `BalancedDescription` and `ProfoundDescription`; it is not restated as a contract.
- `weatherDataSchema` (shared/schema.ts:15-21) is not part of the core calculation. It is used only by the weather proxy.
- zod's issue lists and error messages: `Parse` returns only success or failure.
- UI components, the display-only `min(feet * 15, 180)` width and the icon switch that renders only some of the trait icons are not part of this model.
- The network proxies in `server/routes.ts` and `client/src/lib/weather-api.ts` are I/O and are not part of this model.
