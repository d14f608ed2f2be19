/** `calculateShadowLength` and `getDayOfYear`: from a height, a position and a
    local date and time to the sun's altitude and the length of the shadow,
    with its whimsical unit conversions. */
module ShadowCalculations {
  import opened JsMath
  import opened JsDate
  import opened Schema

  const CmToFeet: real := 0.0328084
  const MToFeet: real := 3.28084
  /** Below or at this altitude (degrees) no shadow is reported. */
  const MinShadowAltitude: real := 5.0
  const FeetToMeters: real := 0.3048
  const PlanckLengthMeters: real := 1.616e-35
  const LightYearMeters: real := 9.461e15
  /** A horse is taken to be eight feet long. */
  const HorseLengthFeet: real := 8.0

  // ----- height -----

  /** The height converted to feet. */
  function HeightInFeet(height: real, unit: HeightUnit): (r: real)
    ensures height > 0.0 ==> r > 0.0
    ensures height == 0.0 ==> r == 0.0
  {
    match unit
    case Ft => height
    case Cm => height * CmToFeet
    case M => height * MToFeet
  }

  /** Feet are kept, centimetres and metres are scaled by their factors. */
  lemma HeightInFeetByUnit(height: real)
    ensures HeightInFeet(height, Ft) == height
    ensures HeightInFeet(height, Cm) == height * 0.0328084
    ensures HeightInFeet(height, M) == height * 3.28084
  {
  }

  /** The conversion is linear in the height. */
  lemma HeightInFeetLinear(k: real, height: real, scaled: real, unit: HeightUnit)
    requires scaled == k * height
    ensures HeightInFeet(scaled, unit) == k * HeightInFeet(height, unit)
  {
  }

  /** The two metric factors agree: a hundred centimetres are one metre. */
  lemma HundredCentimetresAreOneMetre(height: real)
    ensures HeightInFeet(100.0 * height, Cm) == HeightInFeet(height, M)
  {
  }

  // ----- date and time -----

  /** Whole days in a span of milliseconds that ends within a day's remainder. */
  lemma WholeDays(days: int, rem: int)
    requires 0 <= rem < MsPerDay
    ensures (days * MsPerDay + rem) / MsPerDay == days
  {
  }

  /** The day of the year, 1 January being day 1: whole days elapsed since
      the start of 31 December of the previous year (`new Date(year, 0, 0)`). */
  function GetDayOfYear(date: LocalDateTime): (r: int)
    ensures r == DaysBeforeMonth(date.year, date.month) + date.day
    ensures 1 <= r <= DaysInYear(date.year)
  {
    var start := YearOffsetMs(date.year, 1, 0, 0, 0);
    var now := YearOffsetMs(date.year, date.month, date.day, date.hours, date.minutes);
    var diff := now - start;
    var days := DaysBeforeMonth(date.year, date.month) + date.day;
    var rem := (date.hours * 60 + date.minutes) * MsPerMinute;
    assert diff == days * MsPerDay + rem;
    WholeDays(days, rem);
    DaysBeforeMonthMonotone(date.year, 1, date.month);
    DaysBeforeMonthMonotone(date.year, date.month + 1, 13);
    DaysBeforeMonthEnd(date.year);
    diff / MsPerDay
  }

  /** 1 January is day 1, 31 December is day 365 or, in a leap year, 366. */
  lemma DayOfYearEnds(year: int, hours: int, minutes: int)
    requires 0 <= hours < 24 && 0 <= minutes < 60
    ensures GetDayOfYear(DateTime(year, 1, 1, hours, minutes)) == 1
    ensures GetDayOfYear(DateTime(year, 12, 31, hours, minutes)) == if IsLeapYear(year) then 366 else 365
  {
    DaysBeforeMonthEnd(year);
  }

  /** Consecutive calendar days have consecutive day numbers, and the count
      starts again at 1 on the first day of a new year. */
  lemma {:induction false} DayOfYearNextDay(t: LocalDateTime)
    ensures NextDay(t).year == t.year ==> GetDayOfYear(NextDay(t)) == GetDayOfYear(t) + 1
    ensures NextDay(t).year != t.year ==>
      GetDayOfYear(NextDay(t)) == 1 && GetDayOfYear(t) == DaysInYear(t.year)
  {
    if t.day == DaysInMonth(t.year, t.month) && t.month == 12 {
      DaysBeforeMonthEnd(t.year);
    }
  }

  /** The clock time as a decimal hour (`getHours() + getMinutes() / 60`). */
  function HourDecimal(date: LocalDateTime): (r: real)
    ensures 0.0 <= r < 24.0
    ensures r - date.hours as real == date.minutes as real / 60.0
  {
    date.hours as real + date.minutes as real / 60.0
  }

  // ----- solar geometry -----

  /** Degrees to radians; undone by the `180 / Math.PI` of the altitude, and
      taking (0, 90] degrees into (0, PI/2]. */
  function DegToRad(degrees: real): (radians: real)
    ensures radians * (180.0 / PI) == degrees
    ensures 0.0 < degrees <= 90.0 ==> 0.0 < radians <= PI / 2.0
  {
    degrees * (PI / 180.0)
  }

  /** Solar declination in degrees: it stays within the tropics. */
  function Declination(dayOfYear: int, trig: Trig): (declination: real)
    requires TrigAxioms(trig)
    ensures -23.45 <= declination <= 23.45
  {
    var angle := (360.0 / 365.0) * (dayOfYear as real + 10.0) * (PI / 180.0);
    SinCosBounded(trig, angle);
    -23.45 * trig.cos(angle)
  }

  /** The equation of time, in minutes: it moves the clock by less than 19 minutes. */
  function EquationOfTime(dayOfYear: int, trig: Trig): (minutes: real)
    requires TrigAxioms(trig)
    ensures -18.9 <= minutes <= 18.9
  {
    var b := (360.0 / 365.0) * (dayOfYear as real - 81.0) * (PI / 180.0);
    SinCosBounded(trig, b);
    SinCosBounded(trig, 2.0 * b);
    9.87 * trig.sin(2.0 * b) - 7.53 * trig.cos(b) - 1.5 * trig.sin(b)
  }

  /** The simplified time-zone meridian: the nearest multiple of 15 degrees
      (not a real time-zone lookup). */
  function StandardMeridian(longitude: real): (meridian: int)
    ensures meridian % 15 == 0
    ensures longitude - 7.5 < meridian as real <= longitude + 7.5
    ensures -180.0 <= longitude <= 180.0 ==> -180 <= meridian <= 180
  {
    Round(longitude / 15.0) * 15
  }

  /** The longitude correction in hours: four minutes per degree between the
      meridian and the position. */
  function LongitudeCorrection(longitude: real): (hours: real)
    ensures -0.5 < hours <= 0.5
  {
    4.0 * (StandardMeridian(longitude) as real - longitude) / 60.0
  }

  /** Local solar time in decimal hours: the clock shifted by the equation of
      time and the longitude correction, so within 0.815 hours of the clock
      for an equation of time within its bound. */
  function LocalSolarTime(hourDecimal: real, equationOfTime: real, longitude: real): (solarTime: real)
    ensures -18.9 <= equationOfTime <= 18.9 ==> -0.815 < solarTime - hourDecimal <= 0.815
  {
    hourDecimal + equationOfTime / 60.0 + LongitudeCorrection(longitude)
  }

  /** The hour angle in degrees: zero at local solar noon, positive after it. */
  function HourAngle(localSolarTime: real): (angle: real)
    ensures angle == 0.0 <==> localSolarTime == 12.0
    ensures angle > 0.0 <==> localSolarTime > 12.0
  {
    15.0 * (localSolarTime - 12.0)
  }

  /** The hour angle turns by 15 degrees per hour. */
  lemma HourAnglePerHour(localSolarTime: real, hours: real)
    ensures HourAngle(localSolarTime + hours) == HourAngle(localSolarTime) + 15.0 * hours
  {
  }

  lemma MulNonNegative(x: real, y: real)
    requires x >= 0.0 && y >= 0.0
    ensures x * y >= 0.0
  {
  }

  lemma SquareNonNegative(x: real)
    ensures x * x >= 0.0
  {
    if x < 0.0 {
      assert x * x == (-x) * (-x);
    }
  }

  /** q^2 e^2 <= q^2 when |e| <= 1. */
  lemma SquareShrinks(q: real, e: real, w: real)
    requires -1.0 <= e <= 1.0 && w == q * e
    ensures w * w <= q * q
  {
    MulNonNegative(1.0 - e, 1.0 + e);
    SquareNonNegative(q);
    MulNonNegative(q * q, 1.0 - e * e);
    assert w * w == q * q * (e * e);
  }

  /** The Cauchy-Schwarz inequality in the plane. */
  lemma CauchySchwarz(a: real, b: real, c: real, w: real)
    ensures (a * c + b * w) * (a * c + b * w) <= (a * a + b * b) * (c * c + w * w)
  {
    SquareNonNegative(a * w - b * c);
    assert (a * a + b * b) * (c * c + w * w) - (a * c + b * w) * (a * c + b * w)
        == (a * w - b * c) * (a * w - b * c);
  }

  /** Multiplying by a factor equal to one. */
  lemma TimesOne(x: real, y: real)
    requires x == 1.0
    ensures x * y == y
  {
  }

  /** For two unit vectors (a, b), (c, d) and |e| <= 1, a*c + b*d*e is in [-1, 1]. */
  lemma {:induction false} UnitCombination(a: real, b: real, c: real, d: real, e: real)
    requires a * a + b * b == 1.0 && c * c + d * d == 1.0
    requires -1.0 <= e <= 1.0
    ensures -1.0 <= a * c + b * d * e <= 1.0
  {
    var w := d * e;
    SquareShrinks(d, e, w);
    CauchySchwarz(a, b, c, w);
    TimesOne(a * a + b * b, c * c + w * w);
    assert c * c + w * w <= 1.0;
    assert (a * c + b * w) * (a * c + b * w) <= c * c + w * w;
    assert b * d * e == b * w;
    UnitSquare(a * c + b * w);
  }

  /** The sine of the sun's altitude: always inside the domain of the arcsine. */
  function SinAltitude(latitude: real, declination: real, hourAngle: real, trig: Trig): (sinAltitude: real)
    requires TrigAxioms(trig)
    ensures -1.0 <= sinAltitude <= 1.0
  {
    var latRad, decRad, hourAngleRad := DegToRad(latitude), DegToRad(declination), DegToRad(hourAngle);
    SinCosBounded(trig, hourAngleRad);
    assert UnitCircleAt(trig, latRad) && UnitCircleAt(trig, decRad);
    UnitCombination(trig.sin(latRad), trig.cos(latRad), trig.sin(decRad), trig.cos(decRad), trig.cos(hourAngleRad));
    trig.sin(latRad) * trig.sin(decRad) + trig.cos(latRad) * trig.cos(decRad) * trig.cos(hourAngleRad)
  }

  /** The sun's altitude in degrees (negative below the horizon): between the
      nadir and the zenith. */
  function SunAltitude(latitude: real, longitude: real, date: LocalDateTime, trig: Trig): (altitude: real)
    requires TrigAxioms(trig)
    ensures -90.0 <= altitude <= 90.0
  {
    var dayOfYear := GetDayOfYear(date);
    var declination := Declination(dayOfYear, trig);
    var equationOfTime := EquationOfTime(dayOfYear, trig);
    var localSolarTime := LocalSolarTime(HourDecimal(date), equationOfTime, longitude);
    var hourAngle := HourAngle(localSolarTime);
    var sinAltitude := SinAltitude(latitude, declination, hourAngle, trig);
    assert ArcsineRangeAt(trig, sinAltitude);
    trig.asin(sinAltitude) * (180.0 / PI)
  }

  /** Above the threshold and up to the zenith the tangent is positive. */
  lemma ShadowAngleTangent(altitude: real, trig: Trig)
    requires TrigAxioms(trig)
    requires MinShadowAltitude < altitude <= 90.0
    ensures trig.tan(DegToRad(altitude)) > 0.0
  {
    assert 0.0 < DegToRad(altitude) <= PI / 2.0;
    assert TangentPositiveAt(trig, DegToRad(altitude));
  }

  // ----- calculateShadowLength -----

  /** Division by a positive tangent, and the horse conversion. */
  lemma ShadowArithmetic(heightInFeet: real, tan: real)
    requires tan > 0.0
    ensures Abs(heightInFeet / tan / HorseLengthFeet) * HorseLengthFeet == Abs(heightInFeet / tan)
    ensures heightInFeet > 0.0 ==> heightInFeet / tan > 0.0 && heightInFeet / tan * tan == heightInFeet
  {
  }

  /** The record built from the height in feet and the sun's altitude: the
      no-shadow gate and the shadow branch. */
  function ShadowFromAltitude(heightInFeet: real, altitude: real, trig: Trig,
                              toExponential: real -> string): (r: ShadowResults)
    requires TrigAxioms(trig) && altitude <= 90.0
    ensures r.sunAltitude == altitude
    ensures r.shadowExists <==> altitude > MinShadowAltitude
    ensures !r.shadowExists ==> r.feet == 0.0 && r.horses == 0.0 && r.planck == "0" && r.lightYears == "0"
    ensures r.feet >= 0.0 && r.horses >= 0.0
  {
    if !(altitude > MinShadowAltitude) then
      ShadowResults(0.0, "0", "0", 0.0, altitude, false)
    else
      var tan := trig.tan(DegToRad(altitude));
      ShadowAngleTangent(altitude, trig);
      ShadowArithmetic(heightInFeet, tan);
      var shadowLengthFeet := heightInFeet / tan;
      var meters := shadowLengthFeet * FeetToMeters;
      ShadowResults(
        Abs(shadowLengthFeet),
        toExponential(meters / PlanckLengthMeters),
        toExponential(meters / LightYearMeters),
        Abs(shadowLengthFeet / HorseLengthFeet),
        altitude,
        true)
  }

  /** Above the threshold: the shadow is the height over the tangent of the
      altitude (in absolute value), the horses are an eighth of it, and for a
      positive height the shadow is positive and its tiny and astronomical
      readings are the shadow in metres over the Planck length and the light-year. */
  lemma ShadowBranch(heightInFeet: real, altitude: real, trig: Trig, toExponential: real -> string,
                     r: ShadowResults)
    requires TrigAxioms(trig) && MinShadowAltitude < altitude <= 90.0
    requires r == ShadowFromAltitude(heightInFeet, altitude, trig, toExponential)
    ensures trig.tan(DegToRad(altitude)) > 0.0
    ensures r.feet == Abs(heightInFeet / trig.tan(DegToRad(altitude)))
    ensures r.horses * HorseLengthFeet == r.feet
    ensures heightInFeet > 0.0 ==>
      && r.feet == heightInFeet / trig.tan(DegToRad(altitude))
      && r.feet > 0.0
      && r.feet * trig.tan(DegToRad(altitude)) == heightInFeet
      && r.planck == toExponential(r.feet * FeetToMeters / PlanckLengthMeters)
      && r.lightYears == toExponential(r.feet * FeetToMeters / LightYearMeters)
  {
    ShadowAngleTangent(altitude, trig);
    ShadowArithmetic(heightInFeet, trig.tan(DegToRad(altitude)));
  }

  /** The shadow-length record for a validated input read at the local date
      and time `date`. `toExponential` is `Number.prototype.toExponential(2)`. */
  function CalculateShadowLength(data: ShadowCalculation, date: LocalDateTime, trig: Trig,
                                 toExponential: real -> string): (r: ShadowResults)
    requires TrigAxioms(trig)
    ensures r.sunAltitude == SunAltitude(data.latitude, data.longitude, date, trig)
    ensures -90.0 <= r.sunAltitude <= 90.0
    ensures r == ShadowFromAltitude(HeightInFeet(data.height, data.heightUnit), r.sunAltitude, trig, toExponential)
  {
    var heightInFeet := HeightInFeet(data.height, data.heightUnit);
    var altitude := SunAltitude(data.latitude, data.longitude, date, trig);
    ShadowFromAltitude(heightInFeet, altitude, trig, toExponential)
  }

  /** What a caller of the calculation sees: the inclusive gate, the all-zero
      record below it, and lengths that are never negative, in a fixed ratio
      to the horses. */
  lemma CalculateShadowLengthGate(data: ShadowCalculation, date: LocalDateTime, trig: Trig,
                                  toExponential: real -> string, r: ShadowResults)
    requires TrigAxioms(trig)
    requires r == CalculateShadowLength(data, date, trig, toExponential)
    ensures r.shadowExists <==> r.sunAltitude > MinShadowAltitude
    ensures !r.shadowExists ==> r.feet == 0.0 && r.horses == 0.0 && r.planck == "0" && r.lightYears == "0"
    ensures r.feet >= 0.0 && r.horses >= 0.0 && r.horses * HorseLengthFeet == r.feet
  {
    if r.shadowExists {
      ShadowBranch(HeightInFeet(data.height, data.heightUnit), r.sunAltitude, trig, toExponential, r);
    }
  }

  /** When there is a shadow: it is the height in feet over the tangent of the
      altitude and, for a valid input, positive, with its length times the
      tangent giving back the height. */
  lemma CalculateShadowLengthShadow(data: ShadowCalculation, date: LocalDateTime, trig: Trig,
                                    toExponential: real -> string, r: ShadowResults)
    requires TrigAxioms(trig)
    requires r == CalculateShadowLength(data, date, trig, toExponential) && r.shadowExists
    ensures trig.tan(DegToRad(r.sunAltitude)) > 0.0
    ensures r.feet == Abs(HeightInFeet(data.height, data.heightUnit) / trig.tan(DegToRad(r.sunAltitude)))
    ensures Valid(data) ==>
      && r.feet > 0.0
      && r.feet * trig.tan(DegToRad(r.sunAltitude)) == HeightInFeet(data.height, data.heightUnit)
      && r.planck == toExponential(r.feet * FeetToMeters / PlanckLengthMeters)
      && r.lightYears == toExponential(r.feet * FeetToMeters / LightYearMeters)
  {
    ShadowBranch(HeightInFeet(data.height, data.heightUnit), r.sunAltitude, trig, toExponential, r);
  }

  /** Two shadow records computed with the same tangent from heights in the
      ratio k are in the ratio k. */
  lemma ScaledQuotient(h: real, scaled: real, k: real, tan: real, r1: ShadowResults, r2: ShadowResults)
    requires tan > 0.0 && k > 0.0 && scaled == k * h
    requires r1.feet == Abs(h / tan) && r1.horses == Abs(h / tan / HorseLengthFeet)
    requires r2.feet == Abs(scaled / tan) && r2.horses == Abs(scaled / tan / HorseLengthFeet)
    ensures r2.feet == k * r1.feet && r2.horses == k * r1.horses
  {
    var q := h / tan;
    assert scaled / tan == k * q;
    assert scaled / tan / HorseLengthFeet == k * (q / HorseLengthFeet);
    if q < 0.0 {
      MulNonNegative(k, -q);
    } else {
      MulNonNegative(k, q);
    }
  }

  /** Scaling the height in feet by k scales the shadow and the horses by k
      and leaves the gate as it was. */
  lemma ShadowFromAltitudeScales(heightInFeet: real, scaled: real, k: real, altitude: real, trig: Trig,
                                 toExponential: real -> string, r1: ShadowResults, r2: ShadowResults)
    requires TrigAxioms(trig) && altitude <= 90.0 && k > 0.0 && scaled == k * heightInFeet
    requires r1 == ShadowFromAltitude(heightInFeet, altitude, trig, toExponential)
    requires r2 == ShadowFromAltitude(scaled, altitude, trig, toExponential)
    ensures r2.shadowExists == r1.shadowExists
    ensures r2.feet == k * r1.feet && r2.horses == k * r1.horses
  {
    if altitude > MinShadowAltitude {
      ShadowAngleTangent(altitude, trig);
      ScaledQuotient(heightInFeet, scaled, k, trig.tan(DegToRad(altitude)), r1, r2);
    }
  }

  /** The height plays no part in the sun's position: the calculation with a
      changed height is the gate applied to the new height at the same altitude. */
  lemma SunIgnoresHeight(data: ShadowCalculation, height: real, date: LocalDateTime,
                         trig: Trig, toExponential: real -> string)
    requires TrigAxioms(trig)
    ensures CalculateShadowLength(data.(height := height), date, trig, toExponential)
         == ShadowFromAltitude(HeightInFeet(height, data.heightUnit),
                               CalculateShadowLength(data, date, trig, toExponential).sunAltitude,
                               trig, toExponential)
  {
  }

  /** At a fixed altitude, scaling the height (in any unit) by k scales the
      shadow and the horses by k. */
  lemma HeightScalesAtAltitude(height: real, scaled: real, k: real, unit: HeightUnit, altitude: real,
                               trig: Trig, toExponential: real -> string, r1: ShadowResults, r2: ShadowResults)
    requires TrigAxioms(trig) && altitude <= 90.0 && k > 0.0 && scaled == k * height
    requires r1 == ShadowFromAltitude(HeightInFeet(height, unit), altitude, trig, toExponential)
    requires r2 == ShadowFromAltitude(HeightInFeet(scaled, unit), altitude, trig, toExponential)
    ensures r2.shadowExists == r1.shadowExists
    ensures r2.feet == k * r1.feet && r2.horses == k * r1.horses
  {
    HeightInFeetLinear(k, height, scaled, unit);
    ShadowFromAltitudeScales(HeightInFeet(height, unit), HeightInFeet(scaled, unit), k, altitude,
                             trig, toExponential, r1, r2);
  }

  /** Scaling the height by k scales the shadow (and the horses) by k and
      leaves the sun where it was. */
  lemma ShadowScalesWithHeight(data: ShadowCalculation, k: real, scaled: real, date: LocalDateTime,
                               trig: Trig, toExponential: real -> string, r1: ShadowResults, r2: ShadowResults)
    requires TrigAxioms(trig) && k > 0.0 && scaled == k * data.height
    requires r1 == CalculateShadowLength(data, date, trig, toExponential)
    requires r2 == CalculateShadowLength(data.(height := scaled), date, trig, toExponential)
    ensures r2.sunAltitude == r1.sunAltitude
    ensures r2.shadowExists == r1.shadowExists
    ensures r2.feet == k * r1.feet && r2.horses == k * r1.horses
  {
    SunIgnoresHeight(data, scaled, date, trig, toExponential);
    HeightScalesAtAltitude(data.height, scaled, k, data.heightUnit, r1.sunAltitude, trig, toExponential, r1, r2);
  }

  /** A greater height converts to a greater height in feet. */
  lemma HeightInFeetMonotone(lower: real, higher: real, unit: HeightUnit)
    requires 0.0 < lower < higher
    ensures HeightInFeet(lower, unit) < HeightInFeet(higher, unit)
  {
  }

  /** At a fixed altitude above the threshold, a greater positive height in
      feet gives a strictly longer shadow. */
  lemma ShadowFromAltitudeMonotone(lower: real, higher: real, altitude: real, trig: Trig,
                                   toExponential: real -> string, r1: ShadowResults, r2: ShadowResults)
    requires TrigAxioms(trig) && MinShadowAltitude < altitude <= 90.0 && 0.0 < lower < higher
    requires r1 == ShadowFromAltitude(lower, altitude, trig, toExponential)
    requires r2 == ShadowFromAltitude(higher, altitude, trig, toExponential)
    ensures r1.feet < r2.feet
  {
    var tan := trig.tan(DegToRad(altitude));
    ShadowAngleTangent(altitude, trig);
    QuotientMonotone(lower, higher, tan);
  }

  /** Dividing by a positive number keeps the order of positive numbers. */
  lemma QuotientMonotone(lower: real, higher: real, d: real)
    requires 0.0 < lower < higher && d > 0.0
    ensures 0.0 < lower / d < higher / d
  {
  }

  /** At a fixed place and time, a taller person casts a strictly longer shadow. */
  lemma TallerCastsLonger(data: ShadowCalculation, taller: real, date: LocalDateTime,
                          trig: Trig, toExponential: real -> string, r1: ShadowResults, r2: ShadowResults)
    requires TrigAxioms(trig) && Valid(data) && taller > data.height
    requires r1 == CalculateShadowLength(data, date, trig, toExponential)
    requires r2 == CalculateShadowLength(data.(height := taller), date, trig, toExponential)
    requires r1.shadowExists
    ensures r2.feet > r1.feet
  {
    SunIgnoresHeight(data, taller, date, trig, toExponential);
    HeightInFeetMonotone(data.height, taller, data.heightUnit);
    ShadowFromAltitudeMonotone(HeightInFeet(data.height, data.heightUnit), HeightInFeet(taller, data.heightUnit),
                               r1.sunAltitude, trig, toExponential, r1, r2);
  }

  /** The gate is inclusive: at exactly five degrees there is no shadow. */
  lemma NoShadowAtThreshold(data: ShadowCalculation, date: LocalDateTime, trig: Trig,
                            toExponential: real -> string)
    requires TrigAxioms(trig)
    requires SunAltitude(data.latitude, data.longitude, date, trig) == 5.0
    ensures
      var r := CalculateShadowLength(data, date, trig, toExponential);
      !r.shadowExists && r.feet == 0.0 && r.horses == 0.0 && r.sunAltitude == 5.0
  {
  }
}
