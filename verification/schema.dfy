/** The shared record shapes: the calculator's input schema, which the form
    layer validates before the calculation runs, and the shapes of the two
    results. A zod object schema is modelled as `Parse` from a record of
    possibly missing (or wrongly typed) fields to a typed record. */
module Schema {

  datatype Option<T> = None | Some(value: T) {
    predicate IsFailure() { None? }
    function PropagateFailure<U>(): Option<U> requires None? { None }
    function Extract(): T requires Some? { value }
  }

  // ----- enumerations and their labels -----

  datatype HeightUnit = Ft | Cm | M
  datatype Direction = North | Northeast | East | Southeast | South | Southwest | West | Northwest
  datatype ShoeBrand = Nike | Adidas | Converse | Vans | Puma | Reebok | NewBalance | Other
  datatype Weather = Sunny | Rainy | Cloudy | Foggy

  const HeightUnitLabels: seq<string> := ["ft", "cm", "m"]
  const DirectionLabels: seq<string> :=
    ["North", "Northeast", "East", "Southeast", "South", "Southwest", "West", "Northwest"]
  const ShoeBrandLabels: seq<string> :=
    ["Nike", "Adidas", "Converse", "Vans", "Puma", "Reebok", "New Balance", "Other"]
  const WeatherLabels: seq<string> := ["sunny", "rainy", "cloudy", "foggy"]

  function HeightUnitLabel(u: HeightUnit): (s: string)
    ensures s in HeightUnitLabels
  {
    match u
    case Ft => "ft"
    case Cm => "cm"
    case M => "m"
  }

  function HeightUnitFromLabel(s: string): (u: Option<HeightUnit>)
    ensures u.Some? <==> s in HeightUnitLabels
    ensures u.Some? ==> HeightUnitLabel(u.value) == s
  {
    if s == "ft" then Some(Ft)
    else if s == "cm" then Some(Cm)
    else if s == "m" then Some(M)
    else None
  }

  function DirectionLabel(d: Direction): (s: string)
    ensures s in DirectionLabels
  {
    match d
    case North => "North"
    case Northeast => "Northeast"
    case East => "East"
    case Southeast => "Southeast"
    case South => "South"
    case Southwest => "Southwest"
    case West => "West"
    case Northwest => "Northwest"
  }

  function DirectionFromLabel(s: string): (d: Option<Direction>)
    ensures d.Some? <==> s in DirectionLabels
    ensures d.Some? ==> DirectionLabel(d.value) == s
  {
    if s == "North" then Some(North)
    else if s == "Northeast" then Some(Northeast)
    else if s == "East" then Some(East)
    else if s == "Southeast" then Some(Southeast)
    else if s == "South" then Some(South)
    else if s == "Southwest" then Some(Southwest)
    else if s == "West" then Some(West)
    else if s == "Northwest" then Some(Northwest)
    else None
  }

  function ShoeBrandLabel(b: ShoeBrand): (s: string)
    ensures s in ShoeBrandLabels
  {
    match b
    case Nike => "Nike"
    case Adidas => "Adidas"
    case Converse => "Converse"
    case Vans => "Vans"
    case Puma => "Puma"
    case Reebok => "Reebok"
    case NewBalance => "New Balance"
    case Other => "Other"
  }

  function ShoeBrandFromLabel(s: string): (b: Option<ShoeBrand>)
    ensures b.Some? <==> s in ShoeBrandLabels
    ensures b.Some? ==> ShoeBrandLabel(b.value) == s
  {
    if s == "Nike" then Some(Nike)
    else if s == "Adidas" then Some(Adidas)
    else if s == "Converse" then Some(Converse)
    else if s == "Vans" then Some(Vans)
    else if s == "Puma" then Some(Puma)
    else if s == "Reebok" then Some(Reebok)
    else if s == "New Balance" then Some(NewBalance)
    else if s == "Other" then Some(Other)
    else None
  }

  function WeatherLabel(w: Weather): (s: string)
    ensures s in WeatherLabels
  {
    match w
    case Sunny => "sunny"
    case Rainy => "rainy"
    case Cloudy => "cloudy"
    case Foggy => "foggy"
  }

  function WeatherFromLabel(s: string): (w: Option<Weather>)
    ensures w.Some? <==> s in WeatherLabels
    ensures w.Some? ==> WeatherLabel(w.value) == s
  {
    if s == "sunny" then Some(Sunny)
    else if s == "rainy" then Some(Rainy)
    else if s == "cloudy" then Some(Cloudy)
    else if s == "foggy" then Some(Foggy)
    else None
  }

  /** Each label names exactly one member of its enumeration. */
  lemma LabelsRoundTrip(u: HeightUnit, d: Direction, b: ShoeBrand, w: Weather)
    ensures HeightUnitFromLabel(HeightUnitLabel(u)) == Some(u)
    ensures DirectionFromLabel(DirectionLabel(d)) == Some(d)
    ensures ShoeBrandFromLabel(ShoeBrandLabel(b)) == Some(b)
    ensures WeatherFromLabel(WeatherLabel(w)) == Some(w)
  {
  }

  // ----- shadowCalculationSchema -----

  /** The input record after validation. */
  datatype ShadowCalculation = ShadowCalculation(
    height: real,
    heightUnit: HeightUnit,
    latitude: real,
    longitude: real,
    direction: Direction,
    shoeBrand: ShoeBrand,
    weather: Weather,
    date: string,
    time: string)

  /** The numeric constraints of the schema (the enumerations hold by typing;
      `date` and `time` are any strings): exactly the typed records whose
      serialisation the schema accepts. */
  predicate Valid(c: ShadowCalculation): (valid: bool)
    ensures valid <==> SchemaAccepts(ToRaw(c))
  {
    && c.height > 0.0
    && -90.0 <= c.latitude <= 90.0
    && -180.0 <= c.longitude <= 180.0
  }

  /** The object handed to the schema: a field is `None` when it is absent or
      not of the field's JSON type (number or string). */
  datatype RawCalculation = RawCalculation(
    height: Option<real>,
    heightUnit: Option<string>,
    latitude: Option<real>,
    longitude: Option<real>,
    direction: Option<string>,
    shoeBrand: Option<string>,
    weather: Option<string>,
    date: Option<string>,
    time: Option<string>)

  /** Field by field, what the schema demands of the object it is given. */
  predicate SchemaAccepts(raw: RawCalculation) {
    && raw.height.Some? && raw.height.value > 0.0
    && raw.heightUnit.Some? && raw.heightUnit.value in HeightUnitLabels
    && raw.latitude.Some? && -90.0 <= raw.latitude.value <= 90.0
    && raw.longitude.Some? && -180.0 <= raw.longitude.value <= 180.0
    && raw.direction.Some? && raw.direction.value in DirectionLabels
    && raw.shoeBrand.Some? && raw.shoeBrand.value in ShoeBrandLabels
    && raw.weather.Some? && raw.weather.value in WeatherLabels
    && raw.date.Some?
    && raw.time.Some?
  }

  /** The object a typed record is serialised to. */
  function ToRaw(c: ShadowCalculation): RawCalculation {
    RawCalculation(
      Some(c.height), Some(HeightUnitLabel(c.heightUnit)), Some(c.latitude), Some(c.longitude),
      Some(DirectionLabel(c.direction)), Some(ShoeBrandLabel(c.shoeBrand)),
      Some(WeatherLabel(c.weather)), Some(c.date), Some(c.time))
  }

  /** `z.number().positive()`. */
  function PositiveNumber(v: Option<real>): (r: Option<real>)
    ensures r.Some? <==> v.Some? && v.value > 0.0
    ensures r.Some? ==> r == v
  {
    match v
    case Some(x) => if x > 0.0 then v else None
    case None => None
  }

  /** `z.number().min(lo).max(hi)`: both bounds inclusive. */
  function NumberInRange(v: Option<real>, lo: real, hi: real): (r: Option<real>)
    ensures r.Some? <==> v.Some? && lo <= v.value <= hi
    ensures r.Some? ==> r == v
  {
    match v
    case Some(x) => if lo <= x && x <= hi then v else None
    case None => None
  }

  /** `shadowCalculationSchema.safeParse`, without the list of issues. */
  function Parse(raw: RawCalculation): (r: Option<ShadowCalculation>)
    ensures r.Some? <==> SchemaAccepts(raw)
    ensures r.Some? ==> Valid(r.value) && ToRaw(r.value) == raw
  {
    var height :- PositiveNumber(raw.height);
    var unitLabel :- raw.heightUnit;
    var heightUnit :- HeightUnitFromLabel(unitLabel);
    var latitude :- NumberInRange(raw.latitude, -90.0, 90.0);
    var longitude :- NumberInRange(raw.longitude, -180.0, 180.0);
    var directionLabel :- raw.direction;
    var direction :- DirectionFromLabel(directionLabel);
    var brandLabel :- raw.shoeBrand;
    var shoeBrand :- ShoeBrandFromLabel(brandLabel);
    var weatherLabel :- raw.weather;
    var weather :- WeatherFromLabel(weatherLabel);
    var date :- raw.date;
    var time :- raw.time;
    Some(ShadowCalculation(height, heightUnit, latitude, longitude, direction, shoeBrand, weather, date, time))
  }

  /** Every valid record survives serialisation and validation unchanged. */
  lemma ParseToRaw(c: ShadowCalculation)
    requires Valid(c)
    ensures Parse(ToRaw(c)) == Some(c)
  {
    LabelsRoundTrip(c.heightUnit, c.direction, c.shoeBrand, c.weather);
  }

  /** A record without a weather choice is rejected, whatever else it holds. */
  lemma MissingWeatherRejected(raw: RawCalculation)
    requires raw.weather.None?
    ensures Parse(raw).None?
  {
  }

  /** Calendar validity is not the schema's concern: any date and time strings
      are accepted once the other fields are. */
  lemma DateAndTimeUnconstrained(raw: RawCalculation, date: string, time: string)
    requires Parse(raw).Some?
    ensures Parse(raw.(date := Some(date), time := Some(time))).Some?
  {
  }

  // ----- shadowResultsSchema and soulInterpretationSchema -----

  datatype ShadowResults = ShadowResults(
    feet: real,
    planck: string,
    lightYears: string,
    horses: real,
    sunAltitude: real,
    shadowExists: bool)

  datatype Trait = Trait(name: string, description: string, icon: string)

  /** `traits` has no length bound in the schema. */
  datatype SoulInterpretation = SoulInterpretation(title: string, description: string, traits: seq<Trait>)
}
