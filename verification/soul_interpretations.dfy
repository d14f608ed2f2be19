/** `generateSoulInterpretation`: a pseudo-mystical reading of the shadow,
    chosen by the length of the shadow in feet. */
module SoulInterpretations {
  import opened Schema

  /** The three readings, in order of increasing shadow length. */
  datatype Band = Focused | Balanced | Profound

  /** The position of a band in that order. */
  function Rank(b: Band): nat {
    match b
    case Focused => 0
    case Balanced => 1
    case Profound => 2
  }

  /** Half-open bands: below 2 feet, from 2 up to 5 feet, from 5 feet on. */
  function BandOf(shadowLength: real): (b: Band)
    ensures b == Focused <==> shadowLength < 2.0
    ensures b == Balanced <==> 2.0 <= shadowLength < 5.0
    ensures b == Profound <==> 5.0 <= shadowLength
  {
    if shadowLength < 2.0 then Focused
    else if shadowLength < 5.0 then Balanced
    else Profound
  }

  /** A longer shadow never gives an earlier band. */
  lemma BandOfMonotone(shorter: real, longer: real)
    requires shorter <= longer
    ensures Rank(BandOf(shorter)) <= Rank(BandOf(longer))
  {
  }

  /** The boundaries belong to the upper band. */
  lemma BandBoundaries()
    ensures BandOf(2.0) == Balanced && BandOf(5.0) == Profound
    ensures BandOf(1.99) == Focused && BandOf(4.99) == Balanced
  {
  }

  // ----- text -----

  /** `String.prototype.toLowerCase` on one character (ASCII letters only;
      the labels it is applied to are ASCII). */
  function LowerChar(c: char): (l: char)
    ensures 'A' <= c <= 'Z' ==> l as int == c as int + 32
    ensures !('A' <= c <= 'Z') ==> l == c
  {
    if 'A' <= c <= 'Z' then (c as int + 32) as char else c
  }

  /** `String.prototype.toLowerCase`, character by character. */
  function ToLower(s: string): (r: string)
    ensures |r| == |s|
    ensures forall i :: 0 <= i < |s| ==> r[i] == LowerChar(s[i])
    ensures forall i :: 0 <= i < |r| ==> !('A' <= r[i] <= 'Z')
  {
    seq(|s|, i requires 0 <= i < |s| => LowerChar(s[i]))
  }

  /** Lowering twice is lowering once. */
  lemma ToLowerIdempotent(s: string)
    ensures ToLower(ToLower(s)) == ToLower(s)
  {
    var once := ToLower(s);
    assert forall i :: 0 <= i < |s| ==> LowerChar(once[i]) == once[i];
  }

  /** The lower-cased direction labels, as they appear in the text. */
  function LowerDirectionLabel(d: Direction): string {
    match d
    case North => "north"
    case Northeast => "northeast"
    case East => "east"
    case Southeast => "southeast"
    case South => "south"
    case Southwest => "southwest"
    case West => "west"
    case Northwest => "northwest"
  }

  /** Lower-casing a direction label gives its lower-case spelling. */
  lemma LowerDirectionLabelIsLowered(d: Direction)
    ensures ToLower(DirectionLabel(d)) == LowerDirectionLabel(d)
  {
    match d
    case North => assert ToLower("North") == "north";
    case Northeast => assert ToLower("Northeast") == "northeast";
    case East => assert ToLower("East") == "east";
    case Southeast => assert ToLower("Southeast") == "southeast";
    case South => assert ToLower("South") == "south";
    case Southwest => assert ToLower("Southwest") == "southwest";
    case West => assert ToLower("West") == "west";
    case Northwest => assert ToLower("Northwest") == "northwest";
  }

  /** No two directions share a lower-case spelling. */
  lemma LowerDirectionLabelInjective(d: Direction, e: Direction)
    requires LowerDirectionLabel(d) == LowerDirectionLabel(e)
    ensures d == e
  {
  }

  /** `needle` occurs in `hay` as a contiguous piece. */
  predicate IsInfix(needle: string, hay: string) {
    exists i, j :: 0 <= i <= j <= |hay| && hay[i..j] == needle
  }

  /** The pieces of a template literal, joined in order. */
  function Concat(parts: seq<string>): (text: string)
    ensures |parts| > 0 ==> text == parts[0] + Concat(parts[1..])
  {
    if parts == [] then "" else parts[0] + Concat(parts[1..])
  }

  /** A text starts with its prefix. */
  lemma InfixPrefix(front: string, rest: string)
    ensures IsInfix(front, front + rest)
  {
    assert (front + rest)[0..|front|] == front;
  }

  /** A piece of a text is a piece of any longer text ending with it. */
  lemma InfixExtend(needle: string, front: string, rest: string)
    requires IsInfix(needle, rest)
    ensures IsInfix(needle, front + rest)
  {
    var i, j :| 0 <= i <= j <= |rest| && rest[i..j] == needle;
    assert (front + rest)[|front| + i..|front| + j] == rest[i..j];
  }

  /** Every piece of a joined template occurs in the joined text. */
  lemma {:induction false} PartIsInfix(parts: seq<string>, k: int)
    requires 0 <= k < |parts|
    ensures IsInfix(parts[k], Concat(parts))
  {
    if k == 0 {
      InfixPrefix(parts[0], Concat(parts[1..]));
    } else {
      PartIsInfix(parts[1..], k - 1);
      InfixExtend(parts[k], parts[0], Concat(parts[1..]));
    }
  }

  // ----- the reading -----

  /** The icons of a list of traits, in order. */
  function Icons(traits: seq<Trait>): (icons: seq<string>)
    ensures |icons| == |traits|
    ensures forall i :: 0 <= i < |traits| ==> icons[i] == traits[i].icon
  {
    if traits == [] then [] else [traits[0].icon] + Icons(traits[1..])
  }

  /** The names of a list of traits, in order. */
  function Names(traits: seq<Trait>): (names: seq<string>)
    ensures |names| == |traits|
    ensures forall i :: 0 <= i < |traits| ==> names[i] == traits[i].name
  {
    if traits == [] then [] else [traits[0].name] + Names(traits[1..])
  }

  /** The descriptions of a list of traits, in order. */
  function Descriptions(traits: seq<Trait>): (descriptions: seq<string>)
    ensures |descriptions| == |traits|
    ensures forall i :: 0 <= i < |traits| ==> descriptions[i] == traits[i].description
  {
    if traits == [] then [] else [traits[0].description] + Descriptions(traits[1..])
  }

  /** Each band's title, distinct from the other two. */
  function Title(b: Band): (title: string)
    ensures title == "The Focused Soul" <==> b == Focused
    ensures title == "The Balanced Wanderer" <==> b == Balanced
    ensures title == "The Profound Dreamer" <==> b == Profound
  {
    match b
    case Focused => "The Focused Soul"
    case Balanced => "The Balanced Wanderer"
    case Profound => "The Profound Dreamer"
  }

  // The fixed trait descriptions.
  const DirectnessText := "You approach life with honesty"
  const ClarityText := "Your vision cuts through confusion"
  const PresenceText := "You live fully in the moment"
  const BalanceText := "You find harmony in all things"
  const WisdomText := "Your choices reflect deep thought"
  const GrowthText := "You evolve with each step"
  const VisionText := "You see beyond the immediate"
  const InfluenceText := "Your impact extends far"
  const DepthText := "You think in dimensions"

  /** Three traits per band, with fixed names, descriptions and icons. */
  function Traits(b: Band): (traits: seq<Trait>)
    ensures |traits| == 3
    ensures b == Focused ==>
      && Names(traits) == ["Directness", "Clarity", "Presence"]
      && Descriptions(traits) == [DirectnessText, ClarityText, PresenceText]
      && Icons(traits) == ["arrow-right", "eye", "circle"]
    ensures b == Balanced ==>
      && Names(traits) == ["Balance", "Wisdom", "Growth"]
      && Descriptions(traits) == [BalanceText, WisdomText, GrowthText]
      && Icons(traits) == ["scale", "book", "trending-up"]
    ensures b == Profound ==>
      && Names(traits) == ["Vision", "Influence", "Depth"]
      && Descriptions(traits) == [VisionText, InfluenceText, DepthText]
      && Icons(traits) == ["telescope", "ripple", "layers"]
  {
    match b
    case Focused => [
      Trait("Directness", DirectnessText, "arrow-right"),
      Trait("Clarity", ClarityText, "eye"),
      Trait("Presence", PresenceText, "circle")]
    case Balanced => [
      Trait("Balance", BalanceText, "scale"),
      Trait("Wisdom", WisdomText, "book"),
      Trait("Growth", GrowthText, "trending-up")]
    case Profound => [
      Trait("Vision", VisionText, "telescope"),
      Trait("Influence", InfluenceText, "ripple"),
      Trait("Depth", DepthText, "layers")]
  }

  /** Each band has its own title and its own three traits. */
  lemma BandsDistinguished(b: Band, c: Band)
    ensures |Traits(b)| == 3
    ensures Title(b) == Title(c) ==> b == c
    ensures Icons(Traits(b)) == Icons(Traits(c)) ==> b == c
  {
  }

  // The fixed pieces of the three templates.
  const FocusedOpening := "Your shadow measures "
  const FocusedMiddle := " feet, revealing a soul that stands tall in the light of truth. Like a sundial at noon, you cast minimal shadows because you face life directly. Your "
  const FocusedClosing := " shoes ground you to reality while your spirit reaches for clarity."
  const BalancedOpening := "At "
  const BalancedFacing := " feet, your shadow speaks of perfect equilibrium between earth and sky. Facing "
  const BalancedMiddle := ", you navigate life with measured steps in your "
  const BalancedClosing := " shoes, leaving a meaningful impression on the world."
  const ProfoundOpening := "Your "
  const ProfoundMiddle := "-foot shadow stretches across the earth like a bridge between worlds. In your "
  const ProfoundClosing := " shoes, you carry dreams that cast long shadows, influencing far more than your immediate presence suggests."

  /** The text of the first band. */
  function FocusedDescription(feetText: string, shoeBrand: string): (d: string)
    ensures IsInfix(feetText, d) && IsInfix(shoeBrand, d)
  {
    var parts := [FocusedOpening, feetText, FocusedMiddle, shoeBrand, FocusedClosing];
    PartIsInfix(parts, 1);
    PartIsInfix(parts, 3);
    Concat(parts)
  }

  /** The text of the middle band, the only one that names the direction. */
  function BalancedDescription(feetText: string, direction: string, shoeBrand: string): (d: string)
    ensures IsInfix(feetText, d) && IsInfix(shoeBrand, d) && IsInfix(direction, d)
  {
    var parts := [BalancedOpening, feetText, BalancedFacing, direction, BalancedMiddle, shoeBrand, BalancedClosing];
    PartIsInfix(parts, 1);
    PartIsInfix(parts, 3);
    PartIsInfix(parts, 5);
    Concat(parts)
  }

  /** The text of the last band. */
  function ProfoundDescription(feetText: string, shoeBrand: string): (d: string)
    ensures IsInfix(feetText, d) && IsInfix(shoeBrand, d)
  {
    var parts := [ProfoundOpening, feetText, ProfoundMiddle, shoeBrand, ProfoundClosing];
    PartIsInfix(parts, 1);
    PartIsInfix(parts, 3);
    Concat(parts)
  }

  /** The text of a band; the direction is used by the middle band only. */
  function Description(b: Band, feetText: string, direction: string, shoeBrand: string): (d: string)
    ensures IsInfix(feetText, d) && IsInfix(shoeBrand, d)
    ensures b == Balanced ==> IsInfix(direction, d)
  {
    match b
    case Focused => FocusedDescription(feetText, shoeBrand)
    case Balanced => BalancedDescription(feetText, direction, shoeBrand)
    case Profound => ProfoundDescription(feetText, shoeBrand)
  }

  /** The reading for a validated input and its shadow record.
      `toFixed` is `Number.prototype.toFixed(2)`. */
  function GenerateSoulInterpretation(calculation: ShadowCalculation, results: ShadowResults,
                                      toFixed: real -> string): (r: SoulInterpretation)
    ensures |r.traits| == 3
    ensures results.feet < 2.0 ==>
      && r.title == "The Focused Soul"
      && Names(r.traits) == ["Directness", "Clarity", "Presence"]
      && Descriptions(r.traits) == [DirectnessText, ClarityText, PresenceText]
      && Icons(r.traits) == ["arrow-right", "eye", "circle"]
    ensures 2.0 <= results.feet < 5.0 ==>
      && r.title == "The Balanced Wanderer"
      && Names(r.traits) == ["Balance", "Wisdom", "Growth"]
      && Descriptions(r.traits) == [BalanceText, WisdomText, GrowthText]
      && Icons(r.traits) == ["scale", "book", "trending-up"]
    ensures 5.0 <= results.feet ==>
      && r.title == "The Profound Dreamer"
      && Names(r.traits) == ["Vision", "Influence", "Depth"]
      && Descriptions(r.traits) == [VisionText, InfluenceText, DepthText]
      && Icons(r.traits) == ["telescope", "ripple", "layers"]
    ensures IsInfix(toFixed(results.feet), r.description)
    ensures IsInfix(ShoeBrandLabel(calculation.shoeBrand), r.description)
    ensures 2.0 <= results.feet < 5.0 ==> IsInfix(LowerDirectionLabel(calculation.direction), r.description)
  {
    var band := BandOf(results.feet);
    LowerDirectionLabelIsLowered(calculation.direction);
    var description := Description(band, toFixed(results.feet), ToLower(DirectionLabel(calculation.direction)),
                                   ShoeBrandLabel(calculation.shoeBrand));
    SoulInterpretation(Title(band), description, Traits(band))
  }

  /** Of the shadow record only the length in feet matters. */
  lemma ReadingDependsOnlyOnFeet(calculation: ShadowCalculation, results: ShadowResults,
                                 other: ShadowResults, toFixed: real -> string)
    requires other.feet == results.feet
    ensures GenerateSoulInterpretation(calculation, other, toFixed)
         == GenerateSoulInterpretation(calculation, results, toFixed)
  {
  }

  /** Title and traits are fixed by the band alone: two readings whose
      lengths fall in the same band share them, whatever the inputs. */
  lemma SameBandSameTraits(c1: ShadowCalculation, r1: ShadowResults, c2: ShadowCalculation, r2: ShadowResults,
                           toFixed: real -> string)
    requires BandOf(r1.feet) == BandOf(r2.feet)
    ensures GenerateSoulInterpretation(c1, r1, toFixed).title == GenerateSoulInterpretation(c2, r2, toFixed).title
    ensures GenerateSoulInterpretation(c1, r1, toFixed).traits == GenerateSoulInterpretation(c2, r2, toFixed).traits
  {
  }

  /** Of the input only the shoe brand and, in the middle band, the direction
      matter: height, unit, position, weather, date and time never do. */
  lemma ReadingIgnoresOtherInputs(calculation: ShadowCalculation, other: ShadowCalculation,
                                  results: ShadowResults, toFixed: real -> string)
    requires other.shoeBrand == calculation.shoeBrand
    requires other.direction == calculation.direction || BandOf(results.feet) != Balanced
    ensures GenerateSoulInterpretation(other, results, toFixed)
         == GenerateSoulInterpretation(calculation, results, toFixed)
  {
  }

  /** Inside the middle band the reading names the direction, lower-cased. */
  lemma BalancedReadingNamesDirection(calculation: ShadowCalculation, direction: Direction,
                                      results: ShadowResults, toFixed: real -> string)
    requires BandOf(results.feet) == Balanced
    ensures IsInfix(LowerDirectionLabel(direction),
                    GenerateSoulInterpretation(calculation.(direction := direction), results, toFixed).description)
  {
  }

  /** No shadow (length zero) reads as the first band. */
  lemma NoShadowIsFocused(calculation: ShadowCalculation, results: ShadowResults, toFixed: real -> string)
    requires !results.shadowExists && results.feet == 0.0
    ensures GenerateSoulInterpretation(calculation, results, toFixed).title == "The Focused Soul"
  {
  }
}
