/** The volume conversion table and the conversion operations built on it. */
module Volume {
  import opened VolumeUnits

  /** Metres per international inch and per international foot (exact by
      definition); they stand in for the distance module's constants. */
  const InToM: real := 0.0254
  const FootToM: real := 0.3048

  /** Size of one unit in cubic metres, derived as the module derives it. */
  const LToCubicMeter: real := 0.001
  const MlToCubicMeter: real := 0.001 * LToCubicMeter
  /** A US gallon is 231 cubic inches. */
  const GallonToCubicMeter: real := 231.0 * Cube(InToM)
  /** A US gallon holds 128 US fluid ounces. */
  const FluidOunceToCubicMeter: real := GallonToCubicMeter / 128.0
  const CubicFootToCubicMeter: real := Cube(FootToM)

  /** `pow(x, 3)`, exact over the reals. */
  function Cube(x: real): real {
    x * x * x
  }

  /** How many of each unit make one cubic metre, keyed by unit identifier. */
  const UnitConversion: map<string, real> :=
    map[
      Name(Liters) := 1.0 / LToCubicMeter,
      Name(Milliliters) := 1.0 / MlToCubicMeter,
      Name(Gallons) := 1.0 / GallonToCubicMeter,
      Name(FluidOunces) := 1.0 / FluidOunceToCubicMeter,
      Name(CubicMeters) := 1.0,
      Name(CubicFeet) := 1.0 / CubicFootToCubicMeter
    ]

  /** The table's entry for a unit. */
  function Factor(u: Unit): (f: real)
    ensures Name(u) in UnitConversion && f == UnitConversion[Name(u)]
    ensures f > 0.0
  {
    UnitConversion[Name(u)]
  }

  /** The derived sizes, written out as exact decimals. */
  lemma SizeValues()
    ensures LToCubicMeter == 0.001
    ensures MlToCubicMeter == 0.000001
    ensures GallonToCubicMeter == 0.003785411784
    ensures FluidOunceToCubicMeter == 0.0000295735295625
    ensures CubicFootToCubicMeter == 0.028316846592
  {
  }

  /** The table has one strictly positive entry for every valid identifier and
      for nothing else, and the base unit's entry is exactly one. */
  lemma TableInvariants()
    ensures UnitConversion.Keys == set s | s in ValidUnits
    ensures |UnitConversion| == 6
    ensures forall s :: s in UnitConversion ==> UnitConversion[s] > 0.0
    ensures UnitConversion[Name(CubicMeters)] == 1.0
  {
    TableKeys();
    TablePositive();
  }

  /** The table is keyed by exactly the six valid identifiers. */
  lemma TableKeys()
    ensures UnitConversion.Keys == set s | s in ValidUnits
    ensures |UnitConversion| == 6
  {
    var names := {Name(Liters), Name(Milliliters), Name(Gallons),
                  Name(FluidOunces), Name(CubicMeters), Name(CubicFeet)};
    assert UnitConversion.Keys == names;
    assert (set s | s in ValidUnits) == names;
    assert |names| == 6 by {
      ValidUnitsDistinct();
    }
  }

  /** Every entry is strictly positive, so dividing by one is always defined. */
  lemma TablePositive()
    ensures forall s :: s in UnitConversion ==> UnitConversion[s] > 0.0
  {
    SizeValues();
  }

  /** A magnitude as handed to `convert`: a number, or a value of some other type. */
  datatype Magnitude = Num(value: real) | NonNumeric

  /** What `convert` produces: a converted magnitude, or the error it raises. */
  datatype Outcome =
    | Ok(value: real)
      /** The offending identifier (a `ValueError` in the source). */
    | UnitNotRecognized(unit: string)
      /** The magnitude is not a number (a `TypeError` in the source). */
    | NotNumeric

  /** `_convert`: through cubic metres, dividing by the source factor and then
      multiplying by the target factor, without validating anything. The result
      denotes the same amount of cubic metres as the input. */
  function RawConvert(volume: real, fromUnit: string, toUnit: string): (r: real)
    requires fromUnit in UnitConversion && toUnit in UnitConversion
    ensures r / UnitConversion[toUnit] == volume / UnitConversion[fromUnit]
  {
    TablePositive();
    var cubicMeter := volume / UnitConversion[fromUnit];
    ScaleCancels(cubicMeter, UnitConversion[toUnit]);
    cubicMeter * UnitConversion[toUnit]
  }

  /** Multiplying by a non-zero factor and dividing by it again is the identity. */
  lemma ScaleCancels(x: real, f: real)
    requires f != 0.0
    ensures (x * f) / f == x
  {
  }

  /** `convert`: validates the source unit, then the target unit, then the
      magnitude; returns the magnitude itself when the two units coincide. */
  function Convert(volume: Magnitude, fromUnit: string, toUnit: string): (r: Outcome)
    ensures fromUnit !in ValidUnits ==> r == UnitNotRecognized(fromUnit)
    ensures fromUnit in ValidUnits && toUnit !in ValidUnits ==> r == UnitNotRecognized(toUnit)
    ensures fromUnit in ValidUnits && toUnit in ValidUnits ==>
              (r.NotNumeric? <==> volume.NonNumeric?)
    ensures r.Ok? <==> fromUnit in ValidUnits && toUnit in ValidUnits && volume.Num?
    ensures r.Ok? && fromUnit == toUnit ==> r.value == volume.value
    ensures r.Ok? ==> r.value / UnitConversion[toUnit] == volume.value / UnitConversion[fromUnit]
  {
    if !Contains(ValidUnits, fromUnit) then UnitNotRecognized(fromUnit)
    else if !Contains(ValidUnits, toUnit) then UnitNotRecognized(toUnit)
    else if volume.NonNumeric? then NotNumeric
    else if fromUnit == toUnit then Ok(volume.value)
    else Ok(RawConvert(volume.value, fromUnit, toUnit))
  }

  /** Litres to US gallons: the same volume in cubic metres. */
  function LiterToGallon(liter: real): (r: real)
    ensures r * GallonToCubicMeter == liter * LToCubicMeter
  {
    RawConvert(liter, Name(Liters), Name(Gallons))
  }

  /** US gallons to litres: the same volume in cubic metres. */
  function GallonToLiter(gallon: real): (r: real)
    ensures r * LToCubicMeter == gallon * GallonToCubicMeter
  {
    RawConvert(gallon, Name(Gallons), Name(Liters))
  }

  /** Cubic metres to cubic feet: the same volume in cubic metres. */
  function CubicMeterToCubicFeet(cubicMeter: real): (r: real)
    ensures r * CubicFootToCubicMeter == cubicMeter
  {
    RawConvert(cubicMeter, Name(CubicMeters), Name(CubicFeet))
  }

  /** Cubic feet to cubic metres: the same volume in cubic metres. */
  function CubicFeetToCubicMeter(cubicFeet: real): (r: real)
    ensures r == cubicFeet * CubicFootToCubicMeter
  {
    RawConvert(cubicFeet, Name(CubicFeet), Name(CubicMeters))
  }
}
