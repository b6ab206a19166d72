/** Properties of the volume converter that relate several calls, or relate
    the conversion table to an independent statement of the unit sizes. */
module VolumeProperties {
  import opened VolumeUnits
  import opened Volume

  /** Size of one unit in cubic metres, written out as exact decimals:
      1 US gallon = 3.785411784 L, 1 US fl oz = 1/128 gal, 1 ft = 0.3048 m. */
  function ReferenceSize(u: Unit): (s: real)
    ensures s > 0.0
  {
    match u
    case Liters => 0.001
    case Milliliters => 0.000001
    case Gallons => 0.003785411784
    case FluidOunces => 0.0000295735295625
    case CubicMeters => 1.0
    case CubicFeet => 0.028316846592
  }

  /** Each table entry is the reciprocal of the unit's size in cubic metres. */
  lemma FactorIsReciprocalOfSize(u: Unit)
    ensures Factor(u) * ReferenceSize(u) == 1.0
  {
    SizeValues();
  }

  /** Proof helper. With both units valid and a numeric magnitude, `convert` succeeds: with the
      magnitude itself when the units coincide, and with `_convert` otherwise. */
  lemma ConvertValid(v: real, a: string, b: string)
    requires a in ValidUnits && b in ValidUnits
    ensures Convert(Num(v), a, b) == Ok(if a == b then v else RawConvert(v, a, b))
  {
  }

  /** Converting between two distinct valid units divides by the source factor
      and then multiplies by the target factor. */
  lemma ConvertGeneralCase(v: real, a: Unit, b: Unit)
    requires a != b
    ensures Convert(Num(v), Name(a), Name(b)) == Ok((v / Factor(a)) * Factor(b))
  {
    NameInjective(a, b);
    ConvertValid(v, Name(a), Name(b));
  }

  /** Converting a unit to itself returns the magnitude unchanged. */
  lemma ConvertIdentity(v: real, u: Unit)
    ensures Convert(Num(v), Name(u), Name(u)) == Ok(v)
  {
    ConvertValid(v, Name(u), Name(u));
  }

  /** Every successful conversion agrees with the physical sizes of the units:
      `v` of unit `a` is `v * size(a) / size(b)` of unit `b`. */
  lemma ConvertMatchesReference(v: real, a: Unit, b: Unit)
    ensures Convert(Num(v), Name(a), Name(b)) == Ok(v * ReferenceSize(a) / ReferenceSize(b))
  {
    ConvertValid(v, Name(a), Name(b));
    NameInjective(a, b);
    RawMatchesReference(v, a, b);
  }

  /** `_convert` agrees with the reference sizes. */
  lemma RawMatchesReference(v: real, a: Unit, b: Unit)
    ensures RawConvert(v, Name(a), Name(b)) == v * ReferenceSize(a) / ReferenceSize(b)
  {
    var r := RawConvert(v, Name(a), Name(b));
    FactorIsReciprocalOfSize(a);
    FactorIsReciprocalOfSize(b);
    RescaleBySizes(r, v, Factor(a), Factor(b), ReferenceSize(a), ReferenceSize(b));
  }

  /** If `r / fb == v / fa` and the sizes are the reciprocals of the factors,
      then `r == v * sa / sb`. */
  lemma RescaleBySizes(r: real, v: real, fa: real, fb: real, sa: real, sb: real)
    requires fa > 0.0 && fb > 0.0 && fa * sa == 1.0 && fb * sb == 1.0
    requires r / fb == v / fa
    ensures r == v * sa / sb
  {
    assert sa == 1.0 / fa;
    assert sb == 1.0 / fb;
    calc {
      r;
      (r / fb) * fb;
      (v / fa) * fb;
      v * sa / sb;
    }
  }

  /** `_convert` there and back returns the original magnitude. */
  lemma RawRoundTrip(v: real, a: string, b: string)
    requires a in UnitConversion && b in UnitConversion
    ensures RawConvert(RawConvert(v, a, b), b, a) == v
  {
  }

  /** Converting there and back returns the original magnitude. */
  lemma RoundTrip(v: real, a: string, b: string)
    requires a in ValidUnits && b in ValidUnits
    ensures Convert(Num(v), a, b).Ok?
    ensures Convert(Num(Convert(Num(v), a, b).value), b, a) == Ok(v)
  {
    ConvertValid(v, a, b);
    var w := Convert(Num(v), a, b).value;
    ConvertValid(w, b, a);
    if a != b {
      RawRoundTrip(v, a, b);
    }
  }

  /** Zero is zero in every unit. */
  lemma ZeroPreserved(a: string, b: string)
    requires a in ValidUnits && b in ValidUnits
    ensures Convert(Num(0.0), a, b) == Ok(0.0)
  {
  }

  /** Routing through an intermediate unit gives the same result as converting directly. */
  lemma RawConvertComposes(v: real, a: string, b: string, c: string)
    requires a in UnitConversion && b in UnitConversion && c in UnitConversion
    ensures RawConvert(RawConvert(v, a, b), b, c) == RawConvert(v, a, c)
  {
    TablePositive();
    var w := RawConvert(v, a, b);
    var x := RawConvert(w, b, c);
    var y := RawConvert(v, a, c);
    assert x / UnitConversion[c] == y / UnitConversion[c];
    ScaleCancels(x, 1.0 / UnitConversion[c]);
    ScaleCancels(y, 1.0 / UnitConversion[c]);
  }

  /** One litre is 1000 mL; one US gallon is 128 US fl oz; one cubic metre is 1000 L. */
  lemma FixedRatios()
    ensures Convert(Num(1.0), Name(Liters), Name(Milliliters)) == Ok(1000.0)
    ensures Convert(Num(1.0), Name(Gallons), Name(FluidOunces)) == Ok(128.0)
    ensures Convert(Num(1.0), Name(CubicMeters), Name(Liters)) == Ok(1000.0)
  {
    ConvertMatchesReference(1.0, Liters, Milliliters);
    ConvertMatchesReference(1.0, Gallons, FluidOunces);
    ConvertMatchesReference(1.0, CubicMeters, Liters);
  }

  /** Each wrapper is the checked conversion for its fixed pair of units. */
  lemma WrappersDelegate(v: real)
    ensures Convert(Num(v), Name(Liters), Name(Gallons)) == Ok(LiterToGallon(v))
    ensures Convert(Num(v), Name(Gallons), Name(Liters)) == Ok(GallonToLiter(v))
    ensures Convert(Num(v), Name(CubicMeters), Name(CubicFeet)) == Ok(CubicMeterToCubicFeet(v))
    ensures Convert(Num(v), Name(CubicFeet), Name(CubicMeters)) == Ok(CubicFeetToCubicMeter(v))
  {
  }

  /** The litre/gallon wrappers undo each other, and so do the cubic metre/foot wrappers. */
  lemma WrapperInverses(v: real)
    ensures GallonToLiter(LiterToGallon(v)) == v
    ensures LiterToGallon(GallonToLiter(v)) == v
    ensures CubicFeetToCubicMeter(CubicMeterToCubicFeet(v)) == v
    ensures CubicMeterToCubicFeet(CubicFeetToCubicMeter(v)) == v
  {
    WrappersDelegate(v);
    RoundTrip(v, Name(Liters), Name(Gallons));
    RoundTrip(v, Name(Gallons), Name(Liters));
    RoundTrip(v, Name(CubicMeters), Name(CubicFeet));
    RoundTrip(v, Name(CubicFeet), Name(CubicMeters));
    WrappersDelegate(LiterToGallon(v));
    WrappersDelegate(GallonToLiter(v));
    WrappersDelegate(CubicMeterToCubicFeet(v));
    WrappersDelegate(CubicFeetToCubicMeter(v));
  }

  /** The reference values: a US gallon is 3.785411784 L, and a cubic metre is
      about 35.3146667 cubic feet. */
  lemma WrapperKnownValues()
    ensures GallonToLiter(1.0) == 3.785411784
    ensures LiterToGallon(3.785411784) == 1.0
    ensures -0.0000001 < CubicMeterToCubicFeet(1.0) - 35.3146667 < 0.0000001
    ensures -0.0000001 < CubicFeetToCubicMeter(35.3146667) - 1.0 < 0.0000001
  {
    SizeValues();
  }
}
