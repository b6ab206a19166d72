/** The closed set of volume units the converter accepts. */
module VolumeUnits {

  /** One of the six supported volume units. */
  datatype Unit = Liters | Milliliters | Gallons | FluidOunces | CubicMeters | CubicFeet

  /** The identifier string of each unit. The spellings are those of the
      application's constants module; the model relies only on their being
      pairwise distinct. */
  function Name(u: Unit): string {
    match u
    case Liters => "L"
    case Milliliters => "mL"
    case Gallons => "gal"
    case FluidOunces => "fl. oz."
    case CubicMeters => "m³"
    case CubicFeet => "ft³"
  }

  /** Distinct units have distinct identifiers, so a string names at most one unit. */
  lemma NameInjective(u: Unit, w: Unit)
    ensures Name(u) == Name(w) <==> u == w
  {
  }

  /** The tuple of valid unit identifiers, in declaration order. */
  const ValidUnits: seq<string> :=
    [Name(Liters), Name(Milliliters), Name(Gallons),
     Name(FluidOunces), Name(CubicMeters), Name(CubicFeet)]

  /** The tuple lists six identifiers, none of them twice. */
  lemma ValidUnitsDistinct()
    ensures |ValidUnits| == 6
    ensures forall i, j :: 0 <= i < j < |ValidUnits| ==> ValidUnits[i] != ValidUnits[j]
  {
  }

  /** The valid identifiers are exactly the names of the six units. */
  lemma ValidUnitsAreNames(s: string)
    ensures s in ValidUnits <==> exists u: Unit :: Name(u) == s
  {
    if s in ValidUnits {
      var i :| 0 <= i < |ValidUnits| && ValidUnits[i] == s;
      var units := [Liters, Milliliters, Gallons, FluidOunces, CubicMeters, CubicFeet];
      assert Name(units[i]) == s;
    }
  }

  /** Membership of an identifier in a tuple of identifiers, scanning it from
      position `i` onwards as Python's `in` does on a tuple. `Convert` validates
      its units with this scan rather than with Dafny's built-in `in`, so that the
      element-by-element test of the source is what is modelled; the contract
      shows the two agree. */
  function ContainsFrom(units: seq<string>, s: string, i: nat): (r: bool)
    requires i <= |units|
    ensures r <==> exists j :: i <= j < |units| && units[j] == s
    decreases |units| - i
  {
    if i == |units| then false
    else units[i] == s || ContainsFrom(units, s, i + 1)
  }

  /** Whether an identifier occurs in a tuple of identifiers. */
  function Contains(units: seq<string>, s: string): (r: bool)
    ensures r <==> s in units
  {
    ContainsFrom(units, s, 0)
  }
}
