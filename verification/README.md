# Volume conversion, modelled in Dafny

A model of Home Assistant's volume-conversion utility (`homeassistant/util/volume.py`).
The utility converts a scalar volume between six units: litres, millilitres, US gallons,
US fluid ounces, cubic metres and cubic feet. Every conversion goes through cubic metres
using a constant table that says how many of each unit make one cubic metre. The table is
derived from the inch (0.0254 m) and the foot (0.3048 m), from 231 cubic inches to the US
gallon and from 128 fluid ounces to the gallon. The whole model is over Dafny's exact `real`.

- `units.dfy`, module `VolumeUnits`: the `Unit` enumeration, the identifier string of each
  unit, and the tuple of valid identifiers.
- `volume.dfy`, module `Volume`: the two length constants, the derived unit sizes, the `UnitConversion` table (a map
  keyed by identifier string, as in the source), the unchecked conversion (`_convert`),
  the checked `convert`, and the four fixed-pair wrappers.
- `volume_properties.dfy`, module `VolumeProperties`: an independent table of unit sizes in
  cubic metres, and lemmas for identity, the general case, round trips, composition, zero,
  the fixed ratios and the wrappers.

`convert` takes its units as strings, so the unrecognized-unit path can be expressed. It takes
its magnitude as `Magnitude = Num(real) | NonNumeric`, which stands for the `isinstance(volume,
Number)` test. It returns `Outcome = Ok(real) | UnitNotRecognized(unit) | NotNumeric`. The error
carries only the offending identifier.

Two points of the model follow directly from the code:
- `_convert` (`homeassistant/util/volume.py:80-83`) indexes `UNIT_CONVERSION` directly and validates
  nothing. The `requires` of `RawConvert` stands for that: both units must be table keys.
- Over the reals the round trip is exact, so `RoundTrip` states it with `==`.

Some definitions carry no contract of their own and are pinned down by lemmas instead:
- `Volume.Cube` (the `pow(x, 3)` at lines 30 and 32 of `homeassistant/util/volume.py`) is covered by `SizeValues`, which fixes
  every derived size exactly.
- `VolumeUnits.Name` (the `VOLUME_*` identifiers imported at lines 9-14) is covered by
  `NameInjective`, `ValidUnitsAreNames` and `ValidUnitsDistinct`.
- The constants `ValidUnits`, `UnitConversion` and the `*ToCubicMeter` sizes are covered by
  `ValidUnitsAreNames`, `TableInvariants` and `SizeValues`.
- `VolumeUnits.Contains` models the tuple scan behind Python's `not in VALID_UNITS` test at
  lines 67 and 69. `Convert` uses it, and its contract makes it equal to sequence membership.

## Model

| member | source | states |
|---|---|---|
| `VolumeUnits.ValidUnitsAreNames` | homeassistant/util/volume.py:19-26 | a string is a valid unit exactly when it names one of the six units |
| `VolumeUnits.ValidUnitsDistinct` | homeassistant/util/volume.py:19-26 | the tuple has six entries and no identifier appears twice |
| `VolumeUnits.ContainsFrom` | homeassistant/util/volume.py:67 | scanning the tuple from position i finds the identifier exactly when it occurs at or after i |
| `VolumeUnits.Contains` | homeassistant/util/volume.py:69 | the scan reports an identifier exactly when it is in the tuple |
| `VolumeUnits.NameInjective` | homeassistant/util/volume.py:9-14 | the six unit identifiers are pairwise distinct |
| `Volume.SizeValues` | homeassistant/util/volume.py:28-32 | the derived sizes are exactly 0.001, 0.000001, 0.003785411784, 0.0000295735295625 and 0.028316846592 cubic metres |
| `Volume.Factor` | homeassistant/util/volume.py:35-42 | every unit has a table entry, and the entry is strictly positive |
| `Volume.TableInvariants` | homeassistant/util/volume.py:35-42 | the table's keys are exactly the valid identifiers, it has six entries, all strictly positive, and the cubic-metre entry is 1 |
| `Volume.TableKeys` | homeassistant/util/volume.py:19-42 | the table is keyed by exactly the six valid identifiers |
| `Volume.TablePositive` | homeassistant/util/volume.py:35-42 | every table entry is strictly positive, so the division in `_convert` is defined |
| `Volume.RawConvert` | homeassistant/util/volume.py:80-83 | the result denotes the same number of cubic metres as the input: result / to-factor = input / from-factor |
| `Volume.Convert` | homeassistant/util/volume.py:65-77 | an unknown from-unit is reported first; an unknown to-unit is reported next; the non-numeric error arises only when both units are valid; success exactly when both units are valid and the magnitude is numeric; equal units return the magnitude itself; a success preserves the amount in cubic metres |
| `Volume.LiterToGallon` | homeassistant/util/volume.py:45-47 | the result in gallons is the same volume as the input in litres |
| `Volume.GallonToLiter` | homeassistant/util/volume.py:50-52 | the result in litres is the same volume as the input in gallons |
| `Volume.CubicMeterToCubicFeet` | homeassistant/util/volume.py:55-57 | the result in cubic feet is the same volume as the input in cubic metres |
| `Volume.CubicFeetToCubicMeter` | homeassistant/util/volume.py:60-62 | the result is the input times the size of a cubic foot in cubic metres |
| `VolumeProperties.ReferenceSize` | homeassistant/util/volume.py:28-32 | every unit has a strictly positive size in cubic metres, written out as an exact decimal |
| `VolumeProperties.FactorIsReciprocalOfSize` | homeassistant/util/volume.py:35-42 | each table entry times the unit's reference size is exactly 1 |
| `VolumeProperties.ConvertGeneralCase` | homeassistant/util/volume.py:75-83 | for distinct valid units the result is (v / from-factor) * to-factor |
| `VolumeProperties.ConvertIdentity` | homeassistant/util/volume.py:75-76 | converting a unit to itself returns the magnitude unchanged |
| `VolumeProperties.ConvertMatchesReference` | homeassistant/util/volume.py:65-83 | every conversion between valid units equals v * size(from) / size(to) with the reference sizes |
| `VolumeProperties.RawMatchesReference` | homeassistant/util/volume.py:80-83 | `_convert` equals v * size(from) / size(to) with the reference sizes |
| `VolumeProperties.RawRoundTrip` | homeassistant/util/volume.py:80-83 | `_convert` from a to b and back returns the original magnitude |
| `VolumeProperties.RoundTrip` | homeassistant/util/volume.py:75-83 | converting from a to b and back from b to a returns the original magnitude |
| `VolumeProperties.ZeroPreserved` | homeassistant/util/volume.py:80-83 | zero converts to zero between any two valid units |
| `VolumeProperties.RawConvertComposes` | homeassistant/util/volume.py:80-83 | converting a to b and then b to c equals converting a to c |
| `VolumeProperties.FixedRatios` | homeassistant/util/volume.py:28-42 | 1 L is 1000 mL, 1 gal is 128 fl oz and 1 m³ is 1000 L |
| `VolumeProperties.WrappersDelegate` | homeassistant/util/volume.py:45-62 | each wrapper gives the same value as the checked conversion for its fixed unit pair |
| `VolumeProperties.WrapperInverses` | homeassistant/util/volume.py:45-62 | litres-to-gallons and gallons-to-litres undo each other, and so do the cubic metre and cubic foot wrappers |
| `VolumeProperties.WrapperKnownValues` | homeassistant/util/volume.py:45-62 | 1 gal is exactly 3.785411784 L, 3.785411784 L is exactly 1 gal, 1 m³ is within 1e-7 of 35.3146667 ft³, and 35.3146667 ft³ is within 1e-7 of 1 m³ |

## Left out

- IEEE-754 double rounding: the model computes over exact reals. It keeps the source's order (divide by the from-factor, then multiply by the to-factor), but over the reals that order changes nothing. The round trip is exact here, whereas in floating point it holds only to within rounding while results stay in the double range: past about 1.8e308 a result computed from a float input overflows to infinity (1e303 m³ to mL gives `inf`, and `inf` converts back to `inf`), a subnormal input can underflow to 0 (1e-320 mL to m³ gives 0.0), and the model over exact reals has neither. `RoundTrip`, `RawRoundTrip` and `WrapperInverses` therefore say nothing about such inputs.
- Error message text: `UNIT_NOT_RECOGNIZED_TEMPLATE` and `VOLUME` belong to `homeassistant/const`, which is not part of this model. The error carries only the offending identifier. The `TypeError` message, which shows the offending value, is reduced to `NotNumeric`.
- The unit identifier strings: they also come from `homeassistant/const`. The model uses Home Assistant's spellings, but only their distinctness matters to any proof.
- `IN_TO_M` and `FOOT_TO_M`: these come from `homeassistant/util/distance.py`, which is not part of this model. They are fixed at the exact values 0.0254 and 0.3048.
- Python's `numbers.Number` protocol: it becomes the two-case `Magnitude` type. Fractions, complex numbers, booleans, NaN and infinities are not distinguished. A `decimal.Decimal` is registered as a `numbers.Number` and so passes the numeric check, but it raises `TypeError` inside `_convert` for distinct units (a Decimal meets a float at line 82 or 83); `Convert` returns `Ok` there. An int outside the double range (such as `10**400`) also passes the check but raises `OverflowError` in `_convert` for distinct units; `Convert` returns `Ok` there.
- `_convert` with an unknown unit raises `KeyError` in the source. `RawConvert` instead requires both units to be table keys, which every caller in the module guarantees.
