# Ideal-gas density calculator: a Dafny model

This project models the computational core of the Density-Calculator
repository, a single Streamlit script, `DensityCalc.py`. The core has two parts:

- **`UnitConverter`** converts a scalar between pressure units (`barg`,
  `kg/cm2`, `pasig`, `kPa`, `pascal`, `mmH2O`) and between temperature units
  (`C`, `F`, `K`, `R`). Every conversion goes through a base unit: kPa for
  pressure and Kelvin for temperature. A tag the converter does not recognise
  is an error. `convert_density` is a stub: it returns the value when both
  tags are the same and fails otherwise.
- **The density computation** inside the button handler. The model extracts
  it as the pure function `DensityEngine.ComputeDensity`. It first rejects the
  input when Z ≤ 0 or the *raw* temperature value ≤ 0. It then converts
  pressure to kPa and then to Pa, temperature to K, and molecular weight from
  g/mol to kg/mol. Finally it evaluates `density = P·M / (Z·R·T)` with
  R = 8.314 J/(mol·K).

Quantities are Dafny `real`s, so every per-unit conversion is an exact
affine bijection. The round-trip, identity and composition laws therefore
hold exactly, not within a tolerance.

Unit tags stay strings at the converter's interface, as in the source. They
are parsed into the closed datatypes `Units.PressureUnit` and
`Units.TemperatureUnit`. This keeps the source's "unknown unit" error
reachable. Errors are values: `UnitConverter.ConversionError` stands for the
`ValueError`s of the converter, and `DensityEngine.DensityError` separates the
guard's rejection (`InvalidInput`) from a conversion failure (`UnitConversion`).
The handler reports errors in the order it meets them: the guard first, then
the pressure tag, then the temperature tag.

Files and modules:

- `results.dfy`, module `Results`: `Option` and `Result`.
- `units.dfy`, module `Units`: the unit datatypes, their tags, and parsing.
- `unit_converter.dfy`, module `UnitConverter`: the conversions.
- `conversion_laws.dfy`, module `ConversionLaws`: round trips, composition,
  monotonicity and fixed points.
- `density_engine.dfy`, module `DensityEngine`: the guard, the formula and
  `ComputeDensity`.
- `density_laws.dfy`, module `DensityLaws`: properties of the whole
  computation.

About the guard: it checks the raw temperature value, not the Kelvin value.
This is enough to keep the divisor positive in every temperature scale
(`DensityEngine.GuardGivesPositiveKelvin`). It is also stricter than
necessary: −10 °C is 263.15 K, yet it is rejected
(`DensityLaws.GuardRejectsRawNonPositive`). The model keeps the guard as
written.

About air: the figure often quoted for air at standard conditions,
1.2754 kg/m³, holds at 100 kPa. At 101.325 kPa, 273.15 K, 28.97 g/mol and
Z = 1, the code's formula gives about 1.2926 kg/m³. The model follows the code
(`DensityLaws.AirAtStandardConditions`).

## Model

| member | source | states |
|---|---|---|
| Units.PressureUnitName | DensityCalc.py:86 | every pressure unit's tag is one of the six pressure options |
| Units.TemperatureUnitName | DensityCalc.py:87 | every temperature unit's tag is one of the four temperature options |
| Units.ParsePressureUnit | DensityCalc.py:11-24 | a tag is accepted exactly when it is one of the six pressure tags; it then denotes the unique unit with that tag, and every other string is rejected |
| Units.ParseTemperatureUnit | DensityCalc.py:44-53 | a tag is accepted exactly when it is one of the four temperature tags; it then denotes the unique unit with that tag, and every other string is rejected |
| Units.ParseNameRoundTrip | DensityCalc.py:86-87 | parsing a unit's tag gives back that unit, so no two units share a tag |
| Units.UnknownTags | DensityCalc.py:23-24 | no tag names both a pressure and a temperature unit; "bar" and "K" are unknown pressure tags, and "kPa" and "c" are unknown temperature tags |
| UnitConverter.ToKPa | DensityCalc.py:11-22 | the kPa value of a reading is mapped back to the same reading by the inverse map of lines 27-38 (with the corrected "pasig" factor, see "## Left out") |
| UnitConverter.FromKPaIsInverse | DensityCalc.py:27-38 | the inverse map followed by the forward map is the identity on kPa, so each unit's pair of maps is a bijection |
| UnitConverter.ConvertPressureUnits | DensityCalc.py:9-40 | the result denotes the same absolute pressure (in kPa) as the input, and no other value does |
| UnitConverter.ConvertPressure | DensityCalc.py:9-40 | it succeeds exactly when both tags are known; an unknown source tag is reported first, then an unknown target tag; on success the result has the input's kPa value |
| UnitConverter.ToKPaAsWritten | DensityCalc.py:11-22 | the source's forward map agrees with `ToKPa` on every unit except "pasig", and it is inverted by the source's own step 2 |
| UnitConverter.ToKelvin | DensityCalc.py:44-51 | the Kelvin value of a reading is mapped back to the same reading by the inverse map of lines 56-63 |
| UnitConverter.FromKelvinIsInverse | DensityCalc.py:56-63 | the inverse map followed by the forward map is the identity on Kelvin |
| UnitConverter.ConvertTemperatureUnits | DensityCalc.py:42-65 | the result denotes the same absolute temperature (in K) as the input, and no other value does |
| UnitConverter.ConvertTemperature | DensityCalc.py:42-65 | it succeeds exactly when both tags are known; an unknown source tag is reported first, then an unknown target tag; on success the result has the input's Kelvin value |
| UnitConverter.ConvertDensity | DensityCalc.py:68-71 | it succeeds exactly when the two tags are equal, including tags no other conversion knows; it then returns the value unchanged and otherwise fails with "not implemented" |
| ConversionLaws.PressureRoundTrip | DensityCalc.py:11-40 | U → kPa → U returns the original value for every pressure unit |
| ConversionLaws.PressureSameUnit | DensityCalc.py:17-18 | converting a pressure to its own unit is the identity |
| ConversionLaws.PressureThroughBase | DensityCalc.py:33-34 | a direct conversion equals the two-leg conversion through kPa |
| ConversionLaws.PressureChain | DensityCalc.py:9-40 | A → B → C equals A → C for any intermediate unit B |
| ConversionLaws.PressureConversionOnto | DensityCalc.py:9-40 | every reading in the target unit is the conversion of some reading in the source unit; with the uniqueness in `ConvertPressureUnits`, each conversion is a bijection |
| ConversionLaws.PressureMonotone | DensityCalc.py:11-38 | every pressure conversion is strictly increasing |
| ConversionLaws.ConvertPressureRoundTrip | DensityCalc.py:9-40 | through the string interface, a known tag round-trips through "kPa" |
| ConversionLaws.PressureFixedPoints | DensityCalc.py:9-40 | 0 barg is 101.325 kPa, 1 kg/cm2 is 98.0665 kPa, 1 kPa is 1000 pascal, and "bar" fails as a source or target tag |
| ConversionLaws.TemperatureRoundTrip | DensityCalc.py:44-65 | U → K → U returns the original value for every temperature unit |
| ConversionLaws.TemperatureSameUnit | DensityCalc.py:48-49 | converting a temperature to its own unit is the identity |
| ConversionLaws.TemperatureThroughBase | DensityCalc.py:60-61 | a direct conversion equals the two-leg conversion through Kelvin |
| ConversionLaws.TemperatureChain | DensityCalc.py:42-65 | A → B → C equals A → C for any intermediate unit B |
| ConversionLaws.TemperatureConversionOnto | DensityCalc.py:42-65 | every reading in the target unit is the conversion of some reading in the source unit, so each temperature conversion is a bijection |
| ConversionLaws.TemperatureMonotone | DensityCalc.py:44-63 | every temperature conversion is strictly increasing |
| ConversionLaws.ConvertTemperatureRoundTrip | DensityCalc.py:42-65 | through the string interface, a known tag round-trips through "K" |
| ConversionLaws.TemperatureFixedPoints | DensityCalc.py:44-65 | 0 °C is 273.15 K, 32 °F is 0 °C, 273.15 K is 491.67 °R, absolute zero is 0 °R and −459.67 °F, and an unknown tag fails |
| ConversionLaws.DensityStub | DensityCalc.py:68-71 | equal tags give the value back; distinct tags always fail |
| ConversionLaws.PsigFactorAsWrittenIsThousandfoldSmall | DensityCalc.py:15-16 | as written, a "pasig" reading's kPa value is one thousandth of the correct one, so 14.696 psi comes out near 0.1013 kPa |
| ConversionLaws.PsigAgreesWithOtherUnits | DensityCalc.py:15-16 | with the corrected factor, 14.696 psi is about 101.325 kPa, 14.5038 psi is about 100 kPa, and 1 psi is about 703.1 mmH2O |
| DensityEngine.GuardGivesPositiveKelvin | DensityCalc.py:114-130 | a raw temperature above zero is above 0 K in all four scales, so the guard keeps the formula's divisor positive |
| DensityEngine.EvaluateDensity | DensityCalc.py:135-143 | the result holds P·1000 Pa, T K and M/1000 kg/mol, and its density satisfies density·(Z·R·T) = P_Pa·M_kg |
| DensityEngine.ComputeDensity | DensityCalc.py:113-143 | it gives `InvalidInput` exactly when Z ≤ 0 or the raw temperature ≤ 0; past the guard an unknown pressure tag and then an unknown temperature tag are reported; it succeeds exactly when the guard passes and both tags are known; on success T_K > 0, Z·R·T_K > 0, P_Pa is 1000 times the input's kPa value, T_K is the input's Kelvin value, M_kg·1000 = M, and the ideal gas law holds |
| DensityLaws.GasLawDeterminesDensity | DensityCalc.py:139-143 | with a positive divisor, the gas-law relation determines the density uniquely |
| DensityLaws.ComputeDensityIsFormula | DensityCalc.py:114-143 | past the guard and with known tags, the handler is the formula applied to the kPa and Kelvin values of the inputs |
| DensityLaws.DensityIndependentOfUnits | DensityCalc.py:119-143 | two admitted inputs that describe the same gas state in any units give the same result |
| DensityLaws.FormulaProportionalToMolecularWeight | DensityCalc.py:136-143 | scaling M by k scales the formula's density by k |
| DensityLaws.FormulaInverseInCompressibility | DensityCalc.py:139-143 | scaling Z by k > 0 divides the formula's density by k |
| DensityLaws.FormulaIncreasesWithPressure | DensityCalc.py:135-143 | for M > 0, the formula's density strictly increases with pressure |
| DensityLaws.FormulaDecreasesWithTemperature | DensityCalc.py:139-143 | for M > 0 and P > 0, the formula's density strictly decreases as the Kelvin temperature rises |
| DensityLaws.DensityProportionalToMolecularWeight | DensityCalc.py:114-143 | for an admitted input, scaling the molecular weight by any k keeps it admitted and scales the density by k |
| DensityLaws.DensityInverseInCompressibility | DensityCalc.py:114-143 | for an admitted input, scaling Z by k > 0 keeps it admitted and divides the density by k |
| DensityLaws.DensityIncreasesWithPressure | DensityCalc.py:114-143 | for an admitted input with M > 0, a higher pressure in the same unit gives a strictly higher density |
| DensityLaws.DensityDecreasesWithTemperature | DensityCalc.py:114-143 | for an admitted input with M > 0 and a positive absolute pressure, a higher temperature in the same unit gives a strictly lower density |
| DensityLaws.GuardRejectsRawNonPositive | DensityCalc.py:114-116 | −10 °C (263.15 K) is rejected, Z = 0 is rejected, and a raw temperature of 0 is rejected before an unknown pressure tag is looked at |
| DensityLaws.GuardAgainstAbsoluteZero | DensityCalc.py:114-130 | on K and R, the raw guard admits exactly the readings above absolute zero; on C and F, some reading at or below zero that is above absolute zero is rejected |
| DensityLaws.UnknownTagsAreReported | DensityCalc.py:119-130 | past the guard, an unknown pressure tag is reported even when the temperature tag is also unknown, and then an unknown temperature tag is reported |
| DensityLaws.AirAtStandardConditions | DensityCalc.py:78-143 | air at 101.325 kPa, 273.15 K and 28.97 g/mol with Z = 1 has a density between 1.2925 and 1.2926 kg/m³ |

## Left out

- Streamlit widgets, layout, button handling and default input values (DensityCalc.py:80-111): this is user interface. The caller supplies the values and the tags.
- The `min_value=0.0` constraint on the Z widget (line 106): a widget constraint. The model relies only on the guard at line 114.
- Result display and message text (`st.success`, `st.info`, `st.error`) and the `.3f`/`.2f`/`.4f` rounding (lines 115, 145-158): presentation. Errors are modelled as data that carries the offending tag.
- The catch-all `except Exception` branch (lines 157-158): over exact reals, once the guard has passed, no step can fail except through an unknown tag. The only candidate, division by zero, is excluded by `DensityEngine.GuardGivesPositiveKelvin`.
- IEEE-754 floating point: all quantities are exact reals, and `5/9` and `9/5` are exact fractions. Rounding error is not modelled.
- The module-level `converter` instance (line 75): the converter is stateless, so its operations are plain functions.
- Gauge offsets for "pasig" and "kg/cm2": the source applies the atmospheric offset only to "barg" and treats the other two as absolute scales. The model keeps this, since the intent cannot be established from the code.
- UnitConverter.ToKPa: its "pasig" branch uses the corrected factor 6.89476 kPa per psi, not the 0.00689476 written at DensityCalc.py:16, so a "pasig" reading comes out 1000 times the program's kPa value (see "## Findings"; `UnitConverter.ToKPaAsWritten` keeps the written factor).
- UnitConverter.ConvertPressureUnits: built on the corrected `ToKPa`. From "pasig", the kPa intermediate is 1000 times the program's. The result is therefore 1000 times the program's for every target except "barg", where the 101.325 kPa offset breaks the ratio, and "pasig", where both give the identity. A result in "pasig" from any other unit is one thousandth of the program's. All other unit pairs are as written.
- UnitConverter.ConvertPressure: for the tag "pasig" the value is the corrected one, e.g. `ConvertPressure(1.0, "pasig", "kPa")` is 6.89476 where the program returns 0.00689476; tag handling and error order are as written.
- DensityEngine.ComputeDensity: with pressure tag "pasig" the density is 1000 times the program's, because the pressure goes through the corrected `ToKPa`; every other path, including the guard and the error order, is as written.
- DensityEngine.EvaluateDensity: requires Z > 0 and a positive Kelvin temperature. The source reaches lines 135-143 only after the guard at line 114, and by `DensityEngine.GuardGivesPositiveKelvin` that guard establishes both.
- Molecular weight is not validated, as in the source. The monotonicity lemmas assume M > 0 only for their own conclusions.

## Findings

| source | as written | input that shows it | evidently intended | confidence | as-written member | corrected member |
|---|---|---|---|---|---|---|
| DensityCalc.py:15-16, 31-32 | "pasig" is scaled by 0.00689476 kPa per psi | 1 pasig becomes 0.00689476 kPa, and 14.696 pasig (one atmosphere) becomes about 0.1013 kPa | 1 psi = 6.89476 kPa; the written factor is the psi-to-MPa factor | high; not executed | ConversionLaws.PsigFactorAsWrittenIsThousandfoldSmall (on UnitConverter.ToKPaAsWritten) | ConversionLaws.PsigAgreesWithOtherUnits (on UnitConverter.ToKPa, which the rest of the model uses) |
