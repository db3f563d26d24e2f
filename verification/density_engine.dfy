/** The ideal-gas density computation of the calculator's button handler
    (DensityCalc.py:113-143), as a pure function returning a result or an
    error instead of writing to the page. */
module DensityEngine {
  import opened Results
  import opened Units
  import opened UnitConverter

  /** Universal gas constant in J/(mol K) (DensityCalc.py:78). */
  const UniversalGasConstant: real := 8.314

  /** The values the form collects; unit tags are the selectbox strings. */
  datatype DensityInputs = DensityInputs(
    pressure: real,
    pressureUnit: string,
    temperature: real,
    temperatureUnit: string,
    molecularWeight: real,          // g/mol
    compressibilityFactor: real)    // Z, dimensionless

  /** The density together with the SI values it was computed from. */
  datatype DensityResult = DensityResult(
    density: real,                  // kg/m^3
    pressurePa: real,
    temperatureK: real,
    molecularWeightKgPerMol: real)

  /** `InvalidInput` is the guard's error message; `UnitConversion` is the
      `ValueError` branch of the handler. */
  datatype DensityError = InvalidInput | UnitConversion(cause: ConversionError)

  /** The handler's guard, on the raw values in the input's own units. */
  predicate GuardPasses(inputs: DensityInputs)
  {
    inputs.compressibilityFactor > 0.0 && inputs.temperature > 0.0
  }

  /** The ideal gas law with compressibility factor, as a relation. */
  ghost predicate SatisfiesGasLaw(density: real, pressurePa: real, molecularWeightKgPerMol: real, z: real, temperatureK: real)
  {
    density * (z * UniversalGasConstant * temperatureK) == pressurePa * molecularWeightKgPerMol
  }

  /** A raw temperature above zero is above absolute zero in every scale the
      converter knows, so the guard keeps the formula's divisor positive. */
  lemma GuardGivesPositiveKelvin(t: real, u: TemperatureUnit)
    requires t > 0.0
    ensures ToKelvin(t, u) > 0.0
  {
  }

  /** The formula step (DensityCalc.py:135-143): kPa to Pa, g/mol to kg/mol,
      then density = P M / (Z R T). Only reached once the guard has passed, so
      Z and the Kelvin temperature are positive here. */
  function EvaluateDensity(pressureKPa: real, temperatureK: real, molecularWeight: real, z: real): (r: DensityResult)
    requires z > 0.0 && temperatureK > 0.0
    ensures r.pressurePa == pressureKPa * 1000.0
    ensures r.temperatureK == temperatureK
    ensures r.molecularWeightKgPerMol * 1000.0 == molecularWeight
    ensures SatisfiesGasLaw(r.density, r.pressurePa, r.molecularWeightKgPerMol, z, temperatureK)
  {
    var pressurePa := pressureKPa * 1000.0;
    var molecularWeightKgPerMol := molecularWeight / 1000.0;
    var denominator := z * UniversalGasConstant * temperatureK;
    DensityResult(pressurePa * molecularWeightKgPerMol / denominator,
                  pressurePa, temperatureK, molecularWeightKgPerMol)
  }

  /** The handler from the guard to the formula (DensityCalc.py:113-143).
      Errors surface in the order the code meets them: the guard, then the
      pressure tag, then the temperature tag. */
  function ComputeDensity(inputs: DensityInputs): (r: Result<DensityResult, DensityError>)
    ensures r == Failure(InvalidInput) <==> !GuardPasses(inputs)
    ensures r.Success? <==>
              GuardPasses(inputs) && inputs.pressureUnit in PressureUnitNames
              && inputs.temperatureUnit in TemperatureUnitNames
    ensures GuardPasses(inputs) && inputs.pressureUnit !in PressureUnitNames ==>
              r == Failure(UnitConversion(UnknownPressureUnit(inputs.pressureUnit)))
    ensures GuardPasses(inputs) && inputs.pressureUnit in PressureUnitNames
            && inputs.temperatureUnit !in TemperatureUnitNames ==>
              r == Failure(UnitConversion(UnknownTemperatureUnit(inputs.temperatureUnit)))
    ensures r.Success? ==>
              && r.value.temperatureK > 0.0
              && inputs.compressibilityFactor * UniversalGasConstant * r.value.temperatureK > 0.0
              && r.value.molecularWeightKgPerMol * 1000.0 == inputs.molecularWeight
              && SatisfiesGasLaw(r.value.density, r.value.pressurePa, r.value.molecularWeightKgPerMol,
                                 inputs.compressibilityFactor, r.value.temperatureK)
    ensures forall pu :: PressureUnitName(pu) == inputs.pressureUnit && r.Success? ==>
              r.value.pressurePa == ToKPa(inputs.pressure, pu) * 1000.0
    ensures forall tu :: TemperatureUnitName(tu) == inputs.temperatureUnit && r.Success? ==>
              r.value.temperatureK == ToKelvin(inputs.temperature, tu)
  {
    if inputs.compressibilityFactor <= 0.0 || inputs.temperature <= 0.0 then
      Failure(InvalidInput)
    else
      match ConvertPressure(inputs.pressure, inputs.pressureUnit, "kPa")
      case Failure(e) => Failure(UnitConversion(e))
      case Success(pressureKPa) =>
        match ConvertTemperature(inputs.temperature, inputs.temperatureUnit, "K")
        case Failure(e) => Failure(UnitConversion(e))
        case Success(temperatureK) =>
          Success(EvaluateDensity(pressureKPa, temperatureK, inputs.molecularWeight, inputs.compressibilityFactor))
  }
}
