/** Properties of the density computation as a whole: what the guard admits,
    that the result depends on the physical state and not on the unit tags
    used to express it, and how the density responds to each input. */
module DensityLaws {
  import opened Results
  import opened Units
  import opened UnitConverter
  import opened DensityEngine

  /** The gas law fixes the density once its divisor is positive. */
  lemma GasLawDeterminesDensity(d1: real, d2: real, p: real, m: real, z: real, t: real)
    requires z * UniversalGasConstant * t > 0.0
    requires SatisfiesGasLaw(d1, p, m, z, t) && SatisfiesGasLaw(d2, p, m, z, t)
    ensures d1 == d2
  {
    assert (d1 - d2) * (z * UniversalGasConstant * t) == 0.0;
  }

  // ------------------------------------------------- the formula on its own

  /** Stated on two results rather than on `EvaluateDensity(...).density`
      directly: at the call site the Kelvin argument carries the definition
      of `ToKelvin`, and the solver cannot then use the direct form. */
  lemma FormulaProportionalToMolecularWeight(p: real, t: real, m: real, z: real, k: real,
                                             r: DensityResult, r': DensityResult)
    requires z > 0.0 && t > 0.0
    requires r == EvaluateDensity(p, t, m, z) && r' == EvaluateDensity(p, t, k * m, z)
    ensures r'.density == k * r.density
  {
  }

  lemma FormulaInverseInCompressibility(p: real, t: real, m: real, z: real, k: real)
    requires z > 0.0 && t > 0.0 && k > 0.0
    ensures k * EvaluateDensity(p, t, m, k * z).density == EvaluateDensity(p, t, m, z).density
  {
  }

  lemma FormulaIncreasesWithPressure(p: real, p': real, t: real, m: real, z: real)
    requires z > 0.0 && t > 0.0 && m > 0.0 && p < p'
    ensures EvaluateDensity(p, t, m, z).density < EvaluateDensity(p', t, m, z).density
  {
  }

  lemma FormulaDecreasesWithTemperature(p: real, t: real, t': real, m: real, z: real)
    requires z > 0.0 && 0.0 < t < t' && m > 0.0 && p > 0.0
    ensures EvaluateDensity(p, t, m, z).density > EvaluateDensity(p, t', m, z).density
  {
  }

  // ----------------------------------------------- the handler as a whole

  /** Past the guard, with both tags known, the handler is exactly the formula
      applied to the kPa and Kelvin values of the inputs. */
  lemma ComputeDensityIsFormula(a: DensityInputs, pu: PressureUnit, tu: TemperatureUnit)
    requires GuardPasses(a)
    requires a.pressureUnit == PressureUnitName(pu) && a.temperatureUnit == TemperatureUnitName(tu)
    ensures ToKelvin(a.temperature, tu) > 0.0
    ensures ComputeDensity(a) ==
              Success(EvaluateDensity(ToKPa(a.pressure, pu), ToKelvin(a.temperature, tu),
                                      a.molecularWeight, a.compressibilityFactor))
  {
  }

  /** Two inputs that describe the same gas state, whatever units they use,
      give the same result. */
  lemma DensityIndependentOfUnits(a: DensityInputs, b: DensityInputs,
                                  pa: PressureUnit, pb: PressureUnit, ta: TemperatureUnit, tb: TemperatureUnit)
    requires a.pressureUnit == PressureUnitName(pa) && b.pressureUnit == PressureUnitName(pb)
    requires a.temperatureUnit == TemperatureUnitName(ta) && b.temperatureUnit == TemperatureUnitName(tb)
    requires GuardPasses(a) && GuardPasses(b)
    requires a.molecularWeight == b.molecularWeight && a.compressibilityFactor == b.compressibilityFactor
    requires ToKPa(a.pressure, pa) == ToKPa(b.pressure, pb)
    requires ToKelvin(a.temperature, ta) == ToKelvin(b.temperature, tb)
    ensures ComputeDensity(a) == ComputeDensity(b)
  {
    var ra, rb := ComputeDensity(a).value, ComputeDensity(b).value;
    assert ra.pressurePa == rb.pressurePa;
    assert ra.temperatureK == rb.temperatureK;
    GasLawDeterminesDensity(ra.density, rb.density, ra.pressurePa, ra.molecularWeightKgPerMol,
                            a.compressibilityFactor, ra.temperatureK);
  }

  /** Density is proportional to molecular weight. */
  lemma DensityProportionalToMolecularWeight(a: DensityInputs, k: real)
    requires ComputeDensity(a).Success?
    ensures ComputeDensity(a.(molecularWeight := k * a.molecularWeight)).Success?
    ensures ComputeDensity(a.(molecularWeight := k * a.molecularWeight)).value.density
            == k * ComputeDensity(a).value.density
  {
    var b := a.(molecularWeight := k * a.molecularWeight);
    var pu, tu := ParsePressureUnit(a.pressureUnit).value, ParseTemperatureUnit(a.temperatureUnit).value;
    var kpa, kelvin := ToKPa(a.pressure, pu), ToKelvin(a.temperature, tu);
    ComputeDensityIsFormula(a, pu, tu);
    ComputeDensityIsFormula(b, pu, tu);
    FormulaProportionalToMolecularWeight(kpa, kelvin, a.molecularWeight, a.compressibilityFactor, k,
                                         ComputeDensity(a).value, ComputeDensity(b).value);
  }

  /** Density is inversely proportional to the compressibility factor. */
  lemma DensityInverseInCompressibility(a: DensityInputs, k: real)
    requires ComputeDensity(a).Success? && k > 0.0
    ensures ComputeDensity(a.(compressibilityFactor := k * a.compressibilityFactor)).Success?
    ensures k * ComputeDensity(a.(compressibilityFactor := k * a.compressibilityFactor)).value.density
            == ComputeDensity(a).value.density
  {
    var pu, tu := ParsePressureUnit(a.pressureUnit).value, ParseTemperatureUnit(a.temperatureUnit).value;
    ComputeDensityIsFormula(a, pu, tu);
    ComputeDensityIsFormula(a.(compressibilityFactor := k * a.compressibilityFactor), pu, tu);
    var kpa, kelvin := ToKPa(a.pressure, pu), ToKelvin(a.temperature, tu);
    FormulaInverseInCompressibility(kpa, kelvin, a.molecularWeight, a.compressibilityFactor, k);
  }

  /** For a positive molecular weight, a higher pressure in the same unit
      gives a strictly higher density. */
  lemma DensityIncreasesWithPressure(a: DensityInputs, p: real)
    requires ComputeDensity(a).Success? && a.molecularWeight > 0.0 && a.pressure < p
    ensures ComputeDensity(a.(pressure := p)).Success?
    ensures ComputeDensity(a).value.density < ComputeDensity(a.(pressure := p)).value.density
  {
    var pu, tu := ParsePressureUnit(a.pressureUnit).value, ParseTemperatureUnit(a.temperatureUnit).value;
    ComputeDensityIsFormula(a, pu, tu);
    ComputeDensityIsFormula(a.(pressure := p), pu, tu);
    var kpa, kelvin := ToKPa(a.pressure, pu), ToKelvin(a.temperature, tu);
    FormulaIncreasesWithPressure(kpa, ToKPa(p, pu), kelvin, a.molecularWeight, a.compressibilityFactor);
  }

  /** For a positive molecular weight and absolute pressure, a higher
      temperature in the same unit gives a strictly lower density. */
  lemma DensityDecreasesWithTemperature(a: DensityInputs, t: real)
    requires ComputeDensity(a).Success? && a.molecularWeight > 0.0 && a.temperature < t
    requires ComputeDensity(a).value.pressurePa > 0.0
    ensures ComputeDensity(a.(temperature := t)).Success?
    ensures ComputeDensity(a).value.density > ComputeDensity(a.(temperature := t)).value.density
  {
    var pu, tu := ParsePressureUnit(a.pressureUnit).value, ParseTemperatureUnit(a.temperatureUnit).value;
    ComputeDensityIsFormula(a, pu, tu);
    ComputeDensityIsFormula(a.(temperature := t), pu, tu);
    var kpa, kelvin := ToKPa(a.pressure, pu), ToKelvin(a.temperature, tu);
    FormulaDecreasesWithTemperature(kpa, kelvin, ToKelvin(t, tu), a.molecularWeight, a.compressibilityFactor);
  }

  /** The guard looks at the raw value: -10 C is rejected although it is
      263.15 K, and Z = 0 is rejected whatever the other inputs. */
  lemma GuardRejectsRawNonPositive(pressure: real, mw: real)
    ensures ToKelvin(-10.0, Celsius) == 263.15
    ensures ComputeDensity(DensityInputs(pressure, "kPa", -10.0, "C", mw, 1.0)) == Failure(InvalidInput)
    ensures ComputeDensity(DensityInputs(pressure, "kPa", 300.0, "K", mw, 0.0)) == Failure(InvalidInput)
    ensures ComputeDensity(DensityInputs(pressure, "bar", 0.0, "K", mw, 1.0)) == Failure(InvalidInput)
  {
  }

  /** On the absolute scales the raw guard is exactly "above absolute zero";
      on Celsius and Fahrenheit it also rejects readings above absolute zero. */
  lemma GuardAgainstAbsoluteZero(u: TemperatureUnit)
    ensures u == Kelvin || u == Rankine ==> forall t :: t > 0.0 <==> ToKelvin(t, u) > 0.0
    ensures u == Celsius || u == Fahrenheit ==> exists t :: t <= 0.0 && ToKelvin(t, u) > 0.0
  {
    if u == Celsius || u == Fahrenheit {
      assert ToKelvin(-10.0, u) > 0.0;
    }
  }

  /** Unknown tags are reported after the guard, pressure before temperature. */
  lemma UnknownTagsAreReported(mw: real)
    ensures ComputeDensity(DensityInputs(1.0, "bar", 300.0, "K", mw, 1.0))
            == Failure(UnitConversion(UnknownPressureUnit("bar")))
    ensures ComputeDensity(DensityInputs(1.0, "bar", 300.0, "Kelvin", mw, 1.0))
            == Failure(UnitConversion(UnknownPressureUnit("bar")))
    ensures ComputeDensity(DensityInputs(1.0, "kPa", 300.0, "Kelvin", mw, 1.0))
            == Failure(UnitConversion(UnknownTemperatureUnit("Kelvin")))
  {
  }

  /** Air (28.97 g/mol) at 101.325 kPa and 273.15 K with Z = 1. */
  lemma AirAtStandardConditions()
    ensures ComputeDensity(DensityInputs(101.325, "kPa", 273.15, "K", 28.97, 1.0)).Success?
    ensures 1.2925 < ComputeDensity(DensityInputs(101.325, "kPa", 273.15, "K", 28.97, 1.0)).value.density < 1.2926
  {
  }
}
