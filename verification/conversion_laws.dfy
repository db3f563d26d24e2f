/** Algebraic laws of the unit conversions: round trips through the base
    unit, identity, composition, order preservation and the fixed points the
    source's constants pin down. */
module ConversionLaws {
  import opened Results
  import opened Units
  import opened UnitConverter

  // ---------------------------------------------------------------- pressure

  /** U -> kPa -> U returns the value unchanged, for every pressure unit. */
  lemma PressureRoundTrip(v: real, u: PressureUnit)
    ensures ConvertPressureUnits(ConvertPressureUnits(v, u, KPa), KPa, u) == v
  {
  }

  /** Converting a value to its own unit is the identity. */
  lemma PressureSameUnit(v: real, u: PressureUnit)
    ensures ConvertPressureUnits(v, u, u) == v
  {
  }

  /** A direct conversion equals the two-leg conversion through kPa. */
  lemma PressureThroughBase(v: real, a: PressureUnit, b: PressureUnit)
    ensures ConvertPressureUnits(v, a, b) == ConvertPressureUnits(ConvertPressureUnits(v, a, KPa), KPa, b)
  {
  }

  /** Conversions compose: A -> B -> C equals A -> C, for any intermediate B. */
  lemma PressureChain(v: real, a: PressureUnit, b: PressureUnit, c: PressureUnit)
    ensures ConvertPressureUnits(ConvertPressureUnits(v, a, b), b, c) == ConvertPressureUnits(v, a, c)
  {
  }

  /** Every pressure conversion is onto: each reading `w` in `b` is the
      conversion of some reading in `a` (and, by the contract of
      `ConvertPressureUnits`, of only one). */
  lemma PressureConversionOnto(w: real, a: PressureUnit, b: PressureUnit)
    ensures exists v :: ConvertPressureUnits(v, a, b) == w
  {
    var v := ConvertPressureUnits(w, b, a);
    PressureChain(w, b, a, b);
    PressureSameUnit(w, b);
    assert ConvertPressureUnits(v, a, b) == w;
  }

  /** Every pressure conversion is strictly increasing. */
  lemma PressureMonotone(v: real, w: real, a: PressureUnit, b: PressureUnit)
    requires v < w
    ensures ConvertPressureUnits(v, a, b) < ConvertPressureUnits(w, a, b)
  {
  }

  /** On the string interface: a known tag round-trips through "kPa". */
  lemma ConvertPressureRoundTrip(v: real, unit: string)
    requires unit in PressureUnitNames
    ensures ConvertPressure(v, unit, "kPa").Success?
    ensures ConvertPressure(ConvertPressure(v, unit, "kPa").value, "kPa", unit) == Success(v)
  {
  }

  /** Zero gauge is one standard atmosphere, one kg/cm2 is 98.0665 kPa, and
      "bar" is not a recognised tag. */
  lemma PressureFixedPoints()
    ensures ConvertPressure(0.0, "barg", "kPa") == Success(101.325)
    ensures ConvertPressure(1.0, "kg/cm2", "kPa") == Success(98.0665)
    ensures ConvertPressure(1.0, "kPa", "pascal") == Success(1000.0)
    ensures ConvertPressure(1.0, "bar", "kPa") == Failure(UnknownPressureUnit("bar"))
    ensures ConvertPressure(1.0, "kPa", "bar") == Failure(UnknownPressureUnit("bar"))
  {
  }

  // ------------------------------------------------------------- temperature

  lemma TemperatureRoundTrip(v: real, u: TemperatureUnit)
    ensures ConvertTemperatureUnits(ConvertTemperatureUnits(v, u, Kelvin), Kelvin, u) == v
  {
  }

  lemma TemperatureSameUnit(v: real, u: TemperatureUnit)
    ensures ConvertTemperatureUnits(v, u, u) == v
  {
  }

  lemma TemperatureThroughBase(v: real, a: TemperatureUnit, b: TemperatureUnit)
    ensures ConvertTemperatureUnits(v, a, b) == ConvertTemperatureUnits(ConvertTemperatureUnits(v, a, Kelvin), Kelvin, b)
  {
  }

  lemma TemperatureChain(v: real, a: TemperatureUnit, b: TemperatureUnit, c: TemperatureUnit)
    ensures ConvertTemperatureUnits(ConvertTemperatureUnits(v, a, b), b, c) == ConvertTemperatureUnits(v, a, c)
  {
  }

  lemma TemperatureConversionOnto(w: real, a: TemperatureUnit, b: TemperatureUnit)
    ensures exists v :: ConvertTemperatureUnits(v, a, b) == w
  {
    var v := ConvertTemperatureUnits(w, b, a);
    TemperatureChain(w, b, a, b);
    TemperatureSameUnit(w, b);
    assert ConvertTemperatureUnits(v, a, b) == w;
  }

  lemma TemperatureMonotone(v: real, w: real, a: TemperatureUnit, b: TemperatureUnit)
    requires v < w
    ensures ConvertTemperatureUnits(v, a, b) < ConvertTemperatureUnits(w, a, b)
  {
  }

  lemma ConvertTemperatureRoundTrip(v: real, unit: string)
    requires unit in TemperatureUnitNames
    ensures ConvertTemperature(v, unit, "K").Success?
    ensures ConvertTemperature(ConvertTemperature(v, unit, "K").value, "K", unit) == Success(v)
  {
  }

  /** Freezing point of water and absolute zero in every scale. */
  lemma TemperatureFixedPoints()
    ensures ConvertTemperature(0.0, "C", "K") == Success(273.15)
    ensures ConvertTemperature(32.0, "F", "C") == Success(0.0)
    ensures ConvertTemperature(273.15, "K", "R") == Success(491.67)
    ensures ConvertTemperature(-273.15, "C", "R") == Success(0.0)
    ensures ConvertTemperature(-459.67, "F", "K") == Success(0.0)
    ensures ConvertTemperature(1.0, "K", "Celsius") == Failure(UnknownTemperatureUnit("Celsius"))
  {
  }

  // ----------------------------------------------------------------- density

  /** The density stub is the identity for equal tags, even ones no other
      conversion knows, and fails for every distinct pair. */
  lemma DensityStub(v: real, a: string, b: string)
    ensures ConvertDensity(v, a, a) == Success(v)
    ensures a != b ==> ConvertDensity(v, a, b) == Failure(DensityConversionNotImplemented)
  {
  }

  // ---------------------------------------------------- psi factor as written

  /** As written, "pasig" reads psi as thousandths of the kPa value it should
      be: one standard atmosphere (14.696 psi) comes out as about 0.1 kPa. */
  lemma PsigFactorAsWrittenIsThousandfoldSmall(v: real)
    ensures ToKPaAsWritten(v, Psig) * 1000.0 == ToKPa(v, Psig)
    ensures 0.1013 < ToKPaAsWritten(14.696, Psig) < 0.1014
  {
  }

  /** With the corrected factor, psi agrees with the other units: one
      atmosphere is 14.696 psi, one bar is 14.5038 psi, and one psi is about
      703.1 mm of water. */
  lemma PsigAgreesWithOtherUnits()
    ensures 101.32 < ConvertPressureUnits(14.696, Psig, KPa) < 101.33
    ensures 99.99 < ConvertPressureUnits(14.5038, Psig, KPa) < 100.01
    ensures 703.0 < ConvertPressureUnits(1.0, Psig, MmH2O) < 703.2
  {
  }
}
