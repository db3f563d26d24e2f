/** `UnitConverter` (DensityCalc.py:8-71): scalar conversions that always pass
    through a base unit, kPa for pressure and Kelvin for temperature. Values
    are exact reals, so every per-unit map is an exact bijection. */
module UnitConverter {
  import opened Results
  import opened Units

  /** Why a conversion produced no value; the source raises `ValueError` with
      the offending tag in the message. */
  datatype ConversionError =
    | UnknownPressureUnit(unit: string)
    | UnknownTemperatureUnit(unit: string)
    | DensityConversionNotImplemented

  /** kPa per psi: one psi is 6.894757 kPa, rounded here to 6.89476. The
      source writes 0.00689476 instead (see `PsigFactorAsWritten`); the model
      uses this corrected factor for "pasig" everywhere except the
      `...AsWritten` members. */
  const KPaPerPsi: real := 6.89476

  /** The factor the source actually writes for "pasig" (DensityCalc.py:16, 32). */
  const PsigFactorAsWritten: real := 0.00689476

  // ---------------------------------------------------------------- pressure

  /** Step 1 of `convert_pressure`: a value in `u` expressed in kPa. */
  function ToKPa(v: real, u: PressureUnit): (b: real)
    ensures FromKPa(b, u) == v
  {
    match u
    case Barg => v * 100.0 + 101.325
    case KgPerCm2 => v * 98.0665
    case Psig => v * KPaPerPsi
    case KPa => v
    case Pascal => v / 1000.0
    case MmH2O => v * 0.00980638
  }

  /** Step 2 of `convert_pressure`: a kPa value expressed in `u`. */
  function FromKPa(b: real, u: PressureUnit): (v: real)
  {
    match u
    case Barg => (b - 101.325) / 100.0
    case KgPerCm2 => b / 98.0665
    case Psig => b / KPaPerPsi
    case KPa => b
    case Pascal => b * 1000.0
    case MmH2O => b / 0.00980638
  }

  /** Conversion between two known pressure units: the result denotes the same
      absolute pressure as the input, and is the only value that does. */
  function ConvertPressureUnits(v: real, from: PressureUnit, to: PressureUnit): (r: real)
    ensures ToKPa(r, to) == ToKPa(v, from)
    ensures forall w :: ToKPa(w, to) == ToKPa(v, from) ==> w == r
  {
    FromKPaIsInverse(ToKPa(v, from), to);
    FromKPa(ToKPa(v, from), to)
  }

  /** `convert_pressure` on the source's string tags: an unknown source tag is
      reported first, then an unknown target tag. */
  function ConvertPressure(value: real, fromUnit: string, toUnit: string): (r: Result<real, ConversionError>)
    ensures r.Success? <==> fromUnit in PressureUnitNames && toUnit in PressureUnitNames
    ensures fromUnit !in PressureUnitNames ==> r == Failure(UnknownPressureUnit(fromUnit))
    ensures fromUnit in PressureUnitNames && toUnit !in PressureUnitNames ==>
              r == Failure(UnknownPressureUnit(toUnit))
    ensures forall f, t :: PressureUnitName(f) == fromUnit && PressureUnitName(t) == toUnit ==>
              r.Success? && ToKPa(r.value, t) == ToKPa(value, f)
  {
    match ParsePressureUnit(fromUnit)
    case None => Failure(UnknownPressureUnit(fromUnit))
    case Some(f) =>
      match ParsePressureUnit(toUnit)
      case None => Failure(UnknownPressureUnit(toUnit))
      case Some(t) => Success(ConvertPressureUnits(value, f, t))
  }

  /** The forward and inverse maps are mutually inverse in both directions. */
  lemma FromKPaIsInverse(b: real, u: PressureUnit)
    ensures ToKPa(FromKPa(b, u), u) == b
  {
  }

  /** Step 1 of `convert_pressure` exactly as the source writes it: identical
      to `ToKPa` except that "pasig" is scaled by `PsigFactorAsWritten`. */
  function ToKPaAsWritten(v: real, u: PressureUnit): (b: real)
    ensures u != Psig ==> b == ToKPa(v, u)
    ensures FromKPaAsWritten(b, u) == v
  {
    if u == Psig then v * PsigFactorAsWritten else ToKPa(v, u)
  }

  /** Step 2 of `convert_pressure` exactly as the source writes it. */
  function FromKPaAsWritten(b: real, u: PressureUnit): (v: real)
  {
    if u == Psig then b / PsigFactorAsWritten else FromKPa(b, u)
  }

  // ------------------------------------------------------------- temperature

  /** Step 1 of `convert_temperature`: a value in `u` expressed in Kelvin. */
  function ToKelvin(v: real, u: TemperatureUnit): (k: real)
    ensures FromKelvin(k, u) == v
  {
    match u
    case Celsius => v + 273.15
    case Fahrenheit => (v - 32.0) * (5.0 / 9.0) + 273.15
    case Kelvin => v
    case Rankine => v * (5.0 / 9.0)
  }

  /** Step 2 of `convert_temperature`: a Kelvin value expressed in `u`. */
  function FromKelvin(k: real, u: TemperatureUnit): (v: real)
  {
    match u
    case Celsius => k - 273.15
    case Fahrenheit => (k - 273.15) * (9.0 / 5.0) + 32.0
    case Kelvin => k
    case Rankine => k * (9.0 / 5.0)
  }

  lemma FromKelvinIsInverse(k: real, u: TemperatureUnit)
    ensures ToKelvin(FromKelvin(k, u), u) == k
  {
  }

  /** Conversion between two known temperature units: the result denotes the
      same absolute temperature as the input, and is the only value that does. */
  function ConvertTemperatureUnits(v: real, from: TemperatureUnit, to: TemperatureUnit): (r: real)
    ensures ToKelvin(r, to) == ToKelvin(v, from)
    ensures forall w :: ToKelvin(w, to) == ToKelvin(v, from) ==> w == r
  {
    FromKelvinIsInverse(ToKelvin(v, from), to);
    FromKelvin(ToKelvin(v, from), to)
  }

  /** `convert_temperature` on the source's string tags. */
  function ConvertTemperature(value: real, fromUnit: string, toUnit: string): (r: Result<real, ConversionError>)
    ensures r.Success? <==> fromUnit in TemperatureUnitNames && toUnit in TemperatureUnitNames
    ensures fromUnit !in TemperatureUnitNames ==> r == Failure(UnknownTemperatureUnit(fromUnit))
    ensures fromUnit in TemperatureUnitNames && toUnit !in TemperatureUnitNames ==>
              r == Failure(UnknownTemperatureUnit(toUnit))
    ensures forall f, t :: TemperatureUnitName(f) == fromUnit && TemperatureUnitName(t) == toUnit ==>
              r.Success? && ToKelvin(r.value, t) == ToKelvin(value, f)
  {
    match ParseTemperatureUnit(fromUnit)
    case None => Failure(UnknownTemperatureUnit(fromUnit))
    case Some(f) =>
      match ParseTemperatureUnit(toUnit)
      case None => Failure(UnknownTemperatureUnit(toUnit))
      case Some(t) => Success(ConvertTemperatureUnits(value, f, t))
  }

  // ----------------------------------------------------------------- density

  /** `convert_density` is a stub: the identity on equal tags (checked before
      any lookup, so any string qualifies) and a failure otherwise. */
  function ConvertDensity(value: real, fromUnit: string, toUnit: string): (r: Result<real, ConversionError>)
    ensures r.Success? <==> fromUnit == toUnit
    ensures r.Success? ==> r.value == value
    ensures r.Failure? ==> r.error == DensityConversionNotImplemented
  {
    if fromUnit == toUnit then Success(value) else Failure(DensityConversionNotImplemented)
  }
}
