/** The two closed families of units the calculator accepts, and the string
    tags by which the source names them (DensityCalc.py:86-87). */
module Units {
  import opened Results

  /** Pressure units; the base unit is `KPa`. `Psig` is the unit the source
      tags "pasig". */
  datatype PressureUnit = Barg | KgPerCm2 | Psig | KPa | Pascal | MmH2O

  /** Temperature units; the base unit is `Kelvin`. */
  datatype TemperatureUnit = Celsius | Fahrenheit | Kelvin | Rankine

  /** Every pressure tag the converter recognises, independently of the parser. */
  const PressureUnitNames: set<string> := {"barg", "kg/cm2", "pasig", "kPa", "pascal", "mmH2O"}

  /** Every temperature tag the converter recognises, independently of the parser. */
  const TemperatureUnitNames: set<string> := {"C", "F", "K", "R"}

  function PressureUnitName(u: PressureUnit): (s: string)
    ensures s in PressureUnitNames
  {
    match u
    case Barg => "barg"
    case KgPerCm2 => "kg/cm2"
    case Psig => "pasig"
    case KPa => "kPa"
    case Pascal => "pascal"
    case MmH2O => "mmH2O"
  }

  function TemperatureUnitName(u: TemperatureUnit): (s: string)
    ensures s in TemperatureUnitNames
  {
    match u
    case Celsius => "C"
    case Fahrenheit => "F"
    case Kelvin => "K"
    case Rankine => "R"
  }

  /** The string comparisons of the `if`/`elif` chain: a tag denotes a unit
      exactly when it is that unit's name, and any other tag is unknown. */
  function ParsePressureUnit(s: string): (r: Option<PressureUnit>)
    ensures r.Some? <==> s in PressureUnitNames
    ensures forall u :: PressureUnitName(u) == s <==> r == Some(u)
  {
    if s == "barg" then Some(Barg)
    else if s == "kg/cm2" then Some(KgPerCm2)
    else if s == "pasig" then Some(Psig)
    else if s == "kPa" then Some(KPa)
    else if s == "pascal" then Some(Pascal)
    else if s == "mmH2O" then Some(MmH2O)
    else None
  }

  function ParseTemperatureUnit(s: string): (r: Option<TemperatureUnit>)
    ensures r.Some? <==> s in TemperatureUnitNames
    ensures forall u :: TemperatureUnitName(u) == s <==> r == Some(u)
  {
    if s == "C" then Some(Celsius)
    else if s == "F" then Some(Fahrenheit)
    else if s == "K" then Some(Kelvin)
    else if s == "R" then Some(Rankine)
    else None
  }

  /** Parsing inverts naming: no two units share a tag. */
  lemma ParseNameRoundTrip(p: PressureUnit, t: TemperatureUnit)
    ensures ParsePressureUnit(PressureUnitName(p)) == Some(p)
    ensures ParseTemperatureUnit(TemperatureUnitName(t)) == Some(t)
  {
  }

  /** "bar" is not "barg", and no tag names both a pressure and a
      temperature unit. */
  lemma UnknownTags()
    ensures PressureUnitNames * TemperatureUnitNames == {}
    ensures ParsePressureUnit("bar") == None
    ensures ParsePressureUnit("K") == None
    ensures ParseTemperatureUnit("kPa") == None
    ensures ParseTemperatureUnit("c") == None
  {
  }
}
