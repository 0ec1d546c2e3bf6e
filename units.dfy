/**
 * Unit styles of the LAMMPS data format and the units the codec attaches
 * to each field (`get_units`). Units are symbolic: a unit is a name with a
 * physical dimension, or a quotient or square of units. The numeric
 * conversion between units (done by the unit library) is not modelled.
 */
module Units {
  import opened Wrappers

  /** Physical dimensions, kept symbolic (no normalisation of quotients). */
  datatype Dim =
    | DimMass
    | DimCharge
    | DimLength
    | DimEnergy
    | DimAngle
    | DimNone
    | DimQuotient(num: Dim, den: Dim)
    | DimSquare(base: Dim)

  datatype Unit =
    | Named(symbol: string, dim: Dim)
    | Quotient(num: Unit, den: Unit)
    | Square(base: Unit)

  function DimOf(u: Unit): Dim
  {
    match u
    case Named(_, d) => d
    case Quotient(n, d) => DimQuotient(DimOf(n), DimOf(d))
    case Square(b) => DimSquare(DimOf(b))
  }

  /** A value with its unit (a unyt quantity). */
  datatype Quantity = Quantity(value: real, unit: Unit)

  /** A value given to a validator: a bare number or a quantity with a unit. */
  datatype NumberArg = Bare(x: real) | WithUnit(q: Quantity)

  /** A validator's result and whether it warned that it assumed a unit. */
  datatype Validated = Validated(q: Quantity, warned: bool)

  const GramPerMol := Named("g/mol", DimMass)
  const ElementaryCharge := Named("elementary_charge", DimCharge)
  const Nanometer := Named("nm", DimLength)
  const Kilojoule := Named("kJ", DimEnergy)
  const Radian := Named("radian", DimAngle)
  const Degree := Named("degree", DimAngle)
  const Dimensionless := Named("dimensionless", DimNone)

  /** The eight unit styles the codec accepts; `Lj` is LAMMPS's reduced units. */
  datatype UnitStyle = Real | Lj | Metal | Si | Cgs | Electron | Micro | Nano

  function StyleName(s: UnitStyle): string
  {
    match s
    case Real => "real"
    case Lj => "lj"
    case Metal => "metal"
    case Si => "si"
    case Cgs => "cgs"
    case Electron => "electron"
    case Micro => "micro"
    case Nano => "nano"
  }

  const StyleNames: seq<string> := ["real", "lj", "metal", "si", "cgs", "electron", "micro", "nano"]

  /** The `unit_style not in [...]` test of the reader and the writer. */
  function ParseUnitStyle(name: string): (r: Option<UnitStyle>)
    ensures r.Some? <==> name in StyleNames
    ensures r.Some? ==> StyleName(r.value) == name
  {
    if name == "real" then Some(Real)
    else if name == "lj" then Some(Lj)
    else if name == "metal" then Some(Metal)
    else if name == "si" then Some(Si)
    else if name == "cgs" then Some(Cgs)
    else if name == "electron" then Some(Electron)
    else if name == "micro" then Some(Micro)
    else if name == "nano" then Some(Nano)
    else None
  }

  lemma ParseStyleName(s: UnitStyle)
    ensures ParseUnitStyle(StyleName(s)) == Some(s)
  {
  }

  /** The dimension names the codec asks `get_units` for. */
  datatype Dimension = Length | Energy | Mass | Charge | Angle | AngleEq

  function DimensionName(d: Dimension): string
  {
    match d
    case Length => "length"
    case Energy => "energy"
    case Mass => "mass"
    case Charge => "charge"
    case Angle => "angle"
    case AngleEq => "angle_eq"
  }

  function PhysicalDim(d: Dimension): Dim
  {
    match d
    case Length => DimLength
    case Energy => DimEnergy
    case Mass => DimMass
    case Charge => DimCharge
    case Angle => DimAngle
    case AngleEq => DimAngle
  }

  /**
   * The base unit a style's unit system assigns to a dimension. The unit
   * system's table is not part of this model: the unit is named after the
   * style and the dimension and carries that dimension.
   */
  function BaseUnit(s: UnitStyle, d: Dimension): Unit
  {
    Named(StyleName(s) + ":" + DimensionName(d), PhysicalDim(d))
  }

  /**
   * `get_units`: under reduced units everything is dimensionless except
   * angles (radians); otherwise equilibrium angles are in degrees and every
   * other dimension takes the style's base unit.
   */
  function GetUnits(s: UnitStyle, d: Dimension): (u: Unit)
    ensures s == Lj && d == Angle ==> u == Radian
    ensures s == Lj && d != Angle ==> u == Dimensionless
    ensures s != Lj && d == AngleEq ==> u == Degree
    ensures s != Lj ==> DimOf(u) == PhysicalDim(d)
    ensures s != Lj && d != AngleEq ==> u == BaseUnit(s, d)
  {
    if s == Lj then
      if d == Angle then Radian else Dimensionless
    else if d == AngleEq then Degree
    else BaseUnit(s, d)
  }

  /**
   * Under every style but reduced units, the unit `get_units` returns has
   * the dimension asked for; under reduced units only angles keep one.
   */
  lemma GetUnitsDimension(s: UnitStyle, d: Dimension)
    ensures DimOf(GetUnits(s, d)) == (if s == Lj && d != Angle then DimNone else PhysicalDim(d))
  {
  }
}
