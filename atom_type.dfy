/**
 * The non-bonded atom type of the current data model
 * (gmso/core/atom_type.py): construction defaults, the mass and charge
 * validators, `clone`, structural equality and the default Lennard-Jones
 * potential.
 */
module AtomTypes {
  import opened Wrappers
  import opened Units

  datatype Param = Param(key: string, value: Quantity)

  /** A potential: expression text, independent variables and its parameters in insertion order. */
  datatype Potential = Potential(expression: string, independentVariables: set<string>, parameters: seq<Param>)

  function ParamKeys(ps: seq<Param>): set<string>
  {
    set p | p in ps :: p.key
  }

  function ParamValues(ps: seq<Param>): (vs: seq<Quantity>)
    ensures |vs| == |ps| && forall i :: 0 <= i < |ps| ==> vs[i] == ps[i].value
  {
    if ps == [] then [] else [ps[0].value] + ParamValues(ps[1..])
  }

  /** The value stored under `key`, if any (`parameters.get(key)`). */
  function ParamValue(ps: seq<Param>, key: string): (r: Option<Quantity>)
    ensures r.Some? <==> key in ParamKeys(ps)
    ensures r.Some? ==> exists i :: 0 <= i < |ps| && ps[i] == Param(key, r.value)
  {
    if ps == [] then None
    else if ps[0].key == key then Some(ps[0].value)
    else ParamValue(ps[1..], key)
  }

  /** `parameters[key] = value`: an existing key keeps its place, a new one is appended. */
  function SetParam(ps: seq<Param>, key: string, value: Quantity): (r: seq<Param>)
    ensures ParamKeys(r) == ParamKeys(ps) + {key}
    ensures ParamValue(r, key) == Some(value)
    ensures forall k :: k != key ==> ParamValue(r, k) == ParamValue(ps, k)
  {
    if ps == [] then [Param(key, value)]
    else
      assert ps == [ps[0]] + ps[1..];
      ConsFacts(ps[0], ps[1..]);
      ConsFacts(Param(key, value), ps[1..]);
      if ps[0].key == key then [Param(key, value)] + ps[1..]
      else
        var rest := SetParam(ps[1..], key, value);
        ConsFacts(ps[0], rest);
        [ps[0]] + rest
  }

  /** The keys and the lookups of a list with `p` in front. */
  lemma ConsFacts(p: Param, ps: seq<Param>)
    ensures ParamKeys([p] + ps) == {p.key} + ParamKeys(ps)
    ensures forall k :: ParamValue([p] + ps, k) == if p.key == k then Some(p.value) else ParamValue(ps, k)
  {
    assert ([p] + ps)[1..] == ps;
    assert forall q :: q in [p] + ps <==> q == p || q in ps;
  }

  /** `_default_potential_expr`: the 12-6 Lennard-Jones potential. */
  function DefaultPotential(): (p: Potential)
    ensures p.expression == "4*epsilon*((sigma/r)**12 - (sigma/r)**6)"
    ensures p.independentVariables == {"r"}
    ensures ParamKeys(p.parameters) == {"sigma", "epsilon"}
    ensures ParamValue(p.parameters, "sigma") == Some(Quantity(0.3, Nanometer))
    ensures ParamValue(p.parameters, "epsilon") == Some(Quantity(0.3, Kilojoule))
  {
    Potential(
      "4*epsilon*((sigma/r)**12 - (sigma/r)**6)",
      {"r"},
      [Param("sigma", Quantity(0.3, Nanometer)), Param("epsilon", Quantity(0.3, Kilojoule))])
  }

  datatype AtomType = AtomType(
    name: string,
    potential: Potential,
    mass: Quantity,
    charge: Quantity,
    atomclass: string,
    doi: string,
    overrides: set<string>,
    definition: string,
    description: string,
    tags: map<string, string>)

  datatype AtomTypeError = UnitConversionError(expected: Dim, found: Dim)

  /** What every constructed atom type satisfies: mass and charge carry their dimensions. */
  predicate WellFormed(t: AtomType) {
    DimOf(t.mass.unit) == DimMass && DimOf(t.charge.unit) == DimCharge
  }

  /**
   * `validate_mass`: a bare number is taken to be in g/mol (with a
   * warning); a quantity must already have the dimension of g/mol.
   */
  function ValidateMass(mass: NumberArg): (r: Result<Validated, AtomTypeError>)
    ensures r.Ok? <==> mass.Bare? || DimOf(mass.q.unit) == DimMass
    ensures r.Ok? ==> DimOf(r.value.q.unit) == DimMass
    ensures mass.Bare? ==> r == Ok(Validated(Quantity(mass.x, GramPerMol), true))
    ensures mass.WithUnit? && r.Ok? ==> r.value == Validated(mass.q, false)
  {
    match mass
    case Bare(x) => Ok(Validated(Quantity(x, GramPerMol), true))
    case WithUnit(q) =>
      if DimOf(q.unit) == DimMass then Ok(Validated(q, false))
      else Err(UnitConversionError(DimMass, DimOf(q.unit)))
  }

  /**
   * `validate_charge`: a bare number is taken to be in elementary charge
   * (with a warning); a quantity must already have the charge dimension.
   */
  function ValidateCharge(charge: NumberArg): (r: Result<Validated, AtomTypeError>)
    ensures r.Ok? <==> charge.Bare? || DimOf(charge.q.unit) == DimCharge
    ensures r.Ok? ==> DimOf(r.value.q.unit) == DimCharge
    ensures charge.Bare? ==> r == Ok(Validated(Quantity(charge.x, ElementaryCharge), true))
    ensures charge.WithUnit? && r.Ok? ==> r.value == Validated(charge.q, false)
  {
    match charge
    case Bare(x) => Ok(Validated(Quantity(x, ElementaryCharge), true))
    case WithUnit(q) =>
      if DimOf(q.unit) == DimCharge then Ok(Validated(q, false))
      else Err(UnitConversionError(DimCharge, DimOf(q.unit)))
  }

  /** Validating an already validated mass or charge changes nothing and does not warn. */
  lemma ValidatorsIdempotent(v: NumberArg)
    ensures ValidateMass(v).Ok? ==> ValidateMass(WithUnit(ValidateMass(v).value.q)) == Ok(Validated(ValidateMass(v).value.q, false))
    ensures ValidateCharge(v).Ok? ==> ValidateCharge(WithUnit(ValidateCharge(v).value.q)) == Ok(Validated(ValidateCharge(v).value.q, false))
  {
  }

  /**
   * `AtomType(...)` with its defaults: name "AtomType", mass 0 g/mol,
   * charge 0 e, the Lennard-Jones potential when none is given, empty
   * strings, and `overrides=None` read as the empty set. The mass is
   * validated before the charge.
   */
  function NewAtomType(
    name: string := "AtomType",
    mass: NumberArg := WithUnit(Quantity(0.0, GramPerMol)),
    charge: NumberArg := WithUnit(Quantity(0.0, ElementaryCharge)),
    potential: Option<Potential> := None,
    atomclass: string := "",
    doi: string := "",
    overrides: Option<set<string>> := None,
    definition: string := "",
    description: string := "",
    tags: map<string, string> := map[]): (r: Result<AtomType, AtomTypeError>)
    ensures r.Ok? <==> ValidateMass(mass).Ok? && ValidateCharge(charge).Ok?
    ensures ValidateMass(mass).Err? ==> r == Err(ValidateMass(mass).error)
    ensures r.Ok? ==> WellFormed(r.value)
    ensures r.Ok? ==> r.value.mass == ValidateMass(mass).value.q && r.value.charge == ValidateCharge(charge).value.q
    ensures r.Ok? ==> r.value.potential == (if potential.Some? then potential.value else DefaultPotential())
    ensures r.Ok? ==> r.value.overrides == (if overrides.Some? then overrides.value else {})
    ensures r.Ok? ==> r.value.name == name && r.value.atomclass == atomclass && r.value.doi == doi
    ensures r.Ok? ==> r.value.definition == definition && r.value.description == description && r.value.tags == tags
  {
    var m :- ValidateMass(mass);
    var c :- ValidateCharge(charge);
    Ok(AtomType(
      name,
      if potential.Some? then potential.value else DefaultPotential(),
      m.q, c.q, atomclass, doi,
      if overrides.Some? then overrides.value else {},
      definition, description, tags))
  }

  /** An atom type built with every default. */
  lemma DefaultAtomType()
    ensures NewAtomType() == Ok(AtomType(
      "AtomType", DefaultPotential(), Quantity(0.0, GramPerMol), Quantity(0.0, ElementaryCharge),
      "", "", {}, "", "", map[]))
  {
  }

  /**
   * `clone`: rebuilds the atom type through the constructor from copies of
   * its fields; an empty override set is passed as None.
   */
  function Clone(t: AtomType): (r: Result<AtomType, AtomTypeError>)
    ensures WellFormed(t) ==> r == Ok(t)
  {
    assert (set o | o in t.overrides) == t.overrides;
    NewAtomType(
      name := t.name,
      tags := t.tags,
      potential := Some(t.potential),
      mass := WithUnit(Quantity(t.mass.value, t.mass.unit)),
      charge := WithUnit(Quantity(t.charge.value, t.charge.unit)),
      atomclass := t.atomclass,
      doi := t.doi,
      overrides := if t.overrides != {} then Some(set o | o in t.overrides) else None,
      description := t.description,
      definition := t.definition)
  }

  /** A Python object seen by `__eq__`: its identity and, if it is an atom type, its fields. */
  datatype Object = Object(id: nat, atomType: Option<AtomType>)

  /** The field-by-field comparison of `__eq__`. */
  predicate SameFields(a: AtomType, b: AtomType) {
    && a.name == b.name
    && a.potential.expression == b.potential.expression
    && a.potential.independentVariables == b.potential.independentVariables
    && ParamKeys(a.potential.parameters) == ParamKeys(b.potential.parameters)
    && ParamValues(a.potential.parameters) == ParamValues(b.potential.parameters)
    && a.charge == b.charge
    && a.atomclass == b.atomclass
    && a.mass == b.mass
    && a.doi == b.doi
    && a.overrides == b.overrides
    && a.definition == b.definition
    && a.description == b.description
  }

  /**
   * `__eq__` of the atom type `self` (identity `selfId`) against any
   * object: the same object is equal, a non-atom-type never is, and two
   * distinct atom types are equal exactly when their fields agree.
   */
  function Equals(selfId: nat, self: AtomType, other: Object): (r: bool)
    ensures other.id == selfId ==> r
    ensures other.id != selfId && other.atomType.None? ==> !r
    ensures other.id != selfId && other.atomType.Some? ==> (r <==> SameFields(self, other.atomType.value))
  {
    if other.id == selfId then true
    else if other.atomType.None? then false
    else SameFields(self, other.atomType.value)
  }

  /** Equality between atom types does not depend on which one asks. */
  lemma EqualsSymmetric(aId: nat, a: AtomType, bId: nat, b: AtomType)
    ensures Equals(aId, a, Object(bId, Some(b))) == Equals(bId, b, Object(aId, Some(a)))
  {
  }

  /** A clone is equal to the atom type it was cloned from. */
  lemma CloneIsEqual(id: nat, t: AtomType, cloneId: nat)
    requires WellFormed(t)
    ensures Clone(t).Ok?
    ensures Equals(id, t, Object(cloneId, Some(Clone(t).value)))
    ensures Equals(cloneId, Clone(t).value, Object(id, Some(t)))
  {
  }

  /**
   * `types.index(x)` on a list of atom types: `list.index` compares with
   * `__eq__`, so this is the first position holding a type with the same
   * fields as `x` (tags aside); None stands for the ValueError.
   */
  function IndexOfEqual(types: seq<AtomType>, x: AtomType): (r: Option<nat>)
    ensures r.None? <==> forall j :: 0 <= j < |types| ==> !SameFields(types[j], x)
    ensures r.Some? ==> r.value < |types| && SameFields(types[r.value], x)
    ensures r.Some? ==> forall j :: 0 <= j < r.value ==> !SameFields(types[j], x)
    ensures x in types ==> r.Some?
  {
    if types == [] then None
    else if SameFields(types[0], x) then Some(0)
    else match IndexOfEqual(types[1..], x)
      case None => None
      case Some(k) => Some(k + 1)
  }

  /** In a list where no two types are equal, the type at `i` is found at `i`. */
  lemma IndexOfEqualDistinct(types: seq<AtomType>, i: nat)
    requires i < |types|
    requires forall a, b :: 0 <= a < b < |types| ==> !SameFields(types[a], types[b])
    ensures IndexOfEqual(types, types[i]) == Some(i)
  {
    var r := IndexOfEqual(types, types[i]);
    assert SameFields(types[i], types[i]);
  }
}
