/**
 * The atom type of the older data model (topology/core/atom_type.py): a
 * mutable object whose mass and charge setters always store a validated
 * value, and whose equality compares hash tuples.
 */
module LegacyAtomTypes {
  import opened Units

  /**
   * `_validate_charge`: a bare number is taken to be in elementary charge;
   * a quantity of another dimension keeps its number and has its unit
   * replaced by elementary charge; a charge quantity is returned as is.
   * The first two cases warn.
   */
  function ValidateCharge(charge: NumberArg): (r: Validated)
    ensures charge.Bare? ==> r == Validated(Quantity(charge.x, ElementaryCharge), true)
    ensures charge.WithUnit? && DimOf(charge.q.unit) != DimCharge ==>
      r == Validated(Quantity(charge.q.value, ElementaryCharge), true)
    ensures charge.WithUnit? && DimOf(charge.q.unit) == DimCharge ==> r == Validated(charge.q, false)
  {
    match charge
    case Bare(x) => Validated(Quantity(x, ElementaryCharge), true)
    case WithUnit(q) =>
      if DimOf(q.unit) != DimCharge then Validated(Quantity(q.value, ElementaryCharge), true)
      else Validated(q, false)
  }

  /** `_validate_mass`: the same three cases with g/mol. */
  function ValidateMass(mass: NumberArg): (r: Validated)
    ensures mass.Bare? ==> r == Validated(Quantity(mass.x, GramPerMol), true)
    ensures mass.WithUnit? && DimOf(mass.q.unit) != DimMass ==>
      r == Validated(Quantity(mass.q.value, GramPerMol), true)
    ensures mass.WithUnit? && DimOf(mass.q.unit) == DimMass ==> r == Validated(mass.q, false)
  {
    match mass
    case Bare(x) => Validated(Quantity(x, GramPerMol), true)
    case WithUnit(q) =>
      if DimOf(q.unit) != DimMass then Validated(Quantity(q.value, GramPerMol), true)
      else Validated(q, false)
  }

  /**
   * Both validators always produce their target dimension, keep the
   * numeric value, and are idempotent: validating a validated value
   * returns it unchanged, without a warning.
   */
  lemma ValidatorsNormalise(v: NumberArg)
    ensures DimOf(ValidateCharge(v).q.unit) == DimCharge
    ensures DimOf(ValidateMass(v).q.unit) == DimMass
    ensures ValidateCharge(v).q.value == (if v.Bare? then v.x else v.q.value)
    ensures ValidateMass(v).q.value == (if v.Bare? then v.x else v.q.value)
    ensures ValidateCharge(WithUnit(ValidateCharge(v).q)) == Validated(ValidateCharge(v).q, false)
    ensures ValidateMass(WithUnit(ValidateMass(v).q)) == Validated(ValidateMass(v).q, false)
  {
  }

  datatype Param = Param(key: string, value: Quantity)

  function Keys(ps: seq<Param>): (ks: seq<string>)
    ensures |ks| == |ps| && forall i :: 0 <= i < |ps| ==> ks[i] == ps[i].key
  {
    if ps == [] then [] else [ps[0].key] + Keys(ps[1..])
  }

  function Values(ps: seq<Param>): (vs: seq<Quantity>)
    ensures |vs| == |ps| && forall i :: 0 <= i < |ps| ==> vs[i] == ps[i].value
  {
    if ps == [] then [] else [ps[0].value] + Values(ps[1..])
  }

  /** The tuple `__hash__` hashes. Hash collisions are not modelled: equal hashes mean equal tuples. */
  datatype HashKey = HashKey(
    name: string,
    mass: Quantity,
    charge: Quantity,
    expression: string,
    independentVariables: seq<string>,
    parameterKeys: seq<string>,
    parameterValues: seq<Quantity>)

  class AtomType {
    var name: string
    var expression: string
    var independentVariables: seq<string>
    var parameters: seq<Param>
    var mass: Quantity
    var charge: Quantity

    /** Mass and charge always carry the dimensions of g/mol and elementary charge. */
    predicate Valid()
      reads this
    {
      DimOf(mass.unit) == DimMass && DimOf(charge.unit) == DimCharge
    }

    /**
     * `AtomType(...)` with its defaults (0 g/mol, 0 e, the 12-6
     * Lennard-Jones expression with sigma 0.3 nm and epsilon 0.3 kJ over
     * `r`); mass and charge are stored validated.
     */
    constructor(
      name: string := "AtomType",
      mass: NumberArg := WithUnit(Quantity(0.0, GramPerMol)),
      charge: NumberArg := WithUnit(Quantity(0.0, ElementaryCharge)),
      expression: string := "4*epsilon*((sigma/r)**12 - (sigma/r)**6)",
      parameters: seq<Param> := [Param("sigma", Quantity(0.3, Nanometer)), Param("epsilon", Quantity(0.3, Kilojoule))],
      independentVariables: seq<string> := ["r"])
      ensures Valid()
      ensures this.name == name && this.expression == expression
      ensures this.parameters == parameters && this.independentVariables == independentVariables
      ensures this.mass == ValidateMass(mass).q && this.charge == ValidateCharge(charge).q
    {
      this.name := name;
      this.expression := expression;
      this.parameters := parameters;
      this.independentVariables := independentVariables;
      this.mass := ValidateMass(mass).q;
      this.charge := ValidateCharge(charge).q;
    }

    /** The `charge` setter: stores the validated value and nothing else changes. */
    method SetCharge(val: NumberArg)
      requires Valid()
      modifies this`charge
      ensures Valid()
      ensures charge == ValidateCharge(val).q
    {
      charge := ValidateCharge(val).q;
    }

    /** The `mass` setter: stores the validated value and nothing else changes. */
    method SetMass(val: NumberArg)
      requires Valid()
      modifies this`mass
      ensures Valid()
      ensures mass == ValidateMass(val).q
    {
      mass := ValidateMass(val).q;
    }

    function Key(): HashKey
      reads this
    {
      HashKey(name, mass, charge, expression, independentVariables, Keys(parameters), Values(parameters))
    }

    /**
     * `__eq__`: equal hashes. Two atom types are equal exactly when their
     * names, masses, charges, expressions, independent variables (in
     * order), parameter names (in order) and parameter values agree.
     */
    predicate Equals(other: AtomType)
      reads this, other
      ensures Equals(other) <==>
        && name == other.name && mass == other.mass && charge == other.charge
        && expression == other.expression && independentVariables == other.independentVariables
        && (|parameters| == |other.parameters| && forall i :: 0 <= i < |parameters| ==> parameters[i] == other.parameters[i])
    {
      Key() == other.Key()
    }
  }

  /** Equality of atom types is an equivalence relation. */
  lemma EqualsEquivalence(a: AtomType, b: AtomType, c: AtomType)
    ensures a.Equals(a)
    ensures a.Equals(b) ==> b.Equals(a)
    ensures a.Equals(b) && b.Equals(c) ==> a.Equals(c)
  {
  }
}
