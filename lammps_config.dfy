/**
 * The option checks of the LAMMPS writer and reader, the default
 * potential conversions' precondition, and the resolution of the
 * reduced-unit ("lj") conversion factors (gmso/formats/lammpsdata.py).
 */
module LammpsConfig {
  import opened Wrappers
  import opened Units
  import opened AtomTypes
  import opened Topologies

  /** The exceptions the codec raises, by Python class. */
  datatype LammpsError =
    | ValueError(reason: string)
    | IndexError
    | KeyError(key: string)
    | TypeError(reason: string)
    | NameError(name: string)
    | AttributeError(kind: ConnKind)
    | MemberError(reason: string)
    | MissingAttribute(attr: string)
    | UnitError

  datatype AtomStyle = Full | Atomic | Molecular | Charge

  const AtomStyleNames: seq<string> := ["full", "atomic", "molecular", "charge"]

  function AtomStyleName(s: AtomStyle): string
  {
    match s
    case Full => "full"
    case Atomic => "atomic"
    case Molecular => "molecular"
    case Charge => "charge"
  }

  function ParseAtomStyle(name: string): (r: Option<AtomStyle>)
    ensures r.Some? <==> name in AtomStyleNames
    ensures r.Some? ==> AtomStyleName(r.value) == name
  {
    if name == "full" then Some(Full)
    else if name == "atomic" then Some(Atomic)
    else if name == "molecular" then Some(Molecular)
    else if name == "charge" then Some(AtomStyle.Charge)
    else None
  }

  /**
   * The checks `write_lammpsdata` makes before anything else, in order:
   * the atom style, the unit style, then conversion factors given
   * (a non-empty dictionary) with a style other than "lj".
   */
  function CheckWriteOptions(atomStyle: string, unitStyle: string, factorsGiven: bool): (r: Result<(AtomStyle, UnitStyle), LammpsError>)
    ensures atomStyle !in AtomStyleNames ==> r.Err? && r.error.ValueError?
    ensures atomStyle in AtomStyleNames && unitStyle !in StyleNames ==> r.Err? && r.error.ValueError?
    ensures r.Ok? <==> atomStyle in AtomStyleNames && unitStyle in StyleNames && (unitStyle == "lj" || !factorsGiven)
    ensures r.Ok? ==> AtomStyleName(r.value.0) == atomStyle && StyleName(r.value.1) == unitStyle
  {
    match ParseAtomStyle(atomStyle)
    case None => Err(ValueError("atom style is invalid or not supported"))
    case Some(a) =>
      match ParseUnitStyle(unitStyle)
      case None => Err(ValueError("unit style is invalid or not supported"))
      case Some(u) =>
        if unitStyle != "lj" && factorsGiven then Err(ValueError("conversion factors are only used with lj units"))
        else Ok((a, u))
  }

  /** The checks of `read_lammpsdata`: only the "full" atom style, and one of the unit styles. */
  function CheckReadOptions(atomStyle: string, unitStyle: string): (r: Result<UnitStyle, LammpsError>)
    ensures r.Ok? <==> atomStyle == "full" && unitStyle in StyleNames
    ensures atomStyle != "full" ==> r.Err? && r.error.ValueError?
    ensures r.Ok? ==> StyleName(r.value) == unitStyle
  {
    if atomStyle != "full" then Err(ValueError("atom style is invalid or not supported"))
    else match ParseUnitStyle(unitStyle)
      case None => Err(ValueError("unit style is invalid or not supported"))
      case Some(u) => Ok(u)
  }

  /** The kinds in the order the writer's default conversion table lists them. */
  const ConversionOrder: seq<ConnKind> := [Improper, Dihedral, ConnKind.Angle, Bond]

  /**
   * `_try_default_potential_conversions`: each kind that has types is
   * converted (the conversion itself is not part of this model); the first
   * kind, in table order, that has connections but no types raises
   * AttributeError.
   */
  method TryDefaultConversions(hasTypes: ConnKind -> bool, hasConnections: ConnKind -> bool) returns (r: Result<(), LammpsError>)
    ensures r.Ok? <==> forall k :: hasConnections(k) ==> hasTypes(k)
    ensures r.Err? ==> r.error.AttributeError? && !hasTypes(r.error.kind) && hasConnections(r.error.kind)
    ensures r.Err? ==> forall j :: 0 <= j < |ConversionOrder| && ConversionOrder[j] == r.error.kind ==>
      forall i :: 0 <= i < j ==> hasTypes(ConversionOrder[i]) || !hasConnections(ConversionOrder[i])
  {
    var i := 0;
    while i < |ConversionOrder|
      invariant 0 <= i <= |ConversionOrder|
      invariant forall j :: 0 <= j < i ==> hasTypes(ConversionOrder[j]) || !hasConnections(ConversionOrder[j])
    {
      var k := ConversionOrder[i];
      if !hasTypes(k) && hasConnections(k) {
        return Err(AttributeError(k));
      }
      i := i + 1;
    }
    forall k: ConnKind | hasConnections(k) ensures hasTypes(k) {
      assert k == ConversionOrder[0] || k == ConversionOrder[1] || k == ConversionOrder[2] || k == ConversionOrder[3];
    }
    return Ok(());
  }

  /** The four conversion factors, in the order the writer resolves them. */
  const Defaults: seq<string> := ["length", "energy", "mass", "charge"]

  /** Python truthiness of a factor: zero is false. */
  predicate Truthy(q: Quantity)
  {
    q.value != 0.0
  }

  /** Python's `max` by value: the first of the largest. */
  function MaxOf(qs: seq<Quantity>): (r: Quantity)
    requires qs != []
    ensures r in qs
    ensures forall i :: 0 <= i < |qs| ==> qs[i].value <= r.value
  {
    if |qs| == 1 then qs[0]
    else
      var rest := MaxOf(qs[1..]);
      assert forall i :: 1 <= i < |qs| ==> qs[i] == qs[1..][i - 1];
      if rest.value > qs[0].value then rest else qs[0]
  }

  /** The value of one atom type that a factor is defaulted from. */
  function FactorSource(t: AtomType, source: string): (r: Option<Quantity>)
    requires source in Defaults
    ensures source == "mass" ==> r == Some(t.mass)
    ensures source == "charge" ==> r == Some(t.charge)
    ensures source == "length" ==> r == ParamValue(t.potential.parameters, "sigma")
    ensures source == "energy" ==> r == ParamValue(t.potential.parameters, "epsilon")
  {
    if source == "length" then ParamValue(t.potential.parameters, "sigma")
    else if source == "energy" then ParamValue(t.potential.parameters, "epsilon")
    else if source == "mass" then Some(t.mass)
    else Some(t.charge)
  }

  /** `list(map(lambda x: ..., atom_types))`: the first missing parameter raises KeyError. */
  function Sources(ts: seq<AtomType>, source: string): (r: Result<seq<Quantity>, LammpsError>)
    requires source in Defaults
    ensures r.Ok? <==> forall i :: 0 <= i < |ts| ==> FactorSource(ts[i], source).Some?
    ensures r.Ok? ==> |r.value| == |ts| && forall i :: 0 <= i < |ts| ==> r.value[i] == FactorSource(ts[i], source).value
    ensures r.Err? ==> r.error.KeyError?
  {
    if ts == [] then Ok([])
    else match FactorSource(ts[0], source)
      case None => Err(KeyError(if source == "length" then "sigma" else "epsilon"))
      case Some(q) =>
        match Sources(ts[1..], source)
        case Err(e) => Err(e)
        case Ok(rest) => Ok([q] + rest)
  }

  /**
   * `_default_lj_val`: the largest sigma, epsilon, mass or charge over the
   * atom types. An unknown source or an empty list raises ValueError; an
   * atom type without the parameter raises KeyError.
   */
  function DefaultLjVal(ts: seq<AtomType>, source: string): (r: Result<Quantity, LammpsError>)
    ensures source !in Defaults ==> r.Err? && r.error.ValueError?
    ensures ts == [] ==> r.Err?
    ensures r.Ok? ==> source in Defaults && exists i :: 0 <= i < |ts| && FactorSource(ts[i], source) == Some(r.value)
    ensures r.Ok? ==> forall i :: 0 <= i < |ts| ==> FactorSource(ts[i], source).Some? && FactorSource(ts[i], source).value.value <= r.value.value
    ensures source in Defaults && ts != [] && (forall i :: 0 <= i < |ts| ==> FactorSource(ts[i], source).Some?) ==> r.Ok?
  {
    if source !in Defaults then Err(ValueError("unknown source for a default factor"))
    else
      var qs :- Sources(ts, source);
      if qs == [] then Err(ValueError("max() arg is an empty sequence"))
      else
        var m := MaxOf(qs);
        assert exists i :: 0 <= i < |ts| && qs[i] == m;
        Ok(m)
  }

  /** The factor `key` still needs its default: it is absent or falsy. */
  predicate NeedsDefault(values: map<string, Quantity>, key: string)
  {
    key !in values || !Truthy(values[key])
  }

  /**
   * The specification of the factor loop over `keys`: a truthy factor is
   * skipped; any other asks for its default (which may raise) and an
   * absent one receives it, appended to the key order. A key that is not
   * one of the four raises ValueError when it is reached.
   */
  function Fill(keys: seq<string>, order: seq<string>, values: map<string, Quantity>, ts: seq<AtomType>): Result<(seq<string>, map<string, Quantity>), LammpsError>
  {
    if keys == [] then Ok((order, values))
    else
      var f := keys[0];
      if f !in Defaults then Err(ValueError("conversion factor is not used"))
      else if !NeedsDefault(values, f) then Fill(keys[1..], order, values, ts)
      else match DefaultLjVal(ts, f)
        case Err(e) => Err(e)
        case Ok(d) =>
          if f in values then Fill(keys[1..], order, values, ts)
          else Fill(keys[1..], order + [f], values[f := d], ts)
  }

  /**
   * The dictionary the factor loop over `keys` leaves behind, whether it
   * runs to the end or stops at its first error: the defaults filled in
   * before that error stay in place.
   */
  function Filled(keys: seq<string>, order: seq<string>, values: map<string, Quantity>, ts: seq<AtomType>): (seq<string>, map<string, Quantity>)
  {
    if keys == [] then (order, values)
    else
      var f := keys[0];
      if f !in Defaults then (order, values)
      else if !NeedsDefault(values, f) then Filled(keys[1..], order, values, ts)
      else match DefaultLjVal(ts, f)
        case Err(_) => (order, values)
        case Ok(d) =>
          if f in values then Filled(keys[1..], order, values, ts)
          else Filled(keys[1..], order + [f], values[f := d], ts)
  }

  /** A loop that runs to the end leaves exactly the dictionary it returns. */
  lemma {:induction false} FillIsFilled(keys: seq<string>, order: seq<string>, values: map<string, Quantity>, ts: seq<AtomType>)
    requires Fill(keys, order, values, ts).Ok?
    ensures Fill(keys, order, values, ts).value == Filled(keys, order, values, ts)
    decreases |keys|
  {
    if keys != [] {
      var f := keys[0];
      if !NeedsDefault(values, f) || f in values {
        FillIsFilled(keys[1..], order, values, ts);
      } else {
        FillIsFilled(keys[1..], order + [f], values[f := DefaultLjVal(ts, f).value], ts);
      }
    }
  }

  /**
   * A loop that raises leaves the defaults it filled before the error: the
   * keys given before keep their values, and every key it added holds its
   * default, as in a successful loop.
   */
  lemma {:induction false} FilledKeeps(keys: seq<string>, order: seq<string>, values: map<string, Quantity>, ts: seq<AtomType>)
    ensures forall k :: k in values ==> k in Filled(keys, order, values, ts).1 && Filled(keys, order, values, ts).1[k] == values[k]
    ensures forall k :: k in Filled(keys, order, values, ts).1 && k !in values ==>
      k in keys && DefaultLjVal(ts, k).Ok? && Filled(keys, order, values, ts).1[k] == DefaultLjVal(ts, k).value
    decreases |keys|
  {
    if keys != [] {
      var f := keys[0];
      if f in Defaults && NeedsDefault(values, f) && DefaultLjVal(ts, f).Ok? && f !in values {
        FilledKeeps(keys[1..], order + [f], values[f := DefaultLjVal(ts, f).value], ts);
      } else if f in Defaults && (!NeedsDefault(values, f) || (DefaultLjVal(ts, f).Ok? && f in values)) {
        FilledKeeps(keys[1..], order, values, ts);
      }
    }
  }

  /** The dictionary the whole loop leaves behind, whether or not it raises. */
  function Resolved(order: seq<string>, values: map<string, Quantity>, ts: seq<AtomType>): (seq<string>, map<string, Quantity>)
  {
    Filled(Defaults + order, order, values, ts)
  }

  /** The whole loop: the four defaults, then the keys the caller gave. */
  function Resolve(order: seq<string>, values: map<string, Quantity>, ts: seq<AtomType>): Result<(seq<string>, map<string, Quantity>), LammpsError>
  {
    Fill(Defaults + order, order, values, ts)
  }

  /** A dictionary of conversion factors, filled in place by the writer. */
  class FactorDict {
    var order: seq<string>
    var values: map<string, Quantity>

    /** Keys in insertion order, each once, exactly the keys of the map. */
    ghost predicate Valid()
      reads this
    {
      (forall k :: k in values <==> k in order) && (forall i, j :: 0 <= i < j < |order| ==> order[i] != order[j])
    }

    constructor(order: seq<string>, values: map<string, Quantity>)
      requires (forall k :: k in values <==> k in order) && (forall i, j :: 0 <= i < j < |order| ==> order[i] != order[j])
      ensures Valid() && this.order == order && this.values == values
    {
      this.order := order;
      this.values := values;
    }

    /**
     * The conversion-factor loop of `write_lammpsdata`. The dictionary
     * keeps whatever was filled in before an exception (`Resolved`).
     */
    method ResolveFactors(ts: seq<AtomType>) returns (r: Result<(), LammpsError>)
      requires Valid()
      modifies this
      ensures Valid()
      ensures r.Ok? <==> Resolve(old(order), old(values), ts).Ok?
      ensures r.Err? ==> r.error == Resolve(old(order), old(values), ts).error
      ensures r.Ok? ==> (order, values) == Resolve(old(order), old(values), ts).value
      ensures (order, values) == Resolved(old(order), old(values), ts)
      ensures forall k :: k in old(values) ==> k in values && values[k] == old(values)[k]
    {
      var keys := Defaults + order;
      ghost var order0, values0 := order, values;
      var i := 0;
      while i < |keys|
        invariant 0 <= i <= |keys|
        invariant Valid()
        invariant Resolve(order0, values0, ts) == Fill(keys[i..], order, values, ts)
        invariant Resolved(order0, values0, ts) == Filled(keys[i..], order, values, ts)
        invariant forall k :: k in values0 ==> k in values && values[k] == values0[k]
      {
        var step := ResolveStep(keys, i, ts);
        if step.Err? {
          return step;
        }
        i := i + 1;
      }
      return Ok(());
    }

    /** One turn of the loop, for the key at position `i`. */
    method ResolveStep(keys: seq<string>, i: nat, ts: seq<AtomType>) returns (r: Result<(), LammpsError>)
      requires Valid() && i < |keys|
      modifies this
      ensures Valid()
      ensures r.Err? ==> Fill(keys[i..], old(order), old(values), ts) == Err(r.error)
      ensures r.Ok? ==> Fill(keys[i..], old(order), old(values), ts) == Fill(keys[i + 1..], order, values, ts)
      ensures r.Err? ==> Filled(keys[i..], old(order), old(values), ts) == (order, values)
      ensures r.Ok? ==> Filled(keys[i..], old(order), old(values), ts) == Filled(keys[i + 1..], order, values, ts)
      ensures forall k :: k in old(values) ==> k in values && values[k] == old(values)[k]
    {
      var f := keys[i];
      FillStep(keys, i, order, values, ts);
      assert keys[i..][0] == f && keys[i..][1..] == keys[i + 1..];
      if f !in Defaults {
        return Err(ValueError("conversion factor is not used"));
      }
      if NeedsDefault(values, f) {
        var d := DefaultLjVal(ts, f);
        if d.Err? {
          return Err(d.error);
        }
        if f !in values {
          AddKeyKeepsIndex(order, values, f, d.value);
          values := values[f := d.value];
          order := order + [f];
        }
      }
      return Ok(());
    }
  }

  /** One turn of the loop: the key at position `i` decides how the rest is filled. */
  lemma FillStep(keys: seq<string>, i: nat, order: seq<string>, values: map<string, Quantity>, ts: seq<AtomType>)
    requires i < |keys|
    ensures keys[i] !in Defaults ==> Fill(keys[i..], order, values, ts) == Err(ValueError("conversion factor is not used"))
    ensures keys[i] in Defaults && !NeedsDefault(values, keys[i]) ==> Fill(keys[i..], order, values, ts) == Fill(keys[i + 1..], order, values, ts)
    ensures keys[i] in Defaults && NeedsDefault(values, keys[i]) && DefaultLjVal(ts, keys[i]).Err? ==>
      Fill(keys[i..], order, values, ts) == Err(DefaultLjVal(ts, keys[i]).error)
    ensures keys[i] in Defaults && NeedsDefault(values, keys[i]) && DefaultLjVal(ts, keys[i]).Ok? && keys[i] in values ==>
      Fill(keys[i..], order, values, ts) == Fill(keys[i + 1..], order, values, ts)
    ensures keys[i] in Defaults && NeedsDefault(values, keys[i]) && DefaultLjVal(ts, keys[i]).Ok? && keys[i] !in values ==>
      Fill(keys[i..], order, values, ts) == Fill(keys[i + 1..], order + [keys[i]], values[keys[i] := DefaultLjVal(ts, keys[i]).value], ts)
  {
    assert keys[i..][0] == keys[i] && keys[i..][1..] == keys[i + 1..];
  }

  /** Adding an absent key at the end keeps the keys in insertion order, each once. */
  lemma AddKeyKeepsIndex(order: seq<string>, values: map<string, Quantity>, f: string, d: Quantity)
    requires (forall k :: k in values <==> k in order) && (forall i, j :: 0 <= i < j < |order| ==> order[i] != order[j])
    requires f !in values
    ensures forall k :: k in values[f := d] <==> k in order + [f]
    ensures forall i, j :: 0 <= i < j < |order + [f]| ==> (order + [f])[i] != (order + [f])[j]
  {
  }

  /** Any key other than the four makes the loop raise. */
  lemma ResolveRejectsUnknown(order: seq<string>, values: map<string, Quantity>, ts: seq<AtomType>, k: string)
    requires k in order && k !in Defaults
    ensures Resolve(order, values, ts).Err?
  {
    FillRejectsUnknown(Defaults + order, order, values, ts, k);
  }

  lemma {:induction false} FillRejectsUnknown(keys: seq<string>, order: seq<string>, values: map<string, Quantity>, ts: seq<AtomType>, k: string)
    requires k in keys && k !in Defaults
    ensures Fill(keys, order, values, ts).Err?
    decreases |keys|
  {
    if keys[0] != k && keys[0] in Defaults {
      assert k in keys[1..];
      var f := keys[0];
      if NeedsDefault(values, f) && DefaultLjVal(ts, f).Ok? {
        if f in values {
          FillRejectsUnknown(keys[1..], order, values, ts, k);
        } else {
          FillRejectsUnknown(keys[1..], order + [f], values[f := DefaultLjVal(ts, f).value], ts, k);
        }
      } else if !NeedsDefault(values, f) {
        FillRejectsUnknown(keys[1..], order, values, ts, k);
      }
    }
  }

  /**
   * What a filled dictionary holds: every value given before is kept
   * (truthy or not), every key listed in `keys` is present, and a key that
   * was absent holds the largest matching value over the atom types.
   */
  lemma {:induction false} FillResult(keys: seq<string>, order: seq<string>, values: map<string, Quantity>, ts: seq<AtomType>)
    requires Fill(keys, order, values, ts).Ok?
    ensures forall k :: k in values ==> k in Fill(keys, order, values, ts).value.1 && Fill(keys, order, values, ts).value.1[k] == values[k]
    ensures forall k :: k in keys ==> k in Fill(keys, order, values, ts).value.1
    ensures forall k :: k in Fill(keys, order, values, ts).value.1 && k !in values ==>
      k in keys && DefaultLjVal(ts, k).Ok? && Fill(keys, order, values, ts).value.1[k] == DefaultLjVal(ts, k).value
    decreases |keys|
  {
    if keys != [] {
      var f := keys[0];
      if !NeedsDefault(values, f) || f in values {
        FillResult(keys[1..], order, values, ts);
      } else {
        var d := DefaultLjVal(ts, f).value;
        FillResult(keys[1..], order + [f], values[f := d], ts);
      }
    }
  }

  /**
   * After a successful resolution all four factors are present, factors
   * the caller gave are unchanged, and each defaulted factor is at least
   * the matching value of every atom type.
   */
  lemma ResolveResult(order: seq<string>, values: map<string, Quantity>, ts: seq<AtomType>)
    requires Resolve(order, values, ts).Ok?
    ensures forall k :: k in Defaults ==> k in Resolve(order, values, ts).value.1
    ensures forall k :: k in values ==> k in Resolve(order, values, ts).value.1 && Resolve(order, values, ts).value.1[k] == values[k]
    ensures forall k :: k in Defaults && k !in values ==>
      forall i :: 0 <= i < |ts| ==> FactorSource(ts[i], k).Some? && FactorSource(ts[i], k).value.value <= Resolve(order, values, ts).value.1[k].value
  {
    FillResult(Defaults + order, order, values, ts);
  }
}
