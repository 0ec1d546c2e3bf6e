/**
 * The LAMMPS data-file writer (gmso/formats/lammpsdata.py,
 * `write_lammpsdata` and its `_write_*` helpers): a header of counts, the
 * box, the type tables in a canonical order, the Atoms section and one
 * section per connection kind. The file is modelled as the lines
 * `readlines()` would return for it; every write of the writer ends a line.
 *
 * Each section is specified by a function giving the lines it writes and
 * the exception that stops it, if any (`Emitted`); the methods write the
 * same lines one `write` at a time.
 */
module LammpsWrite {
  import opened Wrappers
  import opened Text
  import opened Units
  import opened AtomTypes
  import opened Topologies
  import opened Ordering
  import opened LammpsConfig

  // ----- the output file -----

  /** The file being written: its lines so far. */
  class OutFile {
    var lines: seq<string>

    constructor()
      ensures lines == []
    {
      lines := [];
    }

    method Write(ls: seq<string>)
      modifies this
      ensures lines == old(lines) + ls
    {
      lines := lines + ls;
    }
  }

  /**
   * What the writer takes from code this model does not include:
   * `convert_parameter` followed by Python's formatting of the number it
   * gives, `write_out_parameter_and_units`, the text of a unit,
   * `sort_by_types`, and the first header line (user name, topology name
   * and clock). `num` is the conversion and formatting of one number;
   * `WriteLammpsData` fixes it, with `FileHooks`, to the conversion with
   * the factors it resolved.
   */
  datatype Hooks = Hooks(
    num: Quantity -> string,
    paramLabel: (string, Quantity) -> string,
    unitText: Unit -> string,
    memberKey: ConnType -> seq<string>,
    title: string)

  /**
   * The type tables the topology hands out (`top.atom_types(filter_by=pfilter)`
   * and `top.<kind>_types(filter_by=pfilter)`): its de-duplicated types,
   * which this model takes as given; and `top.atom_types` without a filter,
   * which the lj defaults are taken over.
   */
  datatype Tables = Tables(atomTypes: seq<AtomType>, connTypes: ConnKind -> seq<ConnType>, allAtomTypes: seq<AtomType>)

  // ----- what a run of writes leaves behind -----

  /** The lines written and the exception that stopped the writing, if any. */
  datatype Emitted = Emitted(lines: seq<string>, error: Option<LammpsError>)

  /** The writer's return value: `None` when it ran to the end. */
  function Outcome(e: Emitted): Result<(), LammpsError>
  {
    if e.error.Some? then Err(e.error.value) else Ok(())
  }

  /** Writing `a` and then, unless it raised, `b`. */
  function Then(a: Emitted, b: Emitted): Emitted
  {
    if a.error.Some? then a else Emitted(a.lines + b.lines, b.error)
  }

  /**
   * A loop writing one row per item from item `k` on: the first row that
   * raises stops the loop, and the rows before it stay written.
   */
  function Emit<T>(items: seq<T>, row: (nat, T) -> Result<string, LammpsError>, k: nat): (e: Emitted)
    requires k <= |items|
    ensures e.error.None? <==> forall i :: k <= i < |items| ==> row(i, items[i]).Ok?
    ensures e.error.None? ==> |e.lines| == |items| - k
    ensures forall i :: k <= i < k + |e.lines| ==> i < |items| && row(i, items[i]).Ok? && e.lines[i - k] == row(i, items[i]).value
    ensures e.error.Some? ==> k + |e.lines| < |items| && row(k + |e.lines|, items[k + |e.lines|]) == Err(e.error.value)
    decreases |items| - k
  {
    if k == |items| then Emitted([], None)
    else match row(k, items[k])
      case Err(err) => Emitted([], Some(err))
      case Ok(line) =>
        var rest := Emit(items, row, k + 1);
        Emitted([line] + rest.lines, rest.error)
  }

  /** The row loop itself. */
  method EmitRows<T>(out: OutFile, items: seq<T>, row: (nat, T) -> Result<string, LammpsError>) returns (r: Result<(), LammpsError>)
    modifies out
    ensures out.lines == old(out.lines) + Emit(items, row, 0).lines
    ensures r == Outcome(Emit(items, row, 0))
  {
    ghost var lines0 := out.lines;
    ghost var e := Emit(items, row, 0);
    var i := 0;
    while i < |items|
      invariant 0 <= i <= |items|
      invariant |out.lines| == |lines0| + i && out.lines[..|lines0|] == lines0
      invariant forall j :: 0 <= j < i ==> row(j, items[j]).Ok? && out.lines[|lines0| + j] == row(j, items[j]).value
    {
      var line := row(i, items[i]);
      if line.Err? {
        assert e.error.Some?;
        assert row(0 + |e.lines|, items[0 + |e.lines|]).Err?;
        assert |e.lines| == i;
        forall j | 0 <= j < |e.lines| ensures out.lines[|lines0| + j] == e.lines[j] {
          assert e.lines[j - 0] == row(j, items[j]).value;
        }
        SameLines(out.lines, lines0, e.lines);
        return Err(line.error);
      }
      out.Write([line.value]);
      i := i + 1;
    }
    forall j | 0 <= j < |e.lines| ensures out.lines[|lines0| + j] == e.lines[j] {
      assert e.lines[j - 0] == row(j, items[j]).value;
    }
    SameLines(out.lines, lines0, e.lines);
    return Ok(());
  }

  lemma SameLines(all: seq<string>, before: seq<string>, added: seq<string>)
    requires |all| == |before| + |added| && all[..|before|] == before
    requires forall j :: 0 <= j < |added| ==> all[|before| + j] == added[j]
    ensures all == before + added
  {
    assert all == all[..|before|] + all[|before|..];
    assert all[|before|..] == added by {
      assert forall j :: 0 <= j < |added| ==> all[|before|..][j] == all[|before| + j];
    }
  }

  // ----- parameters -----

  /** `[ps[key] for key in keys]`: the first missing key raises KeyError. */
  function ParamsOf(ps: seq<Param>, keys: seq<string>): (r: Result<seq<Quantity>, LammpsError>)
    ensures r.Ok? <==> forall j :: 0 <= j < |keys| ==> ParamValue(ps, keys[j]).Some?
    ensures r.Ok? ==> |r.value| == |keys| && forall j :: 0 <= j < |keys| ==> r.value[j] == ParamValue(ps, keys[j]).value
    ensures r.Err? ==> exists j :: 0 <= j < |keys| && r.error == KeyError(keys[j]) && ParamValue(ps, keys[j]).None?
  {
    if keys == [] then Ok([])
    else match ParamValue(ps, keys[0])
      case None => Err(KeyError(keys[0]))
      case Some(q) =>
        var rest :- ParamsOf(ps, keys[1..]);
        Ok([q] + rest)
  }

  /** The numbers of a row, each converted and formatted. */
  function Nums(h: Hooks, qs: seq<Quantity>): (r: seq<string>)
    ensures |r| == |qs| && forall j :: 0 <= j < |qs| ==> r[j] == h.num(qs[j])
  {
    seq(|qs|, j requires 0 <= j < |qs| => h.num(qs[j]))
  }

  /** The comment line under a table header: the labels of the test type's parameters. */
  function LabelLine(h: Hooks, ps: seq<Param>, keys: seq<string>): (r: Result<string, LammpsError>)
    ensures r.Ok? <==> ParamsOf(ps, keys).Ok?
  {
    var qs :- ParamsOf(ps, keys);
    Ok("#\t" + JoinRow(seq(|keys|, j requires 0 <= j < |keys| => h.paramLabel(keys[j], qs[j])), 0) + "\n")
  }

  // ----- the header -----

  /** `"{:d} <word>\n"`. */
  function CountLine(n: nat, word: string): string
  {
    IntToString(n) + " " + word + "\n"
  }

  /** `"{:d} <kind> types\n"`. */
  function TypesLine(n: nat, kind: string): string
  {
    IntToString(n) + " " + kind + " types\n"
  }

  /** The atom styles whose header counts connections. */
  predicate FullOrMolecular(a: AtomStyle)
  {
    a == Full || a == Molecular
  }

  /** The kinds in the order the writer handles them. */
  const WriteOrder: seq<ConnKind> := [Bond, ConnKind.Angle, Dihedral, Improper]

  /** What the header counts: sites, connections and types of each kind. */
  datatype Counts = Counts(sites: nat, conns: ConnKind -> nat, atomTypes: nat, connTypes: ConnKind -> nat)

  function CountsOf(sites: seq<Site>, conns: seq<Connection>, tables: Tables): Counts
  {
    Counts(|sites|, k => |OfKind(conns, k)|, |tables.atomTypes|, k => |tables.connTypes(k)|)
  }

  /** The type count line of a kind: written when it has connections and connections are counted. */
  function TypeCountLine(a: AtomStyle, c: Counts, k: ConnKind): seq<string>
  {
    if c.conns(k) > 0 && FullOrMolecular(a) then [TypesLine(c.connTypes(k), KindName(k))] else []
  }

  /** The connection counts, written for the styles that have connections. */
  function ConnCountLines(a: AtomStyle, c: Counts): seq<string>
  {
    if FullOrMolecular(a) then
      [CountLine(c.conns(Bond), "bonds"), CountLine(c.conns(ConnKind.Angle), "angles"),
       CountLine(c.conns(Dihedral), "dihedrals"), CountLine(c.conns(Improper), "impropers"), "\n"]
    else []
  }

  /** `_write_header`. */
  function HeaderLines(title: string, a: AtomStyle, c: Counts): seq<string>
  {
    [title + "\n", "\n"] + [CountLine(c.sites, "atoms")]
    + ConnCountLines(a, c)
    + [TypesLine(c.atomTypes, "atom")]
    + TypeCountLine(a, c, Bond) + TypeCountLine(a, c, ConnKind.Angle)
    + TypeCountLine(a, c, Dihedral) + TypeCountLine(a, c, Improper)
    + ["\n"]
  }

  method WriteConnCounts(out: OutFile, a: AtomStyle, c: Counts)
    modifies out
    ensures out.lines == old(out.lines) + ConnCountLines(a, c)
  {
    if FullOrMolecular(a) {
      out.Write([CountLine(c.conns(Bond), "bonds")]);
      out.Write([CountLine(c.conns(ConnKind.Angle), "angles")]);
      out.Write([CountLine(c.conns(Dihedral), "dihedrals")]);
      out.Write([CountLine(c.conns(Improper), "impropers"), "\n"]);
    }
  }

  method WriteTypeCount(out: OutFile, a: AtomStyle, c: Counts, k: ConnKind)
    modifies out
    ensures out.lines == old(out.lines) + TypeCountLine(a, c, k)
  {
    if c.conns(k) > 0 && FullOrMolecular(a) {
      out.Write([TypesLine(c.connTypes(k), KindName(k))]);
    }
  }

  method WriteHeader(out: OutFile, title: string, a: AtomStyle, c: Counts)
    modifies out
    ensures out.lines == old(out.lines) + HeaderLines(title, a, c)
  {
    ghost var o := out.lines;
    out.Write([title + "\n", "\n"]);
    out.Write([CountLine(c.sites, "atoms")]);
    WriteConnCounts(out, a, c);
    out.Write([TypesLine(c.atomTypes, "atom")]);
    WriteTypeCount(out, a, c, Bond);
    WriteTypeCount(out, a, c, ConnKind.Angle);
    WriteTypeCount(out, a, c, Dihedral);
    WriteTypeCount(out, a, c, Improper);
    out.Write(["\n"]);
    Concat9(o, [title + "\n", "\n"], [CountLine(c.sites, "atoms")], ConnCountLines(a, c), [TypesLine(c.atomTypes, "atom")],
      TypeCountLine(a, c, Bond), TypeCountLine(a, c, ConnKind.Angle), TypeCountLine(a, c, Dihedral), TypeCountLine(a, c, Improper), ["\n"]);
  }

  lemma Concat2<T>(o: seq<T>, p1: seq<T>, p2: seq<T>)
    ensures o + p1 + p2 == o + (p1 + p2)
  {
  }

  lemma Concat3<T>(o: seq<T>, p1: seq<T>, p2: seq<T>, p3: seq<T>)
    ensures o + p1 + p2 + p3 == o + ((p1 + p2) + p3)
  {
  }

  lemma Concat9<T>(o: seq<T>, p1: seq<T>, p2: seq<T>, p3: seq<T>, p4: seq<T>, p5: seq<T>, p6: seq<T>, p7: seq<T>, p8: seq<T>, p9: seq<T>)
    ensures o + p1 + p2 + p3 + p4 + p5 + p6 + p7 + p8 + p9 == o + (p1 + p2 + p3 + p4 + p5 + p6 + p7 + p8 + p9)
  {
  }

  // ----- the box -----

  /**
   * The simulation box: orthogonal with its three lengths, or triclinic
   * with the four bound lines computed from its unit vectors (that
   * computation is not part of this model).
   */
  datatype Box = Orthogonal(lx: Quantity, ly: Quantity, lz: Quantity) | Triclinic(bounds: seq<string>)

  /** `_write_box`: each dimension runs from 0 to its length; no tilt. */
  function BoxLines(h: Hooks, box: Box): seq<string>
  {
    match box
    case Orthogonal(lx, ly, lz) =>
      ["0.000000 " + h.num(lx) + " xlo xhi\n",
       "0.000000 " + h.num(ly) + " ylo yhi\n",
       "0.000000 " + h.num(lz) + " zlo zhi\n",
       "0.000000 0.000000 0.000000 xy xz yz\n"]
    case Triclinic(bounds) => bounds
  }

  method WriteBox(out: OutFile, h: Hooks, box: Box)
    modifies out
    ensures out.lines == old(out.lines) + BoxLines(h, box)
  {
    match box
    case Orthogonal(lx, ly, lz) =>
      out.Write(["0.000000 " + h.num(lx) + " xlo xhi\n"]);
      out.Write(["0.000000 " + h.num(ly) + " ylo yhi\n"]);
      out.Write(["0.000000 " + h.num(lz) + " zlo zhi\n"]);
      out.Write(["0.000000 0.000000 0.000000 xy xz yz\n"]);
    case Triclinic(bounds) =>
      out.Write(bounds);
  }

  // ----- Masses and Pair Coeffs -----

  /** Atom types are listed by name. */
  function ByName(t: AtomType): seq<string>
  {
    [t.name]
  }

  /**
   * A Masses row `index mass # name`, numbered by the first position in the
   * sorted list of a type equal to `t` (`list.index` compares with `__eq__`).
   */
  function MassLine(sorted: seq<AtomType>, h: Hooks, i: nat, t: AtomType): Result<string, LammpsError>
  {
    match IndexOfEqual(sorted, t)
    case None => Err(ValueError("atom type is not in list"))
    case Some(j) => Ok(IntToString(j + 1) + "\t" + h.num(t.mass) + "\t# " + t.name + "\n")
  }

  function MassRow(sorted: seq<AtomType>, h: Hooks): (nat, AtomType) -> Result<string, LammpsError>
  {
    (i: nat, t: AtomType) => MassLine(sorted, h, i, t)
  }

  function MassHeader(h: Hooks, style: UnitStyle): seq<string>
  {
    ["\n", "Masses\n", "#\tmass (" + h.unitText(GetUnits(style, Mass)) + ")\n"]
  }

  /** `_write_atomtypes`. */
  function MassSection(h: Hooks, style: UnitStyle, atomTypes: seq<AtomType>): Emitted
  {
    var sorted := SortBy(atomTypes, ByName);
    Then(Emitted(MassHeader(h, style), None), Emit(sorted, MassRow(sorted, h), 0))
  }

  method WriteAtomTypes(out: OutFile, h: Hooks, style: UnitStyle, atomTypes: seq<AtomType>) returns (r: Result<(), LammpsError>)
    modifies out
    ensures out.lines == old(out.lines) + MassSection(h, style, atomTypes).lines
    ensures r == Outcome(MassSection(h, style, atomTypes))
  {
    out.Write(MassHeader(h, style));
    var sorted := SortBy(atomTypes, ByName);
    var row := MassRow(sorted, h);
    r := EmitRows(out, sorted, row);
    ThenLines(old(out.lines), Emitted(MassHeader(h, style), None), Emit(sorted, row, 0));
  }

  /** The Lennard-Jones parameters in the order the pair table lists them. */
  const PairKeys: seq<string> := ["epsilon", "sigma"]

  /** A Pair Coeffs row `index epsilon sigma # name`; a missing parameter raises KeyError. */
  function PairLine(h: Hooks, i: nat, t: AtomType): Result<string, LammpsError>
  {
    match ParamsOf(t.potential.parameters, PairKeys)
    case Err(e) => Err(e)
    case Ok(qs) => Ok(IntToString(i + 1) + "\t" + h.num(qs[0]) + "\t\t" + h.num(qs[1]) + "\t\t# " + t.name + "\n")
  }

  function PairRow(h: Hooks): (nat, AtomType) -> Result<string, LammpsError>
  {
    (i: nat, t: AtomType) => PairLine(h, i, t)
  }

  /**
   * `_write_pairtypes`: the header names the first site's potential
   * expression and labels its parameters; without sites it raises
   * IndexError, and an untyped first site has no expression.
   */
  function PairSection(h: Hooks, sites: seq<Site>, atomTypes: seq<AtomType>): Emitted
  {
    if sites == [] then Emitted([], Some(IndexError))
    else if sites[0].atomType.None? then Emitted([], Some(MissingAttribute("expression")))
    else
      var test := sites[0].atomType.value;
      var header := ["\n", "Pair Coeffs # " + test.potential.expression + "\n"];
      match LabelLine(h, test.potential.parameters, PairKeys)
      case Err(e) => Emitted(header, Some(e))
      case Ok(labels) =>
        Then(Emitted(header + [labels], None), Emit(SortBy(atomTypes, ByName), PairRow(h), 0))
  }

  method WritePairTypes(out: OutFile, h: Hooks, top: Topology, atomTypes: seq<AtomType>) returns (r: Result<(), LammpsError>)
    modifies out
    ensures out.lines == old(out.lines) + PairSection(h, top.sites, atomTypes).lines
    ensures r == Outcome(PairSection(h, top.sites, atomTypes))
  {
    if top.sites == [] {
      return Err(IndexError);
    }
    if top.sites[0].atomType.None? {
      return Err(MissingAttribute("expression"));
    }
    var test := top.sites[0].atomType.value;
    out.Write(["\n", "Pair Coeffs # " + test.potential.expression + "\n"]);
    var labels := LabelLine(h, test.potential.parameters, PairKeys);
    if labels.Err? {
      return Err(labels.error);
    }
    out.Write([labels.value]);
    r := EmitRows(out, SortBy(atomTypes, ByName), PairRow(h));
    Concat3(old(out.lines), ["\n", "Pair Coeffs # " + test.potential.expression + "\n"], [labels.value], Emit(SortBy(atomTypes, ByName), PairRow(h), 0).lines);
  }

  // ----- the connection-type tables -----

  /** Every second element, `s[::2]`. */
  function Evens(s: seq<string>): (r: seq<string>)
    ensures |r| == (|s| + 1) / 2
    ensures forall i :: 0 <= i < |r| ==> r[i] == s[2 * i]
    decreases |s|
  {
    if |s| <= 1 then s else [s[0]] + Evens(s[2..])
  }

  /** Python's `min` of a non-empty list of strings. */
  function MinOf(s: seq<string>): (r: string)
    requires s != []
    ensures r in s && forall i :: 0 <= i < |s| ==> StrLe(r, s[i])
    decreases |s|
  {
    if |s| == 1 then
      StrLeRefl(s[0]);
      s[0]
    else
      var m := MinOf(s[1..]);
      var r := MinStr(s[0], m);
      assert forall i :: 1 <= i < |s| ==> StrLe(m, s[i]) by {
        assert forall i :: 1 <= i < |s| ==> s[1..][i - 1] == s[i];
      }
      forall i | 1 <= i < |s| ensures StrLe(r, s[i]) {
        StrLeTransitive(r, m, s[i]);
      }
      r
  }

  /** Python's `max` of a non-empty list of strings. */
  function MaxOf(s: seq<string>): (r: string)
    requires s != []
    ensures r in s && forall i :: 0 <= i < |s| ==> StrLe(s[i], r)
    decreases |s|
  {
    if |s| == 1 then
      StrLeRefl(s[0]);
      s[0]
    else
      var m := MaxOf(s[1..]);
      var r := MaxStr(s[0], m);
      assert forall i :: 1 <= i < |s| ==> StrLe(s[i], m) by {
        assert forall i :: 1 <= i < |s| ==> s[1..][i - 1] == s[i];
      }
      forall i | 1 <= i < |s| ensures StrLe(s[i], r) {
        StrLeTransitive(s[i], m, r);
      }
      r
  }

  /** `[s[i] for i in idx]`, defined when every index is in range. */
  function Pick(s: seq<string>, idx: seq<nat>): (r: seq<string>)
    ensures (forall j :: 0 <= j < |idx| ==> idx[j] < |s|) ==>
      |r| == |idx| && forall j :: 0 <= j < |idx| ==> r[j] == s[idx[j]]
  {
    if forall j :: 0 <= j < |idx| ==> idx[j] < |s| then seq(|idx|, j requires 0 <= j < |idx| => s[idx[j]]) else []
  }

  /** The member positions each kind's tables are ordered by (`_<kind>_order_sorter`). */
  function SortOrder(k: ConnKind): seq<nat>
  {
    match k
    case Bond => []
    case Angle => [1, 0, 2]
    case Dihedral => [1, 2, 0, 3]
    case Improper => [0, 1, 2, 3]
  }

  /** The key a coefficient table is sorted by can be computed for `t` (else IndexError). */
  predicate TableKeyDefined(k: ConnKind, h: Hooks, t: ConnType)
  {
    match k
    case Bond => true
    case Angle => |t.memberTypes| >= 2
    case Dihedral => |h.memberKey(t)| >= 4
    case Improper => |h.memberKey(t)| >= 4
  }

  /**
   * The key each coefficient table is sorted by: bonds by their sorted
   * member types, angles by the middle type and then the smaller and the
   * larger of the outer ones (`member_types[::2]`), dihedrals and
   * impropers by `sort_by_types` reordered.
   */
  function TableKey(k: ConnKind, h: Hooks): ConnType -> seq<string>
  {
    match k
    case Bond => (t: ConnType) => SortBy(t.memberTypes, (m: string) => [m])
    case Angle => (t: ConnType) =>
      if |t.memberTypes| < 2 then [] else [t.memberTypes[1], MinOf(Evens(t.memberTypes)), MaxOf(Evens(t.memberTypes))]
    case Dihedral => (t: ConnType) => Pick(h.memberKey(t), SortOrder(Dihedral))
    case Improper => (t: ConnType) => Pick(h.memberKey(t), SortOrder(Improper))
  }

  /** The parameters each table lists, in order. */
  function CoeffKeys(k: ConnKind): seq<string>
  {
    match k
    case Bond => ["k", "r_eq"]
    case Angle => ["k", "theta_eq"]
    case Dihedral => ["k1", "k2", "k3", "k4"]
    case Improper => ["k", "phi_eq"]
  }

  /**
   * A coefficient row: the index, the parameters and, as a comment, the
   * member types (bonds: the first two, sorted; angles: the first three,
   * padded to 11; dihedrals: `sort_by_types`). Too few member types raise
   * IndexError (before the parameters are looked up for bonds, after for
   * the others); the improper row carries no comment.
   */
  function CoeffLine(k: ConnKind, h: Hooks, i: nat, t: ConnType): Result<string, LammpsError>
  {
    var idx := IntToString(i + 1);
    var m := t.memberTypes;
    if k == Bond && |m| < 2 then Err(IndexError)
    else match ParamsOf(t.parameters, CoeffKeys(k))
      case Err(e) => Err(e)
      case Ok(qs) =>
        var row := JoinRow([idx] + Nums(h, qs), 0);
        match k
        case Bond => Ok(row + "\t\t" + ("# " + MinStr(m[0], m[1]) + "\t" + MaxStr(m[0], m[1]) + "\n"))
        case Angle =>
          if |m| < 3 then Err(IndexError)
          else Ok(row + "\t" + ("#" + LJust(m[0], 11) + "\t" + LJust(m[1], 11) + "\t" + LJust(m[2], 11) + "\n"))
        case Dihedral =>
          var ms := h.memberKey(t);
          if |ms| < 4 then Err(IndexError)
          else Ok(row + "\t" + ("# " + JoinRow(ms[..4], 0) + "\n"))
        case Improper => Ok(row + "\n")
  }

  function CoeffRow(k: ConnKind, h: Hooks): (nat, ConnType) -> Result<string, LammpsError>
  {
    (i: nat, t: ConnType) => CoeffLine(k, h, i, t)
  }

  /** The type the table header names: the first connection's type. */
  function TestType(k: ConnKind, conns: seq<Connection>): Result<ConnType, LammpsError>
  {
    var cs := OfKind(conns, k);
    if cs == [] then Err(IndexError)
    else if cs[0].connectionType.None? then Err(MissingAttribute("name"))
    else Ok(cs[0].connectionType.value)
  }

  /**
   * `_write_<kind>types`: the header, the parameter labels of the first
   * connection's type, then the table sorted by the kind's key.
   */
  function CoeffSection(k: ConnKind, h: Hooks, conns: seq<Connection>, types: seq<ConnType>): Emitted
  {
    match TestType(k, conns)
    case Err(e) => Emitted([], Some(e))
    case Ok(test) =>
      var header := ["\n", ClassName(k) + " Coeffs #" + test.name + "\n"];
      match LabelLine(h, test.parameters, CoeffKeys(k))
      case Err(e) => Emitted(header, Some(e))
      case Ok(labels) =>
        Then(Emitted(header + [labels], None), CoeffRows(k, h, types))
  }

  /** The rows of a coefficient table: sorting raises IndexError when a type lacks its sort key. */
  function CoeffRows(k: ConnKind, h: Hooks, types: seq<ConnType>): Emitted
  {
    if !(forall i :: 0 <= i < |types| ==> TableKeyDefined(k, h, types[i])) then Emitted([], Some(IndexError))
    else Emit(SortBy(types, TableKey(k, h)), CoeffRow(k, h), 0)
  }

  method WriteConnTypes(out: OutFile, k: ConnKind, h: Hooks, top: Topology, types: seq<ConnType>) returns (r: Result<(), LammpsError>)
    modifies out
    ensures out.lines == old(out.lines) + CoeffSection(k, h, top.connections, types).lines
    ensures r == Outcome(CoeffSection(k, h, top.connections, types))
  {
    var test :- TestType(k, top.connections);
    var header := ["\n", ClassName(k) + " Coeffs #" + test.name + "\n"];
    out.Write(header);
    var labels := LabelLine(h, test.parameters, CoeffKeys(k));
    if labels.Err? {
      return Err(labels.error);
    }
    out.Write([labels.value]);
    Concat2(old(out.lines), header, [labels.value]);
    r := WriteCoeffRows(out, k, h, types);
    ThenLines(old(out.lines), Emitted(header + [labels.value], None), CoeffRows(k, h, types));
  }

  /** The sorted rows of a coefficient table, after its header. */
  method WriteCoeffRows(out: OutFile, k: ConnKind, h: Hooks, types: seq<ConnType>) returns (r: Result<(), LammpsError>)
    modifies out
    ensures out.lines == old(out.lines) + CoeffRows(k, h, types).lines
    ensures r == Outcome(CoeffRows(k, h, types))
  {
    var j := 0;
    while j < |types|
      invariant 0 <= j <= |types|
      invariant forall i :: 0 <= i < j ==> TableKeyDefined(k, h, types[i])
    {
      if !TableKeyDefined(k, h, types[j]) {
        return Err(IndexError);
      }
      j := j + 1;
    }
    r := EmitRows(out, SortBy(types, TableKey(k, h)), CoeffRow(k, h));
  }

  // ----- the Atoms section -----

  /** The atom-style formats: which columns a row has. */
  function SiteFields(a: AtomStyle, index: string, molecule: string, typeIndex: string, charge: string, xyz: seq<string>): seq<string>
  {
    match a
    case Atomic => [index, typeIndex] + xyz
    case Charge => [index, typeIndex, charge] + xyz
    case Molecular => [index, molecule, typeIndex] + xyz
    case Full => [index, molecule, typeIndex, charge] + xyz
  }

  /**
   * An Atoms row for site `i`: its 1-based index, its molecule's number,
   * the 1-based position in the name-sorted table of the first type equal
   * (`__eq__`) to its atom type, its
   * charge and its coordinates. Every style evaluates all of them, so a
   * site without a molecule raises for every style.
   */
  function SiteLine(a: AtomStyle, h: Hooks, sorted: seq<AtomType>, i: nat, s: Site): Result<string, LammpsError>
  {
    if s.molecule.None? then Err(MissingAttribute("number"))
    else
      var ti := if s.atomType.None? then None else IndexOfEqual(sorted, s.atomType.value);
      if ti.None? then Err(ValueError("atom type is not in list"))
      else if |s.position| < 3 then Err(IndexError)
      else
        var xyz := Nums(h, s.position[..3]);
        Ok(JoinRow(SiteFields(a, IntToString(i + 1), IntToString(s.molecule.value.number), IntToString(ti.value + 1), h.num(s.charge), xyz), 0) + "\n")
  }

  /**
   * The errors of an Atoms row, in the order `format` evaluates its
   * arguments: no molecule raises first; then a type equal (`__eq__`) to
   * none in the table, or no type, raises ValueError; then fewer than three
   * coordinates raise IndexError.
   */
  lemma SiteLineErrors(a: AtomStyle, h: Hooks, sorted: seq<AtomType>, i: nat, s: Site)
    ensures s.molecule.None? ==> SiteLine(a, h, sorted, i, s) == Err(MissingAttribute("number"))
    ensures s.molecule.Some? && (s.atomType.None? || forall j :: 0 <= j < |sorted| ==> !SameFields(sorted[j], s.atomType.value)) ==>
      SiteLine(a, h, sorted, i, s) == Err(ValueError("atom type is not in list"))
    ensures s.molecule.Some? && s.atomType.Some? && (exists j :: 0 <= j < |sorted| && SameFields(sorted[j], s.atomType.value)) && |s.position| < 3 ==>
      SiteLine(a, h, sorted, i, s) == Err(IndexError)
  {
    if s.molecule.Some? && s.atomType.Some? {
      var found := IndexOfEqual(sorted, s.atomType.value);
      assert found.None? <==> forall j :: 0 <= j < |sorted| ==> !SameFields(sorted[j], s.atomType.value);
    }
  }

  /**
   * A written Atoms row carries the position, counted from 1, of the first
   * type in the table equal (`__eq__`) to the site's (`IndexOfEqual`), the
   * molecule's number, the charge and the first three coordinates.
   */
  lemma SiteLineWritten(a: AtomStyle, h: Hooks, sorted: seq<AtomType>, i: nat, s: Site)
    requires SiteLine(a, h, sorted, i, s).Ok?
    ensures s.molecule.Some? && s.atomType.Some? && |s.position| >= 3
    ensures IndexOfEqual(sorted, s.atomType.value).Some?
    ensures SiteLine(a, h, sorted, i, s).value
      == JoinRow(SiteFields(a, IntToString(i + 1), IntToString(s.molecule.value.number),
                            IntToString(IndexOfEqual(sorted, s.atomType.value).value + 1), h.num(s.charge), Nums(h, s.position[..3])), 0) + "\n"
  {
  }

  function SiteRow(a: AtomStyle, h: Hooks, sorted: seq<AtomType>): (nat, Site) -> Result<string, LammpsError>
  {
    (i: nat, s: Site) => SiteLine(a, h, sorted, i, s)
  }

  function SiteHeader(a: AtomStyle): seq<string>
  {
    ["\n", "Atoms #" + AtomStyleName(a) + "\n", "\n"]
  }

  /** `_write_site_data`. */
  function SiteSection(h: Hooks, a: AtomStyle, sites: seq<Site>, atomTypes: seq<AtomType>): Emitted
  {
    Then(Emitted(SiteHeader(a), None), Emit(sites, SiteRow(a, h, SortBy(atomTypes, ByName)), 0))
  }

  method WriteSiteData(out: OutFile, h: Hooks, a: AtomStyle, top: Topology, atomTypes: seq<AtomType>) returns (r: Result<(), LammpsError>)
    modifies out
    ensures out.lines == old(out.lines) + SiteSection(h, a, top.sites, atomTypes).lines
    ensures r == Outcome(SiteSection(h, a, top.sites, atomTypes))
  {
    out.Write(SiteHeader(a));
    var row := SiteRow(a, h, SortBy(atomTypes, ByName));
    r := EmitRows(out, top.sites, row);
    ThenLines(old(out.lines), Emitted(SiteHeader(a), None), Emit(top.sites, row, 0));
  }

  // ----- the connection sections -----

  /** `sorting_funcDict[<kinds>]` can be applied to a `sort_by_types` tuple. */
  predicate OrderDefined(k: ConnKind, key: seq<string>)
  {
    k == Bond || |key| >= |SortOrder(k)|
  }

  /** `sorting_funcDict`: bonds compare their tuples as they are. */
  function ConnOrder(k: ConnKind): seq<string> -> seq<string>
  {
    if k == Bond then (key: seq<string>) => key
    else (key: seq<string>) => Pick(key, SortOrder(k))
  }

  /** The 1-based positions of the members in the site list; a member that is not a site raises ValueError. */
  function SiteNumbers(sites: seq<Site>, members: seq<Site>): (r: Result<seq<int>, LammpsError>)
    ensures r.Ok? <==> forall j :: 0 <= j < |members| ==> members[j] in sites
    ensures r.Ok? ==> |r.value| == |members| && forall j :: 0 <= j < |members| ==> r.value[j] == IndexOf(sites, members[j]).value + 1
  {
    if members == [] then Ok([])
    else match IndexOf(sites, members[0])
      case None => Err(ValueError("site is not in list"))
      case Some(p) =>
        var rest :- SiteNumbers(sites, members[1..]);
        Ok([p + 1] + rest)
  }

  function IntStrings(ns: seq<int>): (r: seq<string>)
    ensures |r| == |ns| && forall j :: 0 <= j < |ns| ==> r[j] == IntToString(ns[j])
  {
    seq(|ns|, j requires 0 <= j < |ns| => IntToString(ns[j]))
  }

  /**
   * A connection row: its 1-based index, the 1-based position of its
   * type's `sort_by_types` tuple in the sorted tuple list, and the 1-based
   * site numbers of its members, each left-justified to 6.
   */
  function ConnLine(h: Hooks, indexList: seq<seq<string>>, sites: seq<Site>, i: nat, c: Connection): Result<string, LammpsError>
  {
    if c.connectionType.None? then Err(MissingAttribute("member_types"))
    else match IndexOf(indexList, h.memberKey(c.connectionType.value))
      case None => Err(ValueError("connection type is not in list"))
      case Some(t) =>
        match SiteNumbers(sites, c.members)
        case Err(e) => Err(e)
        case Ok(ns) => Ok(ConnText(i, t, ns))
  }

  /** The row of the `i`-th connection: its 1-based index, type number and site numbers, tab-separated. */
  function ConnText(i: nat, t: nat, ns: seq<int>): string
  {
    LJust(IntToString(i + 1), 6) + "\t" + LJust(IntToString(t + 1), 6) + "\t" + JoinRow(IntStrings(ns), 6) + "\n"
  }

  function ConnRow(h: Hooks, indexList: seq<seq<string>>, sites: seq<Site>): (nat, Connection) -> Result<string, LammpsError>
  {
    (i: nat, c: Connection) => ConnLine(h, indexList, sites, i, c)
  }

  /** The sorted `sort_by_types` tuples of a kind's types. */
  function IndexList(k: ConnKind, h: Hooks, types: seq<ConnType>): seq<seq<string>>
  {
    SortBy(Map(h.memberKey, types), ConnOrder(k))
  }

  function ConnHeader(k: ConnKind): seq<string>
  {
    ["\n", ClassName(k) + "s\n", "\n"]
  }

  /** `_write_conn_data`. */
  function ConnSection(k: ConnKind, h: Hooks, sites: seq<Site>, conns: seq<Connection>, types: seq<ConnType>): Emitted
  {
    if !(forall i :: 0 <= i < |types| ==> OrderDefined(k, h.memberKey(types[i]))) then Emitted(ConnHeader(k), Some(IndexError))
    else Then(Emitted(ConnHeader(k), None), Emit(OfKind(conns, k), ConnRow(h, IndexList(k, h, types), sites), 0))
  }

  method WriteConnData(out: OutFile, k: ConnKind, h: Hooks, top: Topology, types: seq<ConnType>) returns (r: Result<(), LammpsError>)
    modifies out
    ensures out.lines == old(out.lines) + ConnSection(k, h, top.sites, top.connections, types).lines
    ensures r == Outcome(ConnSection(k, h, top.sites, top.connections, types))
  {
    out.Write(ConnHeader(k));
    var j := 0;
    while j < |types|
      invariant 0 <= j <= |types|
      invariant forall i :: 0 <= i < j ==> OrderDefined(k, h.memberKey(types[i]))
    {
      if !OrderDefined(k, h.memberKey(types[j])) {
        return Err(IndexError);
      }
      j := j + 1;
    }
    var row := ConnRow(h, IndexList(k, h, types), top.sites);
    r := EmitRows(out, OfKind(top.connections, k), row);
    ThenLines(old(out.lines), Emitted(ConnHeader(k), None), Emit(OfKind(top.connections, k), row, 0));
  }

  // ----- the whole file -----

  /** `top.is_fully_typed()`: every site has an atom type and every connection a type. */
  predicate FullyTyped(sites: seq<Site>, conns: seq<Connection>)
  {
    (forall i :: 0 <= i < |sites| ==> sites[i].atomType.Some?)
    && (forall i :: 0 <= i < |conns| ==> conns[i].connectionType.Some?)
  }

  /** The coefficient table of kind `k`, written only when the topology has types of that kind. */
  function CoeffIf(k: ConnKind, h: Hooks, conns: seq<Connection>, tables: Tables): Emitted
  {
    if |tables.connTypes(k)| > 0 then CoeffSection(k, h, conns, tables.connTypes(k)) else Emitted([], None)
  }

  /** The connection section of kind `k`, written only when the topology has connections of that kind. */
  function ConnIf(k: ConnKind, h: Hooks, sites: seq<Site>, conns: seq<Connection>, tables: Tables): Emitted
  {
    if |OfKind(conns, k)| > 0 then ConnSection(k, h, sites, conns, tables.connTypes(k)) else Emitted([], None)
  }

  /** Four pieces written one after another, stopping at the first that raises. */
  function Then4(e1: Emitted, e2: Emitted, e3: Emitted, e4: Emitted): Emitted
  {
    Then(e1, Then(e2, Then(e3, e4)))
  }

  /** The coefficient tables in `WriteOrder`: bonds, angles, dihedrals, impropers. */
  function CoeffSections(h: Hooks, conns: seq<Connection>, tables: Tables): Emitted
  {
    Then4(CoeffIf(Bond, h, conns, tables), CoeffIf(ConnKind.Angle, h, conns, tables),
      CoeffIf(Dihedral, h, conns, tables), CoeffIf(Improper, h, conns, tables))
  }

  /** The connection sections in `WriteOrder`. */
  function ConnSections(h: Hooks, sites: seq<Site>, conns: seq<Connection>, tables: Tables): Emitted
  {
    Then4(ConnIf(Bond, h, sites, conns, tables), ConnIf(ConnKind.Angle, h, sites, conns, tables),
      ConnIf(Dihedral, h, sites, conns, tables), ConnIf(Improper, h, sites, conns, tables))
  }

  /** The type tables, written only for a fully typed topology. */
  function TypeSections(h: Hooks, style: UnitStyle, sites: seq<Site>, conns: seq<Connection>, tables: Tables): Emitted
  {
    if FullyTyped(sites, conns) then
      Then(MassSection(h, style, tables.atomTypes),
        Then(PairSection(h, sites, tables.atomTypes), CoeffSections(h, conns, tables)))
    else Emitted([], None)
  }

  /** The body of the `with open(...)` block of `write_lammpsdata`. */
  function DataFile(h: Hooks, a: AtomStyle, style: UnitStyle, sites: seq<Site>, conns: seq<Connection>, tables: Tables, box: Box): Emitted
  {
    Then4(Emitted(HeaderLines(h.title, a, CountsOf(sites, conns, tables)) + BoxLines(h, box), None),
      TypeSections(h, style, sites, conns, tables),
      SiteSection(h, a, sites, tables.atomTypes), ConnSections(h, sites, conns, tables))
  }

  /** Writing `a` and then `b` leaves what writing `Then(a, b)` leaves. */
  lemma ThenLines(o: seq<string>, a: Emitted, b: Emitted)
    requires a.error.None?
    ensures o + a.lines + b.lines == o + Then(a, b).lines
    ensures Outcome(Then(a, b)) == Outcome(b)
  {
  }

  /**
   * The steps of writing four pieces: after the pieces before the first
   * failure (or all four), the output is that of `Then4`.
   */
  lemma Then4Lines(o: seq<string>, e1: Emitted, e2: Emitted, e3: Emitted, e4: Emitted)
    ensures e1.error.Some? ==> Then4(e1, e2, e3, e4) == e1
    ensures e1.error.None? && e2.error.Some? ==> o + e1.lines + e2.lines == o + Then4(e1, e2, e3, e4).lines && Outcome(Then4(e1, e2, e3, e4)) == Outcome(e2)
    ensures e1.error.None? && e2.error.None? && e3.error.Some? ==> o + e1.lines + e2.lines + e3.lines == o + Then4(e1, e2, e3, e4).lines && Outcome(Then4(e1, e2, e3, e4)) == Outcome(e3)
    ensures e1.error.None? && e2.error.None? && e3.error.None? ==> o + e1.lines + e2.lines + e3.lines + e4.lines == o + Then4(e1, e2, e3, e4).lines && Outcome(Then4(e1, e2, e3, e4)) == Outcome(e4)
  {
  }

  /** The steps of writing three pieces, as `Then4Lines`. */
  lemma Then3Lines(o: seq<string>, e1: Emitted, e2: Emitted, e3: Emitted)
    ensures e1.error.Some? ==> Then(e1, Then(e2, e3)) == e1
    ensures e1.error.None? && e2.error.Some? ==> o + e1.lines + e2.lines == o + Then(e1, Then(e2, e3)).lines && Outcome(Then(e1, Then(e2, e3))) == Outcome(e2)
    ensures e1.error.None? && e2.error.None? ==> o + e1.lines + e2.lines + e3.lines == o + Then(e1, Then(e2, e3)).lines && Outcome(Then(e1, Then(e2, e3))) == Outcome(e3)
  {
  }

  /** `if top.<kind>_types: _write_<kind>types(...)` */
  method WriteCoeffIf(out: OutFile, k: ConnKind, h: Hooks, top: Topology, tables: Tables) returns (r: Result<(), LammpsError>)
    modifies out
    ensures out.lines == old(out.lines) + CoeffIf(k, h, top.connections, tables).lines
    ensures r == Outcome(CoeffIf(k, h, top.connections, tables))
  {
    if |tables.connTypes(k)| > 0 {
      r := WriteConnTypes(out, k, h, top, tables.connTypes(k));
    } else {
      r := Ok(());
    }
  }

  /** `if top.n_<kind>s > 0: _write_conn_data(...)` */
  method WriteConnIf(out: OutFile, k: ConnKind, h: Hooks, top: Topology, tables: Tables) returns (r: Result<(), LammpsError>)
    modifies out
    ensures out.lines == old(out.lines) + ConnIf(k, h, top.sites, top.connections, tables).lines
    ensures r == Outcome(ConnIf(k, h, top.sites, top.connections, tables))
  {
    if |OfKind(top.connections, k)| > 0 {
      r := WriteConnData(out, k, h, top, tables.connTypes(k));
    } else {
      r := Ok(());
    }
  }

  method WriteCoeffSections(out: OutFile, h: Hooks, top: Topology, tables: Tables) returns (r: Result<(), LammpsError>)
    modifies out
    ensures out.lines == old(out.lines) + CoeffSections(h, top.connections, tables).lines
    ensures r == Outcome(CoeffSections(h, top.connections, tables))
  {
    ghost var o := out.lines;
    ghost var e1, e2, e3, e4 := CoeffIf(Bond, h, top.connections, tables), CoeffIf(ConnKind.Angle, h, top.connections, tables),
      CoeffIf(Dihedral, h, top.connections, tables), CoeffIf(Improper, h, top.connections, tables);
    Then4Lines(o, e1, e2, e3, e4);
    r := WriteCoeffIf(out, Bond, h, top, tables);
    if r.Err? {
      return;
    }
    r := WriteCoeffIf(out, ConnKind.Angle, h, top, tables);
    if r.Err? {
      return;
    }
    r := WriteCoeffIf(out, Dihedral, h, top, tables);
    if r.Err? {
      return;
    }
    r := WriteCoeffIf(out, Improper, h, top, tables);
  }

  method WriteConnSections(out: OutFile, h: Hooks, top: Topology, tables: Tables) returns (r: Result<(), LammpsError>)
    modifies out
    ensures out.lines == old(out.lines) + ConnSections(h, top.sites, top.connections, tables).lines
    ensures r == Outcome(ConnSections(h, top.sites, top.connections, tables))
  {
    ghost var o := out.lines;
    ghost var e1, e2, e3, e4 := ConnIf(Bond, h, top.sites, top.connections, tables), ConnIf(ConnKind.Angle, h, top.sites, top.connections, tables),
      ConnIf(Dihedral, h, top.sites, top.connections, tables), ConnIf(Improper, h, top.sites, top.connections, tables);
    Then4Lines(o, e1, e2, e3, e4);
    r := WriteConnIf(out, Bond, h, top, tables);
    if r.Err? {
      return;
    }
    r := WriteConnIf(out, ConnKind.Angle, h, top, tables);
    if r.Err? {
      return;
    }
    r := WriteConnIf(out, Dihedral, h, top, tables);
    if r.Err? {
      return;
    }
    r := WriteConnIf(out, Improper, h, top, tables);
  }

  method WriteTypeSections(out: OutFile, h: Hooks, style: UnitStyle, top: Topology, tables: Tables) returns (r: Result<(), LammpsError>)
    modifies out
    ensures out.lines == old(out.lines) + TypeSections(h, style, top.sites, top.connections, tables).lines
    ensures r == Outcome(TypeSections(h, style, top.sites, top.connections, tables))
  {
    if !FullyTyped(top.sites, top.connections) {
      return Ok(());
    }
    ghost var o := out.lines;
    ghost var e1, e2, e3 := MassSection(h, style, tables.atomTypes), PairSection(h, top.sites, tables.atomTypes),
      CoeffSections(h, top.connections, tables);
    Then3Lines(o, e1, e2, e3);
    r := WriteAtomTypes(out, h, style, tables.atomTypes);
    if r.Err? {
      return;
    }
    r := WritePairTypes(out, h, top, tables.atomTypes);
    if r.Err? {
      return;
    }
    r := WriteCoeffSections(out, h, top, tables);
  }

  /** Every kind of connection present has connection types, so the default potentials convert. */
  predicate Convertible(conns: seq<Connection>, tables: Tables)
  {
    forall k :: |OfKind(conns, k)| > 0 ==> |tables.connTypes(k)| > 0
  }

  /** The first kind in `ks` with connections but no connection types, whose default conversion raises. */
  function FirstUnconvertible(conns: seq<Connection>, tables: Tables, ks: seq<ConnKind>): (r: Option<ConnKind>)
    ensures r.Some? ==> r.value in ks && |OfKind(conns, r.value)| > 0 && |tables.connTypes(r.value)| == 0
    ensures r.None? <==> forall j :: 0 <= j < |ks| ==> |OfKind(conns, ks[j])| == 0 || |tables.connTypes(ks[j])| > 0
  {
    if ks == [] then None
    else if |OfKind(conns, ks[0])| > 0 && |tables.connTypes(ks[0])| == 0 then Some(ks[0])
    else FirstUnconvertible(conns, tables, ks[1..])
  }

  /** A kind that fails, with none failing before it, is the first to fail. */
  lemma {:induction false} FirstUnconvertibleAt(conns: seq<Connection>, tables: Tables, ks: seq<ConnKind>, j: nat)
    requires j < |ks| && |OfKind(conns, ks[j])| > 0 && |tables.connTypes(ks[j])| == 0
    requires forall i :: 0 <= i < j ==> |OfKind(conns, ks[i])| == 0 || |tables.connTypes(ks[i])| > 0
    ensures FirstUnconvertible(conns, tables, ks) == Some(ks[j])
  {
    if j > 0 {
      FirstUnconvertibleAt(conns, tables, ks[1..], j - 1);
    }
  }

  /**
   * The conversion factors the sections are written with: None for every
   * unit style but lj, and for lj the dictionary once its defaults are
   * filled in.
   */
  function LjFactors(style: UnitStyle, order: seq<string>, values: map<string, Quantity>, ts: seq<AtomType>): (r: Result<Option<map<string, Quantity>>, LammpsError>)
    ensures style != Lj ==> r == Ok(None)
    ensures style == Lj ==> (r.Ok? <==> Resolve(order, values, ts).Ok?)
    ensures style == Lj && r.Ok? ==> r.value == Some(Resolve(order, values, ts).value.1)
    ensures style == Lj && r.Err? ==> r.error == Resolve(order, values, ts).error
  {
    if style != Lj then Ok(None)
    else
      var p :- Resolve(order, values, ts);
      Ok(Some(p.1))
  }

  /** The hooks with numbers converted by `convert_parameter(q, cfactorsDict)` for the given factors. */
  function FileHooks(h: Hooks, convert: (Option<map<string, Quantity>>, Quantity) -> string, cf: Option<map<string, Quantity>>): (r: Hooks)
    ensures forall q :: r.num(q) == convert(cf, q)
    ensures r.paramLabel == h.paramLabel && r.unitText == h.unitText && r.memberKey == h.memberKey && r.title == h.title
  {
    h.(num := (q: Quantity) => convert(cf, q))
  }

  /**
   * What `write_lammpsdata` leaves for a topology, stage by stage: the
   * option errors, the `AttributeError` of the first kind whose default
   * conversion fails, the error of the lj factors, then the file written
   * with the resolved factors, or the exception that stopped it.
   */
  function WriteResult(h: Hooks, convert: (Option<map<string, Quantity>>, Quantity) -> string, atomStyle: string, unitStyle: string,
                       order: seq<string>, values: map<string, Quantity>, sites: seq<Site>, conns: seq<Connection>, tables: Tables, box: Box)
    : Result<seq<string>, LammpsError>
  {
    var opts :- CheckWriteOptions(atomStyle, unitStyle, order != []);
    match FirstUnconvertible(conns, tables, ConversionOrder)
    case Some(k) => Err(AttributeError(k))
    case None =>
      var cf :- LjFactors(opts.1, order, values, tables.allAtomTypes);
      var f := DataFile(FileHooks(h, convert, cf), opts.0, opts.1, sites, conns, tables, box);
      if f.error.Some? then Err(f.error.value) else Ok(f.lines)
  }

  /** Every kind is one of the four the default conversions visit. */
  lemma ConversionOrderCovers(k: ConnKind)
    ensures k in ConversionOrder
  {
    assert k == ConversionOrder[0] || k == ConversionOrder[1] || k == ConversionOrder[2] || k == ConversionOrder[3];
  }

  /**
   * The stages of a write, spelled out: an option error; then, for a
   * topology with a kind of connection but no types of that kind, an
   * `AttributeError`; then for lj the error of the factors; past them, the
   * file with every number converted by the factors (None for other unit
   * styles), or the exception that stopped it.
   */
  lemma WriteResultStages(h: Hooks, convert: (Option<map<string, Quantity>>, Quantity) -> string, atomStyle: string, unitStyle: string,
                          order: seq<string>, values: map<string, Quantity>, sites: seq<Site>, conns: seq<Connection>, tables: Tables, box: Box)
    ensures var opts := CheckWriteOptions(atomStyle, unitStyle, order != []);
      opts.Err? ==> WriteResult(h, convert, atomStyle, unitStyle, order, values, sites, conns, tables, box) == Err(opts.error)
    ensures var opts := CheckWriteOptions(atomStyle, unitStyle, order != []);
      opts.Ok? && !Convertible(conns, tables) ==>
        var r := WriteResult(h, convert, atomStyle, unitStyle, order, values, sites, conns, tables, box);
        r.Err? && r.error.AttributeError? && |OfKind(conns, r.error.kind)| > 0 && |tables.connTypes(r.error.kind)| == 0
    ensures var opts := CheckWriteOptions(atomStyle, unitStyle, order != []);
      opts.Ok? && Convertible(conns, tables) && opts.value.1 == Lj && Resolve(order, values, tables.allAtomTypes).Err? ==>
        WriteResult(h, convert, atomStyle, unitStyle, order, values, sites, conns, tables, box) == Err(Resolve(order, values, tables.allAtomTypes).error)
    ensures var opts := CheckWriteOptions(atomStyle, unitStyle, order != []);
      opts.Ok? && Convertible(conns, tables) && opts.value.1 != Lj ==>
        var f := DataFile(FileHooks(h, convert, None), opts.value.0, opts.value.1, sites, conns, tables, box);
        WriteResult(h, convert, atomStyle, unitStyle, order, values, sites, conns, tables, box)
          == if f.error.Some? then Err(f.error.value) else Ok(f.lines)
    ensures var opts := CheckWriteOptions(atomStyle, unitStyle, order != []);
      opts.Ok? && Convertible(conns, tables) && opts.value.1 == Lj && Resolve(order, values, tables.allAtomTypes).Ok? ==>
        var f := DataFile(FileHooks(h, convert, Some(Resolve(order, values, tables.allAtomTypes).value.1)), opts.value.0, opts.value.1, sites, conns, tables, box);
        WriteResult(h, convert, atomStyle, unitStyle, order, values, sites, conns, tables, box)
          == if f.error.Some? then Err(f.error.value) else Ok(f.lines)
  {
    ConvertibleWhenNoneFails(conns, tables);
  }

  /** The default conversions all succeed exactly when every kind present has connection types. */
  lemma ConvertibleWhenNoneFails(conns: seq<Connection>, tables: Tables)
    ensures Convertible(conns, tables) <==> FirstUnconvertible(conns, tables, ConversionOrder).None?
  {
    if FirstUnconvertible(conns, tables, ConversionOrder).None? {
      forall k | |OfKind(conns, k)| > 0 ensures |tables.connTypes(k)| > 0 {
        ConversionOrderCovers(k);
        var j :| 0 <= j < |ConversionOrder| && ConversionOrder[j] == k;
      }
    }
  }

  /** The default conversions in order, or the `AttributeError` of the first kind that fails. */
  method ConvertDefaults(conns: seq<Connection>, tables: Tables) returns (r: Result<(), LammpsError>)
    ensures FirstUnconvertible(conns, tables, ConversionOrder).None? ==> r == Ok(())
    ensures FirstUnconvertible(conns, tables, ConversionOrder).Some? ==> r == Err(AttributeError(FirstUnconvertible(conns, tables, ConversionOrder).value))
  {
    var c := TryDefaultConversions(k => |tables.connTypes(k)| > 0, k => |OfKind(conns, k)| > 0);
    if c.Err? {
      var k := c.error.kind;
      ConversionOrderCovers(k);
      var j :| 0 <= j < |ConversionOrder| && ConversionOrder[j] == k;
      forall i | 0 <= i < j ensures |OfKind(conns, ConversionOrder[i])| == 0 || |tables.connTypes(ConversionOrder[i])| > 0 {
        assert (k => |tables.connTypes(k)| > 0)(ConversionOrder[i]) || !(k => |OfKind(conns, k)| > 0)(ConversionOrder[i]);
      }
      assert !(k => |tables.connTypes(k)| > 0)(k) && (k => |OfKind(conns, k)| > 0)(k);
      FirstUnconvertibleAt(conns, tables, ConversionOrder, j);
      r := Err(AttributeError(k));
    } else {
      forall j | 0 <= j < |ConversionOrder| ensures |OfKind(conns, ConversionOrder[j])| == 0 || |tables.connTypes(ConversionOrder[j])| > 0 {
        assert (k => |OfKind(conns, k)| > 0)(ConversionOrder[j]) ==> (k => |tables.connTypes(k)| > 0)(ConversionOrder[j]);
      }
      r := Ok(());
    }
  }

  /** The lj branch of the factor resolution: for lj the dictionary is filled in place, for any other style it is left alone. */
  method FactorsFor(style: UnitStyle, factors: FactorDict, ts: seq<AtomType>) returns (r: Result<Option<map<string, Quantity>>, LammpsError>)
    requires factors.Valid()
    modifies factors
    ensures factors.Valid()
    ensures r == LjFactors(style, old(factors.order), old(factors.values), ts)
    ensures style != Lj ==> factors.order == old(factors.order) && factors.values == old(factors.values)
    ensures style == Lj && r.Ok? ==> (factors.order, factors.values) == Resolve(old(factors.order), old(factors.values), ts).value
    ensures style == Lj ==> (factors.order, factors.values) == Resolved(old(factors.order), old(factors.values), ts)
    ensures forall k :: k in old(factors.values) ==> k in factors.values && factors.values[k] == old(factors.values)[k]
  {
    if style != Lj {
      return Ok(None);
    }
    var f := factors.ResolveFactors(ts);
    if f.Err? {
      return Err(f.error);
    }
    r := Ok(Some(factors.values));
  }

  /**
   * `write_lammpsdata` with the default (non-strict) checks: the options,
   * the default potential conversions, the lj conversion factors, then the
   * file, every number converted with the factors resolved. A file that
   * raises while being written is not returned. The factor dictionary is
   * filled in place for lj and left alone otherwise.
   */
  method WriteLammpsData(top: Topology, tables: Tables, box: Box, h: Hooks, convert: (Option<map<string, Quantity>>, Quantity) -> string,
                         atomStyle: string, unitStyle: string, factors: FactorDict)
    returns (r: Result<OutFile, LammpsError>)
    requires factors.Valid()
    modifies factors
    ensures factors.Valid()
    ensures r.Ok? <==> WriteResult(h, convert, atomStyle, unitStyle, old(factors.order), old(factors.values), top.sites, top.connections, tables, box).Ok?
    ensures r.Ok? ==> r.value.lines == WriteResult(h, convert, atomStyle, unitStyle, old(factors.order), old(factors.values), top.sites, top.connections, tables, box).value
    ensures r.Err? ==> r.error == WriteResult(h, convert, atomStyle, unitStyle, old(factors.order), old(factors.values), top.sites, top.connections, tables, box).error
    ensures var opts := CheckWriteOptions(atomStyle, unitStyle, old(factors.order) != []);
      opts.Ok? && opts.value.1 == Lj && FirstUnconvertible(top.connections, tables, ConversionOrder).None?
      && Resolve(old(factors.order), old(factors.values), tables.allAtomTypes).Ok? ==>
        (factors.order, factors.values) == Resolve(old(factors.order), old(factors.values), tables.allAtomTypes).value
    ensures var opts := CheckWriteOptions(atomStyle, unitStyle, old(factors.order) != []);
      opts.Ok? && opts.value.1 == Lj && FirstUnconvertible(top.connections, tables, ConversionOrder).None? ==>
        (factors.order, factors.values) == Resolved(old(factors.order), old(factors.values), tables.allAtomTypes)
    ensures var opts := CheckWriteOptions(atomStyle, unitStyle, old(factors.order) != []);
      opts.Err? || opts.value.1 != Lj || FirstUnconvertible(top.connections, tables, ConversionOrder).Some? ==>
        factors.order == old(factors.order) && factors.values == old(factors.values)
    ensures forall k :: k in old(factors.values) ==> k in factors.values && factors.values[k] == old(factors.values)[k]
    ensures r.Ok? ==> fresh(r.value)
  {
    var opts :- CheckWriteOptions(atomStyle, unitStyle, factors.order != []);
    var (a, style) := opts;
    var conv := ConvertDefaults(top.connections, tables);
    if conv.Err? {
      return Err(conv.error);
    }
    var cf :- FactorsFor(style, factors, tables.allAtomTypes);
    r := WriteFile(FileHooks(h, convert, cf), a, style, top, tables, box);
  }

  /** The `with open(filename, "w")` block: the file, or the error that stopped it. */
  method WriteFile(h: Hooks, a: AtomStyle, style: UnitStyle, top: Topology, tables: Tables, box: Box) returns (r: Result<OutFile, LammpsError>)
    ensures r.Ok? <==> DataFile(h, a, style, top.sites, top.connections, tables, box).error.None?
    ensures r.Ok? ==> fresh(r.value) && r.value.lines == DataFile(h, a, style, top.sites, top.connections, tables, box).lines
    ensures r.Err? ==> r.error == DataFile(h, a, style, top.sites, top.connections, tables, box).error.value
  {
    var out := new OutFile();
    var res := WriteData(out, h, a, style, top, tables, box);
    if res.Err? {
      return Err(res.error);
    }
    return Ok(out);
  }

  /** The header, the box and the sections, in file order, onto `out`. */
  method WriteData(out: OutFile, h: Hooks, a: AtomStyle, style: UnitStyle, top: Topology, tables: Tables, box: Box) returns (r: Result<(), LammpsError>)
    modifies out
    ensures out.lines == old(out.lines) + DataFile(h, a, style, top.sites, top.connections, tables, box).lines
    ensures r == Outcome(DataFile(h, a, style, top.sites, top.connections, tables, box))
  {
    var counts := CountsOf(top.sites, top.connections, tables);
    ghost var o := out.lines;
    WriteHeader(out, h.title, a, counts);
    WriteBox(out, h, box);
    Concat2(o, HeaderLines(h.title, a, counts), BoxLines(h, box));
    r := WriteSections(out, h, a, style, top, tables);
    ThenLines(o, Emitted(HeaderLines(h.title, a, counts) + BoxLines(h, box), None),
      Then(TypeSections(h, style, top.sites, top.connections, tables),
        Then(SiteSection(h, a, top.sites, tables.atomTypes), ConnSections(h, top.sites, top.connections, tables))));
  }

  /** The type sections, the `Atoms` section and the connection sections, stopping at the first error. */
  method WriteSections(out: OutFile, h: Hooks, a: AtomStyle, style: UnitStyle, top: Topology, tables: Tables) returns (r: Result<(), LammpsError>)
    modifies out
    ensures out.lines == old(out.lines) + Then(TypeSections(h, style, top.sites, top.connections, tables),
      Then(SiteSection(h, a, top.sites, tables.atomTypes), ConnSections(h, top.sites, top.connections, tables))).lines
    ensures r == Outcome(Then(TypeSections(h, style, top.sites, top.connections, tables),
      Then(SiteSection(h, a, top.sites, tables.atomTypes), ConnSections(h, top.sites, top.connections, tables))))
  {
    Then3Lines(out.lines, TypeSections(h, style, top.sites, top.connections, tables),
      SiteSection(h, a, top.sites, tables.atomTypes), ConnSections(h, top.sites, top.connections, tables));
    r := WriteTypeSections(out, h, style, top, tables);
    if r.Err? {
      return;
    }
    r := WriteSiteData(out, h, a, top, tables.atomTypes);
    if r.Err? {
      return;
    }
    r := WriteConnSections(out, h, top, tables);
  }
}
