/**
 * The LAMMPS data-file reader (gmso/formats/lammpsdata.py,
 * `read_lammpsdata` and its helpers). The file is given as its lines, each
 * with its line terminator, as `readlines()` returns them. Every section is
 * found with a scan (LammpsScan) and its rows are decoded field by field;
 * the first field that is missing or does not parse raises.
 */
module LammpsRead {
  import opened Wrappers
  import opened Text
  import opened Units
  import opened AtomTypes
  import opened Topologies
  import opened Connections
  import opened LammpsConfig
  import opened LammpsScan

  // ----- the fields of a line -----

  /**
   * A field of a split line together with Python's `int()` and `float()`
   * of it. Both conversions are pure, so they are evaluated once per field;
   * a decoder raises ValueError only when it uses a conversion that failed.
   */
  datatype Lexeme = Lexeme(text: string, asInt: Option<int>, asReal: Option<real>)

  function Lex(w: string): Lexeme
  {
    Lexeme(w, ParseInt(w), ParseReal(w))
  }

  /** The lexemes of the fields of a split line, in order. */
  function LexRow(toks: seq<string>): (r: seq<Lexeme>)
    ensures |r| == |toks|
  {
    if toks == [] then [] else [Lex(toks[0])] + LexRow(toks[1..])
  }

  lemma {:induction false} LexRowAt(toks: seq<string>, k: nat)
    requires k < |toks|
    ensures LexRow(toks)[k] == Lex(toks[k])
  {
    if k > 0 {
      LexRowAt(toks[1..], k - 1);
    }
  }

  /** Every field of a row, lexed in place. */
  lemma LexRowAll(toks: seq<string>)
    ensures forall k :: 0 <= k < |toks| ==> LexRow(toks)[k] == Lex(toks[k])
  {
    forall k | 0 <= k < |toks| ensures LexRow(toks)[k] == Lex(toks[k]) {
      LexRowAt(toks, k);
    }
  }

  /** `line.split()` of one line, lexed. */
  function LineFields(line: string): seq<Lexeme>
  {
    LexRow(Split(line))
  }

  /** `line.split()` of every line, lexed. */
  function FieldsOf(lines: seq<string>): (r: seq<seq<Lexeme>>)
    ensures |r| == |lines|
  {
    if lines == [] then [] else [LineFields(lines[0])] + FieldsOf(lines[1..])
  }

  lemma {:induction false} FieldsOfAt(lines: seq<string>, i: nat)
    requires i < |lines|
    ensures FieldsOf(lines)[i] == LineFields(lines[i])
  {
    if i > 0 {
      FieldsOfAt(lines[1..], i - 1);
    }
  }

  /** `toks[k]`: IndexError past the last field. */
  function FieldText(toks: seq<Lexeme>, k: nat): (r: Result<string, LammpsError>)
    ensures r.Ok? <==> k < |toks|
    ensures r.Ok? ==> r.value == toks[k].text
    ensures r.Err? ==> r.error == IndexError
  {
    if k < |toks| then Ok(toks[k].text) else Err(IndexError)
  }

  /** `int(toks[k])`: IndexError past the last field, ValueError when it is no integer. */
  function FieldInt(toks: seq<Lexeme>, k: nat): (r: Result<int, LammpsError>)
    ensures r.Ok? <==> k < |toks| && toks[k].asInt.Some?
    ensures r.Ok? ==> r.value == toks[k].asInt.value
    ensures k >= |toks| ==> r == Err(IndexError)
    ensures k < |toks| && r.Err? ==> r.error.ValueError?
  {
    if k >= |toks| then Err(IndexError)
    else match toks[k].asInt
      case None => Err(ValueError("invalid literal for int()"))
      case Some(v) => Ok(v)
  }

  /** `float(toks[k])`: IndexError past the last field, ValueError when it is no number. */
  function FieldReal(toks: seq<Lexeme>, k: nat): (r: Result<real, LammpsError>)
    ensures r.Ok? <==> k < |toks| && toks[k].asReal.Some?
    ensures r.Ok? ==> r.value == toks[k].asReal.value
    ensures k >= |toks| ==> r == Err(IndexError)
    ensures k < |toks| && r.Err? ==> r.error.ValueError?
  {
    if k >= |toks| then Err(IndexError)
    else match toks[k].asReal
      case None => Err(ValueError("could not convert string to float"))
      case Some(v) => Ok(v)
  }

  /** `s[n - 1]`: a 1-based reference; 0 and negative numbers wrap around as Python indexing does. */
  function Ref<T>(s: seq<T>, n: int): (r: Result<T, LammpsError>)
    ensures r.Ok? <==> PyIndex(s, n - 1).Some?
    ensures r.Ok? ==> r.value == PyIndex(s, n - 1).value
    ensures 1 <= n <= |s| ==> r == Ok(s[n - 1])
    ensures r.Err? ==> r.error == IndexError
  {
    match PyIndex(s, n - 1)
    case None => Err(IndexError)
    case Some(x) => Ok(x)
  }

  // ----- the scans that find each section -----

  /** Atom-type count: any line containing "atom"; the "Masses" test is its `elif`. */
  const FfScan := Scan(Substring("atom"), Substring("Masses"), true)
  /** The pair coefficients: the first line containing "Pair". */
  const PairScan := Scan(Never, Substring("Pair"), false)
  const AtomScan := Scan(Token("atoms"), Token("Atoms"), false)

  /** Connection-type count ("N bond types") and the coefficient header ("Bond Coeffs"). */
  function TypesScan(k: ConnKind): Scan
  {
    Scan(Token(KindName(k)), Token(ClassName(k)), false)
  }

  /** Connection count ("N bonds") and the section header ("Bonds"). */
  function ConnScan(k: ConnKind): Scan
  {
    Scan(Token(KindName(k) + "s"), Token(ClassName(k) + "s"), false)
  }

  /**
   * `readlines()[i + 2 : i + n + 2]` after a scan that stopped at `i`,
   * taken from the lines or from their fields.
   */
  function Rows<T>(lines: seq<T>, f: Found, n: int): seq<T>
  {
    PySlice(lines, f.cursor + 2, f.cursor + n + 2)
  }

  /**
   * The rows of a section decoded in order, row `i` by `decode(i, rows[i])`,
   * from row `k` on: the first row that fails raises its error.
   */
  function DecodeEach<U>(rows: seq<seq<Lexeme>>, decode: (nat, seq<Lexeme>) -> Result<U, LammpsError>, k: nat): (r: Result<seq<U>, LammpsError>)
    requires k <= |rows|
    ensures r.Ok? <==> forall i :: k <= i < |rows| ==> decode(i, rows[i]).Ok?
    ensures r.Ok? ==> |r.value| == |rows| - k
    ensures r.Ok? ==> forall i :: k <= i < |rows| ==> r.value[i - k] == decode(i, rows[i]).value
    ensures r.Err? ==> exists i :: (&& k <= i < |rows| && decode(i, rows[i]) == Err(r.error)
                                    && forall j :: k <= j < i ==> decode(j, rows[j]).Ok?)
    decreases |rows| - k
  {
    if k == |rows| then Ok([])
    else
      var u :- decode(k, rows[k]);
      var rest :- DecodeEach(rows, decode, k + 1);
      Ok([u] + rest)
  }

  /** When row `i` is the first that fails, decoding the section raises row `i`'s error. */
  lemma DecodeEachFirstError<U>(rows: seq<seq<Lexeme>>, decode: (nat, seq<Lexeme>) -> Result<U, LammpsError>, i: nat)
    requires i < |rows| && decode(i, rows[i]).Err?
    requires forall j :: 0 <= j < i ==> decode(j, rows[j]).Ok?
    ensures DecodeEach(rows, decode, 0) == Err(decode(i, rows[i]).error)
  {
    var r := DecodeEach(rows, decode, 0);
    var i' :| 0 <= i' < |rows| && decode(i', rows[i']) == Err(r.error) && forall j :: 0 <= j < i' ==> decode(j, rows[j]).Ok?;
    assert i' == i;
  }

  /** The loop of a section whose rows only produce values: one value per row, in order. */
  method DecodeRows<U>(rows: seq<seq<Lexeme>>, decode: (nat, seq<Lexeme>) -> Result<U, LammpsError>) returns (r: Result<seq<U>, LammpsError>)
    ensures r == DecodeEach(rows, decode, 0)
  {
    var out: seq<U> := [];
    var i := 0;
    while i < |rows|
      invariant 0 <= i <= |rows| && |out| == i
      invariant forall j :: 0 <= j < i ==> decode(j, rows[j]).Ok? && out[j] == decode(j, rows[j]).value
    {
      var u := decode(i, rows[i]);
      if u.Err? {
        DecodeEachFirstError(rows, decode, i);
        return Err(u.error);
      }
      out := out + [u.value];
      i := i + 1;
    }
    assert out == DecodeEach(rows, decode, 0).value;
    return Ok(out);
  }

  // ----- atom types: the Masses and Pair Coeffs sections -----

  /**
   * A Masses row `name mass ...`: an atom type named by the first field
   * with the mass of the second in the style's mass unit; everything else
   * takes the atom type's defaults. The unit check of the atom type
   * rejects the row when the style's mass unit is not a mass (style lj).
   */
  function DecodeMassRow(toks: seq<Lexeme>, style: UnitStyle): (r: Result<AtomType, LammpsError>)
    ensures r.Ok? <==> |toks| >= 2 && toks[1].asReal.Some? && style != Lj
    ensures r.Ok? ==> r.value.name == toks[0].text
    ensures r.Ok? ==> r.value.mass == Quantity(toks[1].asReal.value, GetUnits(style, Mass))
    ensures r.Ok? ==> r.value.charge == Quantity(0.0, ElementaryCharge) && r.value.potential == DefaultPotential()
    ensures r.Ok? ==> WellFormed(r.value)
    ensures |toks| < 2 ==> r == Err(IndexError)
  {
    var name :- FieldText(toks, 0);
    var m :- FieldReal(toks, 1);
    GetUnitsDimension(style, Mass);
    match NewAtomType(name := name, mass := WithUnit(Quantity(m, GetUnits(style, Mass))))
    case Err(_) => Err(UnitError)
    case Ok(t) => Ok(t)
  }

  function MassDecoder(style: UnitStyle): (nat, seq<Lexeme>) -> Result<AtomType, LammpsError>
  {
    (i: nat, row: seq<Lexeme>) => DecodeMassRow(row, style)
  }

  /** The text before the first `#`: in a LAMMPS data file a comment runs to the end of the line. */
  function StripComment(line: string): (r: string)
    ensures |r| <= |line| && r == line[..|r|]
    ensures '#' !in r
    ensures |r| < |line| ==> line[|r|] == '#'
  {
    if line == [] || line[0] == '#' then [] else [line[0]] + StripComment(line[1..])
  }

  /** The fields of a Pair Coeffs row that the reader counts, comment removed. */
  function PairFields(line: string): seq<string>
  {
    Split(StripComment(line))
  }

  /** The pair fields of every line, lexed. */
  function PairFieldsOf(lines: seq<string>): (r: seq<seq<Lexeme>>)
    ensures |r| == |lines|
  {
    if lines == [] then [] else [LexRow(PairFields(lines[0]))] + PairFieldsOf(lines[1..])
  }

  lemma {:induction false} PairFieldsOfAt(lines: seq<string>, i: nat)
    requires i < |lines|
    ensures PairFieldsOf(lines)[i] == LexRow(PairFields(lines[i]))
  {
    if i > 0 {
      PairFieldsOfAt(lines[1..], i - 1);
    }
  }

  /**
   * A three-field pair row `type epsilon sigma`: sets the atom type's
   * `sigma` (third field, length unit) and then its `epsilon` (second
   * field, energy unit); nothing else of the atom type changes.
   */
  function ApplyLj(t: AtomType, toks: seq<Lexeme>, style: UnitStyle): (r: Result<AtomType, LammpsError>)
    ensures r.Ok? <==> |toks| >= 3 && toks[1].asReal.Some? && toks[2].asReal.Some?
    ensures r.Ok? ==> ParamValue(r.value.potential.parameters, "sigma") == Some(Quantity(toks[2].asReal.value, GetUnits(style, Length)))
    ensures r.Ok? ==> ParamValue(r.value.potential.parameters, "epsilon") == Some(Quantity(toks[1].asReal.value, GetUnits(style, Energy)))
    ensures r.Ok? ==> r.value == t.(potential := t.potential.(parameters := r.value.potential.parameters))
  {
    var sigma :- FieldReal(toks, 2);
    var epsilon :- FieldReal(toks, 1);
    var ps := SetParam(t.potential.parameters, "sigma", Quantity(sigma, GetUnits(style, Length)));
    var ps' := SetParam(ps, "epsilon", Quantity(epsilon, GetUnits(style, Energy)));
    Ok(t.(potential := t.potential.(parameters := ps')))
  }

  /** A pair row adds `sigma` and `epsilon` to the parameters and leaves every other parameter as it was. */
  lemma ApplyLjKeepsOthers(t: AtomType, toks: seq<Lexeme>, style: UnitStyle)
    requires ApplyLj(t, toks, style).Ok?
    ensures var ps := ApplyLj(t, toks, style).value.potential.parameters;
      && ParamKeys(ps) == ParamKeys(t.potential.parameters) + {"sigma", "epsilon"}
      && forall key :: key != "sigma" && key != "epsilon" ==> ParamValue(ps, key) == ParamValue(t.potential.parameters, key)
  {
  }

  /** The atom types and whether a four-field pair row (a cutoff) was seen, which warns. */
  datatype FfInfo = FfInfo(types: seq<AtomType>, cutoffWarning: bool)

  /** How a three-field pair row updates the atom type at its position. */
  function LjSetter(style: UnitStyle): (AtomType, seq<Lexeme>) -> Result<AtomType, LammpsError>
  {
    (t: AtomType, row: seq<Lexeme>) => ApplyLj(t, row, style)
  }

  /**
   * The pair loop from row `i` on: a row with three fields updates the
   * atom type at the same position with `apply` (IndexError past the last
   * type), a row with four fields only warns, any other row is skipped.
   */
  function ApplyPairs(types: seq<AtomType>, rows: seq<seq<Lexeme>>, apply: (AtomType, seq<Lexeme>) -> Result<AtomType, LammpsError>, i: nat, warn: bool): Result<FfInfo, LammpsError>
    requires i <= |rows|
    decreases |rows| - i
  {
    if i == |rows| then Ok(FfInfo(types, warn))
    else if |rows[i]| == 3 then
      if i >= |types| then Err(IndexError)
      else
        var t :- apply(types[i], rows[i]);
        ApplyPairs(types[i := t], rows, apply, i + 1, warn)
    else ApplyPairs(types, rows, apply, i + 1, warn || |rows[i]| == 4)
  }

  /**
   * What the pair loop does: it succeeds exactly when every three-field
   * row has an atom type at its position and its update succeeds; then
   * each such atom type is updated from its own row, every other atom type
   * is kept, and the cutoff warning is raised exactly when some row has
   * four fields.
   */
  lemma {:induction false} ApplyPairsResult(types: seq<AtomType>, rows: seq<seq<Lexeme>>, apply: (AtomType, seq<Lexeme>) -> Result<AtomType, LammpsError>, i: nat, warn: bool)
    requires i <= |rows|
    ensures ApplyPairs(types, rows, apply, i, warn).Ok? <==>
      forall j :: i <= j < |rows| && |rows[j]| == 3 ==> j < |types| && apply(types[j], rows[j]).Ok?
    ensures ApplyPairs(types, rows, apply, i, warn).Ok? ==> (
      var out := ApplyPairs(types, rows, apply, i, warn).value;
      && |out.types| == |types|
      && (forall j :: 0 <= j < |types| ==>
            out.types[j] == if i <= j < |rows| && |rows[j]| == 3 then apply(types[j], rows[j]).value else types[j])
      && (out.cutoffWarning <==> warn || exists j :: i <= j < |rows| && |rows[j]| == 4))
    decreases |rows| - i
  {
    if i < |rows| {
      if |rows[i]| == 3 {
        if i < |types| && apply(types[i], rows[i]).Ok? {
          var t := apply(types[i], rows[i]).value;
          ApplyPairsResult(types[i := t], rows, apply, i + 1, warn);
          assert forall j :: i + 1 <= j < |types| ==> types[i := t][j] == types[j];
        }
      } else {
        ApplyPairsResult(types, rows, apply, i + 1, warn || |rows[i]| == 4);
      }
    }
  }

  /**
   * `_get_ff_information` followed by the caller's unpacking: without an
   * atom-type count line the helper returns the topology alone and the
   * unpacking raises TypeError. The pair rows are as many as the atom
   * types, counted from the first line containing "Pair".
   */
  function FfInformation(lines: seq<string>, style: UnitStyle): Result<FfInfo, LammpsError>
  {
    var f :- ScanFrom(lines, FfScan);
    if f.count.None? then Err(LammpsError.TypeError("cannot unpack a Topology"))
    else
      var types :- DecodeEach(Rows(FieldsOf(lines), f, f.count.value), MassDecoder(style), 0);
      var p :- ScanFrom(lines, PairScan);
      ApplyPairs(types, Rows(PairFieldsOf(lines), p, f.count.value), LjSetter(style), 0, false)
  }

  /**
   * `_get_ff_information` as the source reads the pair rows: it counts the
   * fields of the whole line, comment included, so a row followed by a
   * comment never has exactly three fields.
   */
  function FfInformationAsWritten(lines: seq<string>, style: UnitStyle): Result<FfInfo, LammpsError>
  {
    var f :- ScanFrom(lines, FfScan);
    if f.count.None? then Err(LammpsError.TypeError("cannot unpack a Topology"))
    else
      var types :- DecodeEach(Rows(FieldsOf(lines), f, f.count.value), MassDecoder(style), 0);
      var p :- ScanFrom(lines, PairScan);
      ApplyPairs(types, Rows(FieldsOf(lines), p, f.count.value), LjSetter(style), 0, false)
  }

  method GetFfInformation(lines: seq<string>, style: UnitStyle) returns (r: Result<FfInfo, LammpsError>)
    ensures r == FfInformation(lines, style)
  {
    var f := ScanSection(lines, FfScan);
    if f.Err? {
      return Err(f.error);
    }
    if f.value.count.None? {
      return Err(LammpsError.TypeError("cannot unpack a Topology"));
    }
    var n := f.value.count.value;
    var types := DecodeRows(Rows(FieldsOf(lines), f.value, n), MassDecoder(style));
    if types.Err? {
      return Err(types.error);
    }
    var p := ScanSection(lines, PairScan);
    if p.Err? {
      return Err(p.error);
    }
    r := ApplyPairRows(types.value, Rows(PairFieldsOf(lines), p.value, n), LjSetter(style));
  }

  /** The pair loop, updating the atom types in place. */
  method ApplyPairRows(types0: seq<AtomType>, rows: seq<seq<Lexeme>>, apply: (AtomType, seq<Lexeme>) -> Result<AtomType, LammpsError>) returns (r: Result<FfInfo, LammpsError>)
    ensures r == ApplyPairs(types0, rows, apply, 0, false)
  {
    var types := types0;
    var warn := false;
    var i := 0;
    while i < |rows|
      invariant 0 <= i <= |rows|
      invariant ApplyPairs(types0, rows, apply, 0, false) == ApplyPairs(types, rows, apply, i, warn)
    {
      if |rows[i]| == 3 {
        if i >= |types| {
          return Err(IndexError);
        }
        var t := apply(types[i], rows[i]);
        if t.Err? {
          return Err(t.error);
        }
        types := types[i := t.value];
      } else if |rows[i]| == 4 {
        warn := true;
      }
      i := i + 1;
    }
    return Ok(FfInfo(types, warn));
  }

  // ----- sites: the Atoms section -----

  /**
   * An Atoms row of style full, `id molecule type charge x y z`: the atom
   * type is a copy of the referenced one (1-based), the charge and the
   * coordinates take the style's units, and the molecule is named and
   * numbered by the second field. The fields are read in the source's
   * order, so the first one missing or malformed decides the error.
   */
  function DecodeAtomRow(toks: seq<Lexeme>, style: UnitStyle, types: seq<AtomType>, id: nat): (r: Result<Site, LammpsError>)
    ensures r.Ok? <==> (&& |toks| >= 7 && (forall k :: 3 <= k < 7 ==> toks[k].asReal.Some?)
                        && toks[2].asInt.Some? && PyIndex(types, toks[2].asInt.value - 1).Some?
                        && toks[1].asInt.Some?)
    ensures r.Ok? ==> (&& r.value.id == id
                       && r.value.atomType == PyIndex(types, toks[2].asInt.value - 1)
                       && r.value.charge == Quantity(toks[3].asReal.value, GetUnits(style, Dimension.Charge))
                       && |r.value.position| == 3
                       && (forall k :: 0 <= k < 3 ==> r.value.position[k] == Quantity(toks[4 + k].asReal.value, GetUnits(style, Length)))
                       && r.value.molecule == Some(Molecule(toks[1].text, toks[1].asInt.value)))
    ensures |toks| < 4 ==> r == Err(IndexError)
  {
    var q :- FieldReal(toks, 3);
    var x :- FieldReal(toks, 4);
    var y :- FieldReal(toks, 5);
    var z :- FieldReal(toks, 6);
    var ti :- FieldInt(toks, 2);
    var at :- Ref(types, ti);
    var mol :- FieldInt(toks, 1);
    var len := GetUnits(style, Length);
    Ok(Site(id, Some(at), Quantity(q, GetUnits(style, Dimension.Charge)), [Quantity(x, len), Quantity(y, len), Quantity(z, len)], Some(Molecule(toks[1].text, mol))))
  }

  /** The Atoms rows: row `i` becomes the site with identity `firstId + i`. */
  function AtomDecoder(style: UnitStyle, types: seq<AtomType>, firstId: nat): (nat, seq<Lexeme>) -> Result<Site, LammpsError>
  {
    (i: nat, row: seq<Lexeme>) => DecodeAtomRow(row, style, types, firstId + i)
  }

  /** `_get_atoms`: without an atom count line `n_atoms` is unbound. */
  function AtomSection(lines: seq<string>, style: UnitStyle, types: seq<AtomType>, firstId: nat): Result<seq<Site>, LammpsError>
  {
    var f :- ScanFrom(lines, AtomScan);
    if f.count.None? then Err(NameError("n_atoms"))
    else DecodeEach(Rows(FieldsOf(lines), f, f.count.value), AtomDecoder(style, types, firstId), 0)
  }

  /** Adds the decoded sites one by one; on an error the sites added so far stay. */
  method GetAtoms(lines: seq<string>, top: Topology, style: UnitStyle, types: seq<AtomType>) returns (r: Result<(), LammpsError>)
    modifies top`sites
    ensures r.Ok? <==> AtomSection(lines, style, types, |old(top.sites)|).Ok?
    ensures r.Ok? ==> top.sites == old(top.sites) + AtomSection(lines, style, types, |old(top.sites)|).value
    ensures r.Err? ==> r.error == AtomSection(lines, style, types, |old(top.sites)|).error
  {
    var firstId := |top.sites|;
    var f := ScanSection(lines, AtomScan);
    if f.Err? {
      return Err(f.error);
    }
    if f.value.count.None? {
      return Err(NameError("n_atoms"));
    }
    var rows := Rows(FieldsOf(lines), f.value, f.value.count.value);
    r := AddSites(top, rows, AtomDecoder(style, types, firstId));
  }

  /** The Atoms loop: appends the site of each row until one fails. */
  method AddSites(top: Topology, rows: seq<seq<Lexeme>>, decode: (nat, seq<Lexeme>) -> Result<Site, LammpsError>) returns (r: Result<(), LammpsError>)
    modifies top`sites
    ensures var d := DecodeEach(rows, decode, 0);
      && (r.Ok? <==> d.Ok?)
      && (r.Ok? ==> top.sites == old(top.sites) + d.value)
      && (r.Err? ==> r.error == d.error)
  {
    var firstId := |top.sites|;
    ghost var sites0 := top.sites;
    var i := 0;
    while i < |rows|
      invariant 0 <= i <= |rows|
      invariant |top.sites| == firstId + i && top.sites[..firstId] == sites0
      invariant forall j :: 0 <= j < i ==> decode(j, rows[j]).Ok? && top.sites[firstId + j] == decode(j, rows[j]).value
    {
      var s := decode(i, rows[i]);
      if s.Err? {
        DecodeEachFirstError(rows, decode, i);
        return Err(s.error);
      }
      top.AddSite(s.value);
      i := i + 1;
    }
    ghost var d := DecodeEach(rows, decode, 0).value;
    forall m | 0 <= m < |rows|
      ensures top.sites[firstId..][m] == d[m]
    {
      assert d[m - 0] == decode(m, rows[m]).value;
    }
    assert top.sites[firstId..] == d;
    assert top.sites == top.sites[..firstId] + top.sites[firstId..];
    r := Ok(());
  }

  // ----- connections: the coefficient and connection sections -----

  /** The potential template the reader builds each kind's types from. */
  function TemplateName(k: ConnKind): string
  {
    match k
    case Bond => "LAMMPSHarmonicBondPotential"
    case Angle => "LAMMPSHarmonicAnglePotential"
    case Dihedral => "OPLSTorsionPotential"
    case Improper => "HarmonicImproperPotential"
  }

  /** `energy / other ** 2`. */
  function PerSquare(style: UnitStyle, d: Dimension): Unit
  {
    Quotient(GetUnits(style, Energy), Square(GetUnits(style, d)))
  }

  /**
   * The parameters of a coefficient row (`type c1 c2 ...`). Harmonic bond
   * and angle constants are doubled, since LAMMPS folds the factor 1/2
   * into its K; the torsion's four constants are read as they are. The
   * improper row is read as the writer writes it, `type K chi`
   * (`ImproperParamsAsWritten` reads the fields the source reads).
   */
  function CoeffParams(k: ConnKind, toks: seq<Lexeme>, style: UnitStyle): (r: Result<seq<Param>, LammpsError>)
    ensures k == Bond || k == ConnKind.Angle || k == Improper ==>
      (r.Ok? <==> |toks| >= 3 && toks[1].asReal.Some? && toks[2].asReal.Some?)
    ensures k == Dihedral ==>
      (r.Ok? <==> |toks| >= 5 && (forall j :: 1 <= j < 5 ==> toks[j].asReal.Some?))
    ensures r.Ok? && k == Bond ==> (r.value ==
      [Param("k", Quantity(2.0 * toks[1].asReal.value, PerSquare(style, Length))),
       Param("r_eq", Quantity(toks[2].asReal.value, GetUnits(style, Length)))])
    ensures r.Ok? && k == ConnKind.Angle ==> (r.value ==
      [Param("k", Quantity(2.0 * toks[1].asReal.value, PerSquare(style, Dimension.Angle))),
       Param("theta_eq", Quantity(toks[2].asReal.value, GetUnits(style, AngleEq)))])
    ensures r.Ok? && k == Dihedral ==> (|r.value| == 4 && forall j :: 0 <= j < 4 ==>
      r.value[j] == Param(["k1", "k2", "k3", "k4"][j], Quantity(toks[j + 1].asReal.value, GetUnits(style, Energy))))
    ensures r.Ok? && k == Improper ==> (r.value ==
      [Param("k", Quantity(2.0 * toks[1].asReal.value, PerSquare(style, Dimension.Angle))),
       Param("phi_eq", Quantity(toks[2].asReal.value, GetUnits(style, AngleEq)))])
  {
    match k
    case Bond =>
      var kk :- FieldReal(toks, 1);
      var req :- FieldReal(toks, 2);
      Ok([Param("k", Quantity(2.0 * kk, PerSquare(style, Length))), Param("r_eq", Quantity(req, GetUnits(style, Length)))])
    case Angle =>
      var kk :- FieldReal(toks, 1);
      var theta :- FieldReal(toks, 2);
      Ok([Param("k", Quantity(2.0 * kk, PerSquare(style, Dimension.Angle))), Param("theta_eq", Quantity(theta, GetUnits(style, AngleEq)))])
    case Dihedral =>
      var k1 :- FieldReal(toks, 1);
      var k2 :- FieldReal(toks, 2);
      var k3 :- FieldReal(toks, 3);
      var k4 :- FieldReal(toks, 4);
      var e := GetUnits(style, Energy);
      Ok([Param("k1", Quantity(k1, e)), Param("k2", Quantity(k2, e)), Param("k3", Quantity(k3, e)), Param("k4", Quantity(k4, e))])
    case Improper =>
      var kk :- FieldReal(toks, 1);
      var phi :- FieldReal(toks, 2);
      Ok([Param("k", Quantity(2.0 * kk, PerSquare(style, Dimension.Angle))), Param("phi_eq", Quantity(phi, GetUnits(style, AngleEq)))])
  }

  /**
   * The improper parameters as the source reads them: `k` from the third
   * field in energy / energy², `phi_eq` from the fourth.
   */
  function ImproperParamsAsWritten(toks: seq<Lexeme>, style: UnitStyle): (r: Result<seq<Param>, LammpsError>)
    ensures r.Ok? <==> |toks| >= 4 && toks[2].asReal.Some? && toks[3].asReal.Some?
    ensures |toks| < 3 ==> r == Err(IndexError)
    ensures r.Ok? ==> (r.value ==
      [Param("k", Quantity(2.0 * toks[2].asReal.value, PerSquare(style, Energy))),
       Param("phi_eq", Quantity(toks[3].asReal.value, GetUnits(style, AngleEq)))])
  {
    var kk :- FieldReal(toks, 2);
    var phi :- FieldReal(toks, 3);
    Ok([Param("k", Quantity(2.0 * kk, PerSquare(style, Energy))), Param("phi_eq", Quantity(phi, GetUnits(style, AngleEq)))])
  }

  /** A coefficient row: a type built from the kind's template with the row's parameters and no member types yet. */
  function DecodeCoeffRow(k: ConnKind, toks: seq<Lexeme>, style: UnitStyle): (r: Result<ConnType, LammpsError>)
    ensures r.Ok? <==> CoeffParams(k, toks, style).Ok?
    ensures r.Ok? ==> r.value == ConnType(TemplateName(k), TemplateName(k), CoeffParams(k, toks, style).value, [], [])
  {
    var ps :- CoeffParams(k, toks, style);
    Ok(ConnType(TemplateName(k), TemplateName(k), ps, [], []))
  }

  function CoeffDecoder(k: ConnKind, style: UnitStyle): (nat, seq<Lexeme>) -> Result<ConnType, LammpsError>
  {
    (i: nat, row: seq<Lexeme>) => DecodeCoeffRow(k, row, style)
  }

  /** Field `p` of a connection row names a site: it is an integer and a valid 1-based reference. */
  predicate RefOk(toks: seq<Lexeme>, sites: seq<Site>, p: nat)
  {
    p < |toks| && toks[p].asInt.Some? && PyIndex(sites, toks[p].asInt.value - 1).Some?
  }

  /** The site field `p` names. */
  function RefAt(toks: seq<Lexeme>, sites: seq<Site>, p: nat): Site
    requires RefOk(toks, sites, p)
  {
    PyIndex(sites, toks[p].asInt.value - 1).value
  }

  /** The member references of a connection row: fields `j + 2` onwards, 1-based site numbers. */
  function MemberRefs(toks: seq<Lexeme>, sites: seq<Site>, j: nat, n: nat): (r: Result<seq<Site>, LammpsError>)
    requires j <= n
    ensures r.Ok? <==> forall p :: j + 2 <= p < n + 2 ==> RefOk(toks, sites, p)
    ensures r.Ok? ==> |r.value| == n - j
    ensures r.Ok? ==> forall p :: j + 2 <= p < n + 2 ==> RefOk(toks, sites, p) && r.value[p - j - 2] == RefAt(toks, sites, p)
    decreases n - j
  {
    if j == n then Ok([])
    else
      assert RefOk(toks, sites, j + 2) <==> FieldInt(toks, j + 2).Ok? && Ref(sites, FieldInt(toks, j + 2).value).Ok?;
      var v :- FieldInt(toks, j + 2);
      var s :- Ref(sites, v);
      var rest :- MemberRefs(toks, sites, j + 1, n);
      assert RefOk(toks, sites, j + 2);
      Ok([s] + rest)
  }

  /**
   * A connection row `id type site1 site2 ...`: the referenced sites (as
   * many as the kind has members), a copy of the referenced type whose
   * member types become the sites' atom-type names, and the member checks
   * of the connection.
   */
  function DecodeConnRow(k: ConnKind, toks: seq<Lexeme>, sites: seq<Site>, types: seq<ConnType>): (r: Result<Connection, LammpsError>)
    ensures r.Ok? <==> (&& MemberRefs(toks, sites, 0, Arity(k)).Ok?
                        && 1 < |toks| && toks[1].asInt.Some? && PyIndex(types, toks[1].asInt.value - 1).Some?
                        && HasTypedMembers(MemberRefs(toks, sites, 0, Arity(k)).value)
                        && Distinct(MemberRefs(toks, sites, 0, Arity(k)).value))
    ensures r.Ok? ==> (var members := MemberRefs(toks, sites, 0, Arity(k)).value;
      r.value == Connection(k, ClassName(k), members,
        Some(PyIndex(types, toks[1].asInt.value - 1).value.(memberTypes := MemberNames(MemberTypes, members)))))
  {
    var members :- MemberRefs(toks, sites, 0, Arity(k));
    var ti :- FieldInt(toks, 1);
    var ct :- Ref(types, ti);
    TypedConnection(k, members, ct)
  }

  /**
   * The connection of a row whose sites and type were found: the members
   * must be typed, the type's member types become their atom-type names,
   * and the connection's own member checks apply.
   */
  function TypedConnection(k: ConnKind, members: seq<Site>, ct: ConnType): (r: Result<Connection, LammpsError>)
    requires |members| == Arity(k)
    ensures r.Ok? <==> HasTypedMembers(members) && Distinct(members)
    ensures r.Ok? ==> r.value == Connection(k, ClassName(k), members, Some(ct.(memberTypes := MemberNames(MemberTypes, members))))
  {
    if !HasTypedMembers(members) then Err(MissingAttribute("atom_type"))
    else
      var typed := ct.(memberTypes := MemberNames(MemberTypes, members));
      match NewConnection(k, None, members, Some(typed))
      case Err(_) => Err(MemberError("connection members"))
      case Ok(c) => Ok(c)
  }

  function ConnDecoder(k: ConnKind, sites: seq<Site>, types: seq<ConnType>): (nat, seq<Lexeme>) -> Result<Connection, LammpsError>
  {
    (i: nat, row: seq<Lexeme>) => DecodeConnRow(k, row, sites, types)
  }

  /**
   * `_get_connection`: no type count line means nothing to read; after the
   * types, a missing connection count line leaves `n_connections` unbound.
   */
  function ConnectionSection(lines: seq<string>, k: ConnKind, style: UnitStyle, sites: seq<Site>): Result<seq<Connection>, LammpsError>
  {
    var f :- ScanFrom(lines, TypesScan(k));
    if f.count.None? then Ok([])
    else
      var types :- DecodeEach(Rows(FieldsOf(lines), f, f.count.value), CoeffDecoder(k, style), 0);
      var g :- ScanFrom(lines, ConnScan(k));
      if g.count.None? then Err(NameError("n_connections"))
      else DecodeEach(Rows(FieldsOf(lines), g, g.count.value), ConnDecoder(k, sites, types), 0)
  }

  /** Every connection decoded has the requested kind, its kind's number of members, distinct members and a type. */
  lemma ConnRowsShape(rows: seq<seq<Lexeme>>, k: ConnKind, sites: seq<Site>, types: seq<ConnType>)
    requires DecodeEach(rows, ConnDecoder(k, sites, types), 0).Ok?
    ensures forall c :: c in DecodeEach(rows, ConnDecoder(k, sites, types), 0).value ==>
      c.kind == k && |c.members| == Arity(k) && Distinct(c.members) && c.connectionType.Some?
  {
    var cs := DecodeEach(rows, ConnDecoder(k, sites, types), 0).value;
    forall c | c in cs
      ensures c.kind == k && |c.members| == Arity(k) && Distinct(c.members) && c.connectionType.Some?
    {
      var i :| 0 <= i < |cs| && cs[i] == c;
      assert cs[i - 0] == DecodeConnRow(k, rows[i], sites, types).value;
      assert |MemberRefs(rows[i], sites, 0, Arity(k)).value| == Arity(k);
    }
  }

  lemma ConnectionSectionShape(lines: seq<string>, k: ConnKind, style: UnitStyle, sites: seq<Site>)
    requires ConnectionSection(lines, k, style, sites).Ok?
    ensures forall c :: c in ConnectionSection(lines, k, style, sites).value ==>
      c.kind == k && |c.members| == Arity(k) && Distinct(c.members) && c.connectionType.Some?
  {
    var f := ScanFrom(lines, TypesScan(k)).value;
    if f.count.Some? {
      var types := DecodeEach(Rows(FieldsOf(lines), f, f.count.value), CoeffDecoder(k, style), 0).value;
      var g := ScanFrom(lines, ConnScan(k)).value;
      ConnRowsShape(Rows(FieldsOf(lines), g, g.count.value), k, sites, types);
    }
  }

  method GetConnection(lines: seq<string>, top: Topology, style: UnitStyle, k: ConnKind) returns (r: Result<(), LammpsError>)
    modifies top`connections
    ensures r.Ok? <==> ConnectionSection(lines, k, style, top.sites).Ok?
    ensures r.Ok? ==> top.connections == old(top.connections) + ConnectionSection(lines, k, style, top.sites).value
    ensures r.Err? ==> r.error == ConnectionSection(lines, k, style, top.sites).error
  {
    var f := ScanSection(lines, TypesScan(k));
    if f.Err? {
      return Err(f.error);
    }
    if f.value.count.None? {
      return Ok(());
    }
    var decoded := DecodeRows(Rows(FieldsOf(lines), f.value, f.value.count.value), CoeffDecoder(k, style));
    if decoded.Err? {
      return Err(decoded.error);
    }
    var g := ScanSection(lines, ConnScan(k));
    if g.Err? {
      return Err(g.error);
    }
    if g.value.count.None? {
      return Err(NameError("n_connections"));
    }
    r := AddConnections(top, Rows(FieldsOf(lines), g.value, g.value.count.value), ConnDecoder(k, top.sites, decoded.value));
  }

  /** The connection loop: appends the connection of each row until one fails. */
  method AddConnections(top: Topology, rows: seq<seq<Lexeme>>, decode: (nat, seq<Lexeme>) -> Result<Connection, LammpsError>) returns (r: Result<(), LammpsError>)
    modifies top`connections
    ensures var d := DecodeEach(rows, decode, 0);
      && (r.Ok? <==> d.Ok?)
      && (r.Ok? ==> top.connections == old(top.connections) + d.value)
      && (r.Err? ==> r.error == d.error)
  {
    ghost var conns0 := top.connections;
    var n0 := |top.connections|;
    var i := 0;
    while i < |rows|
      invariant 0 <= i <= |rows|
      invariant |top.connections| == n0 + i && top.connections[..n0] == conns0
      invariant forall j :: 0 <= j < i ==> decode(j, rows[j]).Ok? && top.connections[n0 + j] == decode(j, rows[j]).value
    {
      var c := decode(i, rows[i]);
      if c.Err? {
        DecodeEachFirstError(rows, decode, i);
        return Err(c.error);
      }
      top.AddConnection(c.value);
      i := i + 1;
    }
    ghost var d := DecodeEach(rows, decode, 0).value;
    forall m | 0 <= m < |rows|
      ensures top.connections[n0..][m] == d[m]
    {
      assert d[m - 0] == decode(m, rows[m]).value;
    }
    assert top.connections[n0..] == d;
    assert top.connections == top.connections[..n0] + top.connections[n0..];
    r := Ok(());
  }

  /** The kinds in the order the reader reads them. */
  const ReadOrder: seq<ConnKind> := [Bond, ConnKind.Angle, Dihedral, Improper]

  /** The connection sections of the kinds `ks`, read in that order and joined; the first error stops the read. */
  function ReadConnections(lines: seq<string>, style: UnitStyle, sites: seq<Site>, ks: seq<ConnKind>): Result<seq<Connection>, LammpsError>
    decreases |ks|
  {
    if ks == [] then Ok([])
    else
      var init :- ReadConnections(lines, style, sites, ks[..|ks| - 1]);
      var last :- ConnectionSection(lines, ks[|ks| - 1], style, sites);
      Ok(init + last)
  }

  /** Once a section has failed, reading more sections keeps its error. */
  lemma {:induction false} ReadConnectionsErrorKept(lines: seq<string>, style: UnitStyle, sites: seq<Site>, ks: seq<ConnKind>, more: seq<ConnKind>)
    requires ReadConnections(lines, style, sites, ks).Err?
    ensures ReadConnections(lines, style, sites, ks + more) == ReadConnections(lines, style, sites, ks)
    decreases |more|
  {
    if more != [] {
      var front := more[..|more| - 1];
      ReadConnectionsErrorKept(lines, style, sites, ks, front);
      assert (ks + more)[..|ks + more| - 1] == ks + front;
      assert ReadConnections(lines, style, sites, ks + front).Err?;
    } else {
      assert ks + more == ks;
    }
  }

  /**
   * The four sections of a data file in reading order: bonds, angles,
   * dihedrals, impropers, joined in that order, or the error of the first
   * of them that fails.
   */
  lemma ReadConnectionsInOrder(lines: seq<string>, style: UnitStyle, sites: seq<Site>)
    ensures var b := ConnectionSection(lines, Bond, style, sites);
      var a := ConnectionSection(lines, ConnKind.Angle, style, sites);
      var d := ConnectionSection(lines, Dihedral, style, sites);
      var i := ConnectionSection(lines, Improper, style, sites);
      ReadConnections(lines, style, sites, ReadOrder)
        == if b.Err? then Err(b.error) else if a.Err? then Err(a.error)
           else if d.Err? then Err(d.error) else if i.Err? then Err(i.error)
           else Ok(b.value + a.value + d.value + i.value)
  {
    var ks1, ks2, ks3 := [Bond], [Bond, ConnKind.Angle], [Bond, ConnKind.Angle, Dihedral];
    assert ks1[..0] == [] && ks2[..1] == ks1 && ks3[..2] == ks2 && ReadOrder[..3] == ks3;
    var b := ConnectionSection(lines, Bond, style, sites);
    var a := ConnectionSection(lines, ConnKind.Angle, style, sites);
    var d := ConnectionSection(lines, Dihedral, style, sites);
    if b.Ok? {
      assert [] + b.value == b.value;
    }
    assert ReadConnections(lines, style, sites, ks1) == if b.Err? then Err(b.error) else Ok(b.value);
    assert ReadConnections(lines, style, sites, ks2) == if b.Err? then Err(b.error) else if a.Err? then Err(a.error) else Ok(b.value + a.value);
    assert ReadConnections(lines, style, sites, ks3)
      == if b.Err? then Err(b.error) else if a.Err? then Err(a.error) else if d.Err? then Err(d.error) else Ok(b.value + a.value + d.value);
  }

  /** The four `_get_connection` calls: bonds, angles, dihedrals, impropers; on an error the connections read so far stay. */
  method GetConnections(lines: seq<string>, top: Topology, style: UnitStyle) returns (r: Result<(), LammpsError>)
    requires top.connections == []
    modifies top`connections
    ensures r.Ok? <==> ReadConnections(lines, style, top.sites, ReadOrder).Ok?
    ensures r.Ok? ==> top.connections == ReadConnections(lines, style, top.sites, ReadOrder).value
    ensures r.Err? ==> r.error == ReadConnections(lines, style, top.sites, ReadOrder).error
    ensures r.Ok? ==> forall c :: c in top.connections ==> |c.members| == Arity(c.kind) && Distinct(c.members)
  {
    ReadConnectionsInOrder(lines, style, top.sites);
    ghost var b := ConnectionSection(lines, Bond, style, top.sites);
    ghost var a := ConnectionSection(lines, ConnKind.Angle, style, top.sites);
    ghost var d := ConnectionSection(lines, Dihedral, style, top.sites);
    ghost var i := ConnectionSection(lines, Improper, style, top.sites);
    r := GetConnection(lines, top, style, Bond);
    if r.Err? {
      return;
    }
    assert top.connections == b.value;
    ConnectionSectionShape(lines, Bond, style, top.sites);
    r := GetConnection(lines, top, style, ConnKind.Angle);
    if r.Err? {
      return;
    }
    assert top.connections == b.value + a.value;
    ConnectionSectionShape(lines, ConnKind.Angle, style, top.sites);
    r := GetConnection(lines, top, style, Dihedral);
    if r.Err? {
      return;
    }
    assert top.connections == b.value + a.value + d.value;
    ConnectionSectionShape(lines, Dihedral, style, top.sites);
    r := GetConnection(lines, top, style, Improper);
    if r.Err? {
      return;
    }
    assert top.connections == b.value + a.value + d.value + i.value;
    ConnectionSectionShape(lines, Improper, style, top.sites);
  }

  /**
   * What `read_lammpsdata` returns for atom style full, stage by stage:
   * the options, the atom types with their pair coefficients, the Atoms
   * section, then the connection sections in reading order.
   */
  function ReadResult(lines: seq<string>, atomStyle: string, unitStyle: string): Result<(seq<Site>, seq<Connection>), LammpsError>
  {
    var style :- CheckReadOptions(atomStyle, unitStyle);
    var ff :- FfInformation(lines, style);
    var sites :- AtomSection(lines, style, ff.types, 0);
    var conns :- ReadConnections(lines, style, sites, ReadOrder);
    Ok((sites, conns))
  }

  /**
   * The stages of a read, spelled out: an option error, then a force-field
   * error, then an Atoms error is the result; past them, the sites of the
   * Atoms section with the bonds, angles, dihedrals and impropers joined in
   * that order, or the error of the first connection section that fails.
   */
  lemma ReadResultStages(lines: seq<string>, atomStyle: string, unitStyle: string)
    ensures var o := CheckReadOptions(atomStyle, unitStyle);
      o.Err? ==> ReadResult(lines, atomStyle, unitStyle) == Err(o.error)
    ensures var o := CheckReadOptions(atomStyle, unitStyle);
      o.Ok? && FfInformation(lines, o.value).Err? ==> ReadResult(lines, atomStyle, unitStyle) == Err(FfInformation(lines, o.value).error)
    ensures var o := CheckReadOptions(atomStyle, unitStyle);
      o.Ok? && FfInformation(lines, o.value).Ok? ==>
        var at := AtomSection(lines, o.value, FfInformation(lines, o.value).value.types, 0);
        at.Err? ==> ReadResult(lines, atomStyle, unitStyle) == Err(at.error)
    ensures var o := CheckReadOptions(atomStyle, unitStyle);
      o.Ok? && FfInformation(lines, o.value).Ok? ==>
        var at := AtomSection(lines, o.value, FfInformation(lines, o.value).value.types, 0);
        at.Ok? ==>
          var b := ConnectionSection(lines, Bond, o.value, at.value);
          var a := ConnectionSection(lines, ConnKind.Angle, o.value, at.value);
          var d := ConnectionSection(lines, Dihedral, o.value, at.value);
          var i := ConnectionSection(lines, Improper, o.value, at.value);
          ReadResult(lines, atomStyle, unitStyle)
            == if b.Err? then Err(b.error) else if a.Err? then Err(a.error)
               else if d.Err? then Err(d.error) else if i.Err? then Err(i.error)
               else Ok((at.value, b.value + a.value + d.value + i.value))
  {
    var o := CheckReadOptions(atomStyle, unitStyle);
    if o.Ok? && FfInformation(lines, o.value).Ok? {
      var at := AtomSection(lines, o.value, FfInformation(lines, o.value).value.types, 0);
      if at.Ok? {
        ReadConnectionsInOrder(lines, o.value, at.value);
      }
    }
  }

  /**
   * `read_lammpsdata` for atom style full: the options, the atom types,
   * the sites, then bonds, angles, dihedrals and impropers. The box is not
   * part of this model.
   */
  method ReadLammpsData(lines: seq<string>, atomStyle: string, unitStyle: string) returns (r: Result<Topology, LammpsError>)
    ensures r.Ok? <==> ReadResult(lines, atomStyle, unitStyle).Ok?
    ensures r.Ok? ==> (r.value.sites, r.value.connections) == ReadResult(lines, atomStyle, unitStyle).value
    ensures r.Err? ==> r.error == ReadResult(lines, atomStyle, unitStyle).error
    ensures r.Ok? ==> forall c :: c in r.value.connections ==> |c.members| == Arity(c.kind) && Distinct(c.members)
    ensures r.Ok? ==> fresh(r.value)
  {
    var style :- CheckReadOptions(atomStyle, unitStyle);
    var ff :- GetFfInformation(lines, style);
    var top := new Topology();
    var a := GetAtoms(lines, top, style, ff.types);
    if a.Err? {
      assert ReadResult(lines, atomStyle, unitStyle) == Err(AtomSection(lines, style, ff.types, 0).error);
      return Err(a.error);
    }
    ghost var sites := AtomSection(lines, style, ff.types, 0);
    assert top.sites == [] + sites.value == sites.value;
    assert ReadResult(lines, atomStyle, unitStyle) == (
      match ReadConnections(lines, style, sites.value, ReadOrder)
      case Err(e) => Err(e)
      case Ok(conns) => Ok((sites.value, conns)));
    var c := GetConnections(lines, top, style);
    if c.Err? {
      return Err(c.error);
    }
    return Ok(top);
  }
}
