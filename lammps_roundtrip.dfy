/**
 * What the reader makes of the lines the writer writes
 * (gmso/formats/lammpsdata.py): the header counts, the section layout,
 * and each kind of row read back field by field. Numbers pass through the
 * writer's formatting hook (`Hooks.num`); the reader gets back whatever
 * `float()` reads from that text, in the unit style's units.
 *
 * Two rows do not survive as written: the Pair Coeffs row carries a
 * comment, so it never has the three fields the reader looks for, and the
 * Improper Coeffs row has three fields where the reader reads four. For
 * each, the lemmas below show the row as the source reads it and as the
 * corrected reader (LammpsRead.PairFields, LammpsRead.CoeffParams) reads it.
 */
module LammpsRoundTrip {
  import opened Wrappers
  import opened Text
  import opened Units
  import opened AtomTypes
  import opened Topologies
  import opened Connections
  import opened Ordering
  import opened LammpsConfig
  import opened LammpsScan
  import opened LammpsRead
  import opened LammpsWrite

  /**
   * What the round trip asks of the number formatting: every number is
   * written as one field, without a `#`, that `float()` reads.
   */
  ghost predicate Readable(h: Hooks)
  {
    forall q :: IsToken(h.num(q)) && '#' !in h.num(q) && ParseReal(h.num(q)).Some?
  }

  /** The number the reader gets back for `q`. */
  ghost function ReadBack(h: Hooks, q: Quantity): real
    requires Readable(h)
  {
    ParseReal(h.num(q)).value
  }

  // ----- splitting written text -----

  /** Rows of fields joined by tabs, then a whitespace gap, then more text. */
  lemma {:induction false} SplitJoinRowThen(fields: seq<string>, width: nat, gap: string, rest: string)
    requires |fields| >= 1 && forall k :: 0 <= k < |fields| ==> IsToken(fields[k])
    requires AllWs(gap) && gap != []
    ensures Split(JoinRow(fields, width) + gap + rest) == fields + Split(rest)
  {
    if |fields| == 1 {
      var f := fields[0];
      var p := LJust(f, width);
      assert p == f + p[|f|..];
      assert JoinRow(fields, width) + gap + rest == f + (p[|f|..] + gap) + rest;
      SplitTokenWs(f, p[|f|..] + gap, rest);
    } else {
      SplitJoinRowThen(fields[1..], width, gap, rest);
      assert JoinRow(fields[1..], width) + gap + rest == JoinRow(fields[1..], width) + (gap + rest);
      SplitThenStep(fields, width, gap + rest, Split(rest));
      assert JoinRow(fields, width) + gap + rest == JoinRow(fields, width) + (gap + rest);
    }
  }

  /** One more field in front of a row whose split is known. */
  lemma SplitThenStep(fields: seq<string>, width: nat, tail: string, after: seq<string>)
    requires |fields| > 1 && IsToken(fields[0])
    requires Split(JoinRow(fields[1..], width) + tail) == fields[1..] + after
    ensures Split(JoinRow(fields, width) + tail) == fields + after
  {
    var rest := JoinRow(fields[1..], width) + tail;
    var g := JoinRowCons(fields, width, tail);
    SplitTokenWs(fields[0], g, rest);
    HeadTail(fields, after);
  }

  lemma HeadTail<T>(s: seq<T>, after: seq<T>)
    requires |s| > 0
    ensures [s[0]] + (s[1..] + after) == s + after
  {
    assert s == [s[0]] + s[1..];
  }

  /** Two tokens, each followed by whitespace. */
  lemma SplitTwo(a: string, g1: string, b: string, g2: string, rest: string)
    requires IsToken(a) && IsToken(b)
    requires AllWs(g1) && g1 != [] && AllWs(g2) && g2 != []
    ensures Split(a + g1 + b + g2 + rest) == [a, b] + Split(rest)
  {
    assert a + g1 + b + g2 + rest == a + g1 + (b + g2 + rest);
    SplitTokenWs(a, g1, b + g2 + rest);
    SplitTokenWs(b, g2, rest);
  }

  /** The `{:d}` rendering of a natural number has no `#`. */
  lemma NatTextHasNoHash(n: nat)
    ensures '#' !in IntToString(n)
  {
    var s := IntToString(n);
    assert AllDigits(s);
    assert forall i :: 0 <= i < |s| ==> s[i] != '#' by {
      forall i | 0 <= i < |s| ensures s[i] != '#' {
        assert IsDigit(s[i]);
      }
    }
  }

  /** The comment of a line is everything from its first `#`. */
  lemma {:induction false} StripCommentAt(p: string, rest: string)
    requires '#' !in p
    ensures StripComment(p + "#" + rest) == p
  {
    if p != [] {
      assert (p + "#" + rest)[0] == p[0];
      assert (p + "#" + rest)[1..] == p[1..] + "#" + rest;
      StripCommentAt(p[1..], rest);
      assert p == [p[0]] + p[1..];
    }
  }

  // ----- the header -----

  /** A count line reads back as its count, followed by its word. */
  lemma CountLineRead(n: nat, word: string)
    requires IsToken(word)
    ensures Split(CountLine(n, word)) == [IntToString(n), word]
    ensures CountOf(CountLine(n, word)) == Ok(n)
  {
    assert CountLine(n, word) == IntToString(n) + " " + (word + "\n");
    SplitTokenWs(IntToString(n), " ", word + "\n");
    SplitToken(word, "\n");
    SplitAllWs("\n");
    ParseIntRoundTrip(n);
  }

  /** A type count line reads back as its count, its kind and "types". */
  lemma TypesLineRead(n: nat, kind: string)
    requires IsToken(kind)
    ensures Split(TypesLine(n, kind)) == [IntToString(n), kind, "types"]
    ensures CountOf(TypesLine(n, kind)) == Ok(n)
  {
    assert TypesLine(n, kind) == IntToString(n) + " " + kind + " " + ("types" + "\n");
    SplitTwo(IntToString(n), " ", kind, " ", "types" + "\n");
    SplitToken("types", "\n");
    SplitAllWs("\n");
    ParseIntRoundTrip(n);
  }

  /** A number's text is never a word of letters. */
  lemma NumberIsNoWord(n: nat, w: string)
    requires |w| > 0 && !IsDigit(w[0])
    ensures IntToString(n) != w
  {
    assert AllDigits(IntToString(n));
  }

  /**
   * The scans of the reader recognise the writer's header lines: the
   * connection count line of a kind ("N bonds") counts for the kind's
   * connection scan without stopping it, and so does its type count line
   * ("N bond types") for the coefficient scan; the atom count line counts
   * for the Atoms scan.
   */
  lemma HeaderLinesMarked(n: nat, k: ConnKind)
    ensures MarkOf(ConnScan(k), CountLine(n, CountWord(k))) == Mark(true, false, Ok(n))
    ensures MarkOf(TypesScan(k), TypesLine(n, KindName(k))) == Mark(true, false, Ok(n))
    ensures MarkOf(AtomScan, CountLine(n, "atoms")) == Mark(true, false, Ok(n))
  {
    ConnCountLineMarked(n, k);
    TypesLineMarked(n, k);
    AtomCountLineMarked(n);
  }

  lemma ConnCountLineMarked(n: nat, k: ConnKind)
    ensures MarkOf(ConnScan(k), CountLine(n, CountWord(k))) == Mark(true, false, Ok(n))
  {
    CountLineRead(n, CountWord(k));
    NumberIsNoWord(n, ClassName(k) + "s");
  }

  lemma TypesLineMarked(n: nat, k: ConnKind)
    ensures MarkOf(TypesScan(k), TypesLine(n, KindName(k))) == Mark(true, false, Ok(n))
  {
    TypesLineRead(n, KindName(k));
    NumberIsNoWord(n, ClassName(k));
  }

  lemma AtomCountLineMarked(n: nat)
    ensures MarkOf(AtomScan, CountLine(n, "atoms")) == Mark(true, false, Ok(n))
  {
    CountLineRead(n, "atoms");
    NumberIsNoWord(n, "Atoms");
  }

  /** The pieces of the header, as `HeaderLines` lays them out. */
  lemma HeaderPieces(title: string, a: AtomStyle, c: Counts)
    ensures var p := [title + "\n", "\n"] + [CountLine(c.sites, "atoms")] + ConnCountLines(a, c) + [TypesLine(c.atomTypes, "atom")];
      forall k :: 0 <= k < |p| ==> HeaderLines(title, a, c)[k] == p[k]
  {
    PrefixOf9([title + "\n", "\n"], [CountLine(c.sites, "atoms")], ConnCountLines(a, c), [TypesLine(c.atomTypes, "atom")],
      TypeCountLine(a, c, Bond), TypeCountLine(a, c, ConnKind.Angle), TypeCountLine(a, c, Dihedral), TypeCountLine(a, c, Improper), ["\n"]);
  }

  /** The word of a kind's count line, as the writer spells it. */
  function CountWord(k: ConnKind): (w: string)
    ensures w == KindName(k) + "s"
  {
    match k
    case Bond => assert "bond" + "s" == "bonds"; "bonds"
    case Angle => assert "angle" + "s" == "angles"; "angles"
    case Dihedral => assert "dihedral" + "s" == "dihedrals"; "dihedrals"
    case Improper => assert "improper" + "s" == "impropers"; "impropers"
  }

  /**
   * The header of a file: line 2 counts the sites, and each line reads
   * back as its count.
   */
  lemma HeaderSitesRead(title: string, a: AtomStyle, c: Counts)
    ensures HeaderLines(title, a, c)[2] == CountLine(c.sites, "atoms")
    ensures CountOf(HeaderLines(title, a, c)[2]) == Ok(c.sites)
  {
    HeaderPieces(title, a, c);
    CountLineRead(c.sites, "atoms");
  }

  /**
   * For the full and molecular styles lines 3 to 6 of the header count the
   * connections in the order bonds, angles, dihedrals, impropers, and each
   * reads back as its count.
   */
  lemma HeaderConnsRead(title: string, a: AtomStyle, c: Counts, j: nat)
    requires FullOrMolecular(a) && j < 4
    ensures HeaderLines(title, a, c)[3 + j] == CountLine(c.conns(WriteOrder[j]), CountWord(WriteOrder[j]))
    ensures CountOf(HeaderLines(title, a, c)[3 + j]) == Ok(c.conns(WriteOrder[j]))
  {
    var k := WriteOrder[j];
    var conns := ConnCountLines(a, c);
    assert |conns| == 5 && conns[j] == CountLine(c.conns(k), CountWord(k));
    var p := [title + "\n", "\n"] + [CountLine(c.sites, "atoms")] + conns + [TypesLine(c.atomTypes, "atom")];
    assert p[3 + j] == conns[j];
    HeaderPieces(title, a, c);
    assert HeaderLines(title, a, c)[3 + j] == p[3 + j];
    ConnCountLineRead(c.conns(k), k);
  }

  /** A connection count line reads back as its count. */
  lemma ConnCountLineRead(n: nat, k: ConnKind)
    ensures CountOf(CountLine(n, CountWord(k))) == Ok(n)
  {
    CountLineRead(n, CountWord(k));
  }

  /** For the atomic and charge styles line 3 of the header already counts the atom types. */
  lemma HeaderNoConns(title: string, a: AtomStyle, c: Counts)
    requires !FullOrMolecular(a)
    ensures HeaderLines(title, a, c)[3] == TypesLine(c.atomTypes, "atom")
    ensures CountOf(HeaderLines(title, a, c)[3]) == Ok(c.atomTypes)
  {
    HeaderPieces(title, a, c);
    TypesLineRead(c.atomTypes, "atom");
  }

  /** The first four pieces of a concatenation of nine decide its first elements. */
  lemma PrefixOf9<T>(p1: seq<T>, p2: seq<T>, p3: seq<T>, p4: seq<T>, p5: seq<T>, p6: seq<T>, p7: seq<T>, p8: seq<T>, p9: seq<T>)
    ensures forall k :: 0 <= k < |p1 + p2 + p3 + p4| ==> (p1 + p2 + p3 + p4 + p5 + p6 + p7 + p8 + p9)[k] == (p1 + p2 + p3 + p4)[k]
  {
  }

  /**
   * The rows of a section the writer laid out as header, blank line, rows:
   * when the scan stops at the header with the count of rows, the reader's
   * slice is exactly those rows, whatever follows them.
   */
  lemma SectionRowsRead<T>(before: seq<T>, header: T, blank: T, rows: seq<T>, after: seq<T>)
    ensures Rows(before + [header, blank] + rows + after, Found(|before|, Some(|rows|)), |rows|) == rows
  {
    var lines := before + [header, blank] + rows + after;
    SliceWithin(lines, |before| + 2, |before| + |rows| + 2);
    assert lines[|before| + 2..|before| + |rows| + 2] == rows;
  }

  // ----- Masses and Pair Coeffs -----

  /**
   * A Masses row reads back as an atom type named by the row's number,
   * with the mass `float()` reads from the written mass, in the style's
   * mass unit (the reader rejects every Masses row under style lj).
   */
  lemma MassRowRead(sorted: seq<AtomType>, h: Hooks, i: nat, t: AtomType, style: UnitStyle)
    requires Readable(h) && style != Lj
    requires MassLine(sorted, h, i, t).Ok?
    ensures var r := DecodeMassRow(LineFields(MassLine(sorted, h, i, t).value), style);
      && r.Ok?
      && r.value.name == IntToString(IndexOfEqual(sorted, t).value + 1)
      && r.value.mass == Quantity(ReadBack(h, t.mass), GetUnits(style, Mass))
  {
    var j := IndexOfEqual(sorted, t).value;
    MassLineNumbered(sorted, h, i, t, j);
    MassFieldsLexed(IntToString(j + 1), h.num(t.mass), t.name);
  }

  /** The first two fields of a Masses row, its number and its mass, lexed. */
  lemma MassFieldsLexed(a: string, b: string, name: string)
    requires IsToken(a) && IsToken(b)
    ensures var toks := LineFields(a + "\t" + b + "\t# " + name + "\n");
      |toks| >= 2 && toks[0] == Lex(a) && toks[1] == Lex(b)
  {
    var line := a + "\t" + b + "\t# " + name + "\n";
    assert line == a + "\t" + b + "\t" + ("# " + name + "\n");
    SplitTwo(a, "\t", b, "\t", "# " + name + "\n");
    LexRowAt(Split(line), 0);
    LexRowAt(Split(line), 1);
  }

  /** Without two equal (`__eq__`) atom types in a list, there are none in any sorting of it. */
  lemma SortByNoEqualTypes(s: seq<AtomType>, key: AtomType -> seq<string>)
    requires forall a, b :: 0 <= a < b < |s| ==> !SameFields(s[a], s[b])
    ensures forall a, b :: 0 <= a < b < |SortBy(s, key)| ==> !SameFields(SortBy(s, key)[a], SortBy(s, key)[b])
  {
    var r := SortBy(s, key);
    NoEqualTypesDistinct(s);
    forall a, b | 0 <= a < b < |r| ensures !SameFields(r[a], r[b]) {
      NoEqualInPermutation(s, r, a, b);
    }
  }

  lemma NoEqualTypesDistinct(s: seq<AtomType>)
    requires forall a, b :: 0 <= a < b < |s| ==> !SameFields(s[a], s[b])
    ensures forall a, b :: 0 <= a < b < |s| ==> s[a] != s[b]
  {
    forall a, b | 0 <= a < b < |s| ensures s[a] != s[b] {
      SameFieldsReflexive(s[a]);
    }
  }

  lemma SameFieldsReflexive(t: AtomType)
    ensures SameFields(t, t)
  {
  }

  lemma NoEqualInPermutation(s: seq<AtomType>, r: seq<AtomType>, a: nat, b: nat)
    requires multiset(r) == multiset(s) && a < b < |r|
    requires forall x, y :: 0 <= x < y < |s| ==> !SameFields(s[x], s[y])
    requires forall x, y :: 0 <= x < y < |s| ==> s[x] != s[y]
    ensures !SameFields(r[a], r[b])
  {
    if r[a] == r[b] {
      TwiceInMultiset(r, a, b);
      OnceInMultiset(s, r[a]);
    } else {
      assert r[a] in multiset(r) && r[b] in multiset(r);
      var x :| 0 <= x < |s| && s[x] == r[a];
      var y :| 0 <= y < |s| && s[y] == r[b];
      if x < y {
        assert !SameFields(s[x], s[y]);
      } else {
        assert y < x && !SameFields(s[y], s[x]);
      }
    }
  }

  lemma TwiceInMultiset<T>(s: seq<T>, a: nat, b: nat)
    requires a < b < |s| && s[a] == s[b]
    ensures multiset(s)[s[a]] >= 2
  {
    assert s == s[..b] + [s[b]] + s[b + 1..];
    assert s[a] in s[..b];
    assert multiset(s) == multiset(s[..b]) + multiset{s[b]} + multiset(s[b + 1..]);
  }

  lemma {:induction false} OnceInMultiset<T>(s: seq<T>, x: T)
    requires forall a, b :: 0 <= a < b < |s| ==> s[a] != s[b]
    ensures multiset(s)[x] <= 1
  {
    if s != [] {
      assert s == [s[0]] + s[1..];
      OnceInMultiset(s[1..], x);
      if x == s[0] {
        assert x !in s[1..];
      }
    }
  }

  /**
   * For a table in which no two atom types are equal (`__eq__`), the
   * Masses row at position `i` of the name-sorted table is numbered `i + 1`.
   */
  lemma MassRowsNumbered(atomTypes: seq<AtomType>, h: Hooks, i: nat)
    requires forall a, b :: 0 <= a < b < |atomTypes| ==> !SameFields(atomTypes[a], atomTypes[b])
    requires i < |atomTypes|
    ensures var sorted := SortBy(atomTypes, ByName);
      MassLine(sorted, h, i, sorted[i]) == Ok(IntToString(i + 1) + "\t" + h.num(sorted[i].mass) + "\t# " + sorted[i].name + "\n")
  {
    var sorted := SortBy(atomTypes, ByName);
    SortByNoEqualTypes(atomTypes, ByName);
    IndexOfEqualDistinct(sorted, i);
    MassLineNumbered(sorted, h, i, sorted[i], i);
  }

  lemma MassLineNumbered(sorted: seq<AtomType>, h: Hooks, i: nat, t: AtomType, j: nat)
    requires IndexOfEqual(sorted, t) == Some(j)
    ensures MassLine(sorted, h, i, t) == Ok(IntToString(j + 1) + "\t" + h.num(t.mass) + "\t# " + t.name + "\n")
  {
  }

  /**
   * The fields of a Pair Coeffs row with its comment removed: the row's
   * number, epsilon and sigma.
   */
  lemma PairRowFields(h: Hooks, i: nat, t: AtomType)
    requires Readable(h)
    requires PairLine(h, i, t).Ok?
    ensures var qs := ParamsOf(t.potential.parameters, PairKeys).value;
      PairFields(PairLine(h, i, t).value) == [IntToString(i + 1), h.num(qs[0]), h.num(qs[1])]
  {
    var qs := ParamsOf(t.potential.parameters, PairKeys).value;
    NatTextHasNoHash(i + 1);
    assert PairLine(h, i, t).value == IntToString(i + 1) + "\t" + h.num(qs[0]) + "\t\t" + h.num(qs[1]) + "\t\t# " + t.name + "\n";
    PairTextFields(IntToString(i + 1), h.num(qs[0]), h.num(qs[1]), t.name);
  }

  /** Three fields, a comment and a line end: the pair reader keeps the three fields. */
  lemma PairTextFields(a: string, e: string, s: string, name: string)
    requires IsToken(a) && IsToken(e) && IsToken(s)
    requires '#' !in a && '#' !in e && '#' !in s
    ensures PairFields(a + "\t" + e + "\t\t" + s + "\t\t# " + name + "\n") == [a, e, s]
  {
    var p := a + "\t" + e + "\t\t" + s + "\t\t";
    assert a + "\t" + e + "\t\t" + s + "\t\t# " + name + "\n" == p + "#" + (" " + name + "\n");
    assert '#' !in p by {
      assert p == a + ("\t" + e + "\t\t" + s + "\t\t");
    }
    StripCommentAt(p, " " + name + "\n");
    assert p == a + "\t" + e + "\t\t" + (s + "\t\t");
    SplitTwo(a, "\t", e, "\t\t", s + "\t\t");
    SplitToken(s, "\t\t");
    SplitAllWs("\t\t");
  }

  /**
   * The corrected reader reads a written Pair Coeffs row back: the atom
   * type gets the sigma and the epsilon `float()` reads from the row, in
   * the style's length and energy units.
   */
  lemma PairRowRead(h: Hooks, i: nat, t: AtomType, t0: AtomType, style: UnitStyle)
    requires Readable(h)
    requires PairLine(h, i, t).Ok?
    ensures var qs := ParamsOf(t.potential.parameters, PairKeys).value;
      var r := ApplyLj(t0, LexRow(PairFields(PairLine(h, i, t).value)), style);
      && r.Ok?
      && ParamValue(r.value.potential.parameters, "epsilon") == Some(Quantity(ReadBack(h, qs[0]), GetUnits(style, Energy)))
      && ParamValue(r.value.potential.parameters, "sigma") == Some(Quantity(ReadBack(h, qs[1]), GetUnits(style, Length)))
  {
    PairRowFields(h, i, t);
    var fs := PairFields(PairLine(h, i, t).value);
    LexRowAt(fs, 1);
    LexRowAt(fs, 2);
  }

  /**
   * As the source reads it, a written Pair Coeffs row splits into the
   * number, epsilon, sigma, `#` and the name's words: never the three
   * fields the pair loop reads.
   */
  lemma PairRowFieldsAsWritten(h: Hooks, i: nat, t: AtomType)
    requires Readable(h)
    requires PairLine(h, i, t).Ok?
    ensures var qs := ParamsOf(t.potential.parameters, PairKeys).value;
      var fs := Split(PairLine(h, i, t).value);
      && |fs| >= 4 && fs[..4] == [IntToString(i + 1), h.num(qs[0]), h.num(qs[1]), "#"]
  {
    var qs := ParamsOf(t.potential.parameters, PairKeys).value;
    var a, e, s := IntToString(i + 1), h.num(qs[0]), h.num(qs[1]);
    var line := PairLine(h, i, t).value;
    assert line == a + "\t" + e + "\t\t" + (s + "\t\t" + ("#" + " " + (t.name + "\n")));
    SplitTwo(a, "\t", e, "\t\t", s + "\t\t" + ("#" + " " + (t.name + "\n")));
    SplitTokenWs(s, "\t\t", "#" + " " + (t.name + "\n"));
    SplitTokenWs("#", " ", t.name + "\n");
  }

  // ----- the coefficient tables -----

  /**
   * A written coefficient row: the index and the numbers joined by tabs,
   * then whitespace and the member-type comment (nothing for impropers).
   */
  lemma CoeffLineParts(k: ConnKind, h: Hooks, i: nat, t: ConnType) returns (gap: string, rest: string)
    requires CoeffLine(k, h, i, t).Ok?
    ensures ParamsOf(t.parameters, CoeffKeys(k)).Ok?
    ensures AllWs(gap) && gap != []
    ensures CoeffLine(k, h, i, t).value == JoinRow([IntToString(i + 1)] + Nums(h, ParamsOf(t.parameters, CoeffKeys(k)).value), 0) + gap + rest
    ensures k == Improper ==> rest == ""
  {
    var row := JoinRow([IntToString(i + 1)] + Nums(h, ParamsOf(t.parameters, CoeffKeys(k)).value), 0);
    var m := t.memberTypes;
    match k
    case Bond =>
      gap, rest := "\t\t", "# " + MinStr(m[0], m[1]) + "\t" + MaxStr(m[0], m[1]) + "\n";
    case Angle =>
      gap, rest := "\t", "#" + LJust(m[0], 11) + "\t" + LJust(m[1], 11) + "\t" + LJust(m[2], 11) + "\n";
    case Dihedral =>
      gap, rest := "\t", "# " + JoinRow(h.memberKey(t)[..4], 0) + "\n";
    case Improper =>
      gap, rest := "\n", "";
      assert row + "\n" == row + gap + rest;
  }

  /** The fields of a written coefficient row start with the index and the numbers; an improper row has no others. */
  lemma CoeffRowFields(k: ConnKind, h: Hooks, i: nat, t: ConnType)
    requires Readable(h)
    requires CoeffLine(k, h, i, t).Ok?
    ensures var qs := ParamsOf(t.parameters, CoeffKeys(k)).value;
      var fs := Split(CoeffLine(k, h, i, t).value);
      && |fs| >= 1 + |qs| && fs[..1 + |qs|] == [IntToString(i + 1)] + Nums(h, qs)
      && (k == Improper ==> fs == [IntToString(i + 1)] + Nums(h, qs))
  {
    var gap, rest := CoeffLineParts(k, h, i, t);
    var qs := ParamsOf(t.parameters, CoeffKeys(k)).value;
    var fields := [IntToString(i + 1)] + Nums(h, qs);
    forall j | 0 <= j < |fields| ensures IsToken(fields[j]) {
      if j > 0 {
        assert fields[j] == h.num(qs[j - 1]);
      }
    }
    SplitJoinRowThen(fields, 0, gap, rest);
    assert (fields + Split(rest))[..|fields|] == fields;
    if k == Improper {
      assert Split(rest) == [];
    }
  }

  /** The factor the reader multiplies a written number by: LAMMPS's harmonic K is half the stored constant. */
  function ReadFactor(k: ConnKind, j: nat): (f: real)
    ensures f == 1.0 || f == 2.0
    ensures f == 2.0 <==> j == 0 && k != Dihedral
  {
    if j == 0 && k != Dihedral then 2.0 else 1.0
  }

  /**
   * The (corrected) reader reads a written coefficient row back as a type
   * with the kind's parameters, in the writer's order, each the number
   * `float()` reads from the row, times two for a harmonic K.
   */
  lemma CoeffRowRead(k: ConnKind, h: Hooks, i: nat, t: ConnType, style: UnitStyle)
    requires Readable(h)
    requires CoeffLine(k, h, i, t).Ok?
    ensures var qs := ParamsOf(t.parameters, CoeffKeys(k)).value;
      var r := DecodeCoeffRow(k, LineFields(CoeffLine(k, h, i, t).value), style);
      && r.Ok?
      && |r.value.parameters| == |CoeffKeys(k)|
      && forall j :: 0 <= j < |CoeffKeys(k)| ==>
        r.value.parameters[j].key == CoeffKeys(k)[j] && r.value.parameters[j].value.value == ReadFactor(k, j) * ReadBack(h, qs[j])
  {
    var qs := ParamsOf(t.parameters, CoeffKeys(k)).value;
    CoeffLineReals(k, h, i, t, qs);
    CoeffReadBack(k, h, LineFields(CoeffLine(k, h, i, t).value), style, qs);
  }

  /** A coefficient row whose number fields read back as `qs` decodes to the kind's parameters with those values. */
  lemma CoeffReadBack(k: ConnKind, h: Hooks, toks: seq<Lexeme>, style: UnitStyle, qs: seq<Quantity>)
    requires Readable(h)
    requires |qs| == |CoeffKeys(k)| && |toks| >= 1 + |qs|
    requires forall j :: 0 <= j < |qs| ==> toks[j + 1].asReal == Some(ReadBack(h, qs[j]))
    ensures var r := DecodeCoeffRow(k, toks, style);
      && r.Ok?
      && |r.value.parameters| == |CoeffKeys(k)|
      && forall j :: 0 <= j < |CoeffKeys(k)| ==>
        r.value.parameters[j].key == CoeffKeys(k)[j] && r.value.parameters[j].value.value == ReadFactor(k, j) * ReadBack(h, qs[j])
  {
    var vs := seq(|qs|, j requires 0 <= j < |qs| => ReadBack(h, qs[j]));
    CoeffRealsDecoded(k, toks, style, vs);
  }

  /** The numbers of a written coefficient row are read back in order after the index field. */
  lemma CoeffLineReals(k: ConnKind, h: Hooks, i: nat, t: ConnType, qs: seq<Quantity>)
    requires Readable(h)
    requires CoeffLine(k, h, i, t).Ok? && ParamsOf(t.parameters, CoeffKeys(k)) == Ok(qs)
    ensures var toks := LineFields(CoeffLine(k, h, i, t).value);
      && |toks| >= 1 + |qs|
      && forall j :: 0 <= j < |qs| ==> toks[j + 1].asReal == Some(ReadBack(h, qs[j]))
  {
    CoeffRowFields(k, h, i, t);
    var fs := Split(CoeffLine(k, h, i, t).value);
    LexRowAll(fs);
    forall j | 0 <= j < |qs| ensures fs[j + 1] == h.num(qs[j]) {
      assert fs[j + 1] == fs[..1 + |qs|][j + 1];
    }
  }

  /** A coefficient row whose number fields hold `vs` decodes to the kind's parameters with those values. */
  lemma CoeffRealsDecoded(k: ConnKind, toks: seq<Lexeme>, style: UnitStyle, vs: seq<real>)
    requires |vs| == |CoeffKeys(k)| && |toks| >= 1 + |vs|
    requires forall j :: 0 <= j < |vs| ==> toks[j + 1].asReal == Some(vs[j])
    ensures var r := DecodeCoeffRow(k, toks, style);
      && r.Ok?
      && |r.value.parameters| == |CoeffKeys(k)|
      && forall j :: 0 <= j < |CoeffKeys(k)| ==>
        r.value.parameters[j].key == CoeffKeys(k)[j] && r.value.parameters[j].value.value == ReadFactor(k, j) * vs[j]
  {
    if k == Dihedral {
      forall p | 1 <= p < 5 ensures toks[p].asReal.Some? {
        assert toks[(p - 1) + 1].asReal == Some(vs[p - 1]);
      }
    } else {
      assert toks[0 + 1].asReal == Some(vs[0]);
      assert toks[1 + 1].asReal == Some(vs[1]);
    }
  }

  /**
   * The improper row as the source reads it: the writer puts two numbers
   * after the index and the reader asks for a fourth field, so every
   * written improper row raises IndexError.
   */
  lemma ImproperRowUnreadAsWritten(h: Hooks, i: nat, t: ConnType, style: UnitStyle)
    requires Readable(h)
    requires CoeffLine(Improper, h, i, t).Ok?
    ensures ImproperParamsAsWritten(LineFields(CoeffLine(Improper, h, i, t).value), style) == Err(IndexError)
  {
    CoeffRowFields(Improper, h, i, t);
    var qs := ParamsOf(t.parameters, CoeffKeys(Improper)).value;
    var fs := Split(CoeffLine(Improper, h, i, t).value);
    LexRowAt(fs, 2);
    assert fs[2] == h.num(qs[1]);
  }

  /**
   * The lines the source's pair loop reads: counted from two past the first
   * line that mentions "Pair", as many as the atom-type count, clamped as a
   * Python slice is.
   */
  predicate PairRowLine(lines: seq<string>, j: int)
  {
    var f := ScanFrom(lines, FfScan);
    var p := ScanFrom(lines, PairScan);
    && f.Ok? && f.value.count.Some? && p.Ok?
    && SliceBound(p.value.cursor + 2, |lines|) <= j < SliceBound(p.value.cursor + f.value.count.value + 2, |lines|)
  }

  /**
   * The source's force-field reader over a file whose Pair Coeffs rows have
   * no three-field line (as every written row, which ends in a comment:
   * `PairRowFieldsAsWritten` gives it four fields or more): when it
   * succeeds, the atom types are exactly those the Masses section gave,
   * with no pair parameters applied.
   */
  lemma FfInformationAsWrittenIgnoresPairs(lines: seq<string>, style: UnitStyle)
    requires forall j :: 0 <= j < |lines| && PairRowLine(lines, j) ==> |Split(lines[j])| != 3
    ensures var r := FfInformationAsWritten(lines, style);
      r.Ok? ==>
        && ScanFrom(lines, FfScan).Ok? && ScanFrom(lines, FfScan).value.count.Some?
        && var f := ScanFrom(lines, FfScan).value;
          var masses := DecodeEach(Rows(FieldsOf(lines), f, f.count.value), MassDecoder(style), 0);
          masses.Ok? && r.value.types == masses.value
  {
    var r := FfInformationAsWritten(lines, style);
    if r.Ok? {
      var f := ScanFrom(lines, FfScan).value;
      var masses := DecodeEach(Rows(FieldsOf(lines), f, f.count.value), MassDecoder(style), 0).value;
      var p := ScanFrom(lines, PairScan).value;
      var all := FieldsOf(lines);
      var rows := Rows(all, p, f.count.value);
      var a := SliceBound(p.cursor + 2, |all|);
      forall k | 0 <= k < |rows| ensures |rows[k]| != 3 {
        assert rows[k] == all[a + k];
        assert PairRowLine(lines, a + k);
        FieldsOfAt(lines, a + k);
      }
      NoPairRowApplies(masses, rows, style);
    }
  }

  /** Pair rows none of which has three fields leave the atom types as they are. */
  lemma NoPairRowApplies(types: seq<AtomType>, rows: seq<seq<Lexeme>>, style: UnitStyle)
    requires forall j :: 0 <= j < |rows| ==> |rows[j]| != 3
    ensures ApplyPairs(types, rows, LjSetter(style), 0, false).Ok?
    ensures ApplyPairs(types, rows, LjSetter(style), 0, false).value.types == types
  {
    ApplyPairsResult(types, rows, LjSetter(style), 0, false);
  }

  // ----- the Atoms section -----

  /**
   * An Atoms row of style full reads back as a site with the written
   * site's atom type (looked up in the same name-sorted table the Masses
   * section lists), its molecule number, and the charge and coordinates
   * `float()` reads from the written numbers, in the style's units.
   */
  lemma SiteRowRead(h: Hooks, sorted: seq<AtomType>, i: nat, s: Site, style: UnitStyle, id: nat, ti: nat)
    requires Readable(h)
    requires SiteLine(Full, h, sorted, i, s).Ok?
    requires s.atomType.Some? && IndexOfEqual(sorted, s.atomType.value) == Some(ti)
    ensures var r := DecodeAtomRow(LineFields(SiteLine(Full, h, sorted, i, s).value), style, sorted, id);
      && r.Ok?
      && r.value.id == id
      && r.value.atomType == Some(sorted[ti])
      && r.value.molecule == Some(Molecule(IntToString(s.molecule.value.number), s.molecule.value.number))
      && r.value.charge == Quantity(ReadBack(h, s.charge), GetUnits(style, Dimension.Charge))
      && |r.value.position| == 3
      && forall k :: 0 <= k < 3 ==> r.value.position[k] == Quantity(ReadBack(h, s.position[k]), GetUnits(style, Length))
  {
    SiteLineFields(h, sorted, i, s, ti);
    var toks := LineFields(SiteLine(Full, h, sorted, i, s).value);
    FullRowDecoded(toks, h, style, sorted, id, s.molecule.value.number, ti, s.charge, s.position);
  }

  /** Lexed Atoms fields holding a molecule number, a type number and four written numbers decode to the site they name. */
  lemma FullRowDecoded(toks: seq<Lexeme>, h: Hooks, style: UnitStyle, sorted: seq<AtomType>, id: nat,
                       mol: int, ti: nat, q: Quantity, xyz: seq<Quantity>)
    requires Readable(h) && ti < |sorted| && |xyz| >= 3
    requires |toks| == 7 && toks[1] == Lex(IntToString(mol)) && toks[2] == Lex(IntToString(ti + 1))
    requires toks[3] == Lex(h.num(q)) && forall k :: 0 <= k < 3 ==> toks[4 + k] == Lex(h.num(xyz[k]))
    ensures var r := DecodeAtomRow(toks, style, sorted, id);
      && r.Ok?
      && r.value.id == id
      && r.value.atomType == Some(sorted[ti])
      && r.value.molecule == Some(Molecule(IntToString(mol), mol))
      && r.value.charge == Quantity(ReadBack(h, q), GetUnits(style, Dimension.Charge))
      && |r.value.position| == 3
      && forall k :: 0 <= k < 3 ==> r.value.position[k] == Quantity(ReadBack(h, xyz[k]), GetUnits(style, Length))
  {
    ParseIntRoundTrip(mol);
    ParseIntRoundTrip(ti + 1);
    assert toks[1].text == IntToString(mol) && toks[1].asInt == Some(mol);
    assert toks[2].asInt.value - 1 == ti && PyIndex(sorted, ti) == Some(sorted[ti]);
    assert toks[3].asReal == Some(ReadBack(h, q));
    forall k | 0 <= k < 3 ensures toks[4 + k].asReal == Some(ReadBack(h, xyz[k])) {
    }
    forall k | 3 <= k < 7 ensures toks[k].asReal.Some? {
      if k > 3 {
        var m := k - 4;
        assert toks[4 + m].asReal == Some(ReadBack(h, xyz[m]));
      }
    }
  }

  /**
   * The atom type a written Atoms row reads back as is a type of the table
   * equal (`__eq__`) to the written site's type: the first such one, which
   * may differ from it in its tags.
   */
  lemma SiteRowTypeEqual(h: Hooks, sorted: seq<AtomType>, i: nat, s: Site, style: UnitStyle, id: nat)
    requires Readable(h)
    requires SiteLine(Full, h, sorted, i, s).Ok?
    ensures var r := DecodeAtomRow(LineFields(SiteLine(Full, h, sorted, i, s).value), style, sorted, id);
      && r.Ok? && r.value.atomType.Some? && r.value.atomType.value in sorted
      && SameFields(r.value.atomType.value, s.atomType.value)
  {
    var ti := IndexOfEqual(sorted, s.atomType.value).value;
    SiteRowRead(h, sorted, i, s, style, id, ti);
  }

  /** The fields of a written Atoms row, lexed: index, molecule, type number, charge and coordinates. */
  lemma SiteLineFields(h: Hooks, sorted: seq<AtomType>, i: nat, s: Site, ti: nat)
    requires Readable(h)
    requires SiteLine(Full, h, sorted, i, s).Ok?
    requires s.atomType.Some? && IndexOfEqual(sorted, s.atomType.value) == Some(ti)
    ensures var toks := LineFields(SiteLine(Full, h, sorted, i, s).value);
      && |toks| == 7
      && toks[1] == Lex(IntToString(s.molecule.value.number))
      && toks[2] == Lex(IntToString(ti + 1))
      && toks[3] == Lex(h.num(s.charge))
      && forall k :: 0 <= k < 3 ==> toks[4 + k] == Lex(h.num(s.position[k]))
  {
    var fields := SiteLineText(h, sorted, i, s, ti);
    SiteFieldsTokens(h, fields, i + 1, s.molecule.value.number, ti + 1, s.charge, s.position);
    JoinRowLexed(fields, 0);
  }

  /** The seven fields of an Atoms row are tokens: three integers and four numbers. */
  lemma SiteFieldsTokens(h: Hooks, fields: seq<string>, n0: int, n1: int, n2: int, q: Quantity, xyz: seq<Quantity>)
    requires Readable(h) && |xyz| >= 3
    requires |fields| == 7 && fields[0] == IntToString(n0) && fields[1] == IntToString(n1) && fields[2] == IntToString(n2)
    requires fields[3] == h.num(q) && forall k :: 0 <= k < 3 ==> fields[4 + k] == h.num(xyz[k])
    ensures forall k :: 0 <= k < |fields| ==> IsToken(fields[k])
  {
    forall k | 0 <= k < 7 ensures IsToken(fields[k]) {
      if k >= 4 {
        assert fields[4 + (k - 4)] == h.num(xyz[k - 4]);
      }
    }
  }

  /** A row of tokens joined and ended by a line break lexes to its fields, lexed one by one. */
  lemma JoinRowLexed(fields: seq<string>, width: nat)
    requires forall k :: 0 <= k < |fields| ==> IsToken(fields[k])
    ensures var toks := LineFields(JoinRow(fields, width) + "\n");
      |toks| == |fields| && forall k :: 0 <= k < |fields| ==> toks[k] == Lex(fields[k])
  {
    SplitJoinRow(fields, width, "\n");
    LexRowAll(fields);
  }

  /** A written Atoms row is the join of its seven fields. */
  lemma SiteLineText(h: Hooks, sorted: seq<AtomType>, i: nat, s: Site, ti: nat) returns (fields: seq<string>)
    requires SiteLine(Full, h, sorted, i, s).Ok?
    requires s.atomType.Some? && IndexOfEqual(sorted, s.atomType.value) == Some(ti)
    ensures |fields| == 7 && fields[1] == IntToString(s.molecule.value.number) && fields[2] == IntToString(ti + 1)
    ensures fields[3] == h.num(s.charge) && forall k :: 0 <= k < 3 ==> fields[4 + k] == h.num(s.position[k])
    ensures fields[0] == IntToString(i + 1)
    ensures SiteLine(Full, h, sorted, i, s).value == JoinRow(fields, 0) + "\n"
  {
    var xyz := Nums(h, s.position[..3]);
    fields := SiteFields(Full, IntToString(i + 1), IntToString(s.molecule.value.number), IntToString(ti + 1), h.num(s.charge), xyz);
    assert fields == [IntToString(i + 1), IntToString(s.molecule.value.number), IntToString(ti + 1), h.num(s.charge)] + xyz;
  }

  // ----- the connection sections -----

  /** What a connection row that was written is made of. */
  lemma ConnLineParts(h: Hooks, indexList: seq<seq<string>>, sites: seq<Site>, i: nat, c: Connection)
    requires ConnLine(h, indexList, sites, i, c).Ok?
    ensures c.connectionType.Some? && IndexOf(indexList, h.memberKey(c.connectionType.value)).Some?
    ensures SiteNumbers(sites, c.members).Ok?
    ensures ConnLine(h, indexList, sites, i, c).value
      == ConnText(i, IndexOf(indexList, h.memberKey(c.connectionType.value)).value, SiteNumbers(sites, c.members).value)
  {
  }

  /** Two fields in front of a non-empty row. */
  lemma JoinRowTwo(a: string, b: string, rest: seq<string>, width: nat)
    requires |rest| >= 1
    ensures JoinRow([a, b] + rest, width) == LJust(a, width) + "\t" + (LJust(b, width) + "\t" + JoinRow(rest, width))
  {
    var fs := [a, b] + rest;
    assert fs[1..] == [b] + rest && fs[1..][1..] == rest;
  }

  lemma TabAssoc(x: string, y: string, z: string)
    ensures x + "\t" + y + "\t" + z + "\n" == x + "\t" + (y + "\t" + z) + "\n"
  {
  }

  /** A connection row: its fields joined by tabs, each padded to 6. */
  lemma ConnRowText(i: nat, t: nat, ns: seq<int>)
    requires |ns| >= 1
    ensures ConnText(i, t, ns) == JoinRow([IntToString(i + 1), IntToString(t + 1)] + IntStrings(ns), 6) + "\n"
  {
    var a, b, rest := IntToString(i + 1), IntToString(t + 1), IntStrings(ns);
    JoinRowTwo(a, b, rest, 6);
    TabAssoc(LJust(a, 6), LJust(b, 6), JoinRow(rest, 6));
  }

  /** Fields that hold the members' 1-based site numbers are read back as the members. */
  lemma RefsRead(n: nat, toks: seq<Lexeme>, sites: seq<Site>, members: seq<Site>, ns: seq<int>)
    requires |members| == n && |ns| == n && |toks| >= n + 2
    requires forall j :: 0 <= j < n ==> members[j] in sites && ns[j] == IndexOf(sites, members[j]).value + 1
    requires forall j :: 0 <= j < n ==> toks[j + 2].asInt == Some(ns[j])
    ensures MemberRefs(toks, sites, 0, n) == Ok(members)
  {
    forall p | 2 <= p < n + 2
      ensures RefOk(toks, sites, p) && RefAt(toks, sites, p) == members[p - 2]
    {
      assert toks[(p - 2) + 2].asInt == Some(ns[p - 2]);
    }
    var m := MemberRefs(toks, sites, 0, n).value;
    forall j | 0 <= j < n ensures m[j] == members[j] {
      assert m[(j + 2) - 0 - 2] == RefAt(toks, sites, j + 2);
    }
    assert m == members;
  }

  /** The fields of a connection row, lexed: the members come back from their 1-based site numbers. */
  lemma ConnFieldsRead(k: ConnKind, line: string, i: nat, t: nat, sites: seq<Site>, members: seq<Site>, ns: seq<int>)
    requires line == ConnText(i, t, ns)
    requires |members| == Arity(k) && |ns| == |members|
    requires forall j :: 0 <= j < |members| ==> members[j] in sites && ns[j] == IndexOf(sites, members[j]).value + 1
    ensures var toks := LineFields(line);
      && MemberRefs(toks, sites, 0, Arity(k)) == Ok(members)
      && 1 < |toks| && toks[1].asInt == Some(t + 1)
  {
    ConnTokens(i, t, ns);
    RefsRead(Arity(k), LineFields(line), sites, members, ns);
  }

  /** A written connection row lexes to its index, its type number and its site numbers. */
  lemma ConnTokens(i: nat, t: nat, ns: seq<int>)
    requires |ns| >= 1
    ensures var toks := LineFields(ConnText(i, t, ns));
      && |toks| == |ns| + 2 && toks[1].asInt == Some(t + 1)
      && forall j :: 0 <= j < |ns| ==> toks[j + 2].asInt == Some(ns[j])
  {
    var fs := [IntToString(i + 1), IntToString(t + 1)] + IntStrings(ns);
    ConnRowText(i, t, ns);
    SplitJoinRow(fs, 6, "\n");
    IntRowLexed(i, t, ns);
  }

  /** Lexing a row of written integers gives those integers back. */
  lemma {:induction false} IntRowLexed(i: nat, t: nat, ns: seq<int>)
    ensures var toks := LexRow([IntToString(i + 1), IntToString(t + 1)] + IntStrings(ns));
      && |toks| == |ns| + 2 && toks[1].asInt == Some(t + 1)
      && forall j :: 0 <= j < |ns| ==> toks[j + 2].asInt == Some(ns[j])
  {
    var fs := [IntToString(i + 1), IntToString(t + 1)] + IntStrings(ns);
    IntFieldLexed(fs, 1, t + 1);
    forall j | 0 <= j < |ns|
      ensures LexRow(fs)[j + 2].asInt == Some(ns[j])
    {
      IntFieldLexed(fs, j + 2, ns[j]);
    }
  }

  /** A field written as an integer lexes as that integer. */
  lemma IntFieldLexed(fs: seq<string>, k: nat, n: int)
    requires k < |fs| && fs[k] == IntToString(n)
    ensures LexRow(fs)[k].asInt == Some(n)
  {
    LexRowAt(fs, k);
    ParseIntRoundTrip(n);
  }

  /**
   * A connection row reads back as its members, in order (the reader's
   * 1-based site numbers undo the writer's), and as the 1-based position
   * `t + 1` of its type in the writer's sorted type list.
   */
  lemma ConnRowRead(k: ConnKind, h: Hooks, indexList: seq<seq<string>>, sites: seq<Site>, i: nat, c: Connection, t: nat)
    requires ConnLine(h, indexList, sites, i, c).Ok? && |c.members| == Arity(k)
    requires c.connectionType.Some? && IndexOf(indexList, h.memberKey(c.connectionType.value)) == Some(t)
    ensures MemberRefs(LineFields(ConnLine(h, indexList, sites, i, c).value), sites, 0, Arity(k)) == Ok(c.members)
    ensures 1 < |LineFields(ConnLine(h, indexList, sites, i, c).value)|
      && LineFields(ConnLine(h, indexList, sites, i, c).value)[1].asInt == Some(t + 1)
  {
    ConnRowMembersRead(k, h, indexList, sites, i, c);
    ConnRowTypeRead(k, h, indexList, sites, i, c, t);
  }

  lemma ConnRowMembersRead(k: ConnKind, h: Hooks, indexList: seq<seq<string>>, sites: seq<Site>, i: nat, c: Connection)
    requires ConnLine(h, indexList, sites, i, c).Ok? && |c.members| == Arity(k)
    ensures MemberRefs(LineFields(ConnLine(h, indexList, sites, i, c).value), sites, 0, Arity(k)) == Ok(c.members)
  {
    ConnLineParts(h, indexList, sites, i, c);
    var t := IndexOf(indexList, h.memberKey(c.connectionType.value)).value;
    ConnFieldsRead(k, ConnLine(h, indexList, sites, i, c).value, i, t, sites, c.members, SiteNumbers(sites, c.members).value);
  }

  lemma ConnRowTypeRead(k: ConnKind, h: Hooks, indexList: seq<seq<string>>, sites: seq<Site>, i: nat, c: Connection, t: nat)
    requires ConnLine(h, indexList, sites, i, c).Ok? && |c.members| == Arity(k)
    requires c.connectionType.Some? && IndexOf(indexList, h.memberKey(c.connectionType.value)) == Some(t)
    ensures 1 < |LineFields(ConnLine(h, indexList, sites, i, c).value)|
      && LineFields(ConnLine(h, indexList, sites, i, c).value)[1].asInt == Some(t + 1)
  {
    ConnLineParts(h, indexList, sites, i, c);
    ConnFieldsRead(k, ConnLine(h, indexList, sites, i, c).value, i, t, sites, c.members, SiteNumbers(sites, c.members).value);
  }

  /**
   * Decoding a written connection row against the type list the reader
   * built from the coefficient table: the connection gets the written
   * members and the type at the row's type number, and it is accepted
   * exactly when its members are typed and distinct.
   */
  lemma ConnRowDecoded(k: ConnKind, h: Hooks, indexList: seq<seq<string>>, sites: seq<Site>, i: nat, c: Connection, types: seq<ConnType>)
    requires ConnLine(h, indexList, sites, i, c).Ok? && |c.members| == Arity(k)
    requires |types| == |indexList|
    ensures var r := DecodeConnRow(k, LineFields(ConnLine(h, indexList, sites, i, c).value), sites, types);
      var t := IndexOf(indexList, h.memberKey(c.connectionType.value)).value;
      && (r.Ok? <==> HasTypedMembers(c.members) && Distinct(c.members))
      && (r.Ok? ==> r.value == Connection(k, ClassName(k), c.members, Some(types[t].(memberTypes := MemberNames(MemberTypes, c.members)))))
  {
    ConnLineParts(h, indexList, sites, i, c);
    var t := IndexOf(indexList, h.memberKey(c.connectionType.value)).value;
    ConnRowRead(k, h, indexList, sites, i, c, t);
    var toks := LineFields(ConnLine(h, indexList, sites, i, c).value);
    assert toks[1].asInt.value - 1 == t && PyIndex(types, t) == Some(types[t]);
    assert MemberRefs(toks, sites, 0, Arity(k)).value == c.members;
  }

  /**
   * The type numbers of the connection rows name the coefficient rows:
   * when a kind's table key is its connection order applied to the type's
   * `sort_by_types` tuple, the sorted tuple list is the tuples of the
   * sorted table, position by position.
   */
  lemma TypeNumbersMatchTable(k: ConnKind, h: Hooks, types: seq<ConnType>)
    requires forall t :: ConnOrder(k)(h.memberKey(t)) == TableKey(k, h)(t)
    ensures IndexList(k, h, types) == Map(h.memberKey, SortBy(types, TableKey(k, h)))
  {
    SortByMap(types, h.memberKey, TableKey(k, h), ConnOrder(k));
  }

  /**
   * Dihedrals and impropers order their table and their type numbers by
   * the same key, so a connection row's type number is the number of the
   * coefficient row whose type has the connection's `sort_by_types` tuple.
   */
  lemma TorsionTypeNumbers(k: ConnKind, h: Hooks, types: seq<ConnType>, c: Connection)
    requires k == Dihedral || k == Improper
    requires c.connectionType.Some? && h.memberKey(c.connectionType.value) in IndexList(k, h, types)
    ensures var t := IndexOf(IndexList(k, h, types), h.memberKey(c.connectionType.value)).value;
      t < |types| && h.memberKey(SortBy(types, TableKey(k, h))[t]) == h.memberKey(c.connectionType.value)
  {
    TorsionKeysAgree(k, h);
    TypeNumbersMatchTable(k, h, types);
    IndexOfMap(IndexList(k, h, types), h.memberKey, SortBy(types, TableKey(k, h)), h.memberKey(c.connectionType.value));
  }

  /** A position found in the images of a list holds the image of the item at that position. */
  lemma IndexOfMap<T, U>(images: seq<U>, f: T -> U, s: seq<T>, x: U)
    requires images == Map(f, s) && x in images
    ensures IndexOf(images, x).value < |s| && f(s[IndexOf(images, x).value]) == x
  {
  }

  /** Dihedral and improper tables are sorted by their connection order applied to the `sort_by_types` tuple. */
  lemma TorsionKeysAgree(k: ConnKind, h: Hooks)
    requires k == Dihedral || k == Improper
    ensures forall t :: ConnOrder(k)(h.memberKey(t)) == TableKey(k, h)(t)
  {
    forall t: ConnType ensures ConnOrder(k)(h.memberKey(t)) == TableKey(k, h)(t) {
      if k == Dihedral {
        assert TableKey(Dihedral, h)(t) == Pick(h.memberKey(t), SortOrder(Dihedral));
      } else {
        assert TableKey(Improper, h)(t) == Pick(h.memberKey(t), SortOrder(Improper));
      }
    }
  }


}
