/**
 * The pieces of Python's text handling the data-file codec relies on:
 * `str.split()`, the `in` substring test, `int()` and `float()` on a
 * token, list indexing with negative indices, slicing with clamped bounds,
 * and the tab-joined, left-justified rows the writer emits.
 */
module Text {
  import opened Wrappers

  /** Python's `str.isspace()` on ASCII characters. */
  predicate IsWs(c: char) {
    c == ' ' || (9 <= c as int <= 13) || (28 <= c as int <= 31)
  }

  predicate AllWs(s: string) {
    forall i :: 0 <= i < |s| ==> IsWs(s[i])
  }

  /** A field of a split line: non-empty and free of whitespace. */
  predicate IsToken(w: string) {
    |w| > 0 && forall i :: 0 <= i < |w| ==> !IsWs(w[i])
  }

  /**
   * The fields of `s` read one character at a time, `cur` being the field
   * under way (empty between fields).
   */
  function SplitAcc(s: string, cur: string): seq<string>
    decreases |s|
  {
    if s == [] then (if cur == [] then [] else [cur])
    else if IsWs(s[0]) then (if cur == [] then SplitAcc(s[1..], []) else [cur] + SplitAcc(s[1..], []))
    else SplitAcc(s[1..], cur + [s[0]])
  }

  /** Python's `str.split()` without a separator: the maximal runs of non-whitespace. */
  function Split(s: string): seq<string>
  {
    SplitAcc(s, [])
  }

  lemma {:induction false} SkipWs(ws: string, u: string)
    requires AllWs(ws)
    ensures SplitAcc(ws + u, []) == SplitAcc(u, [])
  {
    if ws == [] {
      assert ws + u == u;
    } else {
      assert (ws + u)[0] == ws[0];
      assert (ws + u)[1..] == ws[1..] + u;
      SkipWs(ws[1..], u);
    }
  }

  /** Leading whitespace never changes the split. */
  lemma SplitSkipsWs(ws: string, u: string)
    requires AllWs(ws)
    ensures Split(ws + u) == Split(u)
  {
    SkipWs(ws, u);
  }

  lemma {:induction false} ReadWord(w: string, u: string, cur: string)
    requires forall i :: 0 <= i < |w| ==> !IsWs(w[i])
    ensures SplitAcc(w + u, cur) == SplitAcc(u, cur + w)
  {
    if w == [] {
      assert w + u == u && cur + w == cur;
    } else {
      assert (w + u)[0] == w[0];
      assert (w + u)[1..] == w[1..] + u;
      ReadWord(w[1..], u, cur + [w[0]]);
      assert cur + [w[0]] + w[1..] == cur + w;
    }
  }

  /** A token followed by whitespace (or nothing) is split off as one field. */
  lemma SplitToken(w: string, u: string)
    requires IsToken(w)
    requires u == [] || IsWs(u[0])
    ensures Split(w + u) == [w] + Split(u)
  {
    ReadWord(w, u, []);
    assert [] + w == w;
  }

  function Spaces(n: nat): (r: string)
    ensures |r| == n && AllWs(r)
  {
    seq(n, _ => ' ')
  }

  /** Python's `str.ljust(width)`. */
  function LJust(s: string, width: nat): (r: string)
    ensures |r| >= |s| && r[..|s|] == s && AllWs(r[|s|..])
  {
    if |s| >= width then s else s + Spaces(width - |s|)
  }

  /**
   * Fields joined by tabs, each left-justified to `width` (width 0 is a
   * plain `"\t".join`).
   */
  function JoinRow(fields: seq<string>, width: nat): string
  {
    if |fields| == 0 then ""
    else if |fields| == 1 then LJust(fields[0], width)
    else LJust(fields[0], width) + "\t" + JoinRow(fields[1..], width)
  }

  /** A token, then whitespace, then more text: the token is the first field. */
  lemma SplitTokenWs(f: string, ws: string, u: string)
    requires IsToken(f) && AllWs(ws)
    requires ws != [] || u == []
    ensures Split(f + ws + u) == [f] + Split(u)
  {
    assert f + ws + u == f + (ws + u);
    SplitToken(f, ws + u);
    SplitSkipsWs(ws, u);
  }

  /** A written row of several fields: the first field, a whitespace gap, the rest. */
  lemma JoinRowCons(fields: seq<string>, width: nat, tail: string) returns (gap: string)
    requires |fields| > 1
    ensures AllWs(gap) && gap != []
    ensures JoinRow(fields, width) + tail == fields[0] + gap + (JoinRow(fields[1..], width) + tail)
  {
    var f := fields[0];
    var p := LJust(f, width);
    gap := p[|f|..] + "\t";
    assert p == f + p[|f|..];
  }

  /** A written row of one field: the field and whitespace. */
  lemma JoinRowOne(fields: seq<string>, width: nat, tail: string) returns (gap: string)
    requires |fields| == 1
    requires AllWs(tail)
    ensures AllWs(gap)
    ensures JoinRow(fields, width) + tail == fields[0] + gap + ""
  {
    var f := fields[0];
    var p := LJust(f, width);
    gap := p[|f|..] + tail;
    assert p == f + p[|f|..];
  }

  lemma SplitAllWs(ws: string)
    requires AllWs(ws)
    ensures Split(ws) == []
  {
    assert ws == ws + "";
    SplitSkipsWs(ws, "");
  }

  lemma SplitOneField(fields: seq<string>, width: nat, tail: string)
    requires |fields| == 1 && IsToken(fields[0])
    requires AllWs(tail)
    ensures Split(JoinRow(fields, width) + tail) == fields
  {
    var gap := JoinRowOne(fields, width, tail);
    SplitTokenWs(fields[0], gap, "");
  }

  lemma SplitConsStep(fields: seq<string>, width: nat, tail: string)
    requires |fields| > 1 && IsToken(fields[0])
    requires Split(JoinRow(fields[1..], width) + tail) == fields[1..]
    ensures Split(JoinRow(fields, width) + tail) == fields
  {
    var gap := JoinRowCons(fields, width, tail);
    SplitTokenWs(fields[0], gap, JoinRow(fields[1..], width) + tail);
    assert fields == [fields[0]] + fields[1..];
  }

  /** Splitting a written row, with any line terminator, gives back its fields. */
  lemma {:induction false} SplitJoinRow(fields: seq<string>, width: nat, tail: string)
    requires forall k :: 0 <= k < |fields| ==> IsToken(fields[k])
    requires AllWs(tail)
    ensures Split(JoinRow(fields, width) + tail) == fields
  {
    if |fields| == 0 {
      assert JoinRow(fields, width) + tail == tail;
      SplitAllWs(tail);
    } else if |fields| == 1 {
      SplitOneField(fields, width, tail);
    } else {
      SplitJoinRow(fields[1..], width, tail);
      SplitConsStep(fields, width, tail);
    }
  }

  predicate StartsWith(s: string, p: string) {
    |p| <= |s| && s[..|p|] == p
  }

  /** Python's `sub in s` on strings. */
  predicate Contains(s: string, sub: string)
    decreases |s|
  {
    StartsWith(s, sub) || (|s| > 0 && Contains(s[1..], sub))
  }

  predicate IsDigit(c: char) {
    '0' <= c <= '9'
  }

  predicate AllDigits(s: string) {
    forall i :: 0 <= i < |s| ==> IsDigit(s[i])
  }

  function DigitChar(d: nat): char
    requires d < 10
  {
    ('0' as int + d) as char
  }

  /** The `{:d}` rendering of a natural number. */
  function NatToString(n: nat): (s: string)
    ensures IsToken(s) && AllDigits(s)
    decreases n
  {
    if n < 10 then [DigitChar(n)] else NatToString(n / 10) + [DigitChar(n % 10)]
  }

  /** The `{:d}` rendering of an integer. */
  function IntToString(i: int): (s: string)
    ensures IsToken(s)
  {
    if i < 0 then "-" + NatToString(-i) else NatToString(i)
  }

  function DigitsValue(s: string): nat
    requires AllDigits(s)
  {
    if s == [] then 0 else DigitsValue(s[..|s| - 1]) * 10 + (s[|s| - 1] as int - '0' as int)
  }

  /** The digits of `s` from `i` on appended to `acc`; None at the first non-digit. */
  function Digits(s: string, i: nat, acc: nat): Option<nat>
    requires i <= |s|
    decreases |s| - i
  {
    if i == |s| then Some(acc)
    else if IsDigit(s[i]) then Digits(s, i + 1, acc * 10 + (s[i] as int - '0' as int))
    else None
  }

  /**
   * Python's `int()` on a field of a split line: an optional sign and at
   * least one decimal digit; anything else raises ValueError (None).
   */
  function ParseInt(s: string): Option<int>
  {
    if |s| > 0 && (s[0] == '-' || s[0] == '+') then
      if |s| == 1 then None
      else match Digits(s[1..], 0, 0)
        case None => None
        case Some(v) => var n: int := v; Some(if s[0] == '-' then -n else n)
    else if |s| == 0 then None
    else match Digits(s, 0, 0)
      case None => None
      case Some(v) => Some(v)
  }

  lemma {:induction false} DigitsRun(s: string, i: nat)
    requires i <= |s| && AllDigits(s)
    ensures Digits(s, i, DigitsValue(s[..i])) == Some(DigitsValue(s))
    decreases |s| - i
  {
    if i == |s| {
      assert s[..i] == s;
    } else {
      assert s[..i + 1][..i] == s[..i];
      DigitsRun(s, i + 1);
    }
  }

  /** The digits of a whole digit string are its value. */
  lemma DigitsOfDigitString(s: string)
    requires AllDigits(s)
    ensures Digits(s, 0, 0) == Some(DigitsValue(s))
  {
    assert s[..0] == [];
    DigitsRun(s, 0);
  }

  lemma {:induction false} DigitsOfNat(n: nat)
    ensures DigitsValue(NatToString(n)) == n
  {
    if n >= 10 {
      var s := NatToString(n);
      assert s[..|s| - 1] == NatToString(n / 10);
      DigitsOfNat(n / 10);
    }
  }

  /** `int()` inverts the `{:d}` rendering. */
  lemma ParseIntRoundTrip(i: int)
    ensures ParseInt(IntToString(i)) == Some(i)
  {
    if i < 0 {
      var t := NatToString(-i);
      var s := IntToString(i);
      assert s == "-" + t && s[0] == '-' && s[1..] == t;
      DigitsOfNat(-i);
      DigitsOfDigitString(t);
    } else {
      var s := NatToString(i);
      assert IsDigit(s[0]);
      DigitsOfNat(i);
      DigitsOfDigitString(s);
    }
  }

  /** `m * 10 ** x`, one power of ten at a time. */
  function Scale(m: real, x: int): real
    decreases if x < 0 then -x else x
  {
    if x == 0 then m
    else if x > 0 then Scale(m * 10.0, x - 1)
    else Scale(m / 10.0, x + 1)
  }

  /**
   * The mantissa of a decimal from position `i` on, one character at a
   * time: `acc` holds the digits read so far as one integer, `nDigits`
   * counts them, `frac` counts those after the point. An `e` or `E` after
   * at least one digit starts the exponent, an integer.
   */
  function Mantissa(s: string, i: nat, acc: nat, nDigits: nat, dot: bool, frac: nat): Option<real>
    requires i <= |s|
    decreases |s| - i
  {
    if i == |s| then
      if nDigits == 0 then None else Some(Scale(acc as real, -(frac as int)))
    else if IsDigit(s[i]) then
      Mantissa(s, i + 1, acc * 10 + (s[i] as int - '0' as int), nDigits + 1, dot, if dot then frac + 1 else frac)
    else if s[i] == '.' && !dot then
      Mantissa(s, i + 1, acc, nDigits, true, frac)
    else if (s[i] == 'e' || s[i] == 'E') && nDigits > 0 then
      match ParseInt(s[i + 1..])
      case None => None
      case Some(x) => Some(Scale(acc as real, x - frac))
    else None
  }

  /**
   * Python's `float()` on a field of a split line, restricted to decimal
   * notation: an optional sign, digits with at most one decimal point (at
   * least one digit), and an optional exponent.
   */
  function ParseReal(s: string): Option<real>
  {
    if |s| > 0 && (s[0] == '-' || s[0] == '+') then
      match Mantissa(s, 1, 0, 0, false, 0)
      case None => None
      case Some(v) => Some(if s[0] == '-' then -v else v)
    else Mantissa(s, 0, 0, 0, false, 0)
  }

  /** Python's `seq[k]`: negative indices count from the end; out of range raises IndexError (None). */
  function PyIndex<T>(s: seq<T>, k: int): Option<T>
  {
    if 0 <= k < |s| then Some(s[k])
    else if -|s| <= k < 0 then Some(s[|s| + k])
    else None
  }

  function SliceBound(k: int, n: nat): (b: nat)
    ensures b <= n
  {
    if k < 0 then (if k + n < 0 then 0 else k + n)
    else if k > n then n
    else k
  }

  /** Python's `seq[lo:hi]`: bounds are normalised and clamped, never raising. */
  function PySlice<T>(s: seq<T>, lo: int, hi: int): seq<T>
  {
    var a := SliceBound(lo, |s|);
    var b := SliceBound(hi, |s|);
    if a < b then s[a..b] else []
  }

  /**
   * With non-negative, ordered bounds a slice is the stretch of `s` the
   * bounds name, cut short at the end of `s`.
   */
  lemma SliceWithin<T>(s: seq<T>, lo: int, hi: int)
    requires 0 <= lo <= hi
    ensures lo <= |s| ==> PySlice(s, lo, hi) == s[lo..if hi <= |s| then hi else |s|]
    ensures lo > |s| ==> PySlice(s, lo, hi) == []
    ensures |PySlice(s, lo, hi)| <= hi - lo
  {
  }
}
