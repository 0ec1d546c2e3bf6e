/**
 * How the LAMMPS reader finds a section (gmso/formats/lammpsdata.py): it
 * walks the lines once, remembering the count on the last "count line"
 * (e.g. "12 bonds") and stopping at the section's header line (e.g.
 * "Bonds"); the section's rows are the `count` lines that start two lines
 * below the header.
 */
module LammpsScan {
  import opened Wrappers
  import opened Text
  import opened LammpsConfig

  /** How a line is recognised: by a whole token, by a substring, or never. */
  datatype Test = Token(word: string) | Substring(text: string) | Never

  predicate Hits(t: Test, line: string)
  {
    match t
    case Token(w) => w in Split(line)
    case Substring(x) => Contains(line, x)
    case Never => false
  }

  /**
   * A scan: the test for count lines, the test for the line that ends the
   * scan, and whether the stop test is an `elif` of the count test (then a
   * count line never stops the scan).
   */
  datatype Scan = Scan(count: Test, stop: Test, exclusive: bool)

  /** Where the scan stopped (Python's loop variable `i`) and the last count read. */
  datatype Found = Found(cursor: int, count: Option<int>)

  predicate StopsAt(sc: Scan, line: string)
  {
    Hits(sc.stop, line) && !(sc.exclusive && Hits(sc.count, line))
  }

  /** `int(line.split()[0])` on a count line. */
  function CountOf(line: string): Result<int, LammpsError>
  {
    var toks := Split(line);
    if toks == [] then Err(IndexError)
    else match ParseInt(toks[0])
      case None => Err(ValueError("count is not an integer"))
      case Some(v) => Ok(v)
  }

  /** What the scan needs to know about one line. */
  datatype Mark = Mark(count: bool, stop: bool, value: Result<int, LammpsError>)

  function MarkOf(sc: Scan, line: string): Mark
  {
    Mark(Hits(sc.count, line), StopsAt(sc, line), CountOf(line))
  }

  /** The marks of every line, in order. */
  function Marks(lines: seq<string>, sc: Scan): (r: seq<Mark>)
    ensures |r| == |lines|
  {
    if lines == [] then [] else [MarkOf(sc, lines[0])] + Marks(lines[1..], sc)
  }

  lemma {:induction false} MarksAt(lines: seq<string>, sc: Scan, i: nat)
    requires i < |lines|
    ensures Marks(lines, sc)[i] == MarkOf(sc, lines[i])
  {
    if i > 0 {
      MarksAt(lines[1..], sc, i - 1);
    }
  }

  /**
   * The scan from line `k` on, with `n` the count read so far: a count
   * line that does not parse raises; the first stop line ends the scan;
   * without one the loop variable is left at the last line.
   */
  function ScanMarks(ms: seq<Mark>, k: nat, n: Option<int>): Result<Found, LammpsError>
    requires k <= |ms|
    decreases |ms| - k
  {
    if k == |ms| then Ok(Found(|ms| - 1, n))
    else if ms[k].count then
      match ms[k].value
      case Err(e) => Err(e)
      case Ok(v) =>
        if ms[k].stop then Ok(Found(k, Some(v)))
        else ScanMarks(ms, k + 1, Some(v))
    else if ms[k].stop then Ok(Found(k, n))
    else ScanMarks(ms, k + 1, n)
  }

  function ScanFrom(lines: seq<string>, sc: Scan): Result<Found, LammpsError>
  {
    ScanMarks(Marks(lines, sc), 0, None)
  }

  /** The `for i, line in enumerate(lammps_file)` loop with its `break`. */
  method ScanSection(lines: seq<string>, sc: Scan) returns (r: Result<Found, LammpsError>)
    ensures r == ScanFrom(lines, sc)
  {
    ghost var ms := Marks(lines, sc);
    forall i | 0 <= i < |lines|
      ensures ms[i] == MarkOf(sc, lines[i])
    {
      MarksAt(lines, sc, i);
    }
    r := ScanLoop(lines, ms, sc);
  }

  method ScanLoop(lines: seq<string>, ghost ms: seq<Mark>, sc: Scan) returns (r: Result<Found, LammpsError>)
    requires |ms| == |lines| && forall i :: 0 <= i < |lines| ==> ms[i] == MarkOf(sc, lines[i])
    ensures r == ScanMarks(ms, 0, None)
  {
    var n: Option<int> := None;
    var i := 0;
    while i < |lines|
      invariant 0 <= i <= |lines|
      invariant ScanMarks(ms, 0, None) == ScanMarks(ms, i, n)
    {
      var m := MarkOf(sc, lines[i]);
      assert ms[i] == m;
      if m.count {
        if m.value.Err? {
          return Err(m.value.error);
        }
        n := Some(m.value.value);
      }
      if m.stop {
        return Ok(Found(i, n));
      }
      i := i + 1;
    }
    return Ok(Found(|lines| - 1, n));
  }

  /** `ms[j]` is the last count line in `ms[k..e]`. */
  predicate LastCountLine(ms: seq<Mark>, k: int, e: int, j: int)
    requires 0 <= k && e <= |ms|
  {
    k <= j < e && ms[j].count && forall m :: j < m < e ==> !ms[m].count
  }

  /**
   * Where a successful scan stops: at the first stop line, or at the last
   * line when there is none.
   */
  lemma {:induction false} ScanStops(ms: seq<Mark>, k: nat, n: Option<int>)
    requires k <= |ms|
    requires ScanMarks(ms, k, n).Ok?
    ensures var c := ScanMarks(ms, k, n).value.cursor;
      c == |ms| - 1 || (k <= c < |ms| && ms[c].stop)
    ensures forall j :: k <= j < ScanMarks(ms, k, n).value.cursor ==> !ms[j].stop
    decreases |ms| - k
  {
    if k < |ms| && !ms[k].stop {
      if ms[k].count {
        ScanStops(ms, k + 1, Some(ms[k].value.value));
      } else {
        ScanStops(ms, k + 1, n);
      }
    }
  }

  /**
   * The count a successful scan returns: the one on the last count line up
   * to and including where it stopped, or the count it started with when
   * there is no count line there.
   */
  lemma {:induction false} ScanCount(ms: seq<Mark>, k: nat, n: Option<int>)
    requires k <= |ms|
    requires ScanMarks(ms, k, n).Ok?
    ensures var f := ScanMarks(ms, k, n).value;
      (forall m :: k <= m <= f.cursor && m < |ms| ==> !ms[m].count) ==> f.count == n
    ensures var f := ScanMarks(ms, k, n).value;
      forall j :: 0 <= j < |ms| && f.cursor < |ms| && LastCountLine(ms, k, f.cursor + 1, j) ==>
        ms[j].value.Ok? && f.count == Some(ms[j].value.value)
    decreases |ms| - k
  {
    if k < |ms| {
      var f := ScanMarks(ms, k, n).value;
      ScanStops(ms, k, n);
      if ms[k].count {
        var v := ms[k].value.value;
        if !ms[k].stop {
          ScanCount(ms, k + 1, Some(v));
          assert f == ScanMarks(ms, k + 1, Some(v)).value;
          forall j | 0 <= j < |ms| && f.cursor < |ms| && LastCountLine(ms, k, f.cursor + 1, j)
            ensures ms[j].value.Ok? && f.count == Some(ms[j].value.value)
          {
            if j > k {
              assert LastCountLine(ms, k + 1, f.cursor + 1, j);
            }
          }
        }
      } else if !ms[k].stop {
        ScanCount(ms, k + 1, n);
        assert f == ScanMarks(ms, k + 1, n).value;
        forall j | 0 <= j < |ms| && f.cursor < |ms| && LastCountLine(ms, k, f.cursor + 1, j)
          ensures ms[j].value.Ok? && f.count == Some(ms[j].value.value)
        {
          assert LastCountLine(ms, k + 1, f.cursor + 1, j);
        }
      }
    }
  }

  /** Every count line before `h` parses and nothing stops before `h`: the scan gets to `h`. */
  lemma {:induction false} ScanReaches(ms: seq<Mark>, k: nat, n: Option<int>, h: nat)
    requires k <= h < |ms|
    requires forall j :: k <= j < h ==> !ms[j].stop && (ms[j].count ==> ms[j].value.Ok?)
    requires ms[h].stop && !ms[h].count
    ensures ScanMarks(ms, k, n).Ok? && ScanMarks(ms, k, n).value.cursor == h
    decreases h - k
  {
    if k < h {
      if ms[k].count {
        ScanReaches(ms, k + 1, Some(ms[k].value.value), h);
      } else {
        ScanReaches(ms, k + 1, n, h);
      }
    }
  }

  /**
   * `readlines()[i + 2 : i + n + 2]`: the section's rows, two lines below
   * where the scan stopped.
   */
  function SectionRows(lines: seq<string>, f: Found, n: int): seq<string>
  {
    PySlice(lines, f.cursor + 2, f.cursor + n + 2)
  }

  /**
   * Finding a section: when line `h` is the first line that stops the scan
   * and carries no count, every count line before it parses, and the last
   * of them (line `c`) says `n`, the scan stops at `h` with count `n`; the
   * rows are then `lines[h + 2..h + 2 + n]` when the file is long enough
   * (`SliceWithin`).
   */
  lemma ScanFindsHeader(ms: seq<Mark>, h: nat, c: nat, n: int)
    requires h < |ms| && ms[h].stop && !ms[h].count
    requires forall j :: 0 <= j < h ==> !ms[j].stop && (ms[j].count ==> ms[j].value.Ok?)
    requires c < h && ms[c].count && ms[c].value == Ok(n)
    requires forall j :: c < j < h ==> !ms[j].count
    ensures ScanMarks(ms, 0, None) == Ok(Found(h, Some(n)))
  {
    ScanReaches(ms, 0, None, h);
    assert LastCountLine(ms, 0, h + 1, c);
    ScanCount(ms, 0, None);
  }

  /** Without any count line before the stop line, the scan finds no count. */
  lemma ScanFindsNoCount(ms: seq<Mark>, h: nat)
    requires h < |ms| && ms[h].stop && !ms[h].count
    requires forall j :: 0 <= j < h ==> !ms[j].stop && !ms[j].count
    ensures ScanMarks(ms, 0, None) == Ok(Found(h, None))
  {
    ScanReaches(ms, 0, None, h);
    ScanCount(ms, 0, None);
  }
}
