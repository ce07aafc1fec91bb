/** The CSV files the capture scripts write, as data: a file system maps a
    path to the lines of its file, one CSV row per line. Coordinates and clock
    readings are kept as values with the format they are written in; their
    decimal text is left to the formatter. */
module Ledger {
  import opened Text

  // ---------------------------------------------------------------------------
  // Cells, rows, files
  // ---------------------------------------------------------------------------

  /** How a float reaches the file: `str()` (what `csv.writer` does with a
      float) or an f-string with a fixed number of decimals (`f"{v:.9f}"`). */
  datatype Format = Repr | Fixed(decimals: nat)

  /** One CSV field. */
  datatype Cell = Text(s: string) | Int(n: int) | Num(v: real, format: Format)

  type Row = seq<Cell>
  type Path = string

  /** Each existing file with its lines, in order. */
  type FileSystem = map<Path, seq<Row>>

  /** The lines of `path`, none when the file is missing. */
  function Lines(fs: FileSystem, path: Path): seq<Row> {
    if path in fs then fs[path] else []
  }

  /** Opening `path` with mode "a" and writing `rows`: a missing file is created,
      an existing one keeps its lines and gets `rows` after them. */
  function Appended(fs: FileSystem, path: Path, rows: seq<Row>): (r: FileSystem)
    ensures r.Keys == fs.Keys + {path}
    ensures Lines(fs, path) <= r[path] && r[path][|Lines(fs, path)|..] == rows
    ensures forall p :: p in fs && p != path ==> r[p] == fs[p]
  {
    var old_ := Lines(fs, path);
    assert (old_ + rows)[|old_|..] == rows;
    fs[path := old_ + rows]
  }

  /** Opening `path` with mode "w" and writing `rows`: whatever it held is gone. */
  function Written(fs: FileSystem, path: Path, rows: seq<Row>): (r: FileSystem)
    ensures r.Keys == fs.Keys + {path}
    ensures r[path] == rows
    ensures forall p :: p in fs && p != path ==> r[p] == fs[p]
  {
    fs[path := rows]
  }

  /** One `open(path, "a")` per row: with no rows nothing is opened, so a
      missing file stays missing. */
  function AppendedEach(fs: FileSystem, path: Path, rows: seq<Row>): (r: FileSystem)
    ensures rows == [] ==> r == fs
    ensures rows != [] ==> r.Keys == fs.Keys + {path} && r[path] == Lines(fs, path) + rows
    ensures forall p :: p in fs && p != path ==> r[p] == fs[p]
  {
    if rows == [] then fs else Appended(fs, path, rows)
  }

  /** Appending two batches one row at a time is appending their concatenation. */
  lemma AppendedEachConcat(fs: FileSystem, path: Path, a: seq<Row>, b: seq<Row>)
    ensures AppendedEach(AppendedEach(fs, path, a), path, b) == AppendedEach(fs, path, a + b)
  {
    if a == [] {
      assert a + b == b;
    } else if b == [] {
      assert a + b == a;
    } else {
      assert (Lines(fs, path) + a) + b == Lines(fs, path) + (a + b);
    }
  }

  /** `if not os.path.exists(path): write the header`: a missing file is created
      holding only `header`; an existing file, even an empty one, is untouched. */
  function HeaderIfAbsent(fs: FileSystem, path: Path, header: Row): (r: FileSystem)
    ensures r.Keys == fs.Keys + {path}
    ensures forall p :: p in fs ==> r[p] == fs[p]
    ensures path !in fs ==> r[path] == [header]
  {
    if path in fs then fs else fs[path := [header]]
  }

  /** The file at `path` starts with `header`. */
  predicate HasHeader(fs: FileSystem, path: Path, header: Row) {
    path in fs && |fs[path]| >= 1 && fs[path][0] == header
  }

  /** The data rows of a ledger: every line after the first. */
  function DataRows(fs: FileSystem, path: Path): seq<Row> {
    if path in fs && |fs[path]| >= 1 then fs[path][1..] else []
  }

  /** Appending to a ledger keeps its header and its earlier data rows, and its
      data rows grow by exactly the appended rows. */
  lemma AppendKeepsLedger(fs: FileSystem, path: Path, header: Row, rows: seq<Row>)
    requires HasHeader(fs, path, header)
    ensures HasHeader(Appended(fs, path, rows), path, header)
    ensures DataRows(Appended(fs, path, rows), path) == DataRows(fs, path) + rows
  {
    var after := Appended(fs, path, rows);
    assert after[path] == fs[path] + rows;
    assert (fs[path] + rows)[1..] == fs[path][1..] + rows;
  }

  /** Creating the header on a missing file and then appending leaves a ledger
      whose data rows are exactly the appended rows. */
  lemma FreshLedger(fs: FileSystem, path: Path, header: Row, rows: seq<Row>)
    requires path !in fs
    ensures HasHeader(Appended(HeaderIfAbsent(fs, path, header), path, rows), path, header)
    ensures DataRows(Appended(HeaderIfAbsent(fs, path, header), path, rows), path) == rows
  {
    var after := Appended(HeaderIfAbsent(fs, path, header), path, rows);
    assert after[path] == [header] + rows;
  }

  /** One `open(path, "w")` with the lines written to it. */
  datatype FileWrite = FileWrite(path: Path, lines: seq<Row>)

  /** The files after the writes, one after the other. */
  function WrittenAll(fs: FileSystem, ws: seq<FileWrite>): FileSystem
    decreases |ws|
  {
    if ws == [] then fs
    else Written(WrittenAll(fs, ws[..|ws| - 1]), ws[|ws| - 1].path, ws[|ws| - 1].lines)
  }

  lemma WrittenAllNext(fs: FileSystem, ws: seq<FileWrite>, j: nat)
    requires j < |ws|
    ensures WrittenAll(fs, ws[..j + 1]) == Written(WrittenAll(fs, ws[..j]), ws[j].path, ws[j].lines)
  {
    assert ws[..j + 1][..j] == ws[..j];
  }

  /** Every write leaves a file at its path. */
  lemma {:induction false} WrittenAllCreates(fs: FileSystem, ws: seq<FileWrite>)
    ensures forall k :: 0 <= k < |ws| ==> ws[k].path in WrittenAll(fs, ws)
    decreases |ws|
  {
    if ws != [] {
      var n := |ws| - 1;
      WrittenAllCreates(fs, ws[..n]);
      assert forall k :: 0 <= k < n ==> ws[..n][k] == ws[k];
    }
  }

  /** A write whose path no later write opens again decides that file. */
  lemma {:induction false} WrittenAllLastWins(fs: FileSystem, ws: seq<FileWrite>, k: nat)
    requires k < |ws|
    requires forall j :: k < j < |ws| ==> ws[j].path != ws[k].path
    ensures ws[k].path in WrittenAll(fs, ws) && WrittenAll(fs, ws)[ws[k].path] == ws[k].lines
    decreases |ws|
  {
    var n := |ws| - 1;
    if k < n {
      var init := ws[..n];
      assert init[k] == ws[k];
      assert forall j :: k < j < |init| ==> init[j] == ws[j];
      WrittenAllLastWins(fs, init, k);
    }
  }

  /** A file no write opens is left as it was. */
  lemma {:induction false} WrittenAllKeepsOthers(fs: FileSystem, ws: seq<FileWrite>, p: Path)
    requires p in fs
    requires forall k :: 0 <= k < |ws| ==> p != ws[k].path
    ensures p in WrittenAll(fs, ws) && WrittenAll(fs, ws)[p] == fs[p]
    decreases |ws|
  {
    if ws != [] {
      var n := |ws| - 1;
      assert forall k :: 0 <= k < n ==> ws[..n][k] == ws[k];
      WrittenAllKeepsOthers(fs, ws[..n], p);
    }
  }

  // ---------------------------------------------------------------------------
  // Hands
  // ---------------------------------------------------------------------------

  /** One normalised landmark as the hand-pose estimator reports it. */
  datatype Point = Point(x: real, y: real, z: real)

  /** The estimator's 21 landmarks of one detected hand, in its order. */
  const LandmarkCount: nat := 21

  type Hand = ps: seq<Point> | |ps| == LandmarkCount
    witness seq(LandmarkCount, _ => Point(0.0, 0.0, 0.0))

  /** Coordinate `a` (0 = x, 1 = y, 2 = z) of a point. */
  function Axis(p: Point, a: nat): real
    requires a < 3
  {
    if a == 0 then p.x else if a == 1 then p.y else p.z
  }

  /** `for lm in landmarks: row += [lm.x, lm.y, lm.z]`: the coordinates
      flattened point by point, x before y before z. */
  function Coords(ps: seq<Point>): (r: seq<real>)
    ensures |r| == 3 * |ps|
  {
    if ps == [] then []
    else
      var p := ps[|ps| - 1];
      Coords(ps[..|ps| - 1]) + [p.x, p.y, p.z]
  }

  /** Field `3 * i + a` of the flattened coordinates is coordinate `a` of point `i`. */
  lemma {:induction false} CoordsAt(ps: seq<Point>, i: nat, a: nat)
    requires i < |ps| && a < 3
    ensures Coords(ps)[3 * i + a] == Axis(ps[i], a)
  {
    var init := ps[..|ps| - 1];
    if i < |ps| - 1 {
      CoordsAt(init, i, a);
      assert ps[i] == init[i];
    }
  }

  /** Each value written as one CSV field in the given format. */
  function NumCells(vs: seq<real>, f: Format): (r: Row)
    ensures |r| == |vs|
    ensures forall i :: 0 <= i < |vs| ==> r[i] == Num(vs[i], f)
  {
    seq(|vs|, i requires 0 <= i < |vs| => Num(vs[i], f))
  }

  /** Builds a row the way the scripts do, one landmark per iteration:
      `for lm in hand.landmark: row += [lm.x, lm.y, lm.z]`. */
  method AppendCoords(prefix: Row, ps: seq<Point>, f: Format) returns (row: Row)
    ensures row == prefix + NumCells(Coords(ps), f)
    ensures |row| == |prefix| + 3 * |ps|
    ensures row[..|prefix|] == prefix
    ensures forall i, a :: 0 <= i < |ps| && 0 <= a < 3 ==> row[|prefix| + 3 * i + a] == Num(Axis(ps[i], a), f)
  {
    row := prefix;
    var k := 0;
    while k < |ps|
      invariant 0 <= k <= |ps|
      invariant row == prefix + NumCells(Coords(ps[..k]), f)
    {
      var p := ps[k];
      assert ps[..k + 1][..k] == ps[..k];
      row := row + [Num(p.x, f), Num(p.y, f), Num(p.z, f)];
      k := k + 1;
    }
    assert ps[..k] == ps;
    forall i, a | 0 <= i < |ps| && 0 <= a < 3
      ensures row[|prefix| + 3 * i + a] == Num(Axis(ps[i], a), f)
    {
      CoordsAt(ps, i, a);
    }
  }

  // ---------------------------------------------------------------------------
  // Headers
  // ---------------------------------------------------------------------------

  /** The two column-naming schemes: `x0` and `landmark_0_x`. */
  datatype Naming = Short | Long

  function AxisLetter(a: nat): char
    requires a < 3
  {
    "xyz"[a]
  }

  function ColumnName(n: Naming, i: nat, a: nat): string
    requires a < 3
  {
    match n
    case Short => [AxisLetter(a)] + NatToString(i)
    case Long => "landmark_" + NatToString(i) + "_" + [AxisLetter(a)]
  }

  /** The coordinate columns of `count` landmarks, landmark by landmark,
      the axis letter varying fastest: column `k` names axis `k % 3` of
      landmark `k / 3`. */
  function CoordColumns(n: Naming, count: nat): (r: seq<string>)
    ensures |r| == 3 * count
  {
    seq(3 * count, k requires 0 <= k < 3 * count => ColumnName(n, k / 3, k % 3))
  }

  lemma CoordColumnsAt(n: Naming, count: nat, i: nat, a: nat)
    requires i < count && a < 3
    ensures CoordColumns(n, count)[3 * i + a] == ColumnName(n, i, a)
  {
    var k := 3 * i + a;
    assert k / 3 == i && k % 3 == a;
  }

  /** One more landmark adds its three columns at the end. */
  lemma CoordColumnsNext(n: Naming, count: nat)
    ensures CoordColumns(n, count + 1)
         == CoordColumns(n, count) + [ColumnName(n, count, 0), ColumnName(n, count, 1), ColumnName(n, count, 2)]
  {
    var longer := CoordColumns(n, count + 1);
    var shorter := CoordColumns(n, count);
    var names := [ColumnName(n, count, 0), ColumnName(n, count, 1), ColumnName(n, count, 2)];
    assert longer[..3 * count] == shorter by {
      CoordColumnsPrefix(n, count);
    }
    assert longer[3 * count..] == names by {
      CoordColumnsLast(n, count);
    }
    assert longer == longer[..3 * count] + longer[3 * count..];
  }

  lemma CoordColumnsPrefix(n: Naming, count: nat)
    ensures CoordColumns(n, count + 1)[..3 * count] == CoordColumns(n, count)
  {
    var longer := CoordColumns(n, count + 1);
    var shorter := CoordColumns(n, count);
    forall k | 0 <= k < 3 * count
      ensures longer[k] == shorter[k]
    {
    }
  }

  lemma CoordColumnsLast(n: Naming, count: nat)
    ensures CoordColumns(n, count + 1)[3 * count..] == [ColumnName(n, count, 0), ColumnName(n, count, 1), ColumnName(n, count, 2)]
  {
    var longer := CoordColumns(n, count + 1);
    var tail := longer[3 * count..];
    var k := 3 * count;
    assert tail[0] == ColumnName(n, count, 0) by {
      assert k / 3 == count && k % 3 == 0;
      assert tail[0] == longer[k];
    }
    assert tail[1] == ColumnName(n, count, 1) by {
      assert (k + 1) / 3 == count && (k + 1) % 3 == 1;
      assert tail[1] == longer[k + 1];
    }
    assert tail[2] == ColumnName(n, count, 2) by {
      assert (k + 2) / 3 == count && (k + 2) % 3 == 2;
      assert tail[2] == longer[k + 2];
    }
  }

  /** The 65-column ledger header: `time, capture_type, x0, y0, z0, ..., x20, y20, z20`. */
  function LmHeader(): seq<string> {
    ["time", "capture_type"] + CoordColumns(Short, LandmarkCount)
  }

  /** The header's layout: 65 names, the two metadata columns first, then
      `x<i>, y<i>, z<i>` for each landmark `i` in order. */
  lemma LmHeaderLayout()
    ensures |LmHeader()| == 65
    ensures LmHeader()[0] == "time" && LmHeader()[1] == "capture_type"
    ensures forall i, a :: 0 <= i < 21 && 0 <= a < 3 ==> LmHeader()[2 + 3 * i + a] == [AxisLetter(a)] + NatToString(i)
  {
    var cols := CoordColumns(Short, LandmarkCount);
    var names := LmHeader();
    assert names == ["time", "capture_type"] + cols;
    forall i, a | 0 <= i < 21 && 0 <= a < 3
      ensures names[2 + 3 * i + a] == [AxisLetter(a)] + NatToString(i)
    {
      assert names[2 + 3 * i + a] == cols[3 * i + a];
      CoordColumnsAt(Short, LandmarkCount, i, a);
    }
  }

  /** The ledger header as a CSV row. */
  function LmHeaderRow(): (r: Row)
    ensures |r| == 65 && r[0] == Text("time") && r[1] == Text("capture_type")
  {
    TextRow(LmHeader())
  }

  /** A header as a CSV row. */
  function TextRow(names: seq<string>): (r: Row)
    ensures |r| == |names| && forall i :: 0 <= i < |names| ==> r[i] == Text(names[i])
  {
    seq(|names|, i requires 0 <= i < |names| => Text(names[i]))
  }

  /** Builds a header the way the capture scripts do:
      `for i in range(21): header += [f"x{i}", f"y{i}", f"z{i}"]`. */
  method BuildHeader(prefix: seq<string>, n: Naming) returns (header: seq<string>)
    ensures header == prefix + CoordColumns(n, LandmarkCount)
  {
    header := prefix;
    var i := 0;
    while i < LandmarkCount
      invariant 0 <= i <= LandmarkCount
      invariant header == prefix + CoordColumns(n, i)
    {
      ghost var done := CoordColumns(n, i);
      var names := [ColumnName(n, i, 0), ColumnName(n, i, 1), ColumnName(n, i, 2)];
      CoordColumnsNext(n, i);
      assert (prefix + done) + names == prefix + (done + names);
      header := header + names;
      i := i + 1;
    }
  }

  // ---------------------------------------------------------------------------
  // The disk
  // ---------------------------------------------------------------------------

  /** The files the scripts read and write. */
  class Disk {
    var files: FileSystem

    constructor (initial: FileSystem)
      ensures files == initial
    {
      files := initial;
    }

    /** `os.path.exists(path)` */
    predicate Exists(path: Path)
      reads this
    {
      path in files
    }

    /** `open(path, "a")` and one `writerow` per row. */
    method Append(path: Path, rows: seq<Row>)
      modifies this
      ensures files == Appended(old(files), path, rows)
    {
      files := Appended(files, path, rows);
    }

    /** `open(path, "w")` and one `writerow` per row. */
    method Write(path: Path, rows: seq<Row>)
      modifies this
      ensures files == Written(old(files), path, rows)
    {
      files := Written(files, path, rows);
    }
  }
}
