/** The CSV form of a city layout: one header line, then one line per grid
    cell, `x,z,tile_type,prefab_name,height,size_x,size_z`, row by row.
    Export writes every cell of the grid; import skips the header, fails
    on the first line with fewer than seven fields or a bad coordinate, and
    otherwise records the tile and, for buildings, streets and
    intersections, a spec rebuilt from the prefab name and sizes. The text
    is handled as its sequence of lines; the printing and parsing of
    floats are parameters. */
module CityLayoutCsv {
  import opened Common
  import opened CityResources
  import opened CityLayouts

  // ---------------------------------------------------------------------
  // Fields

  /** `str::split(',')`: the pieces between separators, at least one. */
  function Split(s: string, sep: char): (parts: seq<string>)
    decreases |s|
    ensures |parts| >= 1
    ensures forall i :: 0 <= i < |parts| ==> sep !in parts[i]
  {
    if |s| == 0 then [""]
    else
      var rest := Split(s[1..], sep);
      if s[0] == sep then [""] + rest
      else [[s[0]] + rest[0]] + rest[1..]
  }

  /** The pieces joined with the separator, as `format!` writes a line. */
  function Join(parts: seq<string>, sep: char): string
    requires |parts| >= 1
    decreases |parts|
  {
    if |parts| == 1 then parts[0] else parts[0] + [sep] + Join(parts[1..], sep)
  }

  lemma {:induction false} SplitPlain(a: string, sep: char)
    requires sep !in a
    decreases |a|
    ensures Split(a, sep) == [a]
  {
    if |a| > 0 {
      SplitPlain(a[1..], sep);
      assert [a[0]] + a[1..] == a;
    }
  }

  lemma {:induction false} SplitFirst(a: string, sep: char, b: string)
    requires sep !in a
    decreases |a|
    ensures Split(a + [sep] + b, sep) == [a] + Split(b, sep)
  {
    if |a| == 0 {
      assert a + [sep] + b == [sep] + b;
      assert ([sep] + b)[1..] == b;
    } else {
      assert (a + [sep] + b)[1..] == a[1..] + [sep] + b;
      SplitFirst(a[1..], sep, b);
      assert [a[0]] + a[1..] == a;
    }
  }

  /** Splitting a line joined from separator-free fields gives back the
      fields. */
  lemma {:induction false} SplitJoin(parts: seq<string>, sep: char)
    requires |parts| >= 1 && forall i :: 0 <= i < |parts| ==> sep !in parts[i]
    decreases |parts|
    ensures Split(Join(parts, sep), sep) == parts
  {
    if |parts| == 1 {
      SplitPlain(parts[0], sep);
    } else {
      SplitJoin(parts[1..], sep);
      SplitFirst(parts[0], sep, Join(parts[1..], sep));
      assert [parts[0]] + parts[1..] == parts;
    }
  }

  /** Joining the pieces of a split gives back the text. */
  lemma {:induction false} JoinSplit(s: string, sep: char)
    decreases |s|
    ensures Join(Split(s, sep), sep) == s
  {
    if |s| > 0 {
      var rest := Split(s[1..], sep);
      JoinSplit(s[1..], sep);
      if s[0] == sep {
        assert ([""] + rest)[1..] == rest;
        assert [s[0]] + s[1..] == s;
      } else if |rest| == 1 {
        assert [s[0]] + s[1..] == s;
      } else {
        var parts := [[s[0]] + rest[0]] + rest[1..];
        assert parts[1..] == rest[1..];
        assert Join(rest, sep) == rest[0] + [sep] + Join(rest[1..], sep);
        assert [s[0]] + s[1..] == s;
      }
    }
  }

  // ---------------------------------------------------------------------
  // Integers

  predicate IsDigit(ch: char)
  {
    '0' <= ch <= '9'
  }

  predicate AllDigits(s: string)
  {
    forall i :: 0 <= i < |s| ==> IsDigit(s[i])
  }

  /** The value of a string of decimal digits. */
  function DigitsValue(s: string): nat
    requires AllDigits(s)
    decreases |s|
  {
    if |s| == 0 then 0
    else DigitsValue(s[..|s| - 1]) * 10 + (s[|s| - 1] as int - '0' as int)
  }

  /** `i32::from_str`: an optional `+` or `-`, then one or more decimal
      digits, with a value inside the `i32` range. */
  function ParseI32(s: string): (r: Option<int>)
    ensures r.Some? ==> I32Min <= r.value <= I32Max
  {
    if |s| == 0 then None
    else
      var digits := if s[0] == '-' || s[0] == '+' then s[1..] else s;
      if |digits| == 0 || !AllDigits(digits) then None
      else
        var v: int := if s[0] == '-' then -(DigitsValue(digits) as int) else DigitsValue(digits);
        if I32Min <= v <= I32Max then Some(v) else None
  }

  /** The decimal digits of a natural number, without leading zeros. */
  function NatToString(n: nat): (s: string)
    decreases n
  {
    if n < 10 then [('0' as int + n) as char]
    else NatToString(n / 10) + [('0' as int + n % 10) as char]
  }

  /** `Display` of an integer: a minus sign for negatives, then the
      digits. */
  function IntToString(n: int): string
  {
    if n < 0 then "-" + NatToString(-n) else NatToString(n)
  }

  lemma {:induction false} NatToStringValue(n: nat)
    decreases n
    ensures var s := NatToString(n);
      |s| >= 1 && AllDigits(s) && s[0] != '-' && s[0] != '+' && ',' !in s && DigitsValue(s) == n
  {
    if n >= 10 {
      NatToStringValue(n / 10);
      var s := NatToString(n);
      assert s[..|s| - 1] == NatToString(n / 10);
    }
  }

  /** Printing an `i32` and parsing it back gives the same number; the
      printed form holds no comma. */
  lemma IntRoundTrip(n: int)
    requires I32Min <= n <= I32Max
    ensures ParseI32(IntToString(n)) == Some(n)
    ensures ',' !in IntToString(n)
  {
    var s := IntToString(n);
    if n < 0 {
      var t := NatToString(-n);
      NatToStringValue(-n);
      assert s == "-" + t && s[0] == '-' && s[1..] == t;
    } else {
      NatToStringValue(n);
      assert IsDigit(s[0]);
    }
  }

  /** What `parse::<i32>` accepts and refuses. */
  lemma ParseExamples()
    ensures ParseI32("42") == Some(42) && ParseI32("-7") == Some(-7) && ParseI32("+5") == Some(5)
    ensures ParseI32("") == None && ParseI32("-") == None && ParseI32("1a") == None
  {
    assert "42"[..1] == "4";
    assert DigitsValue("42") == 42;
    assert "-7"[1..] == "7";
    assert "+5"[1..] == "5";
    assert !IsDigit("1a"[1]);
  }

  // ---------------------------------------------------------------------
  // Tiles

  /** `{:?}` of a tile type. */
  function TileName(t: TileType): string
  {
    match t
    case Empty => "Empty"
    case Building => "Building"
    case Street => "Street"
    case Intersection => "Intersection"
    case Park => "Park"
    case Water => "Water"
  }

  /** The tile-type field: a known name, anything else empty. */
  function ParseTile(s: string): TileType
  {
    if s == "Building" then Building
    else if s == "Street" then Street
    else if s == "Intersection" then Intersection
    else if s == "Park" then Park
    else if s == "Water" then Water
    else Empty
  }

  /** Every tile type reads back as itself, and its name has no comma. */
  lemma TileRoundTrip(t: TileType)
    ensures ParseTile(TileName(t)) == t && ',' !in TileName(t)
  {
  }

  // ---------------------------------------------------------------------
  // Export (`export_to_csv`)

  const Header: string := "x,z,tile_type,prefab_name,height,size_x,size_z"

  /** The tile exported for a cell: its grid entry, or empty. */
  function TileAt(l: CityLayout, p: IVec2): TileType
  {
    if p in l.grid then l.grid[p] else Empty
  }

  /** The prefab name, height and two sizes exported for a cell: from the
      building, street or intersection spec its tile calls for, or an empty
      name and zeros when there is none. */
  function CellFields(l: CityLayout, p: IVec2): (string, real, real, real)
  {
    match TileAt(l, p)
    case Building =>
      if p in l.buildings then
        var b := l.buildings[p]; (b.prefabName, b.height, b.size.x, b.size.y)
      else ("", 0.0, 0.0, 0.0)
    case Street =>
      if p in l.streets then
        var s := l.streets[p]; (s.prefabName, 0.0, s.width, s.width)
      else ("", 0.0, 0.0, 0.0)
    case Intersection =>
      if p in l.intersections then
        var i := l.intersections[p]; (i.prefabName, 0.0, i.size, i.size)
      else ("", 0.0, 0.0, 0.0)
    case _ => ("", 0.0, 0.0, 0.0)
  }

  /** The line of one cell; `showFloat` prints an `f32` with `{}`. */
  function ExportLine(l: CityLayout, p: IVec2, showFloat: real -> string): string
  {
    Join(ExportFields(l, p, showFloat), ',')
  }

  /** The seven fields of a cell's line, before joining. */
  function ExportFields(l: CityLayout, p: IVec2, showFloat: real -> string): (fields: seq<string>)
    ensures |fields| == 7
  {
    var (prefab, height, sizeX, sizeZ) := CellFields(l, p);
    [IntToString(p.x), IntToString(p.y), TileName(TileAt(l, p)), prefab,
     showFloat(height), showFloat(sizeX), showFloat(sizeZ)]
  }

  /** The inner loop: cells (x, z) onwards of row z. */
  function ExportRow(l: CityLayout, gridSize: IVec2, showFloat: real -> string, z: int, x: int): (lines: seq<string>)
    decreases gridSize.x - x
    ensures |lines| == if x < gridSize.x then gridSize.x - x else 0
    ensures forall k :: 0 <= k < |lines| ==> lines[k] == ExportLine(l, IVec2(x + k, z), showFloat)
  {
    if x >= gridSize.x then []
    else [ExportLine(l, IVec2(x, z), showFloat)] + ExportRow(l, gridSize, showFloat, z, x + 1)
  }

  /** The outer loop: rows z onwards. */
  function ExportRows(l: CityLayout, gridSize: IVec2, showFloat: real -> string, z: int): seq<string>
    decreases gridSize.y - z
  {
    if z >= gridSize.y then []
    else ExportRow(l, gridSize, showFloat, z, 0) + ExportRows(l, gridSize, showFloat, z + 1)
  }

  /** `export_to_csv`, as its lines: the header, then every cell row by
      row (z outer, x inner). */
  function Export(l: CityLayout, gridSize: IVec2, showFloat: real -> string): seq<string>
  {
    [Header] + ExportRows(l, gridSize, showFloat, 0)
  }

  lemma MulStep(a: int, b: int)
    ensures (a + 1) * b == b + a * b
  {
  }

  /** Rows z onwards hold `(gy - z) * gx` lines. */
  lemma {:induction false} ExportRowsLength(l: CityLayout, gridSize: IVec2, showFloat: real -> string, z: int)
    requires gridSize.x >= 0 && z <= gridSize.y
    decreases gridSize.y - z
    ensures |ExportRows(l, gridSize, showFloat, z)| == (gridSize.y - z) * gridSize.x
  {
    if z < gridSize.y {
      ExportRowsLength(l, gridSize, showFloat, z + 1);
      MulStep(gridSize.y - (z + 1), gridSize.x);
    }
  }

  /** In rows z onwards, the line of cell (x, z') is at index
      `(z' - z) * gx + x`. */
  lemma {:induction false} ExportRowsAt(l: CityLayout, gridSize: IVec2, showFloat: real -> string, z: int, p: IVec2, i: int)
    requires 0 <= p.x < gridSize.x && z <= p.y < gridSize.y && i == (p.y - z) * gridSize.x + p.x
    decreases p.y - z
    ensures var rows := ExportRows(l, gridSize, showFloat, z);
      0 <= i < |rows| && rows[i] == ExportLine(l, p, showFloat)
  {
    var row := ExportRow(l, gridSize, showFloat, z, 0);
    var rest := ExportRows(l, gridSize, showFloat, z + 1);
    assert ExportRows(l, gridSize, showFloat, z) == row + rest;
    assert |row| == gridSize.x;
    if p.y == z {
      assert i == p.x;
      assert row[p.x] == ExportLine(l, IVec2(p.x, z), showFloat);
    } else {
      var j := (p.y - (z + 1)) * gridSize.x + p.x;
      IndexStep(p.y - z, gridSize.x, p.x, i, j);
      ExportRowsAt(l, gridSize, showFloat, z + 1, p, j);
      assert (row + rest)[i] == rest[j];
    }
  }

  /** Skipping one row of `gx` lines moves an index by `gx`. */
  lemma IndexStep(d: int, gx: int, x: int, i: int, j: int)
    requires d >= 1 && 0 <= x < gx && i == d * gx + x && j == (d - 1) * gx + x
    ensures i == gx + j && j >= 0
  {
    MulStep(d - 1, gx);
  }

  /** The export holds the header and exactly one line per cell, the line
      of cell (x, z) at position `1 + z * gx + x`. */
  lemma ExportShape(l: CityLayout, gridSize: IVec2, showFloat: real -> string, p: IVec2)
    requires gridSize.x >= 0 && gridSize.y >= 0
    ensures var e := Export(l, gridSize, showFloat);
      && |e| == 1 + gridSize.y * gridSize.x && e[0] == Header
      && (0 <= p.x < gridSize.x && 0 <= p.y < gridSize.y ==>
            1 + p.y * gridSize.x + p.x < |e| && e[1 + p.y * gridSize.x + p.x] == ExportLine(l, p, showFloat))
  {
    ExportRowsLength(l, gridSize, showFloat, 0);
    if 0 <= p.x < gridSize.x && 0 <= p.y < gridSize.y {
      ExportRowsAt(l, gridSize, showFloat, 0, p, p.y * gridSize.x + p.x);
    }
  }

  /** Appending the first line of a row keeps the rest of the export. */
  lemma AppendLine(lines: seq<string>, l: CityLayout, gridSize: IVec2, showFloat: real -> string, z: int, x: int, rest: seq<string>)
    requires x < gridSize.x
    ensures lines + ExportRow(l, gridSize, showFloat, z, x) + rest
         == (lines + [ExportLine(l, IVec2(x, z), showFloat)]) + ExportRow(l, gridSize, showFloat, z, x + 1) + rest
  {
    assert ExportRow(l, gridSize, showFloat, z, x)
        == [ExportLine(l, IVec2(x, z), showFloat)] + ExportRow(l, gridSize, showFloat, z, x + 1);
  }

  /** Starting a row splits the rows still to write. */
  lemma StartRow(lines: seq<string>, l: CityLayout, gridSize: IVec2, showFloat: real -> string, z: int)
    requires z < gridSize.y
    ensures lines + ExportRows(l, gridSize, showFloat, z)
         == lines + ExportRow(l, gridSize, showFloat, z, 0) + ExportRows(l, gridSize, showFloat, z + 1)
  {
  }

  /** `export_to_csv`, appending line by line. */
  method ExportToCsv(l: CityLayout, gridSize: IVec2, showFloat: real -> string) returns (lines: seq<string>)
    ensures lines == Export(l, gridSize, showFloat)
  {
    lines := [Header];
    var z := 0;
    while z < gridSize.y
      invariant lines + ExportRows(l, gridSize, showFloat, z) == Export(l, gridSize, showFloat)
      decreases gridSize.y - z
    {
      StartRow(lines, l, gridSize, showFloat, z);
      lines := ExportRowLines(lines, l, gridSize, showFloat, z);
      z := z + 1;
    }
    assert ExportRows(l, gridSize, showFloat, z) == [];
    assert lines + [] == lines;
  }

  /** The inner loop of `export_to_csv`: the lines of row `z`, x ascending. */
  method ExportRowLines(start: seq<string>, l: CityLayout, gridSize: IVec2, showFloat: real -> string, z: int) returns (lines: seq<string>)
    ensures lines == start + ExportRow(l, gridSize, showFloat, z, 0)
  {
    lines := start;
    var x := 0;
    while x < gridSize.x
      invariant lines + ExportRow(l, gridSize, showFloat, z, x) == start + ExportRow(l, gridSize, showFloat, z, 0)
      decreases gridSize.x - x
    {
      AppendLine(lines, l, gridSize, showFloat, z, x, []);
      lines := lines + [ExportLine(l, IVec2(x, z), showFloat)];
      x := x + 1;
    }
    assert ExportRow(l, gridSize, showFloat, z, x) == [];
    assert lines + [] == lines;
  }

  // ---------------------------------------------------------------------
  // Import (`import_from_csv`)

  /** The error of a line, numbered from 1. */
  datatype ImportError = InvalidLine(line: nat) | InvalidX(line: nat) | InvalidZ(line: nat)

  datatype ImportResult = Imported(layout: CityLayout) | Failed(error: ImportError)

  /** `parse::<f32>().unwrap_or(d)`, with the float parser a parameter. */
  function FloatOr(parseFloat: string -> Option<real>, s: string, d: real): real
  {
    match parseFloat(s)
    case Some(v) => v
    case None => d
  }

  /** The error a line (index `n`, the header being 0) raises, if any: too
      few fields, then a bad x, then a bad z. */
  function LineCheck(line: string, n: nat): (e: Option<ImportError>)
    ensures e.Some? ==> e.value.line == n + 1
  {
    var parts := Split(line, ',');
    if |parts| < 7 then Some(InvalidLine(n + 1))
    else if ParseI32(parts[0]).None? then Some(InvalidX(n + 1))
    else if ParseI32(parts[1]).None? then Some(InvalidZ(n + 1))
    else None
  }

  /** One data line (index `n`) read into the layout: a known tile is
      recorded at its cell, and a building, street or intersection gets a
      spec rebuilt from the prefab name and the fields, with defaults 10,
      8 and 12 where a float does not parse. */
  function ImportLine(l: CityLayout, line: string, n: nat, parseFloat: string -> Option<real>): ImportResult
  {
    ImportFields(l, Split(line, ','), n, parseFloat)
  }

  /** The fields of data line `n` read into the layout. */
  function ImportFields(l: CityLayout, parts: seq<string>, n: nat, parseFloat: string -> Option<real>): ImportResult
  {
    if |parts| < 7 then Failed(InvalidLine(n + 1))
    else match ParseI32(parts[0])
      case None => Failed(InvalidX(n + 1))
      case Some(x) =>
        match ParseI32(parts[1])
        case None => Failed(InvalidZ(n + 1))
        case Some(z) =>
          var pos := IVec2(x, z);
          var tile := ParseTile(parts[2]);
          var l1 := if tile != Empty then l.(grid := l.grid[pos := tile]) else l;
          Imported(
            match tile
            case Building =>
              l1.(buildings := l1.buildings[pos := BuildingSpec(
                Residential, FloatOr(parseFloat, parts[4], 10.0),
                Vec2(FloatOr(parseFloat, parts[5], 10.0), FloatOr(parseFloat, parts[6], 10.0)), 0.0, parts[3])])
            case Street =>
              l1.(streets := l1.streets[pos := StreetSpec(Main, FloatOr(parseFloat, parts[5], 8.0), UnitZ, true, parts[3])])
            case Intersection =>
              l1.(intersections := l1.intersections[pos := IntersectionSpec(
                FourWay, FloatOr(parseFloat, parts[5], 12.0), false, parts[3])])
            case _ => l1)
  }

  /** The loop from line `n` on, with the layout read so far; line 0 is the
      header. */
  function ImportFrom(lines: seq<string>, n: nat, l: CityLayout, parseFloat: string -> Option<real>): ImportResult
    decreases |lines| - n
  {
    if n >= |lines| then Imported(l)
    else if n == 0 then ImportFrom(lines, 1, l, parseFloat)
    else match ImportLine(l, lines[n], n, parseFloat)
      case Failed(e) => Failed(e)
      case Imported(l1) => ImportFrom(lines, n + 1, l1, parseFloat)
  }

  /** `import_from_csv` on the lines of the text. */
  function Import(lines: seq<string>, parseFloat: string -> Option<real>): ImportResult
  {
    ImportFrom(lines, 0, EmptyLayout(), parseFloat)
  }

  /** `import_from_csv`, reading line by line and returning on the first
      bad line. */
  method ImportFromCsv(lines: seq<string>, parseFloat: string -> Option<real>) returns (r: ImportResult)
    ensures r == Import(lines, parseFloat)
  {
    var layout := EmptyLayout();
    var n := 0;
    while n < |lines|
      invariant 0 <= n <= |lines|
      invariant ImportFrom(lines, n, layout, parseFloat) == Import(lines, parseFloat)
    {
      if n != 0 {
        var parts := Split(lines[n], ',');
        if |parts| < 7 {
          return Failed(InvalidLine(n + 1));
        }
        var x := ParseI32(parts[0]);
        if x.None? {
          return Failed(InvalidX(n + 1));
        }
        var z := ParseI32(parts[1]);
        if z.None? {
          return Failed(InvalidZ(n + 1));
        }
        var pos := IVec2(x.value, z.value);
        var tile := ParseTile(parts[2]);
        if tile != Empty {
          layout := layout.(grid := layout.grid[pos := tile]);
        }
        match tile {
          case Building =>
            var height := FloatOr(parseFloat, parts[4], 10.0);
            var sizeX := FloatOr(parseFloat, parts[5], 10.0);
            var sizeZ := FloatOr(parseFloat, parts[6], 10.0);
            layout := layout.(buildings := layout.buildings[pos := BuildingSpec(
              Residential, height, Vec2(sizeX, sizeZ), 0.0, parts[3])]);
          case Street =>
            var width := FloatOr(parseFloat, parts[5], 8.0);
            layout := layout.(streets := layout.streets[pos := StreetSpec(Main, width, UnitZ, true, parts[3])]);
          case Intersection =>
            var size := FloatOr(parseFloat, parts[5], 12.0);
            layout := layout.(intersections := layout.intersections[pos := IntersectionSpec(
              FourWay, size, false, parts[3])]);
          case _ =>
        }
      }
      n := n + 1;
    }
    return Imported(layout);
  }

  /** A line fails exactly as `LineCheck` says, whatever was read
      before. */
  lemma ImportLineFails(l: CityLayout, line: string, n: nat, parseFloat: string -> Option<real>)
    ensures ImportLine(l, line, n, parseFloat).Failed? <==> LineCheck(line, n).Some?
    ensures ImportLine(l, line, n, parseFloat).Failed? ==> ImportLine(l, line, n, parseFloat).error == LineCheck(line, n).value
  {
  }

  /** The first error among the data lines from index `n` on. */
  function FirstBad(lines: seq<string>, n: nat): (e: Option<ImportError>)
    decreases |lines| - n
    ensures e.None? <==> forall k :: n <= k < |lines| && k >= 1 ==> LineCheck(lines[k], k).None?
  {
    if n >= |lines| then None
    else if n == 0 then FirstBad(lines, 1)
    else if LineCheck(lines[n], n).Some? then LineCheck(lines[n], n)
    else FirstBad(lines, n + 1)
  }

  lemma {:induction false} ImportFromFails(lines: seq<string>, n: nat, l: CityLayout, parseFloat: string -> Option<real>)
    decreases |lines| - n
    ensures ImportFrom(lines, n, l, parseFloat).Failed? <==> FirstBad(lines, n).Some?
    ensures ImportFrom(lines, n, l, parseFloat).Failed? ==> ImportFrom(lines, n, l, parseFloat).error == FirstBad(lines, n).value
  {
    if n < |lines| {
      if n == 0 {
        ImportFromFails(lines, 1, l, parseFloat);
      } else {
        var r := ImportLine(l, lines[n], n, parseFloat);
        ImportLineFails(l, lines[n], n, parseFloat);
        if r.Imported? {
          ImportFromFails(lines, n + 1, r.layout, parseFloat);
        }
      }
    }
  }

  /** Import fails exactly when some data line is bad, with the error of
      the first bad line; the header is never checked. */
  lemma ImportFailsAtFirstBadLine(lines: seq<string>, parseFloat: string -> Option<real>)
    ensures Import(lines, parseFloat).Failed? <==> exists k :: 1 <= k < |lines| && LineCheck(lines[k], k).Some?
    ensures Import(lines, parseFloat).Failed? ==> Import(lines, parseFloat).error == FirstBad(lines, 0).value
  {
    ImportFromFails(lines, 0, EmptyLayout(), parseFloat);
  }

  lemma {:induction false} ImportFromSameTail(a: seq<string>, b: seq<string>, n: nat, l: CityLayout,
                                              parseFloat: string -> Option<real>)
    requires |a| == |b| && n >= 1 && forall k :: n <= k < |a| ==> a[k] == b[k]
    decreases |a| - n
    ensures ImportFrom(a, n, l, parseFloat) == ImportFrom(b, n, l, parseFloat)
  {
    if n < |a| {
      var r := ImportLine(l, a[n], n, parseFloat);
      assert r == ImportLine(l, b[n], n, parseFloat);
      if r.Imported? {
        ImportFromSameTail(a, b, n + 1, r.layout, parseFloat);
      }
    }
  }

  /** The first line is a header: whatever it says, the result is the
      same. */
  lemma ImportIgnoresHeader(h1: string, h2: string, rest: seq<string>, parseFloat: string -> Option<real>)
    ensures Import([h1] + rest, parseFloat) == Import([h2] + rest, parseFloat)
  {
    ImportFromSameTail([h1] + rest, [h2] + rest, 1, EmptyLayout(), parseFloat);
  }

  /** No tile of a layout read so far is empty. */
  predicate NoEmptyTiles(l: CityLayout)
  {
    forall p :: p in l.grid ==> l.grid[p] != Empty
  }

  /** Reading one line records no empty tile. */
  lemma ImportLineNoEmpty(l: CityLayout, parts: seq<string>, n: nat, parseFloat: string -> Option<real>)
    requires NoEmptyTiles(l)
    ensures ImportFields(l, parts, n, parseFloat).Imported? ==> NoEmptyTiles(ImportFields(l, parts, n, parseFloat).layout)
  {
  }

  lemma {:induction false} ImportFromNoEmpty(lines: seq<string>, n: nat, l: CityLayout, parseFloat: string -> Option<real>)
    requires NoEmptyTiles(l)
    decreases |lines| - n
    ensures ImportFrom(lines, n, l, parseFloat).Imported? ==> NoEmptyTiles(ImportFrom(lines, n, l, parseFloat).layout)
  {
    if n < |lines| {
      if n == 0 {
        ImportFromNoEmpty(lines, 1, l, parseFloat);
      } else {
        var r := ImportLine(l, lines[n], n, parseFloat);
        ImportLineNoEmpty(l, Split(lines[n], ','), n, parseFloat);
        if r.Imported? {
          ImportFromNoEmpty(lines, n + 1, r.layout, parseFloat);
        }
      }
    }
  }

  /** An imported layout never holds an `Empty` tile: lines with an
      unknown or empty tile type are read but not recorded. */
  lemma ImportHasNoEmptyTiles(lines: seq<string>, parseFloat: string -> Option<real>)
    ensures Import(lines, parseFloat).Imported? ==> NoEmptyTiles(Import(lines, parseFloat).layout)
  {
    ImportFromNoEmpty(lines, 0, EmptyLayout(), parseFloat);
  }

  /** What reading back the exported line of cell `p` makes of `l`: the
      tile when it is not empty, and for a building, street or
      intersection the prefab name and sizes it was exported with, while
      the building type becomes residential, rotation zero, the street a
      main street along z with sidewalks, and the intersection one
      without traffic lights. */
  function Restored(l: CityLayout, src: CityLayout, p: IVec2): CityLayout
  {
    var (prefab, height, sizeX, sizeZ) := CellFields(src, p);
    RestoredCell(l, p, TileAt(src, p), prefab, height, sizeX, sizeZ)
  }

  /** `l` with one cell read back from its tile, prefab name, height and
      sizes. */
  function RestoredCell(l: CityLayout, p: IVec2, tile: TileType, prefab: string,
                        height: real, sizeX: real, sizeZ: real): CityLayout
  {
    var l1 := if tile != Empty then l.(grid := l.grid[p := tile]) else l;
    match tile
    case Building => l1.(buildings := l1.buildings[p := BuildingSpec(Residential, height, Vec2(sizeX, sizeZ), 0.0, prefab)])
    case Street => l1.(streets := l1.streets[p := StreetSpec(Main, sizeX, UnitZ, true, prefab)])
    case Intersection => l1.(intersections := l1.intersections[p := IntersectionSpec(FourWay, sizeX, false, prefab)])
    case _ => l1
  }

  /** The float printer and parser are inverse and the printer writes no
      comma. */
  ghost predicate FloatsRoundTrip(showFloat: real -> string, parseFloat: string -> Option<real>)
  {
    forall r :: ',' !in showFloat(r) && parseFloat(showFloat(r)) == Some(r)
  }

  /** No prefab name at cell `p` holds a comma. */
  predicate PrefabsCommaFree(src: CityLayout, p: IVec2)
  {
    && (p in src.buildings ==> ',' !in src.buildings[p].prefabName)
    && (p in src.streets ==> ',' !in src.streets[p].prefabName)
    && (p in src.intersections ==> ',' !in src.intersections[p].prefabName)
  }

  /** Exporting a cell and reading the line back records that cell as
      `Restored` says, and nothing else. */
  lemma LineRoundTrip(l: CityLayout, src: CityLayout, p: IVec2, n: nat,
                      showFloat: real -> string, parseFloat: string -> Option<real>)
    requires I32Min <= p.x <= I32Max && I32Min <= p.y <= I32Max
    requires FloatsRoundTrip(showFloat, parseFloat) && PrefabsCommaFree(src, p)
    ensures ImportLine(l, ExportLine(src, p, showFloat), n, parseFloat) == Imported(Restored(l, src, p))
  {
    ExportLineSplits(src, p, showFloat, parseFloat);
    FieldsRestore(l, src, p, n, showFloat, parseFloat);
  }

  /** A cell's line splits back into its seven fields. */
  lemma ExportLineSplits(src: CityLayout, p: IVec2, showFloat: real -> string, parseFloat: string -> Option<real>)
    requires I32Min <= p.x <= I32Max && I32Min <= p.y <= I32Max
    requires FloatsRoundTrip(showFloat, parseFloat) && PrefabsCommaFree(src, p)
    ensures Split(ExportLine(src, p, showFloat), ',') == ExportFields(src, p, showFloat)
  {
    var (prefab, height, sizeX, sizeZ) := CellFields(src, p);
    IntRoundTrip(p.x);
    IntRoundTrip(p.y);
    TileRoundTrip(TileAt(src, p));
    assert ',' !in prefab;
    assert ',' !in showFloat(height) && ',' !in showFloat(sizeX) && ',' !in showFloat(sizeZ);
    SplitJoinSeven(IntToString(p.x), IntToString(p.y), TileName(TileAt(src, p)), prefab,
                   showFloat(height), showFloat(sizeX), showFloat(sizeZ));
  }

  /** Seven comma-free fields written with commas between them split back
      into them. */
  lemma SplitSeven(f0: string, f1: string, f2: string, f3: string, f4: string, f5: string, f6: string)
    requires ',' !in f0 && ',' !in f1 && ',' !in f2 && ',' !in f3
    requires ',' !in f4 && ',' !in f5 && ',' !in f6
    ensures Split(f0 + "," + (f1 + "," + (f2 + "," + (f3 + "," + (f4 + "," + (f5 + "," + f6))))), ',')
         == [f0, f1, f2, f3, f4, f5, f6]
  {
    var t5 := f5 + "," + f6;
    var t4 := f4 + "," + t5;
    var t3 := f3 + "," + t4;
    var t2 := f2 + "," + t3;
    var t1 := f1 + "," + t2;
    SplitPlain(f6, ',');
    SplitFirst(f5, ',', f6);
    SplitFirst(f4, ',', t5);
    SplitFirst(f3, ',', t4);
    SplitFirst(f2, ',', t3);
    SplitFirst(f1, ',', t2);
    SplitFirst(f0, ',', t1);
  }

  /** Seven comma-free fields joined with commas split back into them. */
  lemma SplitJoinSeven(f0: string, f1: string, f2: string, f3: string, f4: string, f5: string, f6: string)
    requires ',' !in f0 && ',' !in f1 && ',' !in f2 && ',' !in f3
    requires ',' !in f4 && ',' !in f5 && ',' !in f6
    ensures Split(Join([f0, f1, f2, f3, f4, f5, f6], ','), ',') == [f0, f1, f2, f3, f4, f5, f6]
  {
    var fields := [f0, f1, f2, f3, f4, f5, f6];
    forall i | 0 <= i < |fields| ensures ',' !in fields[i] {
    }
    SplitJoin(fields, ',');
  }

  /** Reading a cell's seven fields records the cell as `Restored` says. */
  lemma FieldsRestore(l: CityLayout, src: CityLayout, p: IVec2, n: nat,
                      showFloat: real -> string, parseFloat: string -> Option<real>)
    requires I32Min <= p.x <= I32Max && I32Min <= p.y <= I32Max
    requires FloatsRoundTrip(showFloat, parseFloat)
    ensures ImportFields(l, ExportFields(src, p, showFloat), n, parseFloat) == Imported(Restored(l, src, p))
  {
    var parts, cf, tile := ExportFields(src, p, showFloat), CellFields(src, p), TileAt(src, p);
    IntRoundTrip(p.x);
    IntRoundTrip(p.y);
    TileRoundTrip(tile);
    assert parts == [IntToString(p.x), IntToString(p.y), TileName(tile), cf.0, showFloat(cf.1), showFloat(cf.2), showFloat(cf.3)];
    assert parseFloat(parts[4]) == Some(cf.1) && parseFloat(parts[5]) == Some(cf.2) && parseFloat(parts[6]) == Some(cf.3);
    ImportKnownFields(l, parts, n, parseFloat, p, tile, cf.0, cf.1, cf.2, cf.3);
  }

  /** Seven fields whose parts parse to known values are read as that
      cell. */
  lemma ImportKnownFields(l: CityLayout, parts: seq<string>, n: nat, parseFloat: string -> Option<real>,
                          p: IVec2, tile: TileType, prefab: string, height: real, sizeX: real, sizeZ: real)
    requires |parts| == 7 && ParseI32(parts[0]) == Some(p.x) && ParseI32(parts[1]) == Some(p.y)
    requires ParseTile(parts[2]) == tile && parts[3] == prefab
    requires parseFloat(parts[4]) == Some(height) && parseFloat(parts[5]) == Some(sizeX)
    requires parseFloat(parts[6]) == Some(sizeZ)
    ensures ImportFields(l, parts, n, parseFloat) == Imported(RestoredCell(l, p, tile, prefab, height, sizeX, sizeZ))
  {
  }

  /** The fields of the example building line. */
  lemma BuildingLineFields()
    ensures Split("3,4,Building,t,20,a,b", ',') == ["3", "4", "Building", "t", "20", "a", "b"]
  {
    SplitSeven("3", "4", "Building", "t", "20", "a", "b");
    BuildingLineText();
  }

  /** The example building line, from its last four fields up. */
  lemma BuildingLineTailText()
    ensures "Building" + "," + ("t" + "," + ("20" + "," + ("a" + "," + "b"))) == "Building,t,20,a,b"
  {
    assert "a" + "," + "b" == "a,b";
    assert "20" + "," + "a,b" == "20,a,b";
    assert "t" + "," + "20,a,b" == "t,20,a,b";
    assert "Building" + "," + "t,20,a,b" == "Building,t,20,a,b";
  }

  /** The example building line, written out from its fields. */
  lemma BuildingLineText()
    ensures "3" + "," + ("4" + "," + ("Building" + "," + ("t" + "," + ("20" + "," + ("a" + "," + "b"))))) == "3,4,Building,t,20,a,b"
  {
    BuildingLineTailText();
    assert "4" + "," + "Building,t,20,a,b" == "4,Building,t,20,a,b";
    assert "3" + "," + "4,Building,t,20,a,b" == "3,4,Building,t,20,a,b";
  }

  /** The building the example line describes. */
  function ExampleLayout(): CityLayout
  {
    EmptyLayout().(grid := map[IVec2(3, 4) := Building],
                   buildings := map[IVec2(3, 4) := BuildingSpec(Residential, 20.0, Vec2(10.0, 10.0), 0.0, "t")])
  }

  /** The fields of the example building line, read. */
  lemma BuildingFieldsImported(parseFloat: string -> Option<real>)
    requires parseFloat("20") == Some(20.0) && parseFloat("a") == None && parseFloat("b") == None
    ensures ImportFields(EmptyLayout(), ["3", "4", "Building", "t", "20", "a", "b"], 1, parseFloat) == Imported(ExampleLayout())
  {
    assert ParseI32("3") == Some(3) by {
      assert DigitsValue("3") == 3;
    }
    assert ParseI32("4") == Some(4) by {
      assert DigitsValue("4") == 4;
    }
    assert ParseTile("Building") == Building;
    assert FloatOr(parseFloat, "20", 10.0) == 20.0;
    assert FloatOr(parseFloat, "a", 10.0) == 10.0 && FloatOr(parseFloat, "b", 10.0) == 10.0;
  }

  /** An import example: a header and one building line give a building at
      (3, 4) with the given height, default sizes for the fields that do
      not parse, and the named prefab. */
  lemma ImportBuildingExample(parseFloat: string -> Option<real>)
    requires parseFloat("20") == Some(20.0) && parseFloat("a") == None && parseFloat("b") == None
    ensures Import(["x,z,tile_type,prefab_name,height,size_x,size_z", "3,4,Building,t,20,a,b"], parseFloat)
      == Imported(ExampleLayout())
  {
    var lines := ["x,z,tile_type,prefab_name,height,size_x,size_z", "3,4,Building,t,20,a,b"];
    BuildingLineFields();
    BuildingFieldsImported(parseFloat);
    assert ImportLine(EmptyLayout(), lines[1], 1, parseFloat) == Imported(ExampleLayout());
    assert ImportFrom(lines, 1, EmptyLayout(), parseFloat) == ImportFrom(lines, 2, ExampleLayout(), parseFloat);
  }

  /** A line with fewer than seven fields fails with its line number. */
  lemma ImportShortLineExample()
    ensures Import(["header", "1,2,Street"], (s: string) => None) == Failed(InvalidLine(2))
  {
    SplitJoin(["1", "2", "Street"], ',');
    assert Join(["1", "2", "Street"], ',') == "1,2,Street";
  }

  /** The fields of the example line with a bad x. */
  lemma BadXLineFields()
    ensures Split("a,2,Street,s,0,8,8", ',') == ["a", "2", "Street", "s", "0", "8", "8"]
  {
    SplitSeven("a", "2", "Street", "s", "0", "8", "8");
    BadXLineText();
  }

  /** The example line with a bad x, from its last four fields up. */
  lemma BadXLineTailText()
    ensures "Street" + "," + ("s" + "," + ("0" + "," + ("8" + "," + "8"))) == "Street,s,0,8,8"
  {
    assert "8" + "," + "8" == "8,8";
    assert "0" + "," + "8,8" == "0,8,8";
    assert "s" + "," + "0,8,8" == "s,0,8,8";
    assert "Street" + "," + "s,0,8,8" == "Street,s,0,8,8";
  }

  /** The example line with a bad x, written out from its fields. */
  lemma BadXLineText()
    ensures "a" + "," + ("2" + "," + ("Street" + "," + ("s" + "," + ("0" + "," + ("8" + "," + "8"))))) == "a,2,Street,s,0,8,8"
  {
    BadXLineTailText();
    assert "2" + "," + "Street,s,0,8,8" == "2,Street,s,0,8,8";
    assert "a" + "," + "2,Street,s,0,8,8" == "a,2,Street,s,0,8,8";
  }

  /** A line whose x does not parse fails with its line number. */
  lemma ImportBadXExample()
    ensures Import(["header", "a,2,Street,s,0,8,8"], (s: string) => None) == Failed(InvalidX(2))
  {
    BadXLineFields();
    assert ParseI32("a") == None by {
      assert !IsDigit("a"[0]);
    }
  }
}
