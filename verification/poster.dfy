/**
 * The pure layout helpers of the poster renderer (`render.py`): the
 * constructor's argument type check, the margin split of the main page,
 * the figure grid (files sorted by the text after their last `_` and
 * chunked row-major into `rows x columns`), and the `.svg` selection that
 * drives both the PDF conversion and the clean-up. The directory listings
 * are inputs; `float()` of a string is the parameter `parse`.
 */
module Poster {
  import opened Wrappers
  import opened PyStrings

  /** The values the renderer's argument dictionary holds. */
  datatype Value = Int(i: int) | Float(f: real) | Str(s: string) | Table(rows: seq<seq<string>>)

  type Args = map<string, Value>

  datatype PyError = KeyError(key: string) | ValueError | TypeError | ZeroDivisionError | IndexError

  /** What the constructor is given: a dict, an `argparse.Namespace` (its attributes), or anything else. */
  datatype ArgsInput = DictArgs(entries: Args) | NamespaceArgs(attributes: Args) | OtherArgs

  datatype Renderer = Renderer(args: Args)

  /**
   * `PosterRenderer.__init__`: a dict is kept, a namespace's attributes are
   * copied into a dict, and any other argument raises `ValueError`.
   */
  function NewRenderer(input: ArgsInput): (r: Result<Renderer, PyError>)
    ensures r.Err? <==> input.OtherArgs?
    ensures r.Err? ==> r.error == ValueError
    ensures input.DictArgs? ==> r == Ok(Renderer(input.entries))
    ensures input.NamespaceArgs? ==> r == Ok(Renderer(input.attributes))
  {
    match input
    case DictArgs(entries) => Ok(Renderer(entries))
    case NamespaceArgs(attributes) => Ok(Renderer(attributes))
    case OtherArgs => Err(ValueError)
  }

  /** `float(v)`. */
  function ToFloat(v: Value, parse: string -> Option<real>): (r: Result<real, PyError>)
    ensures v.Int? ==> r == Ok(v.i as real)
    ensures v.Float? ==> r == Ok(v.f)
    ensures v.Str? ==> (r.Ok? <==> parse(v.s).Some?)
    ensures r.Err? ==> r.error == (if v.Str? then ValueError else TypeError)
  {
    match v
    case Int(i) => Ok(i as real)
    case Float(f) => Ok(f)
    case Str(s) => if parse(s).Some? then Ok(parse(s).value) else Err(ValueError)
    case Table(_) => Err(TypeError)
  }

  /** `float(args[key])`: a missing key raises `KeyError`. */
  function FloatArg(args: Args, key: string, parse: string -> Option<real>): (r: Result<real, PyError>)
    ensures key !in args ==> r == Err(KeyError(key))
    ensures key in args ==> r == ToFloat(args[key], parse)
  {
    if key in args then ToFloat(args[key], parse) else Err(KeyError(key))
  }

  /** The keys `_set_main_template_vars` adds. */
  const MarginKeys: set<string> := {"left", "right", "top", "bottom"}

  /**
   * `_set_main_template_vars`: the arguments plus the four margins, the width
   * margin split evenly between left and right and the height margin split
   * one third on top, two thirds at the bottom. Every other key keeps its
   * argument value.
   */
  function MainVars(args: Args, parse: string -> Option<real>): (r: Result<Args, PyError>)
    ensures r.Ok? <==> FloatArg(args, "widthMargin", parse).Ok? && FloatArg(args, "heightMargin", parse).Ok?
    ensures r.Err? ==> r.error == if FloatArg(args, "widthMargin", parse).Err?
      then FloatArg(args, "widthMargin", parse).error else FloatArg(args, "heightMargin", parse).error
    ensures r.Ok? ==> r.value.Keys == args.Keys + MarginKeys
    ensures r.Ok? ==> forall k :: k in args && k !in MarginKeys ==> r.value[k] == args[k]
    ensures r.Ok? ==> MarginsSplit(r.value, FloatArg(args, "widthMargin", parse).value, FloatArg(args, "heightMargin", parse).value)
  {
    var wm := FloatArg(args, "widthMargin", parse);
    if wm.Err? then Err(wm.error)
    else
      var hm := FloatArg(args, "heightMargin", parse);
      if hm.Err? then Err(hm.error)
      else
        Ok(args["left" := Float(1.0 * wm.value / 2.0)]["right" := Float(1.0 * wm.value / 2.0)]
               ["top" := Float(1.0 * hm.value / 3.0)]["bottom" := Float(2.0 * hm.value / 3.0)])
  }

  /**
   * The page margins fill the margins exactly: left and right are equal and
   * add up to the width margin; top and bottom add up to the height margin,
   * with twice as much at the bottom.
   */
  predicate MarginsSplit(vars: Args, widthMargin: real, heightMargin: real)
    requires MarginKeys <= vars.Keys
  {
    && vars["left"].Float? && vars["right"].Float? && vars["top"].Float? && vars["bottom"].Float?
    && vars["left"] == vars["right"]
    && vars["left"].f + vars["right"].f == widthMargin
    && vars["top"].f + vars["bottom"].f == heightMargin
    && vars["bottom"].f == 2.0 * vars["top"].f
  }

  /** `os.path.basename(p)`: the text after the last `/`. */
  function Basename(p: string): (r: string)
    ensures '/' !in r
  {
    AfterLast(p, '/')
  }

  /** `os.path.join(a, b)` (POSIX). */
  function PathJoin(a: string, b: string): (r: string)
    ensures |b| > 0 && b[0] == '/' ==> r == b
    ensures (|b| == 0 || b[0] != '/') ==> |b| <= |r| && r[|r| - |b|..] == b
    ensures (|b| == 0 || b[0] != '/') ==> |a| <= |r| && r[..|a|] == a
    ensures (|b| == 0 || b[0] != '/') ==>
      |r| - |a| - |b| == (if |a| > 0 && a[|a| - 1] != '/' then 1 else 0)
    ensures (|b| == 0 || b[0] != '/') && |a| > 0 && a[|a| - 1] != '/' ==> r[|a|] == '/'
  {
    if |b| > 0 && b[0] == '/' then b
    else if |a| == 0 || a[|a| - 1] == '/' then a + b
    else a + "/" + b
  }

  /** The sort key of `_organize_files`: the text after the last `_`. */
  function FileKey(name: string): string {
    AfterLast(name, '_')
  }

  /** The listing sorted by key, each entry joined to the input directory's base name. */
  function OrderedPaths(listing: seq<string>, input: string): (r: seq<string>)
    ensures |r| == |listing|
    ensures forall i :: 0 <= i < |r| ==> r[i] == PathJoin(Basename(input), SortBy(listing, FileKey)[i])
  {
    var sorted := SortBy(listing, FileKey);
    assert |sorted| == |multiset(sorted)| == |multiset(listing)| == |listing|;
    seq(|sorted|, i requires 0 <= i < |sorted| => PathJoin(Basename(input), sorted[i]))
  }

  /** `range(n)` runs `max(n, 0)` times. */
  function Count(n: int): nat {
    if n > 0 then n else 0
  }

  /** Row `i` of the grid is the `i`-th run of `columns` consecutive files. */
  predicate RowMajor(grid: seq<seq<string>>, files: seq<string>, columns: nat) {
    && |grid| * columns <= |files|
    && forall i :: 0 <= i < |grid| ==> i * columns + columns <= |files| && grid[i] == files[i * columns..i * columns + columns]
  }

  /**
   * The inner loop of `_organize_files` for one row starting at `files[start]`:
   * `columns` entries, or `IndexError` when the files run out first.
   */
  method FillRow(files: seq<string>, start: nat, columns: nat) returns (r: Result<seq<string>, PyError>)
    requires start <= |files|
    ensures r.Err? <==> start + columns > |files|
    ensures r.Err? ==> r.error == IndexError
    ensures r.Ok? ==> start + columns <= |files| && r.value == files[start..start + columns]
  {
    var row: seq<string> := [];
    var counter := start;
    var j := 0;
    while j < columns
      invariant 0 <= j <= columns && counter == start + j
      invariant counter <= |files| && row == files[start..counter]
    {
      if counter >= |files| {
        return Err(IndexError);
      }
      row := row + [files[counter]];
      counter := counter + 1;
      j := j + 1;
    }
    return Ok(row);
  }

  lemma MulStep(i: nat, rows: nat, columns: nat)
    requires i < rows
    ensures i * columns + columns <= rows * columns
  {
    var d := rows - i - 1;
    assert rows * columns == i * columns + columns + d * columns by {
      assert rows == i + 1 + d;
    }
  }

  /**
   * The grid loops of `_organize_files` over the ordered files: exactly
   * `rows` lists of exactly `columns` entries in row-major order, or
   * `IndexError` when there are fewer than `rows * columns` files.
   */
  method Chunk(files: seq<string>, rows: int, columns: int) returns (r: Result<seq<seq<string>>, PyError>)
    ensures r.Err? <==> Count(rows) * Count(columns) > |files|
    ensures r.Err? ==> r.error == IndexError
    ensures r.Ok? ==> |r.value| == Count(rows) && RowMajor(r.value, files, Count(columns))
  {
    var R, C := Count(rows), Count(columns);
    var grid: seq<seq<string>> := [];
    var i := 0;
    while i < R
      invariant 0 <= i <= R && |grid| == i
      invariant RowMajor(grid, files, C)
    {
      var row := FillRow(files, i * C, C);
      if row.Err? {
        MulStep(i, R, C);
        return Err(IndexError);
      }
      grid := grid + [row.value];
      i := i + 1;
    }
    return Ok(grid);
  }

  /** Cell `[i][j]` of a row-major grid is file `i * columns + j`. */
  lemma RowMajorEntry(grid: seq<seq<string>>, files: seq<string>, columns: nat, i: nat, j: nat)
    requires RowMajor(grid, files, columns) && i < |grid| && j < columns
    ensures |grid[i]| == columns && grid[i][j] == files[i * columns + j]
  {
  }

  function Concat(grid: seq<seq<string>>): seq<string> {
    if |grid| == 0 then [] else Concat(grid[..|grid| - 1]) + grid[|grid| - 1]
  }

  /** Reading a row-major grid row by row gives back the first `rows * columns` files, in order. */
  lemma {:induction false} RowMajorConcat(grid: seq<seq<string>>, files: seq<string>, columns: nat)
    requires RowMajor(grid, files, columns)
    ensures Concat(grid) == files[..|grid| * columns]
  {
    if |grid| > 0 {
      RowMajorPrefix(grid, files, columns);
      RowMajorConcat(grid[..|grid| - 1], files, columns);
      NextRowStart(|grid| - 1, columns);
      assert files[..(|grid| - 1) * columns] + files[(|grid| - 1) * columns..(|grid| - 1) * columns + columns]
          == files[..(|grid| - 1) * columns + columns];
    }
  }

  lemma NextRowStart(n: nat, columns: nat)
    ensures (n + 1) * columns == n * columns + columns
  {
  }

  lemma RowMajorPrefix(grid: seq<seq<string>>, files: seq<string>, columns: nat)
    requires RowMajor(grid, files, columns) && |grid| > 0
    ensures RowMajor(grid[..|grid| - 1], files, columns)
  {
    var n := |grid| - 1;
    MulStep(n, |grid|, columns);
  }

  /**
   * The figure grid for these arguments: `rows` rows (none when `rows` is not
   * positive), each the next `columns` of the ordered paths.
   */
  predicate FigureGrid(args: Args, listing: seq<string>, grid: seq<seq<string>>)
    requires "input" in args && args["input"].Str? && "rows" in args && args["rows"].Int?
  {
    && |grid| == Count(args["rows"].i)
    && (|grid| > 0 ==>
          && "columns" in args && args["columns"].Int?
          && RowMajor(grid, OrderedPaths(listing, args["input"].s), Count(args["columns"].i)))
  }

  /**
   * `_organize_files` with its arguments looked up: the base name of
   * `args["input"]`, the directory `listing`, `range(args["rows"])` and, on
   * each row, `range(args["columns"])` (a non-integer count raises
   * `TypeError` when that `range` is reached).
   */
  method OrganizeFiles(args: Args, listing: seq<string>) returns (r: Result<seq<seq<string>>, PyError>)
    ensures "input" !in args ==> r == Err(KeyError("input"))
    ensures r.Ok? ==> "input" in args && args["input"].Str? && "rows" in args && args["rows"].Int?
    ensures r.Ok? && Count(args["rows"].i) > 0 ==> "columns" in args && args["columns"].Int?
    ensures r.Ok? ==> FigureGrid(args, listing, r.value)
    ensures (&& "input" in args && args["input"].Str? && "rows" in args && args["rows"].Int?
             && "columns" in args && args["columns"].Int?)
      ==> (r.Err? <==> Count(args["rows"].i) * Count(args["columns"].i) > |listing|)
  {
    if "input" !in args {
      return Err(KeyError("input"));
    }
    if !args["input"].Str? {
      return Err(TypeError);
    }
    var files := OrderedPaths(listing, args["input"].s);
    if "rows" !in args {
      return Err(KeyError("rows"));
    }
    if !args["rows"].Int? {
      return Err(TypeError);
    }
    if Count(args["rows"].i) == 0 {
      return Ok([]);
    }
    if "columns" !in args {
      return Err(KeyError("columns"));
    }
    if !args["columns"].Int? {
      return Err(TypeError);
    }
    r := Chunk(files, args["rows"].i, args["columns"].i);
  }

  /** `1 / args["columns"]`: true division, which raises on 0 or a non-number. */
  function Reciprocal(v: Value): (r: Result<real, PyError>)
    ensures (v.Int? && v.i != 0) || (v.Float? && v.f != 0.0) <==> r.Ok?
    ensures v.Int? && r.Ok? ==> r.value * v.i as real == 1.0
    ensures v.Float? && r.Ok? ==> r.value * v.f == 1.0
    ensures r.Err? ==> r.error == if v.Int? || v.Float? then ZeroDivisionError else TypeError
  {
    match v
    case Int(i) => if i == 0 then Err(ZeroDivisionError) else Ok(1.0 / i as real)
    case Float(f) => if f == 0.0 then Err(ZeroDivisionError) else Ok(1.0 / f)
    case _ => Err(TypeError)
  }

  /**
   * `_set_figures_template_vars`: the arguments plus `textWidthScalar`, the
   * share of the text width each column gets, and `files`, the figure grid.
   */
  method FiguresVars(args: Args, listing: seq<string>) returns (r: Result<Args, PyError>)
    ensures "columns" !in args ==> r == Err(KeyError("columns"))
    ensures r.Ok? ==> "columns" in args && Reciprocal(args["columns"]).Ok?
    ensures r.Ok? ==> r.value.Keys == args.Keys + {"textWidthScalar", "files"}
    ensures r.Ok? ==> forall k :: k in args && k != "textWidthScalar" && k != "files" ==> r.value[k] == args[k]
    ensures r.Ok? ==> r.value["textWidthScalar"] == Float(Reciprocal(args["columns"]).value)
    ensures r.Ok? ==> "input" in args && args["input"].Str? && "rows" in args && args["rows"].Int?
    ensures r.Ok? ==> r.value["files"].Table? && FigureGrid(args, listing, r.value["files"].rows)
    ensures "columns" in args && Reciprocal(args["columns"]).Err? ==> r == Err(Reciprocal(args["columns"]).error)
    ensures (&& "columns" in args && args["columns"].Int? && args["columns"].i != 0
             && "input" in args && args["input"].Str? && "rows" in args && args["rows"].Int?)
      ==> (r.Err? <==> Count(args["rows"].i) * Count(args["columns"].i) > |listing|)
  {
    if "columns" !in args {
      return Err(KeyError("columns"));
    }
    var scalar := Reciprocal(args["columns"]);
    if scalar.Err? {
      return Err(scalar.error);
    }
    var grid := OrganizeFiles(args, listing);
    if grid.Err? {
      return Err(grid.error);
    }
    return Ok(args["textWidthScalar" := Float(scalar.value)]["files" := Table(grid.value)]);
  }

  /** `name.split(".")[-1] == "svg"`. */
  predicate IsSvg(name: string) {
    AfterLast(name, '.') == "svg"
  }

  /** The `.svg` test accepts exactly the names ending in `.svg`, and the bare name `svg`. */
  lemma SvgSuffix(name: string)
    ensures IsSvg(name) <==> name == "svg" || (|name| >= 4 && name[|name| - 4..] == ".svg")
  {
    AfterLastShape(name, '.');
    if |name| >= 4 && name[|name| - 4..] == ".svg" {
      assert name == name[..|name| - 4] + ['.'] + "svg";
      AfterLastIs(name[..|name| - 4], "svg", '.');
    } else if name == "svg" {
      SplitWhole(name, '.');
    }
  }

  /** The selected names of a listing, in listing order. */
  function SvgFiles(listing: seq<string>): (r: seq<string>)
    ensures |r| <= |listing|
    ensures forall f :: f in r <==> f in listing && IsSvg(f)
  {
    if |listing| == 0 then []
    else (if IsSvg(listing[0]) then [listing[0]] else []) + SvgFiles(listing[1..])
  }

  /** The PDF name of `convert_svg_to_pdf`: the text before the first `.`, plus `.pdf`. */
  function PdfName(name: string): string {
    BeforeFirst(name, '.') + ".pdf"
  }

  /** The stem keeps only what precedes the first dot: `a.b.svg` and `a.c.svg` both become `a.pdf`. */
  lemma PdfNameStem(p: string, t: string)
    requires '.' !in p
    ensures PdfName(p + "." + t) == p + ".pdf"
  {
    BeforeFirstIs(p, t, '.');
  }

  /** A converted file is never caught by the clean-up's `.svg` test. */
  lemma PdfNotSvg(name: string)
    ensures !IsSvg(PdfName(name))
  {
    var stem := BeforeFirst(name, '.');
    assert PdfName(name) == stem + ['.'] + "pdf";
    AfterLastIs(stem, "pdf", '.');
  }

  /**
   * `convert_svg_to_pdf`: one Inkscape job per selected file of `directory`,
   * from the file to its PDF name in the same directory.
   */
  function ConvertJobs(directory: string, listing: seq<string>): (r: seq<(string, string)>)
    ensures |r| == |SvgFiles(listing)|
    ensures forall i :: 0 <= i < |r| ==>
      r[i] == (PathJoin(directory, SvgFiles(listing)[i]), PathJoin(directory, PdfName(SvgFiles(listing)[i])))
  {
    var svgs := SvgFiles(listing);
    seq(|svgs|, i requires 0 <= i < |svgs| => (PathJoin(directory, svgs[i]), PathJoin(directory, PdfName(svgs[i]))))
  }

  /** The clean-up of `_move_svg_files`: the paths of the selected files, removed one by one. */
  function Deletions(directory: string, listing: seq<string>): (r: seq<string>)
    ensures |r| == |SvgFiles(listing)|
    ensures forall i :: 0 <= i < |r| ==> r[i] == PathJoin(directory, SvgFiles(listing)[i])
  {
    var svgs := SvgFiles(listing);
    seq(|svgs|, i requires 0 <= i < |svgs| => PathJoin(directory, svgs[i]))
  }

  /**
   * After the conversion the directory also holds the PDFs; the clean-up run
   * over that listing removes exactly the SVG sources and none of the PDFs.
   */
  lemma CleanupSparesPdfs(listing: seq<string>)
    ensures forall f :: f in SvgFiles(listing + PdfNames(SvgFiles(listing))) <==> f in SvgFiles(listing)
  {
    var pdfs := PdfNames(SvgFiles(listing));
    forall f | f in pdfs
      ensures !IsSvg(f)
    {
      var i :| 0 <= i < |pdfs| && pdfs[i] == f;
      PdfNotSvg(SvgFiles(listing)[i]);
    }
  }

  function PdfNames(names: seq<string>): (r: seq<string>)
    ensures |r| == |names|
    ensures forall i :: 0 <= i < |names| ==> r[i] == PdfName(names[i])
  {
    seq(|names|, i requires 0 <= i < |names| => PdfName(names[i]))
  }
}
