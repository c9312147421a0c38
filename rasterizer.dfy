/**
 * The integer layout of `generateQRCodeWithLogo` and `drawFinderPattern`:
 * module size, canvas side, one square per dark module, and three finder
 * patterns drawn over the modules.
 *
 * The canvas is an append-only log of draw commands; pixels, the rounding
 * radius of `drawRoundedRect` and the float geometry of the logo are not
 * modelled. A rounded command stands for `drawRoundedRect` then `fill`, a
 * square one for `fillRect`.
 */
module Rasterizer {
  import opened Common
  import opened MatrixCache

  /** Side of a finder pattern, in modules. */
  const FinderSize: nat := 7

  datatype Shape = Square | Rounded

  datatype Draw =
    | Fill(shape: Shape, x: int, y: int, w: int, h: int, colour: string)
    | LogoPlate(colour: string)     // the rounded backing plate behind the logo
    | LogoBorder(colour: string)    // the plate's 2-pixel outline
    | LogoImage(path: string)       // the loaded logo, clipped and composited

  /** The 2D context of a canvas, as the commands issued on it. */
  class Canvas {
    const width: int
    const height: int
    var commands: seq<Draw>

    constructor (width: int, height: int)
      ensures this.width == width && this.height == height && commands == []
    {
      this.width := width;
      this.height := height;
      commands := [];
    }

    method Paint(d: Draw)
      modifies this
      ensures commands == old(commands) + [d]
    {
      commands := commands + [d];
    }
  }

  /** Where cell (0, 0) goes, the module size, the shape and the colour. */
  datatype Pen = Pen(ox: int, oy: int, ms: int, shape: Shape, colour: string)

  /** The square of module (row, col). */
  function CellDraw(p: Pen, row: int, col: int): Draw {
    Fill(p.shape, p.ox + col * p.ms, p.oy + row * p.ms, p.ms, p.ms, p.colour)
  }

  /** The squares of dark cells `(row, 0)` .. `(row, cols - 1)`, left to right. */
  function RowDraws(m: Matrix, row: nat, cols: nat, p: Pen): seq<Draw>
    requires row < |m| && cols <= |m|
  {
    if cols == 0 then []
    else if m[row][cols - 1] then RowDraws(m, row, cols - 1, p) + [CellDraw(p, row, cols - 1)]
    else RowDraws(m, row, cols - 1, p)
  }

  /** The squares of the dark cells of rows `0` .. `rows - 1`, row by row. */
  function GridDraws(m: Matrix, rows: nat, p: Pen): seq<Draw>
    requires rows <= |m|
  {
    if rows == 0 then []
    else GridDraws(m, rows - 1, p) + RowDraws(m, rows - 1, |m|, p)
  }

  /** A square matrix of dark cells only. */
  function AllDark(n: nat): Matrix {
    seq(n, _ => seq(n, _ => true))
  }

  /** The commands of `drawFinderPattern`: a dark `size`x`size` grid of
      modules, a light square inset by one module, a dark square inset by
      two. */
  function FinderDraws(x: int, y: int, size: nat, ms: int, shape: Shape, dark: string, light: string): seq<Draw> {
    GridDraws(AllDark(size), size, Pen(x, y, ms, shape, dark))
    + [Fill(shape, x + ms, y + ms, (size - 2) * ms, (size - 2) * ms, light)]
    + [Fill(shape, x + 2 * ms, y + 2 * ms, (size - 4) * ms, (size - 4) * ms, dark)]
  }

  /** The logo backing plate and border are drawn whenever a logo path is
      given; the logo itself only when it loads. */
  function LogoDraws(logoPath: Option<string>, dark: string, light: string, loads: string -> bool): seq<Draw> {
    if Truthy(logoPath) then
      [LogoPlate(light), LogoBorder(dark)] + (if loads(logoPath.value) then [LogoImage(logoPath.value)] else [])
    else []
  }

  /** The options of `generateQRCodeWithLogo` that the layout uses. */
  datatype Options = Options(
    url: string,
    logoPath: Option<string>,
    colorDark: string,
    colorLight: string,
    level: string,
    margin: int,
    width: int,
    roundedCorners: bool)

  /** The defaults the service applies to missing options. */
  function DefaultOptions(url: string): Options {
    Options(url, None, "#1DB9B9", "#FFFFFF", "H", 4, 1000, true)
  }

  datatype Geometry = Geometry(moduleSize: int, side: int)

  datatype RenderError =
    | MatrixUnavailable(cause: MatrixError)
    | EmptyMatrix       // "QR code matrix is empty or invalid"
    | ModuleTooSmall    // "Calculated module size is too small"

  /** The module size and canvas side for `n` modules per side: the largest
      module size for which the symbol fits in `width` less both margins,
      when that is at least one pixel. */
  function Layout(n: nat, width: int, margin: int): (r: Result<Geometry, RenderError>)
    ensures r.Ok? <==> n > 0 && width - 2 * margin >= n
    ensures r.Err? ==> r.error == if n == 0 then EmptyMatrix else ModuleTooSmall
    ensures r.Ok? ==>
      && r.value.moduleSize >= 1
      && n * r.value.moduleSize <= width - 2 * margin < n * (r.value.moduleSize + 1)
      && r.value.side == n * r.value.moduleSize + 2 * margin
      && width - n < r.value.side <= width
  {
    if n == 0 then Err(EmptyMatrix)
    else
      var avail := width - margin * 2;
      var ms := avail / n;
      assert avail == n * ms + avail % n;
      if ms <= 0 then
        assert n * ms <= 0;
        Err(ModuleTooSmall)
      else
        assert avail >= n by {
          assert n * ms >= n * 1;
        }
        assert n * (ms + 1) == n * ms + n;
        Ok(Geometry(ms, n * ms + margin * 2))
  }

  /** The image handed to the PNG encoder. */
  datatype Image = Image(width: int, height: int, commands: seq<Draw>)

  function ShapeFor(rounded: bool): Shape {
    if rounded then Rounded else Square
  }

  /** The symbol drawn on a canvas of side `side`: the light background,
      the dark modules, and the three finder patterns, the outer two at the
      offset `far`. */
  function Symbol(m: Matrix, opts: Options, ms: int, side: int, far: int): seq<Draw> {
    var shape := ShapeFor(opts.roundedCorners);
    [Fill(Square, 0, 0, side, side, opts.colorLight)]
    + GridDraws(m, |m|, Pen(opts.margin, opts.margin, ms, shape, opts.colorDark))
    + FinderDraws(opts.margin, opts.margin, FinderSize, ms, shape, opts.colorDark, opts.colorLight)
    + FinderDraws(far, opts.margin, FinderSize, ms, shape, opts.colorDark, opts.colorLight)
    + FinderDraws(opts.margin, far, FinderSize, ms, shape, opts.colorDark, opts.colorLight)
  }

  /** The symbol, then the logo on top. */
  function Commands(m: Matrix, opts: Options, ms: int, side: int, far: int, loads: string -> bool): seq<Draw> {
    Symbol(m, opts, ms, side, far) + LogoDraws(opts.logoPath, opts.colorDark, opts.colorLight, loads)
  }

  /** What `generateQRCodeWithLogo` draws for matrix `m`, or why it fails. */
  function Render(m: Matrix, opts: Options, loads: string -> bool): Result<Image, RenderError> {
    match Layout(|m|, opts.width, opts.margin)
    case Err(e) => Err(e)
    case Ok(g) =>
      var far := g.side - opts.margin - FinderSize * g.moduleSize;
      Ok(Image(g.side, g.side, Commands(m, opts, g.moduleSize, g.side, far, loads)))
  }

  // ---------------------------------------------------------------------
  // Properties of the layout

  /** A row holds exactly the squares of its dark cells. */
  lemma {:induction false} RowDrawsExact(m: Matrix, row: nat, cols: nat, p: Pen, d: Draw)
    requires row < |m| && cols <= |m|
    ensures d in RowDraws(m, row, cols, p) <==>
      exists col :: 0 <= col < cols && m[row][col] && d == CellDraw(p, row, col)
    decreases cols
  {
    if cols > 0 {
      RowDrawsExact(m, row, cols - 1, p, d);
    }
  }

  /** Adding a row keeps every command of the rows before it. */
  lemma GridDrawsGrow(m: Matrix, rows: nat, p: Pen, d: Draw)
    requires 0 < rows <= |m| && d in GridDraws(m, rows - 1, p)
    ensures d in GridDraws(m, rows, p)
  {
  }

  /** The square of a dark cell is among its row's commands. */
  lemma RowCellDrawn(m: Matrix, row: nat, p: Pen, col: nat)
    requires row < |m| && col < |m| && m[row][col]
    ensures CellDraw(p, row, col) in RowDraws(m, row, |m|, p)
  {
    RowDrawsExact(m, row, |m|, p, CellDraw(p, row, col));
  }

  /** The square of every dark cell of the first `rows` rows is emitted. */
  lemma {:induction false} GridCellDrawn(m: Matrix, rows: nat, p: Pen, row: nat, col: nat)
    requires rows <= |m| && row < rows && col < |m| && m[row][col]
    ensures CellDraw(p, row, col) in GridDraws(m, rows, p)
    decreases rows
  {
    if row < rows - 1 {
      GridCellDrawn(m, rows - 1, p, row, col);
      GridDrawsGrow(m, rows, p, CellDraw(p, row, col));
    } else {
      RowCellDrawn(m, row, p, col);
      assert GridDraws(m, rows, p) == GridDraws(m, rows - 1, p) + RowDraws(m, row, |m|, p);
    }
  }

  /** A command of the first `rows` rows comes from the rows before the
      last one, or from the last one. */
  lemma GridDrawsSplit(m: Matrix, rows: nat, p: Pen, d: Draw)
    requires rows <= |m| && d in GridDraws(m, rows, p)
    ensures 0 < rows
    ensures d in GridDraws(m, rows - 1, p) || d in RowDraws(m, rows - 1, |m|, p)
  {
  }

  /** Every command of a row is the square of one of its dark cells. */
  lemma {:induction false} RowDrawIsCell(m: Matrix, row: nat, cols: nat, p: Pen, d: Draw) returns (col: nat)
    requires row < |m| && cols <= |m| && d in RowDraws(m, row, cols, p)
    ensures col < cols && m[row][col] && d == CellDraw(p, row, col)
    decreases cols
  {
    if d in RowDraws(m, row, cols - 1, p) {
      col := RowDrawIsCell(m, row, cols - 1, p, d);
    } else {
      col := cols - 1;
    }
  }

  /** Every emitted command is the square of a dark cell. */
  lemma {:induction false} GridDrawIsCell(m: Matrix, rows: nat, p: Pen, d: Draw) returns (row: nat, col: nat)
    requires rows <= |m| && d in GridDraws(m, rows, p)
    ensures row < rows && col < |m| && m[row][col] && d == CellDraw(p, row, col)
    decreases rows
  {
    GridDrawsSplit(m, rows, p, d);
    if d in GridDraws(m, rows - 1, p) {
      row, col := GridDrawIsCell(m, rows - 1, p, d);
    } else {
      row := rows - 1;
      col := RowDrawIsCell(m, row, |m|, p, d);
    }
  }

  /** The module pass emits a square for every dark cell and nothing else:
      light cells emit nothing. */
  lemma GridDrawsExact(m: Matrix, rows: nat, p: Pen, d: Draw)
    requires rows <= |m|
    ensures d in GridDraws(m, rows, p) <==>
      exists row, col :: 0 <= row < rows && 0 <= col < |m| && m[row][col] && d == CellDraw(p, row, col)
  {
    if d in GridDraws(m, rows, p) {
      var row, col := GridDrawIsCell(m, rows, p, d);
    } else {
      forall row: nat, col: nat | row < rows && col < |m| && m[row][col]
        ensures d != CellDraw(p, row, col)
      {
        GridCellDrawn(m, rows, p, row, col);
      }
    }
  }

  /** The number of dark cells in rows `0` .. `rows - 1`. */
  function DarkCount(m: Matrix, rows: nat): nat
    requires rows <= |m|
  {
    if rows == 0 then 0 else DarkCount(m, rows - 1) + multiset(m[rows - 1])[true]
  }

  /** A row emits one square per dark cell among its first `cols` cells. */
  lemma {:induction false} RowDrawsCount(m: Matrix, row: nat, cols: nat, p: Pen)
    requires row < |m| && cols <= |m|
    ensures |RowDraws(m, row, cols, p)| == multiset(m[row][..cols])[true]
    decreases cols
  {
    if cols > 0 {
      RowDrawsCount(m, row, cols - 1, p);
      assert m[row][..cols] == m[row][..cols - 1] + [m[row][cols - 1]];
    }
  }

  lemma GridDrawsLength(m: Matrix, rows: nat, p: Pen)
    requires 0 < rows <= |m|
    ensures |GridDraws(m, rows, p)| == |GridDraws(m, rows - 1, p)| + |RowDraws(m, rows - 1, |m|, p)|
  {
  }

  /** The module pass emits exactly one square per dark cell: with
      `GridDrawsExact`, no dark cell is painted twice. */
  lemma {:induction false} GridDrawsCount(m: Matrix, rows: nat, p: Pen)
    requires rows <= |m|
    ensures |GridDraws(m, rows, p)| == DarkCount(m, rows)
    decreases rows
  {
    if rows > 0 {
      GridDrawsLength(m, rows, p);
      GridDrawsCount(m, rows - 1, p);
      RowDrawsCount(m, rows - 1, |m|, p);
      assert m[rows - 1][..|m|] == m[rows - 1];
    }
  }

  /** A module square lies inside the `n`-module grid at the pen's origin. */
  lemma CellInside(p: Pen, n: nat, row: int, col: int)
    requires 0 <= row < n && 0 <= col < n && p.ms > 0
    ensures var d := CellDraw(p, row, col);
      && p.ox <= d.x && d.x + d.w <= p.ox + n * p.ms
      && p.oy <= d.y && d.y + d.h <= p.oy + n * p.ms
  {
    RowMajorBound(col, 0, n, p.ms);
    RowMajorBound(row, 0, n, p.ms);
    MulAddOne(col, p.ms);
    MulAddOne(row, p.ms);
  }

  /** Every module square of a successful render lies inside the canvas
      (when the margin is not negative). */
  lemma ModulesInsideCanvas(m: Matrix, opts: Options, loads: string -> bool, d: Draw)
    requires Render(m, opts, loads).Ok? && opts.margin >= 0
    requires var g := Layout(|m|, opts.width, opts.margin).value;
      d in GridDraws(m, |m|, Pen(opts.margin, opts.margin, g.moduleSize, ShapeFor(opts.roundedCorners), opts.colorDark))
    ensures var side := Render(m, opts, loads).value.width;
      d.Fill? && 0 <= d.x && d.x + d.w <= side && 0 <= d.y && d.y + d.h <= side
  {
    var g := Layout(|m|, opts.width, opts.margin).value;
    var p := Pen(opts.margin, opts.margin, g.moduleSize, ShapeFor(opts.roundedCorners), opts.colorDark);
    var row, col := GridDrawIsCell(m, |m|, p, d);
    CellInside(p, |m|, row, col);
  }

  /** Nothing rejects a negative margin: the render succeeds, and the
      square of a dark top-left module starts left of the canvas. */
  lemma NegativeMarginEscapes(m: Matrix, opts: Options, loads: string -> bool)
    requires Render(m, opts, loads).Ok? && opts.margin < 0
    requires |m| > 0 && m[0][0]
    ensures var g := Layout(|m|, opts.width, opts.margin).value;
      var p := Pen(opts.margin, opts.margin, g.moduleSize, ShapeFor(opts.roundedCorners), opts.colorDark);
      && CellDraw(p, 0, 0) in GridDraws(m, |m|, p)
      && CellDraw(p, 0, 0).x < 0
  {
    var g := Layout(|m|, opts.width, opts.margin).value;
    var p := Pen(opts.margin, opts.margin, g.moduleSize, ShapeFor(opts.roundedCorners), opts.colorDark);
    GridCellDrawn(m, |m|, p, 0, 0);
  }

  /** A row of an all-dark matrix holds every cell, left to right. */
  lemma {:induction false} DarkRow(n: nat, row: nat, cols: nat, p: Pen)
    requires row < n && cols <= n
    ensures |RowDraws(AllDark(n), row, cols, p)| == cols
    ensures forall j :: 0 <= j < cols ==> RowDraws(AllDark(n), row, cols, p)[j] == CellDraw(p, row, j)
    decreases cols
  {
    if cols > 0 {
      DarkRow(n, row, cols - 1, p);
      assert AllDark(n)[row][cols - 1];
    }
  }

  /** Cell (i, j) of an `r`-row, `n`-column grid has a row-major index
      below `r*n`. */
  lemma RowMajorBound(i: int, j: int, r: int, n: int)
    requires 0 <= i < r && 0 <= j < n
    ensures 0 <= i * n && i * n + j < (i + 1) * n <= r * n
  {
    MulNonneg(i, n);
    MulAddOne(i, n);
    MulMonotone(i + 1, r, n);
  }

  lemma MulNonneg(a: int, b: int)
    requires 0 <= a && 0 <= b
    ensures 0 <= a * b
  {
  }

  lemma MulAddOne(a: int, b: int)
    ensures (a + 1) * b == a * b + b
  {
  }

  lemma MulMonotone(a: int, c: int, b: int)
    requires a <= c && 0 <= b
    ensures a * b <= c * b
  {
    MulNonneg(c - a, b);
    assert c * b == a * b + (c - a) * b;
  }

  lemma {:induction false} DarkGridLength(n: nat, rows: nat, p: Pen)
    requires rows <= n
    ensures |GridDraws(AllDark(n), rows, p)| == rows * n
    decreases rows
  {
    if rows > 0 {
      var m := AllDark(n);
      assert GridDraws(m, rows, p) == GridDraws(m, rows - 1, p) + RowDraws(m, rows - 1, n, p);
      DarkGridLength(n, rows - 1, p);
      DarkRow(n, rows - 1, n, p);
      MulAddOne(rows - 1, n);
    }
  }

  /** An all-dark grid is drawn row-major: cell (i, j) is command `i*n + j`. */
  lemma {:induction false} DarkGridCell(n: nat, rows: nat, p: Pen, i: nat, j: nat)
    requires rows <= n && i < rows && j < n
    ensures i * n + j < |GridDraws(AllDark(n), rows, p)|
    ensures GridDraws(AllDark(n), rows, p)[i * n + j] == CellDraw(p, i, j)
    decreases rows
  {
    var m := AllDark(n);
    var prev := GridDraws(m, rows - 1, p);
    var last := RowDraws(m, rows - 1, n, p);
    assert GridDraws(m, rows, p) == prev + last;
    DarkGridLength(n, rows - 1, p);
    DarkRow(n, rows - 1, n, p);
    var k := i * n + j;
    if i < rows - 1 {
      DarkGridCell(n, rows - 1, p, i, j);
      RowMajorBound(i, j, rows - 1, n);
      assert k < |prev|;
      assert (prev + last)[k] == prev[k];
    } else {
      assert k == |prev| + j;
      assert (prev + last)[k] == last[j];
    }
  }

  /** A finder pattern is 49 dark modules in row-major order, then the light
      5-module square at offset `ms`, then the dark 3-module square at offset
      `2*ms`. */
  lemma FinderLayout(x: int, y: int, ms: int, shape: Shape, dark: string, light: string)
    ensures var f := FinderDraws(x, y, FinderSize, ms, shape, dark, light);
      && |f| == 51
      && (forall i, j :: 0 <= i < 7 && 0 <= j < 7 ==> f[7 * i + j] == CellDraw(Pen(x, y, ms, shape, dark), i, j))
      && f[49] == Fill(shape, x + ms, y + ms, 5 * ms, 5 * ms, light)
      && f[50] == Fill(shape, x + 2 * ms, y + 2 * ms, 3 * ms, 3 * ms, dark)
  {
    var p := Pen(x, y, ms, shape, dark);
    DarkGridLength(7, 7, p);
    var g := GridDraws(AllDark(7), 7, p);
    var f := FinderDraws(x, y, FinderSize, ms, shape, dark, light);
    assert f[..49] == g;
    forall i, j | 0 <= i < 7 && 0 <= j < 7 ensures f[7 * i + j] == CellDraw(p, i, j) {
      DarkGridCell(7, 7, p, i, j);
      assert f[7 * i + j] == g[i * 7 + j];
    }
  }

  /** The three finder patterns sit at the top-left, top-right and
      bottom-left corners of the symbol: `(margin, margin)`,
      `(margin + (N-7)*ms, margin)` and `(margin, margin + (N-7)*ms)`, so
      the outer two end flush with the symbol's right and bottom edges. */
  lemma FinderPlacement(m: Matrix, opts: Options, loads: string -> bool)
    requires Render(m, opts, loads).Ok?
    ensures var g := Layout(|m|, opts.width, opts.margin).value;
      var ms, mg, n := g.moduleSize, opts.margin, |m|;
      var img := Render(m, opts, loads).value;
      && img.width == img.height == g.side
      && (mg + (n - 7) * ms) + 7 * ms == g.side - mg
      && img.commands == Commands(m, opts, ms, g.side, mg + (n - 7) * ms, loads)
  {
    var g := Layout(|m|, opts.width, opts.margin).value;
    FarCorner(|m|, g.moduleSize, opts.margin, g.side);
  }

  lemma FarCorner(n: int, ms: int, margin: int, side: int)
    requires side == n * ms + 2 * margin
    ensures side - margin - FinderSize * ms == margin + (n - 7) * ms
    ensures (margin + (n - 7) * ms) + 7 * ms == side - margin
  {
    assert (n - 7) * ms == n * ms - 7 * ms;
  }

  /** The logo is composited only when a logo path is given and it loads;
      a failed load still leaves the plate and border. */
  lemma LogoOnlyWhenLoaded(m: Matrix, opts: Options, loads: string -> bool)
    requires Render(m, opts, loads).Ok?
    ensures var cmds := Render(m, opts, loads).value.commands;
      && (forall d :: d in cmds && d.LogoImage? ==> Truthy(opts.logoPath) && d.path == opts.logoPath.value && loads(d.path))
      && (LogoPlate(opts.colorLight) in cmds <==> Truthy(opts.logoPath))
  {
    var g := Layout(|m|, opts.width, opts.margin).value;
    var far := g.side - opts.margin - FinderSize * g.moduleSize;
    var sym := Symbol(m, opts, g.moduleSize, g.side, far);
    var logo := LogoDraws(opts.logoPath, opts.colorDark, opts.colorLight, loads);
    var cmds := Render(m, opts, loads).value.commands;
    assert cmds == sym + logo;
    SymbolIsFills(m, opts, g.moduleSize, g.side, far);
    forall d | d in cmds && d.LogoImage?
      ensures Truthy(opts.logoPath) && d.path == opts.logoPath.value && loads(d.path)
    {
      assert d in logo;
    }
    if Truthy(opts.logoPath) {
      assert logo[0] == LogoPlate(opts.colorLight);
      assert cmds[|sym|] == logo[0];
    } else {
      assert logo == [];
      assert LogoPlate(opts.colorLight) !in sym;
    }
  }

  /** The symbol consists of filled rectangles only. */
  lemma SymbolIsFills(m: Matrix, opts: Options, ms: int, side: int, far: int)
    ensures forall d :: d in Symbol(m, opts, ms, side, far) ==> d.Fill?
  {
    var shape := ShapeFor(opts.roundedCorners);
    forall d | d in GridDraws(m, |m|, Pen(opts.margin, opts.margin, ms, shape, opts.colorDark)) ensures d.Fill? {
      GridDrawsExact(m, |m|, Pen(opts.margin, opts.margin, ms, shape, opts.colorDark), d);
    }
    forall x, y, d | d in GridDraws(AllDark(7), 7, Pen(x, y, ms, shape, opts.colorDark)) ensures d.Fill? {
      GridDrawsExact(AllDark(7), 7, Pen(x, y, ms, shape, opts.colorDark), d);
    }
  }

  /** With the default width 1000 and margin 4 every symbol of up to 992
      modules per side fits: the canvas is square, and its inner part is
      exactly `N` modules of whole pixels. */
  lemma DefaultsFit(url: string, n: nat)
    requires 0 < n <= 992
    ensures var opts := DefaultOptions(url);
      var r := Layout(n, opts.width, opts.margin);
      && r.Ok?
      && r.value.side - 2 * opts.margin == n * r.value.moduleSize
      && r.value.side <= 1000
  {
  }

  // ---------------------------------------------------------------------
  // The drawing code

  /** The module pass of `generateQRCodeWithLogo`: one square per dark
      module, row by row, left to right. */
  method DrawModules(canvas: Canvas, m: Matrix, p: Pen)
    modifies canvas
    ensures canvas.commands == old(canvas.commands) + GridDraws(m, |m|, p)
  {
    var n := |m|;
    var row := 0;
    while row < n
      invariant 0 <= row <= n
      invariant canvas.commands == old(canvas.commands) + GridDraws(m, row, p)
    {
      var col := 0;
      while col < n
        invariant 0 <= col <= n
        invariant canvas.commands == old(canvas.commands) + GridDraws(m, row, p) + RowDraws(m, row, col, p)
      {
        if m[row][col] {
          canvas.Paint(CellDraw(p, row, col));
        }
        col := col + 1;
      }
      row := row + 1;
    }
  }

  /** `drawFinderPattern(ctx, x, y, size, moduleSize, colorDark, colorLight,
      roundedCorners)`. */
  method DrawFinderPattern(canvas: Canvas, x: int, y: int, size: nat, ms: int,
                           dark: string, light: string, rounded: bool)
    modifies canvas
    ensures canvas.commands == old(canvas.commands) + FinderDraws(x, y, size, ms, ShapeFor(rounded), dark, light)
  {
    var shape := ShapeFor(rounded);
    var pen := Pen(x, y, ms, shape, dark);
    ghost var block := AllDark(size);
    var i := 0;
    while i < size
      invariant 0 <= i <= size
      invariant canvas.commands == old(canvas.commands) + GridDraws(block, i, pen)
    {
      var j := 0;
      while j < size
        invariant 0 <= j <= size
        invariant canvas.commands == old(canvas.commands) + GridDraws(block, i, pen) + RowDraws(block, i, j, pen)
      {
        assert block[i][j];
        assert Fill(shape, x + j * ms, y + i * ms, ms, ms, dark) == CellDraw(pen, i, j);
        canvas.Paint(Fill(shape, x + j * ms, y + i * ms, ms, ms, dark));
        j := j + 1;
      }
      i := i + 1;
    }
    ghost var grid := canvas.commands;
    assert grid == old(canvas.commands) + GridDraws(block, size, pen);
    var innerSize := (size - 2) * ms;
    canvas.Paint(Fill(shape, x + ms, y + ms, innerSize, innerSize, light));
    var centerSize := (size - 4) * ms;
    canvas.Paint(Fill(shape, x + 2 * ms, y + 2 * ms, centerSize, centerSize, dark));
  }

  /** Background, module pass and finder patterns of
      `generateQRCodeWithLogo`. */
  method DrawSymbol(canvas: Canvas, m: Matrix, opts: Options, moduleSize: int, canvasWidth: int, far: int)
    requires canvas.commands == []
    modifies canvas
    ensures canvas.commands == Symbol(m, opts, moduleSize, canvasWidth, far)
  {
    canvas.Paint(Fill(Square, 0, 0, canvasWidth, canvasWidth, opts.colorLight));
    assert canvas.commands == [Fill(Square, 0, 0, canvasWidth, canvasWidth, opts.colorLight)];
    var shape := ShapeFor(opts.roundedCorners);
    DrawModules(canvas, m, Pen(opts.margin, opts.margin, moduleSize, shape, opts.colorDark));
    var offset := opts.margin;
    DrawFinderPattern(canvas, offset, offset, FinderSize, moduleSize, opts.colorDark, opts.colorLight, opts.roundedCorners);
    DrawFinderPattern(canvas, far, offset, FinderSize, moduleSize, opts.colorDark, opts.colorLight, opts.roundedCorners);
    DrawFinderPattern(canvas, offset, far, FinderSize, moduleSize, opts.colorDark, opts.colorLight, opts.roundedCorners);
  }

  /** The drawing part of `generateQRCodeWithLogo(options)` for the matrix
      `m`, up to the PNG encoding; `loads` says whether the logo file
      decodes as an image. */
  method RenderMatrix(m: Matrix, opts: Options, loads: string -> bool)
    returns (r: Result<Image, RenderError>)
    ensures r == Render(m, opts, loads)
  {
    var moduleCount := |m|;
    if moduleCount == 0 {
      return Err(EmptyMatrix);
    }
    var moduleSize := (opts.width - opts.margin * 2) / moduleCount;
    if moduleSize <= 0 {
      assert Layout(moduleCount, opts.width, opts.margin) == Err(ModuleTooSmall);
      return Err(ModuleTooSmall);
    }
    var qrSize := moduleCount * moduleSize;
    var canvasWidth := qrSize + opts.margin * 2;
    assert Layout(moduleCount, opts.width, opts.margin) == Ok(Geometry(moduleSize, canvasWidth));
    var canvas := new Canvas(canvasWidth, canvasWidth);
    var far := canvasWidth - opts.margin - FinderSize * moduleSize;
    DrawSymbol(canvas, m, opts, moduleSize, canvasWidth, far);
    assert canvas.commands == Symbol(m, opts, moduleSize, canvasWidth, far);
    ghost var body := canvas.commands;
    if Truthy(opts.logoPath) {
      canvas.Paint(LogoPlate(opts.colorLight));
      canvas.Paint(LogoBorder(opts.colorDark));
      if loads(opts.logoPath.value) {
        canvas.Paint(LogoImage(opts.logoPath.value));
      }
    }
    assert canvas.commands == body + LogoDraws(opts.logoPath, opts.colorDark, opts.colorLight, loads);
    assert canvas.commands == Commands(m, opts, moduleSize, canvasWidth, far, loads);
    assert Render(m, opts, loads) == Ok(Image(canvasWidth, canvasWidth, Commands(m, opts, moduleSize, canvasWidth, far, loads)));
    r := Ok(Image(canvas.width, canvas.height, canvas.commands));
  }

  /** `generateQRCodeWithLogo(options)` up to the PNG encoding: the matrix
      comes from the cache, which consults `encode` on a miss. */
  method GenerateQRCodeWithLogo(cache: Cache, opts: Options, encode: (string, string) -> Encoding,
                                loads: string -> bool)
    returns (r: Result<Image, RenderError>)
    requires cache.Valid()
    modifies cache
    ensures cache.Valid()
    ensures var key := CacheKey(cache.digest, opts.url, opts.level);
      var (got, st) := Fetch(old(cache.State()), key, encode(opts.url, opts.level));
      && cache.State() == st
      && r == match got
              case Err(e) => Err(MatrixUnavailable(e))
              case Ok(m) => Render(m, opts, loads)
  {
    var modules := cache.GetQRCodeMatrix(opts.url, opts.level, encode);
    if modules.Err? {
      return Err(MatrixUnavailable(modules.error));
    }
    r := RenderMatrix(modules.value, opts, loads);
  }
}
