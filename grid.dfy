/**
 * The grid renderer: cell geometry, the three cell modes, the walk over the cells with its
 * early exit, and the rounded-rectangle primitive each cell is drawn with.
 */
module Grid {
  import opened JsValues
  import opened Canvas
  import opened Gradient
  import opened Config

  // ---------------------------------------------------------------------------------------
  // Rounded rectangles

  /** The four corner radii a rounded rectangle is drawn with. */
  datatype Radii = Radii(tl: real, tr: real, br: real, bl: real)

  /** The caller-owned object a `radius` argument refers to, if any. */
  function RadiusObjects(radius: Option<Radius>): set<object>
  {
    if radius.Some? && radius.value.PerCorner? then {radius.value.obj} else {}
  }

  /**
   * The radii `drawRoundedRect` draws with: a missing radius is 5 on every corner, a number
   * is used on every corner, and in an object a falsy or missing corner counts as 0.
   */
  function CornerRadiiOf(radius: Option<Radius>): Radii
    reads RadiusObjects(radius)
  {
    match radius
    case None => Radii(5.0, 5.0, 5.0, 5.0)
    case Some(Uniform(r)) => Radii(r, r, r, r)
    case Some(PerCorner(obj)) => RadiiOf(obj.Values())
  }

  /** The radii a radius object stands for: each falsy or missing corner is 0. */
  function RadiiOf(c: Corners): Radii
  {
    Radii(OrZero(c.tl), OrZero(c.tr), OrZero(c.br), OrZero(c.bl))
  }

  /** The state of the caller's radius object, if the radius is one. */
  function CornerState(radius: Option<Radius>): Option<Corners>
    reads RadiusObjects(radius)
  {
    if radius.Some? && radius.value.PerCorner? then Some(radius.value.obj.Values()) else None
  }

  /** A radius object after `drawRoundedRect`: every corner defined, the falsy ones as 0. */
  function Normalised(c: Option<Corners>): Option<Corners>
  {
    match c
    case None => None
    case Some(Corners(tl, tr, br, bl)) => Some(Corners(Some(OrZero(tl)), Some(OrZero(tr)), Some(OrZero(br)), Some(OrZero(bl))))
  }

  /** An omitted `stroke` argument means `true`. */
  function StrokeArg(stroke: Option<bool>): bool
  {
    if stroke.None? then true else stroke.value
  }

  /** The path of a rounded rectangle: four edges, clockwise from the top, joined by corner curves. */
  function RectPath(x: real, y: real, width: real, height: real, r: Radii): seq<Command>
  {
    [ BeginPath,
      MoveTo(Pt(x + r.tl, y)),
      LineTo(Pt(x + width - r.tr, y)),
      QuadTo(Pt(x + width, y), Pt(x + width, y + r.tr)),
      LineTo(Pt(x + width, y + height - r.br)),
      QuadTo(Pt(x + width, y + height), Pt(x + width - r.br, y + height)),
      LineTo(Pt(x + r.bl, y + height)),
      QuadTo(Pt(x, y + height), Pt(x, y + height - r.bl)),
      LineTo(Pt(x, y + r.tl)),
      QuadTo(Pt(x, y), Pt(x + r.tl, y)),
      ClosePath ]
  }

  /** Everything one `drawRoundedRect` call issues, when the context's fill style is `style`. */
  function RoundedRect(x: real, y: real, width: real, height: real, r: Radii,
                       fill: bool, stroke: bool, style: string): seq<Command>
  {
    RectPath(x, y, width, height, r) + (if fill then [Fill(style)] else []) + (if stroke then [Command.Stroke] else [])
  }

  /** After its `beginPath` and `moveTo`, the outline is one open subpath ended by `closePath`. */
  lemma RectPathRun(x: real, y: real, width: real, height: real, r: Radii)
    ensures OpenRun(RectPath(x, y, width, height, r), 2)
  {
  }

  /**
   * The path is closed: it starts at (x + tl, y), its eight segments alternate edge and curve,
   * each starts where the one before ended, and the last ends back at the start.
   */
  lemma RectPathClosed(x: real, y: real, width: real, height: real, r: Radii, pen: Point)
    ensures var path := RectPath(x, y, width, height, r);
      && |path| == 11 && path[0] == BeginPath && path[1] == MoveTo(Pt(x + r.tl, y))
      && path[10] == ClosePath
    ensures var segs := Segments(RectPath(x, y, width, height, r), pen);
      && |segs| == 8 && Connected(segs)
      && segs[0].from == Pt(x + r.tl, y) && segs[7].to == Pt(x + r.tl, y)
      && (forall i :: 0 <= i < 8 ==> (segs[i].Line? <==> i % 2 == 0))
  {
    var path := RectPath(x, y, width, height, r);
    var start := Pt(x + r.tl, y);
    var p := [Pt(x + width - r.tr, y), Pt(x + width, y + r.tr), Pt(x + width, y + height - r.br),
              Pt(x + width - r.br, y + height), Pt(x + r.bl, y + height), Pt(x, y + height - r.bl),
              Pt(x, y + r.tl), start];
    var c := [Pt(x + width, y), Pt(x + width, y + height), Pt(x, y + height), Pt(x, y)];
    assert SegmentsFrom(path, 10, start) == [];
    assert SegmentsFrom(path, 9, p[6]) == [Curve(p[6], c[3], p[7])];
    assert SegmentsFrom(path, 8, p[5]) == [Line(p[5], p[6])] + SegmentsFrom(path, 9, p[6]);
    assert SegmentsFrom(path, 7, p[4]) == [Curve(p[4], c[2], p[5])] + SegmentsFrom(path, 8, p[5]);
    assert SegmentsFrom(path, 6, p[3]) == [Line(p[3], p[4])] + SegmentsFrom(path, 7, p[4]);
    assert SegmentsFrom(path, 5, p[2]) == [Curve(p[2], c[1], p[3])] + SegmentsFrom(path, 6, p[3]);
    assert SegmentsFrom(path, 4, p[1]) == [Line(p[1], p[2])] + SegmentsFrom(path, 5, p[2]);
    assert SegmentsFrom(path, 3, p[0]) == [Curve(p[0], c[0], p[1])] + SegmentsFrom(path, 4, p[1]);
    assert SegmentsFrom(path, 2, start) == [Line(start, p[0])] + SegmentsFrom(path, 3, p[0]);
    assert SegmentsFrom(path, 1, pen) == SegmentsFrom(path, 2, start);
    assert Segments(path, pen) == SegmentsFrom(path, 1, pen);
    RectPathRun(x, y, width, height, r);
    SegmentsConnected(path, 2, start);
  }

  /**
   * The radius handling at the top of `drawRoundedRect`: a missing radius becomes 5, a number
   * becomes that number on every corner, and an object has each falsy corner set to 0 in place.
   */
  method NormaliseRadius(radius: Option<Radius>) returns (r: Radii)
    modifies RadiusObjects(radius)
    ensures r == old(CornerRadiiOf(radius))
    ensures CornerState(radius) == Normalised(old(CornerState(radius)))
    ensures CornerRadiiOf(radius) == r
  {
    var rad := if radius.None? then Uniform(5.0) else radius.value;
    match rad {
      case Uniform(v) =>
        r := Radii(v, v, v, v);
      case PerCorner(obj) =>
        var k := 0;
        while k < |CornerOrder|
          invariant 0 <= k <= |CornerOrder|
          invariant forall c :: obj.Get(c) ==
                                 if c in CornerOrder[..k] then Some(OrZero(old(obj.Get(c)))) else old(obj.Get(c))
        {
          var side := CornerOrder[k];
          assert CornerOrder[..k + 1] == CornerOrder[..k] + [side];
          obj.Set(side, Some(OrZero(obj.Get(side))));
          k := k + 1;
        }
        assert CornerOrder[..k] == CornerOrder;
        assert TL in CornerOrder && TR in CornerOrder && BR in CornerOrder && BL in CornerOrder;
        assert obj.Get(TL).Some? && obj.Get(TR).Some? && obj.Get(BR).Some? && obj.Get(BL).Some?;
        r := Radii(obj.tl.value, obj.tr.value, obj.br.value, obj.bl.value);
    }
  }

  /** The path commands of `drawRoundedRect`, from `beginPath` to `closePath`. */
  method TracePath(ctx: Context2D, x: real, y: real, width: real, height: real, r: Radii)
    modifies ctx
    ensures ctx.trace == old(ctx.trace) + RectPath(x, y, width, height, r)
    ensures ctx.fillStyle == old(ctx.fillStyle)
  {
    ctx.Emit(BeginPath);
    ctx.Emit(MoveTo(Pt(x + r.tl, y)));
    ctx.Emit(LineTo(Pt(x + width - r.tr, y)));
    ctx.Emit(QuadTo(Pt(x + width, y), Pt(x + width, y + r.tr)));
    ctx.Emit(LineTo(Pt(x + width, y + height - r.br)));
    ctx.Emit(QuadTo(Pt(x + width, y + height), Pt(x + width - r.br, y + height)));
    ctx.Emit(LineTo(Pt(x + r.bl, y + height)));
    ctx.Emit(QuadTo(Pt(x, y + height), Pt(x, y + height - r.bl)));
    ctx.Emit(LineTo(Pt(x, y + r.tl)));
    ctx.Emit(QuadTo(Pt(x, y), Pt(x + r.tl, y)));
    ctx.Emit(ClosePath);
  }

  /** `drawRoundedRect`: normalises the radius, draws the closed path, then fills and strokes as asked. */
  method DrawRoundedRect(ctx: Context2D, x: real, y: real, width: real, height: real,
                         radius: Option<Radius>, fill: bool, stroke: Option<bool>)
    modifies ctx, RadiusObjects(radius)
    ensures ctx.trace == old(ctx.trace)
      + RoundedRect(x, y, width, height, old(CornerRadiiOf(radius)), fill, StrokeArg(stroke), old(ctx.fillStyle))
    ensures ctx.fillStyle == old(ctx.fillStyle)
    ensures CornerState(radius) == Normalised(old(CornerState(radius)))
    ensures CornerRadiiOf(radius) == old(CornerRadiiOf(radius))
  {
    var doStroke := if stroke.None? then true else stroke.value;
    var r := NormaliseRadius(radius);
    TracePath(ctx, x, y, width, height, r);
    if fill {
      ctx.DoFill();
    }
    if doStroke {
      ctx.Emit(Command.Stroke);
    }
  }

  // ---------------------------------------------------------------------------------------
  // Cell layout

  /** The layout options `drawGrid` reads. */
  datatype Layout = Layout(rows: int, cols: int, border: real, gutterWidth: real, gutterHeight: real)

  /** The canvas size measured before a pass. */
  datatype Size = Size(width: real, height: real)

  /** The rectangle one cell is drawn in. */
  datatype Box = Box(x: real, y: real, width: real, height: real)

  /** The pitch of one box along an axis: the usable extent plus one gutter, shared among `count` boxes. */
  function Pitch(usable: real, gutter: real, count: int): real
    requires count != 0
  {
    (usable + gutter) / (count as real)
  }

  function BoxWidth(l: Layout, s: Size): real
    requires l.cols != 0
  {
    Pitch(s.width - 2.0 * l.border, l.gutterWidth, l.cols)
  }

  function BoxHeight(l: Layout, s: Size): real
    requires l.rows != 0
  {
    Pitch(s.height - 2.0 * l.border, l.gutterHeight, l.rows)
  }

  /** Cell (i, j): its corner on the pitch grid inside the border, its size one gutter short of the pitch. */
  function CellAt(l: Layout, s: Size, i: int, j: int): Box
    requires l.rows != 0 && l.cols != 0
  {
    Box(l.border + (j as real) * BoxWidth(l, s), l.border + (i as real) * BoxHeight(l, s),
        BoxWidth(l, s) - l.gutterWidth, BoxHeight(l, s) - l.gutterHeight)
  }

  /** The cell with linear index `k`, counting in row-major order. */
  function CellBox(l: Layout, s: Size, k: nat): Box
    requires l.rows > 0 && l.cols > 0
  {
    CellAt(l, s, k / l.cols, k % l.cols)
  }

  function Min(a: int, b: int): int
  {
    if a <= b then a else b
  }

  /** How many cells `drawGrid` draws for `n` values: the grid's capacity, but at most one more than `n`. */
  function CellCount(l: Layout, n: nat): nat
  {
    if l.rows <= 0 || l.cols <= 0 then 0 else Min(l.rows * l.cols, n + 1)
  }

  lemma {:induction false} MulAtLeast(a: int, c: int)
    requires a >= 1 && c >= 0
    ensures a * c >= c
    decreases a
  {
    if a > 1 {
      MulAtLeast(a - 1, c);
      assert a * c == (a - 1) * c + c;
    }
  }

  /** Linear index `i * cols + j` names row `i`, column `j`. */
  lemma RowMajorIndex(i: int, j: int, cols: int)
    requires 0 <= i && 0 <= j < cols
    ensures (i * cols + j) / cols == i && (i * cols + j) % cols == j
  {
    var k := i * cols + j;
    var q, r := k / cols, k % cols;
    assert k == q * cols + r && 0 <= r < cols;
    if q > i {
      MulAtLeast(q - i, cols);
    } else if q < i {
      MulAtLeast(i - q, cols);
    }
  }

  lemma RowMajorBound(i: int, j: int, rows: int, cols: int)
    requires 0 <= i < rows && 0 <= j < cols
    ensures i * cols + j < rows * cols
  {
    MulAtLeast(rows - i, cols);
    assert (rows - i) * cols == rows * cols - i * cols;
  }

  /** The linear index of the first cell of row `i`, counted by whole rows (none when there are no columns). */
  function RowStart(i: int, cols: int): int
    decreases i
  {
    if i <= 0 || cols <= 0 then 0 else RowStart(i - 1, cols) + cols
  }

  lemma {:induction false} RowStartIsProduct(i: int, cols: int)
    requires i >= 0 && cols > 0
    ensures RowStart(i, cols) == i * cols
    decreases i
  {
    if i > 0 {
      RowStartIsProduct(i - 1, cols);
      assert i * cols == (i - 1) * cols + cols;
    }
  }

  /** The walk stops after drawing the cell at (i, j) exactly when that makes n + 1 cells. */
  lemma CountWhenBroken(l: Layout, n: nat, i: int, j: int)
    requires 0 <= i < l.rows && 0 <= j < l.cols && RowStart(i, l.cols) + j == n
    ensures CellCount(l, n) == n + 1
  {
    RowStartIsProduct(i, l.cols);
    RowMajorBound(i, j, l.rows, l.cols);
  }

  /** A walk that never stops early draws every cell of the grid. */
  lemma CountWhenFinished(l: Layout, n: nat)
    requires l.rows > 0 && l.cols > 0 && RowStart(l.rows, l.cols) <= n
    ensures CellCount(l, n) == RowStart(l.rows, l.cols)
  {
    RowStartIsProduct(l.rows, l.cols);
  }

  // ---------------------------------------------------------------------------------------
  // Cell modes

  const White := "#ffffff"

  /** Everything one pass of `drawGrid` depends on besides the canvas size. */
  datatype GridSpec = GridSpec(layout: Layout, radii: Radii, stroke: bool, arr: seq<real>,
                               palette: Palette, setting: Setting)

  /** The fill of a cell: white for the markers -1 and 0, the gradient's colour for anything else. */
  function CellStyle(g: GridSpec, d: Datum): string
  {
    if d == Num(-1.0) || d == Num(0.0) then White else "#" + g.palette(g.setting, d)
  }

  /** Whether a cell is outlined: never for -1, always for 0, as the `stroke` option says otherwise. */
  function CellStroke(g: GridSpec, d: Datum): bool
  {
    if d == Num(-1.0) then false else if d == Num(0.0) then true else g.stroke
  }

  /** What drawing a cell with value `d` in the rectangle `b` issues: always filled, stroked by its mode. */
  function CellRect(g: GridSpec, b: Box, d: Datum): seq<Command>
  {
    RoundedRect(b.x, b.y, b.width, b.height, g.radii, true, CellStroke(g, d), CellStyle(g, d))
  }

  /** What drawing the `k`-th cell issues. */
  function CellTrace(g: GridSpec, s: Size, k: nat): seq<Command>
    requires g.layout.rows > 0 && g.layout.cols > 0
  {
    CellRect(g, CellBox(g.layout, s, k), Read(g.arr, k))
  }

  /** What drawing the first `m` cells issues. */
  function CellsTrace(g: GridSpec, s: Size, m: nat): seq<Command>
    requires m == 0 || (g.layout.rows > 0 && g.layout.cols > 0)
  {
    if m == 0 then [] else CellsTrace(g, s, m - 1) + CellTrace(g, s, m - 1)
  }

  lemma CellsTraceStep(t0: seq<Command>, g: GridSpec, s: Size, m: nat)
    requires g.layout.rows > 0 && g.layout.cols > 0
    ensures (t0 + CellsTrace(g, s, m)) + CellTrace(g, s, m) == t0 + CellsTrace(g, s, m + 1)
  {
  }

  /** What one pass of `drawGrid` issues. */
  function GridTrace(g: GridSpec, s: Size): seq<Command>
  {
    CellsTrace(g, s, CellCount(g.layout, |g.arr|))
  }

  /** Drawing cells never resizes the canvas: none of the commands of a pass is a reset. */
  lemma {:induction false} CellsTraceNoReset(g: GridSpec, s: Size, m: nat)
    requires m == 0 || (g.layout.rows > 0 && g.layout.cols > 0)
    ensures Command.Reset !in CellsTrace(g, s, m)
  {
    if m > 0 {
      CellsTraceNoReset(g, s, m - 1);
      assert Command.Reset !in CellTrace(g, s, m - 1);
    }
  }

  /**
   * Cell geometry: linear index `i * cols + j` is the cell in row `i`, column `j`, which sits at
   * (border + j * boxWidth, border + i * boxHeight) and is one gutter narrower and lower than the pitch.
   */
  lemma CellBoxAt(l: Layout, s: Size, i: int, j: int, k: nat)
    requires l.rows > 0 && 0 <= i && 0 <= j < l.cols && k == i * l.cols + j
    ensures CellBox(l, s, k) == CellAt(l, s, i, j)
    ensures CellBox(l, s, k) == Box(l.border + (j as real) * BoxWidth(l, s), l.border + (i as real) * BoxHeight(l, s),
                                    BoxWidth(l, s) - l.gutterWidth, BoxHeight(l, s) - l.gutterHeight)
  {
    RowMajorIndex(i, j, l.cols);
  }

  /** The options `drawGrid` reads are all defined and the gradient is attached. */
  predicate Drawable(o: Options)
    reads o
  {
    o.Values().Complete() && o.colorSet.Some?
  }

  /** The objects besides `o` itself that a pass reads. */
  function OptionsFootprint(o: Options): set<object>
    reads o
  {
    RadiusObjects(o.radius) + (if o.colorSet.Some? then {o.colorSet.value.color} else {})
  }

  function SpecOf(o: Options): GridSpec
    requires Drawable(o)
    reads o, OptionsFootprint(o)
  {
    GridSpec(Layout(o.rows.value, o.cols.value, o.border.value, o.gutterWidth.value, o.gutterHeight.value),
             CornerRadiiOf(o.radius), o.stroke.value, o.colorSet.value.arr,
             o.colorSet.value.color.palette, o.colorSet.value.color.CurrentSetting())
  }

  /** `setColors`: sets the fill style to `#` followed by the gradient's colour for entry `curBox`. */
  method SetColors(ctx: Context2D, curBox: int, colorSet: ColorSet) returns (style: string)
    modifies ctx
    ensures style == "#" + colorSet.color.ColorAt(Read(colorSet.arr, curBox))
    ensures ctx.fillStyle == style && ctx.trace == old(ctx.trace)
  {
    style := "#" + colorSet.color.ColorAt(Read(colorSet.arr, curBox));
    ctx.SetFillStyle(style);
  }

  /**
   * The mode switch of `drawGrid` for entry `boxes`: -1 is white and unstroked, 0 is white and
   * stroked whatever the `stroke` option says, anything else (an out-of-range read included)
   * takes the gradient's colour and the `stroke` option.
   */
  method ChooseMode(ctx: Context2D, options: Options, ghost g: GridSpec, boxes: nat) returns (stroke: bool)
    requires Drawable(options) && SpecOf(options) == g
    modifies ctx
    ensures ctx.fillStyle == CellStyle(g, Read(g.arr, boxes)) && stroke == CellStroke(g, Read(g.arr, boxes))
    ensures ctx.trace == old(ctx.trace)
  {
    var arr := options.colorSet.value.arr;
    if Read(arr, boxes) == Num(-1.0) {  // -1: an empty cell
      ctx.SetFillStyle(White);
      stroke := false;
    } else if Read(arr, boxes) == Num(0.0) {  // 0: a cell without a value
      ctx.SetFillStyle(White);
      stroke := true;
    } else {
      var _ := SetColors(ctx, boxes, options.colorSet.value);
      stroke := options.stroke.value;
    }
  }

  /**
   * The `drawRoundedRect` call of `drawGrid` for the cell in row `i`, column `j`, once its fill
   * style and stroke have been chosen: the position and size are those of `CellAt`.
   */
  method DrawCellRect(ctx: Context2D, size: Size, options: Options, ghost g: GridSpec, ghost k: nat,
                      i: int, j: int, x: real, y: real, boxWidth: real, boxHeight: real, stroke: bool)
    requires Drawable(options) && SpecOf(options) == g
    requires g.layout.rows > 0 && 0 <= i && 0 <= j < g.layout.cols && k == RowStart(i, g.layout.cols) + j
    requires x == g.layout.border && y == g.layout.border
    requires boxWidth == BoxWidth(g.layout, size) && boxHeight == BoxHeight(g.layout, size)
    requires ctx.fillStyle == CellStyle(g, Read(g.arr, k)) && stroke == CellStroke(g, Read(g.arr, k))
    modifies ctx, RadiusObjects(options.radius)
    ensures SpecOf(options) == g
    ensures ctx.trace == old(ctx.trace) + CellTrace(g, size, k)
    ensures ctx.fillStyle == old(ctx.fillStyle)
    ensures CornerState(options.radius) == Normalised(old(CornerState(options.radius)))
  {
    ghost var b := CellAt(g.layout, size, i, j);
    var cx, cy := x + (j as real) * boxWidth, y + (i as real) * boxHeight;
    var w, h := boxWidth - options.gutterWidth.value, boxHeight - options.gutterHeight.value;
    assert b == Box(cx, cy, w, h);
    DrawRoundedRect(ctx, cx, cy, w, h, options.radius, true, Some(stroke));
    RowStartIsProduct(i, g.layout.cols);
    CellBoxAt(g.layout, size, i, j, k);
    assert ctx.trace == old(ctx.trace) + CellRect(g, b, Read(g.arr, k));
  }

  /** Normalising a radius object twice is the same as normalising it once. */
  lemma NormalisedIdempotent(c: Option<Corners>)
    ensures Normalised(Normalised(c)) == Normalised(c)
  {
  }

  /**
   * The state of a pass after its first `m` cells: the canvas has been given exactly their
   * commands, the fill style is the last one's, and the radius object has been normalised
   * as soon as one cell was drawn; none of the options has changed.
   */
  ghost predicate Drawn(ctx: Context2D, size: Size, options: Options, g: GridSpec,
                        t0: seq<Command>, fs0: string, c0: Option<Corners>, m: nat)
    reads ctx, options, OptionsFootprint(options)
  {
    && Drawable(options) && SpecOf(options) == g
    && (m > 0 ==> g.layout.rows > 0 && g.layout.cols > 0)
    && ctx.trace == t0 + CellsTrace(g, size, m)
    && ctx.fillStyle == (if m == 0 then fs0 else CellStyle(g, Read(g.arr, m - 1)))
    && CornerState(options.radius) == (if m == 0 then c0 else Normalised(c0))
  }

  /** A pass that has drawn `CellCount` cells has issued the grid's whole trace. */
  lemma DrawnAll(ctx: Context2D, size: Size, options: Options, g: GridSpec,
                 t0: seq<Command>, fs0: string, c0: Option<Corners>, n: nat)
    requires n == CellCount(g.layout, |g.arr|) && Drawn(ctx, size, options, g, t0, fs0, c0, n)
    ensures SpecOf(options) == g && ctx.trace == t0 + GridTrace(g, size)
    ensures ctx.fillStyle == if n == 0 then fs0 else CellStyle(g, Read(g.arr, n - 1))
    ensures CornerState(options.radius) == if n == 0 then c0 else Normalised(c0)
  {
  }

  /** One iteration of the inner loop of `drawGrid`: choose the mode of cell `k`, then draw it. */
  method DrawCell(ctx: Context2D, size: Size, options: Options, ghost g: GridSpec, ghost t0: seq<Command>,
                  ghost fs0: string, ghost c0: Option<Corners>, k: nat,
                  i: int, j: int, x: real, y: real, boxWidth: real, boxHeight: real)
    requires Drawn(ctx, size, options, g, t0, fs0, c0, k)
    requires g.layout.rows > 0 && 0 <= i && 0 <= j < g.layout.cols && k == RowStart(i, g.layout.cols) + j
    requires x == g.layout.border && y == g.layout.border
    requires boxWidth == BoxWidth(g.layout, size) && boxHeight == BoxHeight(g.layout, size)
    modifies ctx, RadiusObjects(options.radius)
    ensures Drawn(ctx, size, options, g, t0, fs0, c0, k + 1)
  {
    var stroke := ChooseMode(ctx, options, g, k);
    DrawCellRect(ctx, size, options, g, k, i, j, x, y, boxWidth, boxHeight, stroke);
    CellsTraceStep(t0, g, size, k);
    NormalisedIdempotent(c0);
  }

  /**
   * Row `i` of `drawGrid`: the inner loop, which walks the columns and stops as soon as more
   * cells have been drawn than there are values; `stop` reports that the early exit was
   * taken, so that the caller leaves the outer loop at once.
   */
  method DrawRow(ctx: Context2D, size: Size, options: Options, ghost g: GridSpec, ghost t0: seq<Command>,
                 ghost fs0: string, ghost c0: Option<Corners>, i: int, boxes0: nat,
                 x: real, y: real, boxWidth: real, boxHeight: real) returns (boxes: nat, stop: bool)
    requires Drawn(ctx, size, options, g, t0, fs0, c0, boxes0)
    requires 0 <= i < g.layout.rows && boxes0 == RowStart(i, g.layout.cols) && boxes0 <= |g.arr|
    requires x == g.layout.border && y == g.layout.border
    requires g.layout.cols != 0 ==> boxWidth == BoxWidth(g.layout, size)
    requires boxHeight == BoxHeight(g.layout, size)
    modifies ctx, RadiusObjects(options.radius)
    ensures Drawn(ctx, size, options, g, t0, fs0, c0, boxes)
    ensures stop ==> boxes == CellCount(g.layout, |g.arr|)
    ensures !stop ==> boxes == RowStart(i + 1, g.layout.cols) && boxes <= |g.arr|
  {
    hide CellTrace, CellsTrace, CellCount;
    var cols := options.cols.value;
    boxes := boxes0;
    var j := 0;
    while j < cols
      invariant 0 <= j && (cols > 0 ==> j <= cols)
      invariant boxes == RowStart(i, cols) + j && boxes <= |g.arr|
      invariant Drawn(ctx, size, options, g, t0, fs0, c0, boxes)
    {
      DrawCell(ctx, size, options, g, t0, fs0, c0, boxes, i, j, x, y, boxWidth, boxHeight);
      boxes := boxes + 1;
      if boxes > |options.colorSet.value.arr| {
        CountWhenBroken(g.layout, |g.arr|, i, j);
        return boxes, true;
      }
      j := j + 1;
    }
    stop := false;
  }

  /**
   * `drawGrid`: walks the cells in row-major order, picks each cell's mode from its value and
   * draws it, and leaves both loops as soon as more cells have been drawn than there are values.
   */
  method DrawGrid(ctx: Context2D, size: Size, options: Options)
    requires Drawable(options)
    modifies ctx, RadiusObjects(options.radius)
    ensures SpecOf(options) == old(SpecOf(options))
    ensures ctx.trace == old(ctx.trace) + GridTrace(old(SpecOf(options)), size)
    ensures var g := old(SpecOf(options)); var n := CellCount(g.layout, |g.arr|);
      ctx.fillStyle == if n == 0 then old(ctx.fillStyle) else CellStyle(g, Read(g.arr, n - 1))
    ensures var g := old(SpecOf(options)); var n := CellCount(g.layout, |g.arr|);
      CornerState(options.radius) == if n == 0 then old(CornerState(options.radius)) else Normalised(old(CornerState(options.radius)))
  {
    hide CellTrace;
    ghost var g := SpecOf(options);
    ghost var t0, fs0, c0 := ctx.trace, ctx.fillStyle, CornerState(options.radius);
    var rows, cols := options.rows.value, options.cols.value;
    var arr := options.colorSet.value.arr;
    var x, y := options.border.value, options.border.value;

    var maxWidth := size.width - 2.0 * x;
    var maxHeight := size.height - 2.0 * y;
    var boxWidth := if cols != 0 then Pitch(maxWidth, options.gutterWidth.value, cols) else 0.0;
    var boxHeight := if rows != 0 then Pitch(maxHeight, options.gutterHeight.value, rows) else 0.0;
    assert cols != 0 ==> boxWidth == BoxWidth(g.layout, size);
    assert rows != 0 ==> boxHeight == BoxHeight(g.layout, size);

    var boxes: nat := 0;
    var maxBoxes := rows * cols;  // computed but never read
    if maxBoxes > |arr| {
      maxBoxes := |arr| - 1;
    }

    var i := 0;
    while i < rows
      invariant 0 <= i && (rows > 0 ==> i <= rows) && (rows <= 0 ==> i == 0)
      invariant boxes == RowStart(i, cols) && boxes <= |arr|
      invariant Drawn(ctx, size, options, g, t0, fs0, c0, boxes)
    {
      var stop;
      boxes, stop := DrawRow(ctx, size, options, g, t0, fs0, c0, i, boxes, x, y, boxWidth, boxHeight);
      if stop {
        DrawnAll(ctx, size, options, g, t0, fs0, c0, boxes);
        return;
      }
      i := i + 1;
    }
    if rows > 0 && cols > 0 {
      CountWhenFinished(g.layout, |arr|);
    } else {
      assert CellCount(g.layout, |arr|) == 0;
    }
    DrawnAll(ctx, size, options, g, t0, fs0, c0, boxes);
  }

  /**
   * `render`: `setGrid` assigns the canvas's width and height, which resets the context, and
   * then `drawGrid` draws one pass, so afterwards the canvas shows that pass and nothing else.
   */
  method Render(ctx: Context2D, size: Size, options: Options)
    requires Drawable(options)
    modifies ctx, RadiusObjects(options.radius)
    ensures SpecOf(options) == old(SpecOf(options))
    ensures ctx.trace == old(ctx.trace) + [Command.Reset] + GridTrace(old(SpecOf(options)), size)
    ensures SinceReset(ctx.trace) == GridTrace(old(SpecOf(options)), size)
    ensures var g := old(SpecOf(options)); var n := CellCount(g.layout, |g.arr|);
      ctx.fillStyle == if n == 0 then DefaultFill else CellStyle(g, Read(g.arr, n - 1))
    ensures var g := old(SpecOf(options)); var n := CellCount(g.layout, |g.arr|);
      CornerState(options.radius) == if n == 0 then old(CornerState(options.radius)) else Normalised(old(CornerState(options.radius)))
  {
    ctx.Reset();
    DrawGrid(ctx, size, options);
    ghost var g := old(SpecOf(options));
    CellsTraceNoReset(g, size, CellCount(g.layout, |g.arr|));
    SinceLastReset(old(ctx.trace), GridTrace(g, size));
  }
}
