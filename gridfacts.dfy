/**
 * Properties of the grid renderer that relate several of its definitions: how many cells a
 * pass fills, which cell reads past the dataset, where the cells sit, what each mode draws,
 * and what normalising a radius object keeps.
 */
module GridFacts {
  import opened JsValues
  import opened Canvas
  import opened Gradient
  import opened Config
  import opened Grid

  // ---------------------------------------------------------------------------------------
  // Fills

  /** A trace without a `fill()` call has none to count. */
  lemma {:induction false} NoFill(t: seq<Command>)
    requires forall i :: 0 <= i < |t| ==> !t[i].Fill?
    ensures FillCount(t) == 0
    decreases |t|
  {
    if t != [] {
      NoFill(t[..|t| - 1]);
    }
  }

  /** `drawRoundedRect` fills once when asked to and never otherwise; the outline path fills nothing. */
  lemma RoundedRectFills(x: real, y: real, width: real, height: real, r: Radii,
                         fill: bool, stroke: bool, style: string)
    ensures FillCount(RectPath(x, y, width, height, r)) == 0
    ensures FillCount(RoundedRect(x, y, width, height, r, fill, stroke, style)) == if fill then 1 else 0
  {
    var path := RectPath(x, y, width, height, r);
    var f: seq<Command> := if fill then [Fill(style)] else [];
    var k: seq<Command> := if stroke then [Command.Stroke] else [];
    NoFill(path);
    NoFill(k);
    FillCountAppend(path, f);
    FillCountAppend(path + f, k);
    assert FillCount(f) == if fill then 1 else 0 by {
      if fill { assert f[..0] == []; }
    }
  }

  /** Every cell is filled once. */
  lemma CellTraceFills(g: GridSpec, s: Size, k: nat)
    requires g.layout.rows > 0 && g.layout.cols > 0
    ensures FillCount(CellTrace(g, s, k)) == 1
  {
    var b := CellBox(g.layout, s, k);
    var d := Read(g.arr, k);
    RoundedRectFills(b.x, b.y, b.width, b.height, g.radii, true, CellStroke(g, d), CellStyle(g, d));
  }

  /** The first `m` cells fill `m` times: each cell is filled exactly once. */
  lemma {:induction false} CellsFillCount(g: GridSpec, s: Size, m: nat)
    requires m == 0 || (g.layout.rows > 0 && g.layout.cols > 0)
    ensures FillCount(CellsTrace(g, s, m)) == m
  {
    hide CellTrace;
    if m > 0 {
      CellsFillCount(g, s, m - 1);
      CellTraceFills(g, s, m - 1);
      FillCountAppend(CellsTrace(g, s, m - 1), CellTrace(g, s, m - 1));
    }
  }

  /** A pass fills exactly as many cells as `CellCount` says it draws. */
  lemma GridFillCount(g: GridSpec, s: Size)
    ensures FillCount(GridTrace(g, s)) == CellCount(g.layout, |g.arr|)
  {
    CellsFillCount(g, s, CellCount(g.layout, |g.arr|));
  }

  // ---------------------------------------------------------------------------------------
  // The cell past the dataset

  /**
   * On a non-empty grid, a pass reads past the dataset exactly when the grid has more cells
   * than there are values; then it draws one cell more than there are values, and that last
   * cell, and no other, reads `undefined`. Every other drawn cell reads its own value.
   */
  lemma CellReads(l: Layout, arr: seq<real>)
    requires l.rows > 0 && l.cols > 0
    ensures CellCount(l, |arr|) == |arr| + 1 <==> l.rows * l.cols > |arr|
    ensures CellCount(l, |arr|) <= |arr| + 1
    ensures forall k :: 0 <= k < CellCount(l, |arr|) ==> (Read(arr, k).Undefined? <==> k == |arr|)
    ensures forall k :: 0 <= k < CellCount(l, |arr|) && k < |arr| ==> Read(arr, k) == Num(arr[k])
  {
  }

  // ---------------------------------------------------------------------------------------
  // Geometry

  /** A pitch repeated `count` times covers the usable extent plus one gutter. */
  lemma PitchTimesCount(usable: real, gutter: real, count: int)
    requires count != 0
    ensures (count as real) * Pitch(usable, gutter, count) == usable + gutter
  {
  }

  /**
   * The cells tile the canvas inside the border: the first row and column start at the
   * border, the last row and column end at the border on the far side, and neighbouring
   * cells are exactly one gutter apart.
   */
  lemma GridSpan(l: Layout, s: Size)
    requires l.rows > 0 && l.cols > 0
    ensures CellAt(l, s, 0, 0).x == l.border && CellAt(l, s, 0, 0).y == l.border
    ensures var b := CellAt(l, s, 0, l.cols - 1); b.x + b.width == s.width - l.border
    ensures var b := CellAt(l, s, l.rows - 1, 0); b.y + b.height == s.height - l.border
    ensures forall i, j :: CellAt(l, s, i, j + 1).x == CellAt(l, s, i, j).x + CellAt(l, s, i, j).width + l.gutterWidth
    ensures forall i, j :: CellAt(l, s, i + 1, j).y == CellAt(l, s, i, j).y + CellAt(l, s, i, j).height + l.gutterHeight
  {
  }

  // ---------------------------------------------------------------------------------------
  // Cell modes

  /**
   * What a cell issues after its outline: -1 is filled white and not stroked, 0 is filled
   * white and stroked whatever the `stroke` option says, anything else (the `undefined` past
   * the dataset included) is filled with the gradient's colour and stroked as the option says.
   */
  lemma CellModes(g: GridSpec, b: Box, d: Datum)
    ensures CellRect(g, b, d)[..11] == RectPath(b.x, b.y, b.width, b.height, g.radii)
    ensures d == Num(-1.0) ==> CellRect(g, b, d)[11..] == [Fill(White)]
    ensures d == Num(0.0) ==> CellRect(g, b, d)[11..] == [Fill(White), Command.Stroke]
    ensures d != Num(-1.0) && d != Num(0.0) ==>
      CellRect(g, b, d)[11..] == [Fill("#" + g.palette(g.setting, d))] + (if g.stroke then [Command.Stroke] else [])
  {
  }

  // ---------------------------------------------------------------------------------------
  // Radius objects

  /** Normalising a radius object keeps the radii it stands for and defines every corner. */
  lemma NormalisedKeepsRadii(c: Corners)
    ensures Normalised(Some(c)).Some? && RadiiOf(Normalised(Some(c)).value) == RadiiOf(c)
    ensures var n := Normalised(Some(c)).value; n.tl.Some? && n.tr.Some? && n.br.Some? && n.bl.Some?
  {
  }

  // ---------------------------------------------------------------------------------------
  // Worked examples

  /** A 2 by 2 grid over three values draws four cells, the fourth reading `undefined`; over six values, four. */
  lemma SmallGridCounts(border: real, gw: real, gh: real)
    ensures CellCount(Layout(2, 2, border, gw, gh), 3) == 4 && Read([1.0, 2.0, 3.0], 3) == Undefined
    ensures CellCount(Layout(2, 2, border, gw, gh), 6) == 4
    ensures CellCount(Layout(7, 4, border, gw, gh), 0) == 1
    ensures CellCount(Layout(0, 4, border, gw, gh), 5) == 0
  {
  }

  /** A 410-wide canvas with border 10, four columns and gutter 5: pitch 98.75, cells 93.75 wide. */
  lemma PitchExample(rows: int, gh: real, height: real)
    requires rows != 0
    ensures BoxWidth(Layout(rows, 4, 10.0, 5.0, gh), Size(410.0, height)) == 98.75
    ensures CellAt(Layout(rows, 4, 10.0, 5.0, gh), Size(410.0, height), 0, 3).x == 306.25
    ensures CellAt(Layout(rows, 4, 10.0, 5.0, gh), Size(410.0, height), 0, 3).width == 93.75
  {
  }
}
