# Heatmap-JS, modelled in Dafny

Heatmap-JS draws a dataset as a grid of rounded rectangles on an HTML canvas. The cells are
walked in row-major order, and each cell is coloured by the value at its index:

- `-1` is an empty cell: white and not outlined.
- `0` is a cell without a value: white and always outlined.
- Any other value takes its colour from a gradient running from `colors.low` to `colors.high`
  over `[0, max(dataset)]`, and is outlined as the `stroke` option says.

Before drawing, `checkDefaults` gives every one of eight recognised options a default when the
caller left it `undefined`. The entry point `heatmap` keeps a handler that redraws the grid
with the same options object.

The model covers `static/js/heatmap.js`:

- `values.dfy` (`JsValues`): the JavaScript values the code relies on.
  - An out-of-range array read gives `undefined`.
  - `v || 0` keeps a truthy number and turns anything else into 0.
- `canvas.dfy` (`Canvas`): the 2D context as a class.
  - It holds the current `fillStyle` and a trace of the path, fill and stroke calls made on it.
  - `fill()` records the fill style in force when it is called.
  - Assigning the canvas's width or height resets the context: the trace records a reset,
    the fill style returns to `#000000`, and the canvas shows only what is drawn after it.
  - For a run of `lineTo` and `quadraticCurveTo` calls after a `moveTo`, the segments drawn
    can be read back from the trace.
- `gradient.dfy` (`Gradient`): the gradient engine as a class.
  - It holds the spectrum and number range the heatmap sets on it.
  - How a value becomes a colour is a fixed but unspecified `palette` function.
- `config.dfy` (`Config`): the options object, radius objects and `checkDefaults`.
  - The options object and the per-corner radius object are classes whose fields the code
    updates in place.
  - `checkDefaults` is a loop over the property list, specified by a left fold `Resolve`.
- `maxvalue.dfy` (`MaxValue`): `getMaxValue` as a loop, specified by the fold `MaxOf`.
- `grid.dfy` (`Grid`): `drawRoundedRect`, `setColors` and `drawGrid`.
  - Each method is tied to a function (`RoundedRect`, `GridTrace`) that says exactly which
    calls it makes on the context.
  - A pass draws `CellCount` cells: the grid's capacity, but at most one more than the number
    of values.
- `gridfacts.dfy` (`GridFacts`): properties that relate several of these definitions.
  - How many fills a pass makes.
  - Which cell reads past the dataset.
  - How the cells tile the canvas.
  - What each cell mode draws.
  - What normalising a radius object keeps.
  - Worked examples.
- `heatmap.dfy` (`Heatmap`): the `heatmap` entry point as a session class.
  - Its constructor wires the options, the gradient and the dataset, as lines 17-45 do.
  - `Handler` is the redraw closure. Each redraw runs `render`: `setGrid` resets the context,
    then `drawGrid` draws one pass. Redrawing twice issues the same commands twice and
    leaves the canvas showing one pass.

The grid's early exit is modelled as the code has it, which is later than its comment at
`static/js/heatmap.js:204` ("break out of loops when out of boxes") suggests. The inner loop
leaves both loops once `boxes > arr.length`, and that is tested only after the cell has been
drawn. So a grid with more cells than values draws `n + 1` cells, and the last one reads
`arr[n]`, which is `undefined`. A 2 by 2 grid over three values therefore draws four cells,
not three, and its fourth cell takes the gradient's colour for `undefined`. `CellReads` and
`SmallGridCounts` state this.

The labelled `break drawgrid` is modelled in two parts:

- `DrawRow` is the inner loop. It returns early with `stop` set.
- `DrawGrid` is the outer loop. It returns as soon as `stop` is set.

Both loops are therefore left at the same point as in the code. `maxBoxes` is computed as in
the code and never read.

## Model

| member | source | states |
|---|---|---|
| JsValues.OrZeroIdempotent | static/js/heatmap.js:229 | applying `\|\| 0` to a value already passed through `\|\| 0` changes nothing |
| Canvas.Context2D.Reset | static/js/heatmap.js:141-146 | assigning the canvas's width or height records a reset and puts the fill style back to `#000000` |
| Canvas.SinceReset | static/js/heatmap.js:141-146 | what the canvas shows never includes a reset: everything before the last one is cleared |
| Canvas.SinceLastReset | static/js/heatmap.js:141-146 | after a reset the canvas shows exactly the commands issued since, when none of them is a reset |
| Canvas.SegmentsConnected | static/js/heatmap.js:233-242 | along an open subpath (only `lineTo` and `quadraticCurveTo`, possibly ended by one `closePath`), the drawn segments form one connected run from the pen's position to where the pen ends |
| Config.CornerRadii.Set | static/js/heatmap.js:229 | assigning one corner of a radius object changes that corner only |
| Config.Options.constructor | static/js/heatmap.js:21-24 | an omitted options object is `{}`: every property `undefined` |
| Config.CheckDefaults | static/js/heatmap.js:59-107 | the loop leaves the object equal to `Resolve` of its old state and returns the same object |
| Config.SetDefaultGet | static/js/heatmap.js:73-103 | one step of the loop gives its own property the default only when that property is `undefined`, and changes nothing else |
| Config.ResolveAllGet | static/js/heatmap.js:71-104 | after the loop over a property list, a property holds its default exactly when it was `undefined` and is in the list; otherwise it is unchanged; `colorSet` is never touched |
| Config.ResolveFillsGaps | static/js/heatmap.js:73-103 | after `checkDefaults` every recognised property is defined, and each one that was `undefined` holds its documented default |
| Config.ResolveKeepsGiven | static/js/heatmap.js:73 | a property the caller defined, even as 0 or `false`, keeps its value, and so does `colorSet` |
| Config.ResolveComplete | static/js/heatmap.js:71-104 | an object that defines every property is left as it is |
| Config.ResolveIdempotent | static/js/heatmap.js:59-107 | running `checkDefaults` twice gives what running it once gives |
| Config.ResolveEmpty | static/js/heatmap.js:64-104 | with no options the grid is 7 rows by 4 columns, border 10, gutters 5, blue to red, radius 10, stroked |
| MaxValue.MaxOfBounds | static/js/heatmap.js:110-125 | the scan's result is at least 0, at least every element, and is 0 or one of the elements |
| MaxValue.MaxOfNonPositive | static/js/heatmap.js:114-124 | a dataset with nothing above 0, the empty one included, gives 0 |
| MaxValue.GetMaxValue | static/js/heatmap.js:110-125 | the loop returns `MaxOf(arr)`: at least 0, an upper bound of the data, and 0 or an element |
| Grid.RectPathRun | static/js/heatmap.js:234-242 | after its `beginPath` and `moveTo`, the outline is one open subpath: four lines and four curves, then a single `closePath` |
| Grid.RectPathClosed | static/js/heatmap.js:232-242 | the path is `beginPath`, `moveTo` the top-left tangent point, then eight segments alternating line and curve, each starting where the previous ended, the last ending back at the start, then `closePath` |
| Grid.NormaliseRadius | static/js/heatmap.js:216-231 | the radii drawn with are 5 for an omitted radius, the number on every corner, or each corner `\|\| 0`; a radius object gets every corner defined, falsy ones as 0, and still stands for the same radii |
| Grid.TracePath | static/js/heatmap.js:232-242 | appends exactly the eleven path calls of `RectPath`, `beginPath` to `closePath`, and leaves the fill style alone |
| Grid.DrawRoundedRect | static/js/heatmap.js:210-251 | appends the path, `fill()` with the current style when `fill`, and `stroke()` when `stroke` (which defaults to `true`); the radius object is normalised and keeps its radii |
| Grid.RowMajorIndex | static/js/heatmap.js:172-206 | linear index `i * cols + j` divides back into row `i` and column `j` |
| Grid.RowStartIsProduct | static/js/heatmap.js:164-206 | the counter at the start of row `i` is `i * cols` |
| Grid.CountWhenBroken | static/js/heatmap.js:204 | when the early exit fires after cell (i, j), exactly `n + 1` cells have been drawn |
| Grid.CountWhenFinished | static/js/heatmap.js:172-206 | a walk that is never cut short draws every cell of the grid |
| Grid.CellBoxAt | static/js/heatmap.js:194-200 | cell number `i * cols + j` is drawn at (border + j * boxWidth, border + i * boxHeight), one gutter smaller than the pitch |
| Grid.SetColors | static/js/heatmap.js:253-256 | sets and returns the fill style `#` + the gradient's colour for `arr[curBox]`, issuing no drawing call |
| Grid.ChooseMode | static/js/heatmap.js:177-191 | -1 gives white and no outline; 0 gives white and an outline; anything else gives the gradient colour and the `stroke` option |
| Grid.DrawCellRect | static/js/heatmap.js:194-203 | the cell's `drawRoundedRect` call issues exactly `CellTrace` for that cell, at the cell's position, with the configured radii |
| Grid.NormalisedIdempotent | static/js/heatmap.js:226-230 | normalising a radius object a second time changes nothing |
| Grid.DrawCell | static/js/heatmap.js:177-203 | one step of the inner loop extends the drawn cells by exactly the next one and keeps the options unchanged |
| Grid.DrawRow | static/js/heatmap.js:175-205 | a row draws its cells in order; it stops with `n + 1` cells drawn when the values run out, and otherwise ends at the start of the next row |
| Grid.DrawGrid | static/js/heatmap.js:151-208 | a pass appends exactly `GridTrace` (the first `CellCount` cells in row-major order) and leaves the last cell's style as the fill style; the radii it draws with are unchanged; a radius object is normalised once a cell is drawn |
| Grid.CellsTraceNoReset | static/js/heatmap.js:151-208 | drawing cells never resizes the canvas: no command of a pass is a reset |
| Grid.Render | static/js/heatmap.js:131-148 | `render` resets the context, then appends one pass; afterwards the canvas shows exactly that pass, and the fill style is the last drawn cell's, or `#000000` when no cell is drawn |
| GridFacts.RoundedRectFills | static/js/heatmap.js:232-250 | the outline path contains no fill, and a rounded rectangle fills once when asked to and never otherwise |
| GridFacts.CellTraceFills | static/js/heatmap.js:194-203 | each cell is filled exactly once |
| GridFacts.CellsFillCount | static/js/heatmap.js:172-206 | the first `m` cells make exactly `m` fills |
| GridFacts.GridFillCount | static/js/heatmap.js:151-208 | a pass makes exactly `CellCount` fills, one per drawn cell |
| GridFacts.CellReads | static/js/heatmap.js:177-182 | on a non-empty grid, a pass reads past the dataset exactly when the grid has more cells than values; only the last drawn cell, number `n`, reads `undefined`; every other cell reads its own value |
| GridFacts.PitchTimesCount | static/js/heatmap.js:158-159 | `count` pitches cover the usable extent plus one gutter |
| GridFacts.GridSpan | static/js/heatmap.js:153-159 | the cells start at the border, end at the border on the far sides, and neighbours are exactly one gutter apart in both directions |
| GridFacts.CellModes | static/js/heatmap.js:177-191 | after its outline, a -1 cell fills white only; a 0 cell fills white and strokes; any other cell fills with the gradient colour and strokes as the option says |
| GridFacts.NormalisedKeepsRadii | static/js/heatmap.js:226-230 | normalising defines every corner and keeps the radii the object stands for |
| GridFacts.SmallGridCounts | static/js/heatmap.js:164-206 | 2x2 over three values draws 4 cells (the 4th reads `undefined`); 2x2 over six draws 4; 7x4 over none draws 1; 0 rows draws none |
| GridFacts.PitchExample | static/js/heatmap.js:153-159 | a 410-wide canvas with border 10, 4 columns and gutter 5 has pitch 98.75, with the 4th column at 306.25 and 93.75 wide |
| Heatmap.Prepare | static/js/heatmap.js:17-37 | an omitted options object becomes a fresh `{}`, otherwise the caller's object is used; it gets `colorSet` set to the fresh gradient and the dataset, then is defaulted (`Resolve`); the gradient spans the low to the high colour over [0, MaxOf(dataset)]; a given radius is kept and a missing one becomes 10 |
| Heatmap.Session.constructor | static/js/heatmap.js:13-45 | after the set-up the session is valid and one `render` has run: the trace grows by a reset and `GridTrace`, the canvas shows exactly that pass, the fill style is the last drawn cell's or `#000000` when none is drawn, and the caller's radius object is normalised once a cell is drawn |
| Heatmap.Session.Handler | static/js/heatmap.js:46-48 | a redraw appends a reset and one more pass with the same configuration, so the canvas shows exactly that pass; the fill style is the last cell's or `#000000`; the radius object is normalised once a cell is drawn; the session stays valid |
| Heatmap.Session.HandlerTwice | static/js/heatmap.js:46-52 | two redraws at the same size append reset and pass twice, and end in the state one redraw leaves: the canvas shows one pass, the same fill style, the radius object normalised once, even though the first may have normalised the caller's radius object |

## Left out

- `setGrid`'s measurement is not modelled: the size it reads from the container is a `Size` parameter of a pass, and the 2D context is an object passed in. Its width and height assignments are modelled as one reset of the context, since resetting again changes nothing.
- `document.getElementById` for the canvas is not modelled either: the session takes the context directly.
- The commented-out resize listener and `getHandler` are not modelled: the handler is the method `Heatmap.Session.Handler`.
- `module.exports` is not modelled.
- The gradient library's internals are not modelled: `colorAt` is a fixed but unspecified function of the engine's configuration and the value.
- `Gradient.Rainbow.SetNumberRange` and `Gradient.Rainbow.ColorAt` are assumed to return normally for every input the heatmap gives them. That includes the zero-width range `setNumberRange(0, 0)`, which every dataset whose maximum is 0 produces (the empty one included), and `colorAt(undefined)` for the cell past the data. If the library threw on either, that cell would not be drawn, or the session would not be built. `GridFacts.CellReads`, `GridFacts.SmallGridCounts` and the one pass the constructor draws all rest on this assumption.
- `Grid.SetColors`, `Grid.ChooseMode` and `Grid.DrawGrid`: every style the heatmap assigns, `"#" + colorAt(v)` for the cell past the data included, is assumed to be a colour the canvas accepts, already in canonical form. For a string it rejects, a canvas keeps the previous fill style, which the model does not capture. The fill styles that `Grid.Render`, `GridFacts.CellModes` and `Heatmap.Session` state rest on this.
- Canvas pixels are not modelled: the context records the calls made on it, and `fill()` records the fill style in force.
- Numbers are mathematical reals, not IEEE doubles. `Infinity`, `NaN` and rounding are not modelled. When `rows` or `cols` is 0, the code divides by zero, but the result is never used because no cell is drawn; the model gives the pitch as 0 there.
- `rows` and `cols` are integers: fractional counts, which JavaScript's `<` would round up, are not modelled.
- Options hold values of their own types: JavaScript coercion of, say, a string `rows` is not modelled.
- `Grid.DrawGrid`: takes a dataset of numbers only; `undefined`, `null` or string entries inside `arr` are not modelled.
- `MaxValue.GetMaxValue`: compares reals, not JavaScript values, so `NaN` and mixed types are not covered.
- `Heatmap.Session`: the dataset is an immutable value and `Handler` requires `Valid()`. In JavaScript, `options.colorSet.arr` is the caller's own array and every redraw reads it again, while the number range set at construction stays fixed. So "the same pass twice" holds in the source only if the caller leaves that array unchanged. A caller who changes the options object after construction is excluded by `Valid()`, which asks for the session's `colorSet` and for every option to be defined. The source still redraws those cases: a changed `colors` keeps the old spectrum, `rows` set back to `undefined` draws no cells, and `radius` set back to `undefined` draws with radius 5. Neither later change is modelled.
- sim.py is not part of this model: it drives a class whose source is not included.
