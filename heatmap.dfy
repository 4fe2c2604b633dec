/**
 * The `heatmap` entry point: it attaches the dataset and a fresh gradient to the options,
 * fills the option defaults, configures the gradient from the colours and the dataset's
 * maximum, draws the grid once, and keeps a handler that redraws with the same options.
 */
module Heatmap {
  import opened JsValues
  import opened Canvas
  import opened Gradient
  import opened Config
  import opened MaxValue
  import opened Grid

  /** The objects the caller passes in that `heatmap` may change: its options and their radius object. */
  function GivenObjects(given: Option<Options>): set<object>
    reads if given.Some? then {given.value} else {}
  {
    if given.Some? then {given.value} + RadiusObjects(given.value.radius) else {}
  }

  /** The options as the caller passed them; an omitted options object counts as `{}`. */
  function GivenValues(given: Option<Options>): OptionValues
    reads if given.Some? then {given.value} else {}
  {
    if given.Some? then given.value.Values() else OptionValues(None, None, None, None, None, None, None, None, None)
  }

  /** The radius option the caller passed, if any. */
  function GivenRadius(given: Option<Options>): Option<Radius>
    reads if given.Some? then {given.value} else {}
  {
    if given.Some? then given.value.radius else None
  }

  /**
   * The set-up at the top of `heatmap`: an omitted options object becomes `{}`, a fresh
   * gradient and the dataset are attached as `colorSet`, the defaults are filled in, and the
   * gradient is set to run from the low to the high colour over [0, maximum of the dataset].
   */
  method Prepare(dataset: seq<real>, given: Option<Options>, palette: Palette) returns (o: Options, c: Rainbow)
    modifies if given.Some? then {given.value} else {}
    ensures fresh(c) && c.palette == palette
    ensures given.Some? ==> o == given.value
    ensures given.None? ==> fresh(o)
    ensures o.Values() == Resolve(old(GivenValues(given)).(colorSet := Some(ColorSet(c, dataset))))
    ensures o.colorSet == Some(ColorSet(c, dataset)) && Drawable(o)
    ensures c.spectrum == Some(Spectrum(o.colors.value.low, o.colors.value.high))
    ensures c.range == Some(NumberRange(0.0, MaxOf(dataset)))
    ensures o.radius == if old(GivenRadius(given)).Some? then old(GivenRadius(given)) else Some(Uniform(10.0))
  {
    c := new Rainbow(palette);
    if given.None? {
      o := new Options();
    } else {
      o := given.value;
    }
    ghost var before := o.Values().(colorSet := Some(ColorSet(c, dataset)));
    o.colorSet := Some(ColorSet(c, dataset));
    o := CheckDefaults(o);
    ResolveFillsGaps(before);
    ResolveKeepsGiven(before);
    assert before.radius.Some? ==> before.Get(RadiusProp) == Some(RadiusV(before.radius.value));
    assert before.radius.None? ==> before.Get(RadiusProp).None?;
    c.SetSpectrum(o.colors.value.low, o.colors.value.high);
    var maxValue := GetMaxValue(dataset);
    c.SetNumberRange(0.0, maxValue);
  }

  /** A heatmap: the canvas it draws on, its options object, its gradient and its dataset. */
  class Session {
    const ctx: Context2D
    const options: Options
    const color: Rainbow
    const dataset: seq<real>

    /**
     * The options carry this session's gradient and dataset, every option is defined, and the
     * gradient runs from the low to the high colour over [0, maximum of the dataset].
     */
    ghost predicate Valid()
      reads this, options, color
    {
      && options.colorSet == Some(ColorSet(color, dataset))
      && Drawable(options)
      && color.spectrum == Some(Spectrum(options.colors.value.low, options.colors.value.high))
      && color.range == Some(NumberRange(0.0, MaxOf(dataset)))
    }

    /** What every pass of this heatmap draws with. */
    function Config(): GridSpec
      requires Valid()
      reads this, options, color, RadiusObjects(options.radius)
    {
      SpecOf(options)
    }

    /** `heatmap(canvasId, dataset, options)`, where `setGrid` sizes the canvas to `size`. */
    constructor (ctx: Context2D, size: Size, dataset: seq<real>, given: Option<Options>, palette: Palette)
      modifies ctx, GivenObjects(given)
      ensures Valid()
      ensures this.ctx == ctx && this.dataset == dataset && fresh(color) && color.palette == palette
      ensures given.Some? ==> options == given.value
      ensures given.None? ==> fresh(options)
      ensures options.Values() == Resolve(old(GivenValues(given)).(colorSet := Some(ColorSet(color, dataset))))
      ensures ctx.trace == old(ctx.trace) + [Command.Reset] + GridTrace(Config(), size)
      ensures SinceReset(ctx.trace) == GridTrace(Config(), size)
      ensures var g := Config(); var n := CellCount(g.layout, |g.arr|);
        ctx.fillStyle == if n == 0 then DefaultFill else CellStyle(g, Read(g.arr, n - 1))
      ensures var n := CellCount(Config().layout, |dataset|);
        CornerState(options.radius)
          == if n == 0 then old(CornerState(GivenRadius(given))) else Normalised(old(CornerState(GivenRadius(given))))
    {
      hide CellTrace;
      var o, c := Prepare(dataset, given, palette);
      this.ctx, this.options, this.color, this.dataset := ctx, o, c, dataset;
      new;
      assert CornerState(options.radius) == old(CornerState(GivenRadius(given)));
      Handler(size);
    }

    /** The resize handler: redraws with the same options object. */
    method Handler(size: Size)
      requires Valid()
      modifies ctx, RadiusObjects(options.radius)
      ensures Valid() && Config() == old(Config())
      ensures ctx.trace == old(ctx.trace) + [Command.Reset] + GridTrace(old(Config()), size)
      ensures SinceReset(ctx.trace) == GridTrace(old(Config()), size)
      ensures var g := old(Config()); var n := CellCount(g.layout, |g.arr|);
        ctx.fillStyle == if n == 0 then DefaultFill else CellStyle(g, Read(g.arr, n - 1))
      ensures var n := CellCount(old(Config()).layout, |dataset|);
        CornerState(options.radius)
          == if n == 0 then old(CornerState(options.radius)) else Normalised(old(CornerState(options.radius)))
    {
      Render(ctx, size, options);
    }

    /**
     * Two redraws at the same size issue the same commands, each pass after its own reset, and
     * leave the canvas as one redraw does: the first pass may normalise the caller's radius
     * object, but the radii it draws with are the ones the second pass reads.
     */
    method HandlerTwice(size: Size)
      requires Valid()
      modifies ctx, RadiusObjects(options.radius)
      ensures Valid() && Config() == old(Config())
      ensures ctx.trace == old(ctx.trace) + [Command.Reset] + GridTrace(old(Config()), size)
                                           + [Command.Reset] + GridTrace(old(Config()), size)
      ensures SinceReset(ctx.trace) == GridTrace(old(Config()), size)
      ensures var g := old(Config()); var n := CellCount(g.layout, |g.arr|);
        ctx.fillStyle == if n == 0 then DefaultFill else CellStyle(g, Read(g.arr, n - 1))
      ensures var n := CellCount(old(Config()).layout, |dataset|);
        CornerState(options.radius)
          == if n == 0 then old(CornerState(options.radius)) else Normalised(old(CornerState(options.radius)))
    {
      Handler(size);
      Handler(size);
      NormalisedIdempotent(old(CornerState(options.radius)));
    }
  }
}
