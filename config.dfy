/**
 * The heatmap's options object and `checkDefaults`, which gives every one of eight recognised
 * properties a default when the caller left it `undefined` and touches nothing else.
 */
module Config {
  import opened JsValues
  import opened Gradient

  /** The colour pair of the `colors` option. */
  datatype Colors = Colors(low: string, high: string)

  /** The corners of a per-corner radius object. */
  datatype Corner = TL | TR | BR | BL

  /** The order in which `drawRoundedRect` walks the corners of a radius object. */
  const CornerOrder: seq<Corner> := [TL, TR, BR, BL]

  /** The four corners of a radius object, as read at one moment. */
  datatype Corners = Corners(tl: Option<real>, tr: Option<real>, br: Option<real>, bl: Option<real>)

  /** A caller-owned `{tl, tr, br, bl}` object; each corner may be missing. */
  class CornerRadii {
    var tl: Option<real>
    var tr: Option<real>
    var br: Option<real>
    var bl: Option<real>

    constructor (tl: Option<real>, tr: Option<real>, br: Option<real>, bl: Option<real>)
      ensures this.tl == tl && this.tr == tr && this.br == br && this.bl == bl
    {
      this.tl, this.tr, this.br, this.bl := tl, tr, br, bl;
    }

    function Values(): Corners
      reads this
    {
      Corners(tl, tr, br, bl)
    }

    function Get(c: Corner): Option<real>
      reads this
    {
      match c
      case TL => tl
      case TR => tr
      case BR => br
      case BL => bl
    }

    method Set(c: Corner, v: Option<real>)
      modifies this
      ensures Get(c) == v
      ensures forall d :: d != c ==> Get(d) == old(Get(d))
    {
      match c
      case TL => tl := v;
      case TR => tr := v;
      case BR => br := v;
      case BL => bl := v;
    }
  }

  /** The `radius` option: one number for all corners, or a per-corner object. */
  datatype Radius = Uniform(r: real) | PerCorner(obj: CornerRadii)

  /** `options.colorSet`: the gradient engine and the dataset, attached by `heatmap`. */
  datatype ColorSet = ColorSet(color: Rainbow, arr: seq<real>)

  /** The eight properties `checkDefaults` knows about. */
  datatype Property = Rows | Cols | Border | GutterWidth | GutterHeight | ColorsProp | RadiusProp | Stroke

  /** The property list, in the order `checkDefaults` walks it. */
  const Properties: seq<Property> :=
    [Rows, Cols, Border, GutterWidth, GutterHeight, ColorsProp, RadiusProp, Stroke]

  /** The value a property holds, whatever its type. */
  datatype Value =
    | IntV(i: int)
    | RealV(r: real)
    | ColorsV(c: Colors)
    | RadiusV(radius: Radius)
    | BoolV(b: bool)

  /** The documented default of each property. */
  function Default(p: Property): Value
  {
    match p
    case Rows => IntV(7)
    case Cols => IntV(4)
    case Border => RealV(10.0)
    case GutterWidth => RealV(5.0)
    case GutterHeight => RealV(5.0)
    case ColorsProp => ColorsV(Colors("blue", "red"))
    case RadiusProp => RadiusV(Uniform(10.0))
    case Stroke => BoolV(true)
  }

  /** A snapshot of the options object; `None` is a property that is `undefined`. */
  datatype OptionValues = OptionValues(
    rows: Option<int>,
    cols: Option<int>,
    border: Option<real>,
    gutterWidth: Option<real>,
    gutterHeight: Option<real>,
    colors: Option<Colors>,
    radius: Option<Radius>,
    stroke: Option<bool>,
    colorSet: Option<ColorSet>)
  {
    /** `options[name]` for a recognised property. */
    function Get(p: Property): Option<Value>
    {
      match p
      case Rows => if rows.Some? then Some(IntV(rows.value)) else None
      case Cols => if cols.Some? then Some(IntV(cols.value)) else None
      case Border => if border.Some? then Some(RealV(border.value)) else None
      case GutterWidth => if gutterWidth.Some? then Some(RealV(gutterWidth.value)) else None
      case GutterHeight => if gutterHeight.Some? then Some(RealV(gutterHeight.value)) else None
      case ColorsProp => if colors.Some? then Some(ColorsV(colors.value)) else None
      case RadiusProp => if radius.Some? then Some(RadiusV(radius.value)) else None
      case Stroke => if stroke.Some? then Some(BoolV(stroke.value)) else None
    }

    /** Every recognised property is defined. */
    predicate Complete()
    {
      rows.Some? && cols.Some? && border.Some? && gutterWidth.Some? && gutterHeight.Some?
      && colors.Some? && radius.Some? && stroke.Some?
    }
  }

  /** One step of the property loop: an `undefined` property gets its default. */
  function SetDefault(o: OptionValues, p: Property): OptionValues
  {
    if o.Get(p).Some? then o
    else match p
      case Rows => o.(rows := Some(Default(Rows).i))
      case Cols => o.(cols := Some(Default(Cols).i))
      case Border => o.(border := Some(Default(Border).r))
      case GutterWidth => o.(gutterWidth := Some(Default(GutterWidth).r))
      case GutterHeight => o.(gutterHeight := Some(Default(GutterHeight).r))
      case ColorsProp => o.(colors := Some(Default(ColorsProp).c))
      case RadiusProp => o.(radius := Some(Default(RadiusProp).radius))
      case Stroke => o.(stroke := Some(Default(Stroke).b))
  }

  /** The property loop run over the list `ps`, in order. */
  function ResolveAll(o: OptionValues, ps: seq<Property>): OptionValues
    decreases |ps|
  {
    if ps == [] then o else SetDefault(ResolveAll(o, ps[..|ps| - 1]), ps[|ps| - 1])
  }

  /** What `checkDefaults` makes of an options object. */
  function Resolve(o: OptionValues): OptionValues
  {
    ResolveAll(o, Properties)
  }

  /** The JavaScript options object. */
  class Options {
    var rows: Option<int>
    var cols: Option<int>
    var border: Option<real>
    var gutterWidth: Option<real>
    var gutterHeight: Option<real>
    var colors: Option<Colors>
    var radius: Option<Radius>
    var stroke: Option<bool>
    var colorSet: Option<ColorSet>

    /** `{}`: every property `undefined`. */
    constructor ()
      ensures Values() == OptionValues(None, None, None, None, None, None, None, None, None)
    {
      rows, cols, border, gutterWidth, gutterHeight := None, None, None, None, None;
      colors, radius, stroke, colorSet := None, None, None, None;
    }

    function Values(): OptionValues
      reads this
    {
      OptionValues(rows, cols, border, gutterWidth, gutterHeight, colors, radius, stroke, colorSet)
    }
  }

  /** `checkDefaults`: fills the gaps of `options` in place and returns the same object. */
  method CheckDefaults(options: Options) returns (r: Options)
    modifies options
    ensures r == options
    ensures options.Values() == Resolve(old(options.Values()))
  {
    var k := 0;
    while k < |Properties|
      invariant 0 <= k <= |Properties|
      invariant options.Values() == ResolveAll(old(options.Values()), Properties[..k])
    {
      var p := Properties[k];
      assert Properties[..k + 1][..k] == Properties[..k];
      if options.Values().Get(p).None? {
        match p
        case Rows => options.rows := Some(7);
        case Cols => options.cols := Some(4);
        case Border => options.border := Some(10.0);
        case GutterWidth => options.gutterWidth := Some(5.0);
        case GutterHeight => options.gutterHeight := Some(5.0);
        case ColorsProp => options.colors := Some(Colors("blue", "red"));
        case RadiusProp => options.radius := Some(Uniform(10.0));
        case Stroke => options.stroke := Some(true);
      }
      k := k + 1;
    }
    assert Properties[..k] == Properties;
    r := options;
  }

  /** One step of the property loop affects only its own property, and only when that is undefined. */
  lemma SetDefaultGet(o: OptionValues, q: Property, p: Property)
    ensures SetDefault(o, q).Get(p) == if o.Get(p).None? && p == q then Some(Default(p)) else o.Get(p)
    ensures SetDefault(o, q).colorSet == o.colorSet
  {
  }

  /** The property loop only ever affects the properties in its list, and only when undefined. */
  lemma {:induction false} ResolveAllGet(o: OptionValues, ps: seq<Property>, p: Property)
    ensures ResolveAll(o, ps).Get(p) == if o.Get(p).None? && p in ps then Some(Default(p)) else o.Get(p)
    ensures ResolveAll(o, ps).colorSet == o.colorSet
    decreases |ps|
  {
    if ps != [] {
      var front, last := ps[..|ps| - 1], ps[|ps| - 1];
      ResolveAllGet(o, front, p);
      SetDefaultGet(ResolveAll(o, front), last, p);
      assert p in ps <==> p in front || p == last by {
        assert ps == front + [last];
      }
    }
  }

  /** Two snapshots that agree on every recognised property and on `colorSet` are the same. */
  lemma SameValues(a: OptionValues, b: OptionValues)
    requires forall p :: a.Get(p) == b.Get(p)
    requires a.colorSet == b.colorSet
    ensures a == b
  {
    assert a.Get(Rows) == b.Get(Rows) && a.Get(Cols) == b.Get(Cols);
    assert a.Get(Border) == b.Get(Border) && a.Get(GutterWidth) == b.Get(GutterWidth);
    assert a.Get(GutterHeight) == b.Get(GutterHeight) && a.Get(ColorsProp) == b.Get(ColorsProp);
    assert a.Get(RadiusProp) == b.Get(RadiusProp) && a.Get(Stroke) == b.Get(Stroke);
  }

  /** Defaults fill every gap: each recognised property ends up defined, with its default if it was undefined. */
  lemma ResolveFillsGaps(o: OptionValues)
    ensures Resolve(o).Complete()
    ensures forall p :: o.Get(p).None? ==> Resolve(o).Get(p) == Some(Default(p))
  {
    forall p ensures Resolve(o).Get(p).Some? && (o.Get(p).None? ==> Resolve(o).Get(p) == Some(Default(p))) {
      ResolveAllGet(o, Properties, p);
    }
    assert Resolve(o).Get(Rows).Some? && Resolve(o).Get(Cols).Some? && Resolve(o).Get(Border).Some?;
    assert Resolve(o).Get(GutterWidth).Some? && Resolve(o).Get(GutterHeight).Some?;
    assert Resolve(o).Get(ColorsProp).Some? && Resolve(o).Get(RadiusProp).Some? && Resolve(o).Get(Stroke).Some?;
  }

  /** Defaulting keeps what was given: a defined property, even `0` or `false`, and `colorSet` are untouched. */
  lemma ResolveKeepsGiven(o: OptionValues)
    ensures forall p :: o.Get(p).Some? ==> Resolve(o).Get(p) == o.Get(p)
    ensures Resolve(o).colorSet == o.colorSet
  {
    forall p ensures o.Get(p).Some? ==> Resolve(o).Get(p) == o.Get(p) {
      ResolveAllGet(o, Properties, p);
    }
    ResolveAllGet(o, Properties, Rows);
  }

  /** Resolving an options object that already defines every property changes nothing. */
  lemma ResolveComplete(o: OptionValues)
    requires o.Complete()
    ensures Resolve(o) == o
  {
    ResolveKeepsGiven(o);
    forall p ensures Resolve(o).Get(p) == o.Get(p) {
      assert o.Get(p).Some?;
    }
    SameValues(Resolve(o), o);
  }

  /** `checkDefaults` is idempotent. */
  lemma ResolveIdempotent(o: OptionValues)
    ensures Resolve(Resolve(o)) == Resolve(o)
  {
    ResolveFillsGaps(o);
    ResolveComplete(Resolve(o));
  }

  /** With no options supplied, the grid is 7 by 4 with border 10, gutters 5, blue-to-red, radius 10, stroked. */
  lemma ResolveEmpty(cs: Option<ColorSet>)
    ensures Resolve(OptionValues(None, None, None, None, None, None, None, None, cs))
         == OptionValues(Some(7), Some(4), Some(10.0), Some(5.0), Some(5.0), Some(Colors("blue", "red")),
                         Some(Uniform(10.0)), Some(true), cs)
  {
    var o := OptionValues(None, None, None, None, None, None, None, None, cs);
    var d := OptionValues(Some(7), Some(4), Some(10.0), Some(5.0), Some(5.0), Some(Colors("blue", "red")),
                          Some(Uniform(10.0)), Some(true), cs);
    forall p ensures Resolve(o).Get(p) == d.Get(p) {
      ResolveAllGet(o, Properties, p);
    }
    ResolveAllGet(o, Properties, Rows);
    SameValues(Resolve(o), d);
  }
}
