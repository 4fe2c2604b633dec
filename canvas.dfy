/**
 * The 2D drawing context the grid draws on, recorded as a trace of path and paint commands
 * instead of pixels.
 */
module Canvas {

  datatype Point = Pt(x: real, y: real)

  /** The fill style of a fresh context, and of one whose canvas has just been resized. */
  const DefaultFill: string := "#000000"

  datatype Command =
    | BeginPath
    | MoveTo(p: Point)
    | LineTo(p: Point)
    | QuadTo(ctrl: Point, p: Point)
    | ClosePath
    | Fill(style: string)   // fills the current path with the fillStyle in force at that moment
    | Stroke
    | Reset                 // assigning the canvas's width or height: clears the bitmap and the path

  /** One drawn piece of a path, with the point it starts from made explicit. */
  datatype Segment =
    | Line(from: Point, to: Point)
    | Curve(from: Point, ctrl: Point, to: Point)

  /** The immediate-mode context: the current `fillStyle` and everything issued so far. */
  class Context2D {
    var fillStyle: string
    var trace: seq<Command>

    constructor ()
      ensures trace == []
    {
      fillStyle := DefaultFill;
      trace := [];
    }

    method SetFillStyle(style: string)
      modifies this
      ensures fillStyle == style && trace == old(trace)
    {
      fillStyle := style;
    }

    method Emit(c: Command)
      requires !c.Fill? && !c.Reset?
      modifies this
      ensures trace == old(trace) + [c] && fillStyle == old(fillStyle)
    {
      trace := trace + [c];
    }

    method DoFill()
      modifies this
      ensures trace == old(trace) + [Fill(old(fillStyle))] && fillStyle == old(fillStyle)
    {
      trace := trace + [Fill(fillStyle)];
    }

    /**
     * Assigning `canvas.width` or `canvas.height`, even to the same value, resets the context:
     * what was drawn is gone and the fill style is back to its default. Resetting twice in a
     * row is the same as resetting once, so one `Reset` stands for a run of such assignments.
     */
    method Reset()
      modifies this
      ensures trace == old(trace) + [Command.Reset] && fillStyle == DefaultFill
    {
      trace := trace + [Command.Reset];
      fillStyle := DefaultFill;
    }
  }

  /** What the canvas shows: the commands issued since the last reset. */
  function SinceReset(t: seq<Command>): (r: seq<Command>)
    ensures Command.Reset !in r
  {
    if t == [] then []
    else if t[|t| - 1].Reset? then []
    else SinceReset(t[..|t| - 1]) + [t[|t| - 1]]
  }

  /** After a reset, the canvas shows exactly the reset-free commands issued since. */
  lemma {:induction false} SinceLastReset(a: seq<Command>, b: seq<Command>)
    requires Command.Reset !in b
    ensures SinceReset(a + [Command.Reset] + b) == b
    decreases |b|
  {
    if b == [] {
      assert a + [Command.Reset] + b == a + [Command.Reset];
    } else {
      var t := a + [Command.Reset] + b;
      assert t[..|t| - 1] == a + [Command.Reset] + b[..|b| - 1];
      assert b[|b| - 1] in b;
      SinceLastReset(a, b[..|b| - 1]);
      assert b[..|b| - 1] + [b[|b| - 1]] == b;
    }
  }

  /**
   * The segments the `lineTo` and `quadraticCurveTo` calls from index `i` on draw when the pen
   * starts at `pen`, with `moveTo` lifting the pen; the other commands are skipped. This is what
   * a canvas draws only for a run of such calls after a `moveTo` (see `OpenRun`): the closing
   * line of `closePath` and the lost current point after `beginPath` or a reset are not part of it.
   */
  function SegmentsFrom(cmds: seq<Command>, i: nat, pen: Point): seq<Segment>
    decreases |cmds| - i
  {
    if i >= |cmds| then []
    else match cmds[i]
      case MoveTo(p) => SegmentsFrom(cmds, i + 1, p)
      case LineTo(p) => [Line(pen, p)] + SegmentsFrom(cmds, i + 1, p)
      case QuadTo(c, p) => [Curve(pen, c, p)] + SegmentsFrom(cmds, i + 1, p)
      case _ => SegmentsFrom(cmds, i + 1, pen)
  }

  /** Where the pen is after the commands from index `i` on, starting at `pen`. */
  function PenAfter(cmds: seq<Command>, i: nat, pen: Point): Point
    decreases |cmds| - i
  {
    if i >= |cmds| then pen
    else match cmds[i]
      case MoveTo(p) => PenAfter(cmds, i + 1, p)
      case LineTo(p) => PenAfter(cmds, i + 1, p)
      case QuadTo(_, p) => PenAfter(cmds, i + 1, p)
      case _ => PenAfter(cmds, i + 1, pen)
  }

  /** The segments a whole command list draws. */
  function Segments(cmds: seq<Command>, pen: Point): seq<Segment>
  {
    SegmentsFrom(cmds, 0, pen)
  }

  /** Each segment starts where the one before it ended. */
  ghost predicate Connected(segs: seq<Segment>)
  {
    forall i :: 0 < i < |segs| ==> segs[i].from == segs[i - 1].to
  }

  /**
   * From index `i` on, the commands are `lineTo` and `quadraticCurveTo` calls, possibly ended by
   * one `closePath`: one open subpath, which `SegmentsFrom` reads back as a canvas draws it.
   */
  ghost predicate OpenRun(cmds: seq<Command>, i: nat)
  {
    forall k :: i <= k < |cmds| ==> cmds[k].LineTo? || cmds[k].QuadTo? || (k == |cmds| - 1 && cmds[k].ClosePath?)
  }

  /**
   * Along an open subpath, the segments are connected, the first starts at the pen and the
   * last ends where the pen is left.
   */
  lemma {:induction false} SegmentsConnected(cmds: seq<Command>, i: nat, pen: Point)
    requires OpenRun(cmds, i)
    ensures Connected(SegmentsFrom(cmds, i, pen))
    ensures SegmentsFrom(cmds, i, pen) != [] ==> SegmentsFrom(cmds, i, pen)[0].from == pen
    ensures SegmentsFrom(cmds, i, pen) == [] ==> PenAfter(cmds, i, pen) == pen
    ensures SegmentsFrom(cmds, i, pen) != [] ==>
      SegmentsFrom(cmds, i, pen)[|SegmentsFrom(cmds, i, pen)| - 1].to == PenAfter(cmds, i, pen)
    decreases |cmds| - i
  {
    if i < |cmds| {
      var c := cmds[i];
      var next := if c.LineTo? || c.QuadTo? then c.p else pen;
      SegmentsConnected(cmds, i + 1, next);
      var rest := SegmentsFrom(cmds, i + 1, next);
      if c.LineTo? || c.QuadTo? {
        var head := if c.LineTo? then Line(pen, c.p) else Curve(pen, c.ctrl, c.p);
        assert SegmentsFrom(cmds, i, pen) == [head] + rest;
        forall n | 0 < n < |[head] + rest|
          ensures ([head] + rest)[n].from == ([head] + rest)[n - 1].to
        {
          if n == 1 { assert rest[0].from == next; }
          else { assert ([head] + rest)[n] == rest[n - 1]; }
        }
      }
    }
  }

  /** The number of `fill()` calls in a trace. */
  function FillCount(t: seq<Command>): nat
  {
    if t == [] then 0 else (if t[|t| - 1].Fill? then 1 else 0) + FillCount(t[..|t| - 1])
  }

  lemma {:induction false} FillCountAppend(a: seq<Command>, b: seq<Command>)
    ensures FillCount(a + b) == FillCount(a) + FillCount(b)
    decreases |b|
  {
    if b == [] {
      assert a + b == a;
    } else {
      assert (a + b)[..|a + b| - 1] == a + b[..|b| - 1];
      FillCountAppend(a, b[..|b| - 1]);
    }
  }
}
