/** An abstract CanvasRenderingContext2D, reduced to what the renderer touches:
    three paint attributes stored verbatim, the drawing-state stack of
    save()/restore(), the current path, and an append-only log of the paint
    operations that would reach the bitmap. Pixels are never computed. */
module Canvas2D {

  /** A JavaScript value as the renderer passes it around: `undefined`, or an
      opaque token (a colour string, a width) that the context stores as is. */
  datatype Value = Undefined | Val(text: string)

  /** One command of the current path. Coordinates are opaque numbers. */
  datatype Segment =
    | MoveTo(x: real, y: real)
    | LineTo(x: real, y: real)
    | QuadraticCurveTo(cpx: real, cpy: real, x: real, y: real)
    | ClosePath

  /** What a paint call leaves on the surface: the style in force and the
      geometry it was applied to. */
  datatype PaintEvent =
    | Stroke(color: Value, path: seq<Segment>)
    | Fill(color: Value, path: seq<Segment>)
    | FillRect(color: Value, w: nat, h: nat)

  /** The part of the drawing state this model keeps on the save stack. */
  datatype DrawingState = DrawingState(strokeStyle: Value, fillStyle: Value, lineWidth: Value)

  datatype Context = Context(
    strokeStyle: Value,
    fillStyle: Value,
    lineWidth: Value,
    stack: seq<DrawingState>,
    path: seq<Segment>,
    log: seq<PaintEvent>)
  {
    function Current(): DrawingState {
      DrawingState(strokeStyle, fillStyle, lineWidth)
    }

    /** The paint attributes and the save stack, everything except path and log. */
    predicate SameState(other: Context) {
      && strokeStyle == other.strokeStyle
      && fillStyle == other.fillStyle
      && lineWidth == other.lineWidth
      && stack == other.stack
    }
  }

  /** A freshly obtained 2D context: black stroke and fill, line width 1,
      no saved states, an empty path and nothing painted yet. */
  function Fresh(): (ctx: Context)
    ensures ctx.strokeStyle == Val("#000000") && ctx.fillStyle == Val("#000000")
    ensures ctx.lineWidth == Val("1")
    ensures ctx.stack == [] && ctx.path == [] && ctx.log == []
  {
    Context(Val("#000000"), Val("#000000"), Val("1"), [], [], [])
  }

  function SetStrokeStyle(ctx: Context, v: Value): (r: Context)
    ensures r.strokeStyle == v
    ensures r == ctx.(strokeStyle := r.strokeStyle)
  {
    ctx.(strokeStyle := v)
  }

  function SetFillStyle(ctx: Context, v: Value): (r: Context)
    ensures r.fillStyle == v
    ensures r == ctx.(fillStyle := r.fillStyle)
  {
    ctx.(fillStyle := v)
  }

  function SetLineWidth(ctx: Context, v: Value): (r: Context)
    ensures r.lineWidth == v
    ensures r == ctx.(lineWidth := r.lineWidth)
  {
    ctx.(lineWidth := v)
  }

  /** save(): pushes a copy of the current drawing state. */
  function Save(ctx: Context): (r: Context)
    ensures |r.stack| == |ctx.stack| + 1
    ensures r.stack[..|ctx.stack|] == ctx.stack && r.stack[|ctx.stack|] == ctx.Current()
    ensures r.Current() == ctx.Current() && r.path == ctx.path && r.log == ctx.log
  {
    ctx.(stack := ctx.stack + [ctx.Current()])
  }

  /** restore(): pops the top drawing state and makes it current; with an
      empty stack it does nothing. */
  function Restore(ctx: Context): (r: Context)
    ensures ctx.stack == [] ==> r == ctx
    ensures ctx.stack != [] ==>
      && r.Current() == ctx.stack[|ctx.stack| - 1]
      && r.stack == ctx.stack[..|ctx.stack| - 1]
    ensures r.path == ctx.path && r.log == ctx.log
  {
    if ctx.stack == [] then ctx
    else
      var top := ctx.stack[|ctx.stack| - 1];
      ctx.(strokeStyle := top.strokeStyle, fillStyle := top.fillStyle,
           lineWidth := top.lineWidth, stack := ctx.stack[..|ctx.stack| - 1])
  }

  /** A save() followed, after any change of paint attributes alone, by a
      restore() brings back exactly the state that was saved. */
  lemma SaveRestoreIsolates(ctx: Context, inner: Context)
    requires inner.stack == Save(ctx).stack
    ensures Restore(inner).SameState(ctx)
    ensures Restore(inner).path == inner.path && Restore(inner).log == inner.log
  {
  }

  /** beginPath(): empties the current path. */
  function BeginPath(ctx: Context): (r: Context)
    ensures r.path == []
    ensures r.SameState(ctx) && r.log == ctx.log
  {
    ctx.(path := [])
  }

  /** Every path-construction command appends itself to the current path. */
  function AddSegment(ctx: Context, s: Segment): (r: Context)
    ensures |r.path| == |ctx.path| + 1 && r.path[|ctx.path|] == s
    ensures r.path[..|ctx.path|] == ctx.path
    ensures r.SameState(ctx) && r.log == ctx.log
  {
    ctx.(path := ctx.path + [s])
  }

  /** stroke(): outlines the current path with the current stroke style. */
  function StrokePath(ctx: Context): (r: Context)
    ensures r.log == ctx.log + [Stroke(ctx.strokeStyle, ctx.path)]
    ensures r.SameState(ctx) && r.path == ctx.path
  {
    ctx.(log := ctx.log + [Stroke(ctx.strokeStyle, ctx.path)])
  }

  /** fill(): fills the current path with the current fill style. */
  function FillPath(ctx: Context): (r: Context)
    ensures r.log == ctx.log + [Fill(ctx.fillStyle, ctx.path)]
    ensures r.SameState(ctx) && r.path == ctx.path
  {
    ctx.(log := ctx.log + [Fill(ctx.fillStyle, ctx.path)])
  }

  /** fillRect(0, 0, w, h): paints a rectangle with the current fill style
      without touching the current path. */
  function FillRectangle(ctx: Context, w: nat, h: nat): (r: Context)
    ensures r.log == ctx.log + [FillRect(ctx.fillStyle, w, h)]
    ensures r.SameState(ctx) && r.path == ctx.path
  {
    ctx.(log := ctx.log + [FillRect(ctx.fillStyle, w, h)])
  }
}
