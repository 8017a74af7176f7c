/** The canvas renderer of cyto: a paint-state machine over a 2D context.

    It keeps two sticky enable flags that decide whether a bare stroke() or
    fill() paints, and a private copy of the stroke colour that its
    `strokeStyle` getter writes back whenever the context has drifted from it.
    The fill colour has no such copy: `fillStyle` passes straight through.

    Only the canvas flavour of the renderer is represented: a `Renderer` value
    always owns a 2D context, so every drawing operation may be applied. */
module Renderer {
  import opened Canvas2D
  import CanvasElement

  datatype Renderer = Renderer(
    canvas: CanvasElement.Canvas,
    ctx: Context,
    /** The closure variable behind the `strokeStyle` accessor. */
    strokeCache: Value,
    hasStroke: bool,
    hasFill: bool)

  /** What a getter returns, together with the renderer after the read
      (the `strokeStyle` getter may repair the context). */
  datatype Read = Read(value: Value, after: Renderer)

  /** The enable flags and the stroke cache, the renderer's own paint state. */
  predicate SamePaintState(a: Renderer, b: Renderer) {
    a.strokeCache == b.strokeCache && a.hasStroke == b.hasStroke && a.hasFill == b.hasFill
  }

  /** A renderer whose context carries the stroke colour it last set. */
  predicate Coherent(r: Renderer) {
    r.ctx.strokeStyle == r.strokeCache
  }

  /** Construction on a canvas element: a fresh 2D context, nothing cached,
      stroke and fill both disabled. */
  function New(canvas: CanvasElement.Canvas): (r: Renderer)
    ensures !r.hasStroke && !r.hasFill
    ensures r.strokeCache == Undefined
    ensures r.canvas == canvas && r.ctx == Fresh()
    ensures r.ctx.log == [] && r.ctx.path == [] && r.ctx.stack == []
  {
    Renderer(canvas, Fresh(), Undefined, false, false)
  }

  // ---------------------------------------------------------------- accessors

  /** `lineWidth` getter: whatever the context holds. */
  function LineWidth(r: Renderer): (v: Value)
    ensures v == r.ctx.Current().lineWidth
  {
    r.ctx.lineWidth
  }

  /** `lineWidth` setter: forwarded to the context, no cache. */
  function SetLineWidth(r: Renderer, w: Value): (r': Renderer)
    ensures LineWidth(r') == w
    ensures r'.ctx.strokeStyle == r.ctx.strokeStyle && r'.ctx.fillStyle == r.ctx.fillStyle
    ensures r'.ctx.stack == r.ctx.stack && r'.ctx.path == r.ctx.path && r'.ctx.log == r.ctx.log
    ensures SamePaintState(r, r') && r'.canvas == r.canvas
  {
    r.(ctx := Canvas2D.SetLineWidth(r.ctx, w))
  }

  /** `strokeStyle` getter: if the context has drifted from the cached
      colour, the cached colour is written back first; the value read is the
      context's, which is then the cached one. */
  function StrokeStyle(r: Renderer): (res: Read)
    ensures res.value == r.strokeCache
    ensures Coherent(res.after)
    ensures Coherent(r) ==> res.after == r
    ensures res.after.ctx.fillStyle == r.ctx.fillStyle && res.after.ctx.lineWidth == r.ctx.lineWidth
    ensures res.after.ctx.stack == r.ctx.stack && res.after.ctx.path == r.ctx.path
    ensures res.after.ctx.log == r.ctx.log
    ensures SamePaintState(r, res.after) && res.after.canvas == r.canvas
  {
    var r1 := if r.ctx.strokeStyle != r.strokeCache
      then r.(ctx := Canvas2D.SetStrokeStyle(r.ctx, r.strokeCache))
      else r;
    Read(r1.ctx.strokeStyle, r1)
  }

  /** `strokeStyle` setter: the same colour goes to the cache and to the
      context. */
  function SetStrokeStyle(r: Renderer, c: Value): (r': Renderer)
    ensures r'.strokeCache == c && r'.ctx.strokeStyle == c
    ensures Coherent(r')
    ensures r'.ctx.fillStyle == r.ctx.fillStyle && r'.ctx.lineWidth == r.ctx.lineWidth
    ensures r'.ctx.stack == r.ctx.stack && r'.ctx.path == r.ctx.path && r'.ctx.log == r.ctx.log
    ensures r'.hasStroke == r.hasStroke && r'.hasFill == r.hasFill && r'.canvas == r.canvas
  {
    r.(ctx := Canvas2D.SetStrokeStyle(r.ctx, c), strokeCache := c)
  }

  /** `fillStyle` getter: the context's fill style, read without any repair. */
  function FillStyle(r: Renderer): (res: Read)
    ensures res.value == r.ctx.Current().fillStyle
    ensures res.after == r
  {
    Read(r.ctx.fillStyle, r)
  }

  /** `fillStyle` setter: forwarded to the context, no cache. */
  function SetFillStyle(r: Renderer, c: Value): (r': Renderer)
    ensures FillStyle(r').value == c
    ensures r'.ctx.strokeStyle == r.ctx.strokeStyle && r'.ctx.lineWidth == r.ctx.lineWidth
    ensures r'.ctx.stack == r.ctx.stack && r'.ctx.path == r.ctx.path && r'.ctx.log == r.ctx.log
    ensures SamePaintState(r, r') && r'.canvas == r.canvas
  {
    r.(ctx := Canvas2D.SetFillStyle(r.ctx, c))
  }

  /** `hasStroke` setter. */
  function SetHasStroke(r: Renderer, b: bool): (r': Renderer)
    ensures r'.hasStroke == b
    ensures r'.ctx == r.ctx && r'.canvas == r.canvas
    ensures r'.strokeCache == r.strokeCache && r'.hasFill == r.hasFill
  {
    r.(hasStroke := b)
  }

  /** `hasFill` setter. */
  function SetHasFill(r: Renderer, b: bool): (r': Renderer)
    ensures r'.hasFill == b
    ensures r'.ctx == r.ctx && r'.canvas == r.canvas
    ensures r'.strokeCache == r.strokeCache && r'.hasStroke == r.hasStroke
  {
    r.(hasFill := b)
  }

  /** `_reset`: assigns the context its stroke style through the
      `strokeStyle` getter and its fill style through the `fillStyle` getter.
      The first brings the cached stroke colour back; the second writes the
      context's own fill style onto itself. */
  function Reset(r: Renderer): (r': Renderer)
    ensures r'.ctx.strokeStyle == r.strokeCache && Coherent(r')
    ensures r'.ctx.fillStyle == r.ctx.fillStyle && r'.ctx.lineWidth == r.ctx.lineWidth
    ensures r'.ctx.stack == r.ctx.stack && r'.ctx.path == r.ctx.path && r'.ctx.log == r.ctx.log
    ensures SamePaintState(r, r') && r'.canvas == r.canvas
    ensures Coherent(r) ==> r' == r
  {
    var stroke := StrokeStyle(r);
    var r1 := stroke.after.(ctx := Canvas2D.SetStrokeStyle(stroke.after.ctx, stroke.value));
    var fill := FillStyle(r1);
    fill.after.(ctx := Canvas2D.SetFillStyle(fill.after.ctx, fill.value))
  }

  /** `width` getter: the canvas backing-store width, which on a canvas
      whose views are in step is also what the CSS width and the `width`
      attribute say. */
  function Width(r: Renderer): (w: nat)
    ensures w == r.canvas.width
    ensures CanvasElement.WidthInStep(r.canvas) ==>
      && CanvasElement.ParsePixels(r.canvas.styleWidth) == CanvasElement.Some(w)
      && CanvasElement.ParseDecimal(r.canvas.attributes["width"]) == CanvasElement.Some(w)
  {
    r.canvas.width
  }

  /** `height` getter, symmetric to the `width` getter. */
  function Height(r: Renderer): (h: nat)
    ensures h == r.canvas.height
    ensures CanvasElement.HeightInStep(r.canvas) ==>
      && CanvasElement.ParsePixels(r.canvas.styleHeight) == CanvasElement.Some(h)
      && CanvasElement.ParseDecimal(r.canvas.attributes["height"]) == CanvasElement.Some(h)
  {
    r.canvas.height
  }

  /** `width` setter: the CSS width, backing-store width and attribute all
      become `w`; height and the whole drawing state stay as they were. */
  function SetWidth(r: Renderer, w: nat): (r': Renderer)
    ensures Width(r') == w && r'.canvas.styleWidth == CanvasElement.Decimal(w) + "px"
    ensures "width" in r'.canvas.attributes && r'.canvas.attributes["width"] == CanvasElement.Decimal(w)
    ensures r'.canvas.attributes == r.canvas.attributes["width" := CanvasElement.Decimal(w)]
    ensures CanvasElement.WidthInStep(r'.canvas)
    ensures Height(r') == Height(r) && r'.canvas.styleHeight == r.canvas.styleHeight
    ensures CanvasElement.HeightInStep(r.canvas) ==> CanvasElement.HeightInStep(r'.canvas)
    ensures r'.ctx == r.ctx && SamePaintState(r, r')
  {
    r.(canvas := CanvasElement.SetWidth(r.canvas, w))
  }

  /** `height` setter, symmetric to the `width` setter. */
  function SetHeight(r: Renderer, h: nat): (r': Renderer)
    ensures Height(r') == h && r'.canvas.styleHeight == CanvasElement.Decimal(h) + "px"
    ensures "height" in r'.canvas.attributes && r'.canvas.attributes["height"] == CanvasElement.Decimal(h)
    ensures r'.canvas.attributes == r.canvas.attributes["height" := CanvasElement.Decimal(h)]
    ensures CanvasElement.HeightInStep(r'.canvas)
    ensures Width(r') == Width(r) && r'.canvas.styleWidth == r.canvas.styleWidth
    ensures CanvasElement.WidthInStep(r.canvas) ==> CanvasElement.WidthInStep(r'.canvas)
    ensures r'.ctx == r.ctx && SamePaintState(r, r')
  {
    r.(canvas := CanvasElement.SetHeight(r.canvas, h))
  }

  // --------------------------------------------------------------- background

  /** `r'` is `r` with exactly one rectangle of colour `c` covering the whole
      surface painted, and every style, the save stack, the path, the flags,
      the cache and the canvas as before. */
  predicate BackgroundPainted(r: Renderer, r': Renderer, c: Value) {
    && r'.ctx.log == r.ctx.log + [FillRect(c, Width(r), Height(r))]
    && r'.ctx.SameState(r.ctx) && r'.ctx.path == r.ctx.path
    && SamePaintState(r, r') && r'.canvas == r.canvas
  }

  /** `applyBackground(c)`: inside a save()/restore() pair, sets the fill
      style to `c` and fills the whole surface. */
  function ApplyBackground(r: Renderer, c: Value): (r': Renderer)
    ensures BackgroundPainted(r, r', c)
  {
    var saved := Canvas2D.Save(r.ctx);
    var styled := Canvas2D.SetFillStyle(saved, c);
    var painted := Canvas2D.FillRectangle(styled, r.canvas.width, r.canvas.height);
    SaveRestoreIsolates(r.ctx, painted);
    r.(ctx := Canvas2D.Restore(painted))
  }

  /** `background(c)`: shorthand for `applyBackground(c)`. */
  function Background(r: Renderer, c: Value): (r': Renderer)
    ensures BackgroundPainted(r, r', c)
  {
    ApplyBackground(r, c)
  }

  /** `bg(c)`: shorthand for `background(c)`. */
  function Bg(r: Renderer, c: Value): (r': Renderer)
    ensures BackgroundPainted(r, r', c)
  {
    Background(r, c)
  }

  // -------------------------------------------------------------------- paths

  /** `beginPath()` and `clearPath()`: both start an empty path. */
  function BeginPath(r: Renderer): (r': Renderer)
    ensures r'.ctx.path == []
    ensures r'.ctx.SameState(r.ctx) && r'.ctx.log == r.ctx.log
    ensures SamePaintState(r, r') && r'.canvas == r.canvas
  {
    r.(ctx := Canvas2D.BeginPath(r.ctx))
  }

  function ClearPath(r: Renderer): (r': Renderer)
    ensures r' == BeginPath(r)
  {
    r.(ctx := Canvas2D.BeginPath(r.ctx))
  }

  /** `r'` is `r` with one more segment `s` on its path and nothing else
      changed: no style, stack entry, paint event, flag or cache. */
  predicate PathExtended(r: Renderer, r': Renderer, s: Segment) {
    && r'.ctx.path == r.ctx.path + [s]
    && r'.ctx.SameState(r.ctx) && r'.ctx.log == r.ctx.log
    && SamePaintState(r, r') && r'.canvas == r.canvas
  }

  function ClosePath(r: Renderer): (r': Renderer)
    ensures PathExtended(r, r', Segment.ClosePath)
  {
    r.(ctx := Canvas2D.AddSegment(r.ctx, Segment.ClosePath))
  }

  function MoveTo(r: Renderer, x: real, y: real): (r': Renderer)
    ensures PathExtended(r, r', Segment.MoveTo(x, y))
  {
    r.(ctx := Canvas2D.AddSegment(r.ctx, Segment.MoveTo(x, y)))
  }

  function LineTo(r: Renderer, x: real, y: real): (r': Renderer)
    ensures PathExtended(r, r', Segment.LineTo(x, y))
  {
    r.(ctx := Canvas2D.AddSegment(r.ctx, Segment.LineTo(x, y)))
  }

  function QuadraticCurveTo(r: Renderer, cpx: real, cpy: real, x: real, y: real): (r': Renderer)
    ensures PathExtended(r, r', Segment.QuadraticCurveTo(cpx, cpy, x, y))
  {
    r.(ctx := Canvas2D.AddSegment(r.ctx, Segment.QuadraticCurveTo(cpx, cpy, x, y)))
  }

  // ------------------------------------------------------------- save/restore

  function Save(r: Renderer): (r': Renderer)
    ensures r'.ctx.stack == r.ctx.stack + [r.ctx.Current()]
    ensures r'.ctx.Current() == r.ctx.Current()
    ensures r'.ctx.path == r.ctx.path && r'.ctx.log == r.ctx.log
    ensures SamePaintState(r, r') && r'.canvas == r.canvas
  {
    r.(ctx := Canvas2D.Save(r.ctx))
  }

  /** `restore()`: the context takes back its last saved state. The stroke
      cache is not part of that state, so a restore can leave the context
      drifted from the cache. */
  function Restore(r: Renderer): (r': Renderer)
    ensures r.ctx.stack != [] ==>
      r'.ctx.Current() == r.ctx.stack[|r.ctx.stack| - 1]
      && r'.ctx.stack == r.ctx.stack[..|r.ctx.stack| - 1]
    ensures r.ctx.stack == [] ==> r' == r
    ensures r'.ctx.path == r.ctx.path && r'.ctx.log == r.ctx.log
    ensures SamePaintState(r, r') && r'.canvas == r.canvas
  {
    r.(ctx := Canvas2D.Restore(r.ctx))
  }

  /** save() then restore() gives back the renderer unchanged. */
  lemma SaveThenRestore(r: Renderer)
    ensures Restore(Save(r)) == r
  {
    SaveRestoreIsolates(r.ctx, Canvas2D.Save(r.ctx));
  }

  // ------------------------------------------------------------------ painting

  /** `stroke(c)`: a colour (anything but `undefined`) becomes the stroke
      style and enables stroking; then, if stroking is enabled, the current
      path is outlined with the context's stroke style. */
  function Stroke(r: Renderer, c: Value): (r': Renderer)
    ensures c != Undefined ==>
      && r'.strokeCache == c && r'.ctx.strokeStyle == c && r'.hasStroke
      && r'.ctx.log == r.ctx.log + [Canvas2D.Stroke(c, r.ctx.path)]
    ensures c == Undefined ==>
      && r'.strokeCache == r.strokeCache && r'.ctx.strokeStyle == r.ctx.strokeStyle
      && r'.hasStroke == r.hasStroke
      && r'.ctx.log == r.ctx.log + (if r.hasStroke then [Canvas2D.Stroke(r.ctx.strokeStyle, r.ctx.path)] else [])
    ensures r'.ctx.fillStyle == r.ctx.fillStyle && r'.ctx.lineWidth == r.ctx.lineWidth
    ensures r'.ctx.stack == r.ctx.stack && r'.ctx.path == r.ctx.path
    ensures r'.hasFill == r.hasFill && r'.canvas == r.canvas
  {
    var r1 := if c != Undefined then SetHasStroke(SetStrokeStyle(r, c), true) else r;
    if r1.hasStroke then r1.(ctx := Canvas2D.StrokePath(r1.ctx)) else r1
  }

  /** `noStroke(color)`: disables stroking; the argument is ignored. */
  function NoStroke(r: Renderer, color: Value): (r': Renderer)
    ensures !r'.hasStroke
    ensures r'.ctx == r.ctx && r'.canvas == r.canvas
    ensures r'.strokeCache == r.strokeCache && r'.hasFill == r.hasFill
  {
    r.(hasStroke := false)
  }

  /** `fill(c)`: a colour becomes the context's fill style (there is no fill
      cache) and enables filling; then, if filling is enabled, the current
      path is filled with the context's fill style. */
  function Fill(r: Renderer, c: Value): (r': Renderer)
    ensures c != Undefined ==>
      && r'.ctx.fillStyle == c && r'.hasFill
      && r'.ctx.log == r.ctx.log + [Canvas2D.Fill(c, r.ctx.path)]
    ensures c == Undefined ==>
      && r'.ctx.fillStyle == r.ctx.fillStyle && r'.hasFill == r.hasFill
      && r'.ctx.log == r.ctx.log + (if r.hasFill then [Canvas2D.Fill(r.ctx.fillStyle, r.ctx.path)] else [])
    ensures r'.ctx.strokeStyle == r.ctx.strokeStyle && r'.ctx.lineWidth == r.ctx.lineWidth
    ensures r'.ctx.stack == r.ctx.stack && r'.ctx.path == r.ctx.path
    ensures r'.strokeCache == r.strokeCache && r'.hasStroke == r.hasStroke && r'.canvas == r.canvas
  {
    var r1 := if c != Undefined then SetHasFill(SetFillStyle(r, c), true) else r;
    if r1.hasFill then r1.(ctx := Canvas2D.FillPath(r1.ctx)) else r1
  }

  /** `noFill()`: disables filling. */
  function NoFill(r: Renderer): (r': Renderer)
    ensures !r'.hasFill
    ensures r'.ctx == r.ctx && r'.canvas == r.canvas
    ensures r'.strokeCache == r.strokeCache && r'.hasStroke == r.hasStroke
  {
    r.(hasFill := false)
  }

  // ------------------------------------------------------------ outside writes

  /** A write to the context's stroke style through the raw context that
      `getContext()` hands out: the cache does not see it. */
  function ExternalStrokeStyle(r: Renderer, v: Value): (r': Renderer)
    ensures r'.ctx.strokeStyle == v
    ensures r'.ctx.fillStyle == r.ctx.fillStyle && r'.ctx.lineWidth == r.ctx.lineWidth
    ensures r'.ctx.stack == r.ctx.stack && r'.ctx.path == r.ctx.path && r'.ctx.log == r.ctx.log
    ensures SamePaintState(r, r') && r'.canvas == r.canvas
  {
    r.(ctx := Canvas2D.SetStrokeStyle(r.ctx, v))
  }

  /** The same for the fill style. */
  function ExternalFillStyle(r: Renderer, v: Value): (r': Renderer)
    ensures r'.ctx.fillStyle == v
    ensures r'.ctx.strokeStyle == r.ctx.strokeStyle && r'.ctx.lineWidth == r.ctx.lineWidth
    ensures r'.ctx.stack == r.ctx.stack && r'.ctx.path == r.ctx.path && r'.ctx.log == r.ctx.log
    ensures SamePaintState(r, r') && r'.canvas == r.canvas
  {
    r.(ctx := Canvas2D.SetFillStyle(r.ctx, v))
  }

  /** After an outside write, reading `strokeStyle` returns the cached
      colour and repairs the context, whereas reading `fillStyle` returns the
      outside value and leaves it in place. */
  lemma DriftRepairedForStrokeOnly(r: Renderer, v: Value, w: Value)
    requires Coherent(r) && v != r.strokeCache
    ensures var read := StrokeStyle(ExternalStrokeStyle(r, v));
      read.value == r.strokeCache && read.after == r
    ensures var read := FillStyle(ExternalFillStyle(r, w));
      read.value == w && read.after.ctx.fillStyle == w
  {
  }
}
