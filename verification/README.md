# cyto renderer: a verified model of its paint-state machine

cyto is a small creative-coding library. Its `Renderer` sits over a 2D canvas
context and gives sketches `stroke`/`fill`/`noStroke`/`noFill`, path building,
`save`/`restore`, a full-surface `applyBackground` and size setters. This
project models that renderer as immutable Dafny records and pure transition
functions, and proves what each call does and what holds across sequences of
calls.

- `canvas2d.dfy`, module `Canvas2D`: the abstract 2D context. It holds
  `strokeStyle`, `fillStyle` and `lineWidth` as opaque values stored
  verbatim, the drawing-state stack of `save()`/`restore()`, the current path
  as a sequence of segments, and an append-only log of paint events
  (`Stroke(color, path)`, `Fill(color, path)`, `FillRect(color, w, h)`). The
  save stack follows the HTML Living Standard's drawing-state stack for
  `CanvasRenderingContext2D`, where `restore()` on an empty stack does
  nothing.
- `canvas_element.dfy`, module `CanvasElement`: the `<canvas>` element. It
  holds the backing-store width and height, the CSS `style.width`/`style.height`
  and the attribute map. It also renders a number the way `w + 'px'` does
  (decimal digits) and parses it back.
- `renderer.dfy`, module `Renderer`: the renderer record. It holds the
  canvas, the context, the closure variable that caches the stroke colour,
  and the two sticky flags `hasStroke` and `hasFill`. It has one function
  per accessor and method of the canvas flavour of `Renderer`.
- `sketch.dfy`, module `Sketch`: a `Call` datatype covering every renderer
  call and the outside writes to the raw context, plus `Step` and `Run` over
  call sequences. Its lemmas cover the four-state flag machine, the shut
  gates, colour stickiness, drift and its repair, and log monotonicity.

JavaScript's `undefined` is modelled as the value `Undefined`. A bare
`stroke()` is `Stroke(r, Undefined)`, because the source tests
`c !== undefined`. The stroke cache also starts as `Undefined`.

Only the canvas flavour of the renderer is modelled. A `Renderer` value always
owns a 2D context, so "is canvas" holds by construction and the drawing
operations need no precondition.

Two facts about the code shape the model:
- Only the stroke colour is cached. The `fillStyle` accessor passes straight
  through to the context, so an outside write to the fill style is never
  repaired (`DriftRepairedForStrokeOnly`).
- The renderer-type guard `!type == 'canvas'` compares a boolean with a
  string, so it is always false and its error branch is unreachable. That
  branch is left out.

Two consequences of the code follow from the model:
- A freshly constructed renderer is not coherent. Its cache is `undefined`
  while the context holds `#000000`, so the first read of `strokeStyle`
  writes `undefined` into the context (a real canvas would ignore that write).
- A `restore()` can bring back an older stroke style without touching the
  cache (`Sketch.RestoreDriftsAndReadRepairs`).

## Model

| member | source | states |
|---|---|---|
| Renderer.New | cyto-lib/src/cyto/Renderer.js:52-112 | the canvas branch of construction binds a fresh 2D context, leaves the stroke cache undefined and starts with stroke and fill both disabled |
| Renderer.SetLineWidth | cyto-lib/src/cyto/Renderer.js:61-65 | the `lineWidth` setter forwards to the context, so the getter then reads `w`; styles, stack, path, log, flags and cache are untouched |
| Renderer.StrokeStyle | cyto-lib/src/cyto/Renderer.js:79-86 | the `strokeStyle` getter always returns the cached colour and leaves the context coherent with it; with no drift it changes nothing; otherwise only the context stroke style changes |
| Renderer.SetStrokeStyle | cyto-lib/src/cyto/Renderer.js:87-89 | the `strokeStyle` setter puts the same colour in the cache and the context, leaving them coherent, with nothing else changed |
| Renderer.FillStyle | cyto-lib/src/cyto/Renderer.js:94-95 | the `fillStyle` getter returns the context's fill style and changes nothing: there is no cache and no repair |
| Renderer.SetFillStyle | cyto-lib/src/cyto/Renderer.js:94-98 | the `fillStyle` setter writes only the context's fill style, so the getter then reads `c`; flags and stroke cache are untouched |
| Renderer.SetHasStroke | cyto-lib/src/cyto/Renderer.js:100-105 | the `hasStroke` setter sets that flag and nothing else |
| Renderer.SetHasFill | cyto-lib/src/cyto/Renderer.js:107-112 | the `hasFill` setter sets that flag and nothing else |
| Renderer.Reset | cyto-lib/src/cyto/Renderer.js:56-59 | `_reset` leaves the context stroke style equal to the cached colour and the fill style, line width, stack, path, log and flags unchanged; on a coherent renderer it is a no-op |
| Renderer.Width | cyto-lib/src/cyto/Renderer.js:118-119 | the `width` getter reads the backing-store width, which on a canvas whose views are in step is also what the CSS width and the `width` attribute read back as |
| Renderer.Height | cyto-lib/src/cyto/Renderer.js:128-129 | the `height` getter reads the backing-store height, which on a canvas whose views are in step is also what the CSS height and the `height` attribute read back as |
| Renderer.SetWidth | cyto-lib/src/cyto/Renderer.js:118-126 | after setting `width` to `w`, `width` reads `w`, the style width is `w` in decimal followed by `px`, the `width` attribute is `w` in decimal, all three agree; no other attribute changes, the height and its in-step views are kept, and the drawing state is untouched |
| Renderer.SetHeight | cyto-lib/src/cyto/Renderer.js:128-136 | the same for `height`: no other attribute changes, and the width and its in-step views are kept |
| CanvasElement.SetWidth | cyto-lib/src/cyto/Renderer.js:120-124 | the element's CSS width, backing width and attribute all take `w` and stay in step; a height in step stays in step |
| CanvasElement.SetHeight | cyto-lib/src/cyto/Renderer.js:130-134 | the symmetric statement for the height |
| CanvasElement.DecimalRoundTrip | cyto-lib/src/cyto/Renderer.js:121-123 | the decimal text a size is written as reads back as the same size |
| CanvasElement.PixelsRoundTrip | cyto-lib/src/cyto/Renderer.js:121 | the `w + 'px'` style text reads back as `w` pixels |
| Canvas2D.SaveRestoreIsolates | cyto-lib/src/cyto/Renderer.js:143-149 | a `save()` followed by style changes and a `restore()` brings back exactly the saved styles and stack, keeping path and log |
| Renderer.ApplyBackground | cyto-lib/src/cyto/Renderer.js:140-150 | `applyBackground(c)` appends exactly one `FillRect(c, width, height)`; styles, line width, stack, path, flags, cache and canvas are as before |
| Renderer.Background | cyto-lib/src/cyto/Renderer.js:157-160 | `background(c)` paints the same single full-surface rectangle as `applyBackground(c)` and likewise leaves styles, stack, path, flags and cache as they were |
| Renderer.Bg | cyto-lib/src/cyto/Renderer.js:152-155 | `bg(c)` paints the same single full-surface rectangle as `applyBackground(c)` and likewise leaves styles, stack, path, flags and cache as they were |
| Renderer.BeginPath | cyto-lib/src/cyto/Renderer.js:170-172 | `beginPath()` empties the path and changes no style, stack, log, flag or cache |
| Renderer.ClearPath | cyto-lib/src/cyto/Renderer.js:174-176 | `clearPath()` has exactly the effect of `beginPath()` |
| Renderer.ClosePath | cyto-lib/src/cyto/Renderer.js:178-180 | `closePath()` appends a close segment to the path and changes nothing else |
| Renderer.MoveTo | cyto-lib/src/cyto/Renderer.js:219-221 | `moveTo(x, y)` appends that segment to the path and changes nothing else |
| Renderer.LineTo | cyto-lib/src/cyto/Renderer.js:215-217 | `lineTo(x, y)` appends that segment to the path and changes nothing else |
| Renderer.QuadraticCurveTo | cyto-lib/src/cyto/Renderer.js:227-229 | `quadraticCurveTo` appends that segment to the path and changes nothing else |
| Renderer.Save | cyto-lib/src/cyto/Renderer.js:186-188 | `save()` pushes the current styles; styles, path, log, flags and cache are unchanged |
| Renderer.Restore | cyto-lib/src/cyto/Renderer.js:231-233 | `restore()` makes the top saved styles current and pops them, and is a no-op on an empty stack; path, log, flags and cache are unchanged |
| Renderer.SaveThenRestore | cyto-lib/src/cyto/Renderer.js:186-233 | `save()` then `restore()` gives back the renderer unchanged |
| Renderer.Stroke | cyto-lib/src/cyto/Renderer.js:191-199 | with a colour: cache and context stroke style become it, stroking is enabled, and exactly one `Stroke(c, path)` is logged; bare: one `Stroke` with the context style is logged if enabled, otherwise nothing, and no style, flag or path changes |
| Renderer.NoStroke | cyto-lib/src/cyto/Renderer.js:201-203 | `noStroke(color)` clears only `hasStroke`, whatever its argument |
| Renderer.Fill | cyto-lib/src/cyto/Renderer.js:205-213 | with a colour: only the context fill style becomes it, filling is enabled, and exactly one `Fill(c, path)` is logged; bare: one `Fill` with the context style is logged if enabled, otherwise nothing |
| Renderer.NoFill | cyto-lib/src/cyto/Renderer.js:223-225 | `noFill()` clears only `hasFill` |
| Renderer.ExternalStrokeStyle | cyto-lib/src/cyto/Renderer.js:182-184 | a write through the leaked raw context changes the context stroke style only, not the cache |
| Renderer.ExternalFillStyle | cyto-lib/src/cyto/Renderer.js:182-184 | a write through the leaked raw context changes the context fill style only |
| Renderer.DriftRepairedForStrokeOnly | cyto-lib/src/cyto/Renderer.js:79-98 | after an outside write, reading `strokeStyle` returns the cached colour and restores the renderer exactly, while reading `fillStyle` returns the outside value and leaves it in place |
| Sketch.StartsDisabled | cyto-lib/src/cyto/Renderer.js:100-112 | the flag machine starts in (disabled, disabled) |
| Sketch.FlagsFollowToggles | cyto-lib/src/cyto/Renderer.js:191-225 | after any call sequence the two flags are exactly what the toggle-only four-state machine computes: only coloured stroke/fill, noStroke/noFill and the flag setters move it |
| Sketch.NeutralCallsKeepPaintState | cyto-lib/src/cyto/Renderer.js:56-188 | path building, save/restore, backgrounds, sizes, line width, getters, `_reset` and outside writes never change a flag or the cached stroke colour |
| Sketch.RunExtendsLog | cyto-lib/src/cyto/Renderer.js:140-233 | no call ever removes or rewrites a logged paint event |
| Sketch.StrokeGateStaysShut | cyto-lib/src/cyto/Renderer.js:196-203 | while stroking is disabled and no call enables it, any call sequence only extends the log, adds no outline, and leaves stroking disabled |
| Sketch.FillGateStaysShut | cyto-lib/src/cyto/Renderer.js:210-225 | while filling is disabled and no call enables it, any call sequence only extends the log, adds no path fill, and leaves filling disabled |
| Sketch.BareStrokesAfterNoStroke | cyto-lib/src/cyto/Renderer.js:191-203 | `noStroke()` followed by any number of bare `stroke()` calls leaves the renderer exactly as `noStroke()` did |
| Sketch.BareFillsAfterNoFill | cyto-lib/src/cyto/Renderer.js:205-225 | `noFill()` followed by any number of bare `fill()` calls leaves the renderer exactly as `noFill()` did |
| Sketch.ColouredStrokeReopens | cyto-lib/src/cyto/Renderer.js:191-203 | after `noStroke()`, `stroke(c)` paints one outline in `c` and leaves stroking enabled |
| Sketch.FillColourPersists | cyto-lib/src/cyto/Renderer.js:205-213 | an enabled fill colour stays enabled and in force across any calls other than a new fill colour, a disabling of filling, a restore or a resize (bare `fill()` and re-enabling included), and every path fill painted meanwhile is in it |
| Sketch.StrokeColourPersists | cyto-lib/src/cyto/Renderer.js:191-199 | an enabled stroke colour, cached and in the context, survives any calls other than a new stroke colour, a disabling of stroking, a restore or a resize (bare `stroke()` and re-enabling included), and every outline painted meanwhile is in it |
| Sketch.EveryFillInColour | cyto-lib/src/cyto/Renderer.js:205-213 | after `fill(c)` and any calls that keep the fill (no new fill colour, disabling, restore or resize), every path fill logged from `fill(c)` on is in `c` |
| Sketch.EveryOutlineInColour | cyto-lib/src/cyto/Renderer.js:191-199 | after `stroke(c)` and any calls that keep the stroke (no new stroke colour, disabling, restore or resize), every outline logged from `stroke(c)` on is in `c` |
| Sketch.FillSticks | cyto-lib/src/cyto/Renderer.js:205-213 | after `fill(c)`, each bare `fill()` among later calls that keep the fill (no resize among them) paints exactly one fill, of the path current at that point, in `c` |
| Sketch.StrokeSticks | cyto-lib/src/cyto/Renderer.js:191-199 | after `stroke(c)`, each bare `stroke()` among later calls that keep the stroke (no resize among them) paints exactly one outline, of the path current at that point, in `c` |
| Sketch.CoherenceKept | cyto-lib/src/cyto/Renderer.js:79-91 | once the context agrees with the stroke cache, only an outside write, a `restore()` or a resize (which resets the host context) can make them disagree |
| Sketch.RestoreDriftsAndReadRepairs | cyto-lib/src/cyto/Renderer.js:79-91 | `save(); stroke(c); restore()` leaves the context with the old stroke style but the cache at `c`, and a read of `strokeStyle` makes them agree again |
| Sketch.BlueLineScenario | cyto-lib/src/cyto/Renderer.js:170-199 | `beginPath(); moveTo(0,0); lineTo(10,0); stroke(blue)` on a new renderer logs exactly one blue outline of that two-segment path and leaves stroking enabled |

## Left out

- The non-canvas branch of construction, including the renderer-type guard and the "webgl is not yet supported" message. The guard can never fire, and a non-canvas instance has no context at all. The model represents only a canvas renderer.
- `clear()`: it assigns the `background` method itself as the fill style, so its painting has no meaningful colour.
- `getContext()`: it hands out the raw context. Its effect is modelled as the outside writes `ExternalStrokeStyle`, `ExternalFillStyle` and `Sketch.Call.ExternalLineWidth`.
- `_rootAccessible`, the `enumerable` flags of the accessors, and the `TODO` line-style accessors, which have no behaviour.
- The real canvas's behaviour: colour-string normalisation, ignoring invalid style values such as `undefined`, numeric validation of `lineWidth`, floating-point coordinates (modelled as `real`), rasterisation and pixel contents. The context stores values verbatim and records paint events only.
- A real canvas resets its context whenever its `width` or `height` is assigned: stroke style, fill style and line width go back to their defaults, the save stack is emptied, the current path is cleared and the bitmap is wiped. That reset belongs to the host environment, not to the renderer, and it is not modelled. No modelled call empties the save stack or the path in that way. Because a resize does reset the styles on a real canvas, `Sketch.KeepsFill`, `Sketch.KeepsStroke` and `Sketch.KeepsCoherent` exclude `SetWidth` and `SetHeight`, so the colour-persistence and coherence lemmas promise nothing across a resize.
- Renderer.SetWidth: states `r'.ctx == r.ctx`, so it leaves out the host's context reset described above.
- Renderer.SetHeight: states `r'.ctx == r.ctx`, so it leaves out the host's context reset described above.
- Renderer.SetWidth: sizes are unbounded `nat`s. A real canvas limits `width` to 0..2147483647 and reads the default 300 for a value outside it, while `style.width` would still say the assigned value, so "the getter reads `w`" is promised only within that range.
- Renderer.SetHeight: the same range limit for `height`.
- CanvasElement.Decimal: matches JavaScript's `String(n)` only for integers below 10^21, where JavaScript switches to exponent form, and JavaScript numbers are exact only up to 2^53.
- Renderer.New: `getContext('2d')` is taken to return a fresh context. A canvas whose context already exists would return that one with its current state.
- Renderer.SetHasStroke: the source stores any JavaScript value and tests its truthiness; the model takes a boolean.
- Renderer.SetHasFill: the same simplification to a boolean.
- Sketch loading, the per-frame draw loop, the shape classes and the global `cyto` object (`cyto-lib/src/cyto/Cyto.js`), and the build tooling (`cyto-lib/Gruntfile.js`). None of them is part of the renderer's state machine.
