/** Sequences of renderer calls, as a sketch issues them frame after frame,
    and what holds across such sequences: the enable flags form a four-state
    machine driven only by the stroke/fill toggles, a disabled gate stays
    shut, and an enabled colour sticks until something replaces it. */
module Sketch {
  import Canvas2D
  import R = Renderer
  import CanvasElement

  /** One call on the renderer's public surface, plus the writes that code
      holding the raw context from `getContext()` can make behind its back. */
  datatype Call =
    | SetLineWidth(w: Canvas2D.Value)
    | ReadLineWidth
    | ReadStrokeStyle
    | SetStrokeStyle(c: Canvas2D.Value)
    | ReadFillStyle
    | SetFillStyle(c: Canvas2D.Value)
    | SetHasStroke(b: bool)
    | SetHasFill(b: bool)
    | Reset
    | SetWidth(n: nat)
    | SetHeight(n: nat)
    | ApplyBackground(c: Canvas2D.Value)
    | Background(c: Canvas2D.Value)
    | Bg(c: Canvas2D.Value)
    | BeginPath
    | ClearPath
    | ClosePath
    | MoveTo(x: real, y: real)
    | LineTo(x: real, y: real)
    | QuadraticCurveTo(cpx: real, cpy: real, x: real, y: real)
    | Save
    | Restore
    | Stroke(c: Canvas2D.Value)
    | NoStroke(c: Canvas2D.Value)
    | Fill(c: Canvas2D.Value)
    | NoFill
    | ExternalStrokeStyle(v: Canvas2D.Value)
    | ExternalFillStyle(v: Canvas2D.Value)
    | ExternalLineWidth(v: Canvas2D.Value)

  /** The renderer after one call; getters contribute only their effect. */
  function Step(r: R.Renderer, call: Call): R.Renderer {
    match call
    case SetLineWidth(w) => R.SetLineWidth(r, w)
    case ReadLineWidth => r
    case ReadStrokeStyle => R.StrokeStyle(r).after
    case SetStrokeStyle(c) => R.SetStrokeStyle(r, c)
    case ReadFillStyle => R.FillStyle(r).after
    case SetFillStyle(c) => R.SetFillStyle(r, c)
    case SetHasStroke(b) => R.SetHasStroke(r, b)
    case SetHasFill(b) => R.SetHasFill(r, b)
    case Reset => R.Reset(r)
    case SetWidth(n) => R.SetWidth(r, n)
    case SetHeight(n) => R.SetHeight(r, n)
    case ApplyBackground(c) => R.ApplyBackground(r, c)
    case Background(c) => R.Background(r, c)
    case Bg(c) => R.Bg(r, c)
    case BeginPath => R.BeginPath(r)
    case ClearPath => R.ClearPath(r)
    case ClosePath => R.ClosePath(r)
    case MoveTo(x, y) => R.MoveTo(r, x, y)
    case LineTo(x, y) => R.LineTo(r, x, y)
    case QuadraticCurveTo(cpx, cpy, x, y) => R.QuadraticCurveTo(r, cpx, cpy, x, y)
    case Save => R.Save(r)
    case Restore => R.Restore(r)
    case Stroke(c) => R.Stroke(r, c)
    case NoStroke(c) => R.NoStroke(r, c)
    case Fill(c) => R.Fill(r, c)
    case NoFill => R.NoFill(r)
    case ExternalStrokeStyle(v) => R.ExternalStrokeStyle(r, v)
    case ExternalFillStyle(v) => R.ExternalFillStyle(r, v)
    case ExternalLineWidth(v) => r.(ctx := Canvas2D.SetLineWidth(r.ctx, v))
  }

  /** The calls applied in order, first to last. */
  function Run(r: R.Renderer, calls: seq<Call>): R.Renderer
    decreases |calls|
  {
    if calls == [] then r else Run(Step(r, calls[0]), calls[1..])
  }

  lemma {:induction false} RunAppend(r: R.Renderer, calls: seq<Call>, more: seq<Call>)
    ensures Run(r, calls + more) == Run(Run(r, calls), more)
    decreases |calls|
  {
    if calls == [] {
      assert calls + more == more;
    } else {
      assert (calls + more)[1..] == calls[1..] + more;
      RunAppend(Step(r, calls[0]), calls[1..], more);
    }
  }

  /** Runs a short call list one step at a time, so that concrete scenarios
      can be read off step by step. */
  function Trace(r: R.Renderer, calls: seq<Call>): (states: seq<R.Renderer>)
    ensures |states| == |calls| + 1 && states[0] == r
    ensures forall i :: 0 <= i < |calls| ==> states[i + 1] == Step(states[i], calls[i])
    decreases |calls|
  {
    if calls == [] then [r] else [r] + Trace(Step(r, calls[0]), calls[1..])
  }

  /** The last state of the trace is the state after the whole run. */
  lemma {:induction false} RunThrough(r: R.Renderer, calls: seq<Call>)
    ensures Run(r, calls) == Trace(r, calls)[|calls|]
    decreases |calls|
  {
    if calls != [] {
      RunThrough(Step(r, calls[0]), calls[1..]);
    }
  }

  // ------------------------------------------------------ the flag machine

  /** The two enable flags, the state the renderer's toggles drive. */
  datatype Flags = Flags(stroke: bool, fill: bool)

  function FlagsOf(r: R.Renderer): Flags {
    Flags(r.hasStroke, r.hasFill)
  }

  /** The flag transition of one call, written without reference to
      colours, paths or the canvas: only the coloured stroke/fill calls, the
      two disabling calls and the two flag setters move it. */
  function Toggle(f: Flags, call: Call): Flags {
    match call
    case Stroke(c) => if c != Canvas2D.Undefined then f.(stroke := true) else f
    case NoStroke(_) => f.(stroke := false)
    case SetHasStroke(b) => f.(stroke := b)
    case Fill(c) => if c != Canvas2D.Undefined then f.(fill := true) else f
    case NoFill => f.(fill := false)
    case SetHasFill(b) => f.(fill := b)
    case _ => f
  }

  function ToggleAll(f: Flags, calls: seq<Call>): Flags
    decreases |calls|
  {
    if calls == [] then f else ToggleAll(Toggle(f, calls[0]), calls[1..])
  }

  lemma StepFollowsToggle(r: R.Renderer, call: Call)
    ensures FlagsOf(Step(r, call)) == Toggle(FlagsOf(r), call)
  {
  }

  /** The renderer's flags follow the four-state machine exactly: after any
      sequence of calls they are what the toggles alone determine. */
  lemma {:induction false} FlagsFollowToggles(r: R.Renderer, calls: seq<Call>)
    ensures FlagsOf(Run(r, calls)) == ToggleAll(FlagsOf(r), calls)
    decreases |calls|
  {
    if calls != [] {
      StepFollowsToggle(r, calls[0]);
      FlagsFollowToggles(Step(r, calls[0]), calls[1..]);
    }
  }

  /** A fresh renderer starts in the (disabled, disabled) state. */
  lemma StartsDisabled(canvas: CanvasElement.Canvas)
    ensures FlagsOf(R.New(canvas)) == Flags(false, false)
  {
  }

  // ------------------------------------------------ calls that leave paint state

  /** Calls that are neither a toggle nor a write of the stroke style through
      the renderer: path building, save/restore, backgrounds, sizes, line
      width, getters, `_reset` and outside writes to the context. */
  predicate PaintNeutral(call: Call) {
    !(call.Stroke? || call.NoStroke? || call.SetHasStroke? || call.SetStrokeStyle?
      || call.Fill? || call.NoFill? || call.SetHasFill?)
  }

  lemma StepKeepsPaintState(r: R.Renderer, call: Call)
    requires PaintNeutral(call)
    ensures R.SamePaintState(r, Step(r, call))
  {
  }

  /** Such calls change neither enable flag nor the cached stroke colour. */
  lemma {:induction false} NeutralCallsKeepPaintState(r: R.Renderer, calls: seq<Call>)
    requires forall i :: 0 <= i < |calls| ==> PaintNeutral(calls[i])
    ensures R.SamePaintState(r, Run(r, calls))
    decreases |calls|
  {
    if calls != [] {
      StepKeepsPaintState(r, calls[0]);
      NeutralCallsKeepPaintState(Step(r, calls[0]), calls[1..]);
    }
  }

  // ---------------------------------------------------------------- the log

  /** `log` extended by zero or more events: paint events are never undone. */
  predicate Extends(log: seq<Canvas2D.PaintEvent>, log': seq<Canvas2D.PaintEvent>) {
    |log| <= |log'| && log'[..|log|] == log
  }

  lemma StepExtendsLog(r: R.Renderer, call: Call)
    ensures Extends(r.ctx.log, Step(r, call).ctx.log)
  {
  }

  lemma {:induction false} RunExtendsLog(r: R.Renderer, calls: seq<Call>)
    ensures Extends(r.ctx.log, Run(r, calls).ctx.log)
    decreases |calls|
  {
    if calls != [] {
      StepExtendsLog(r, calls[0]);
      RunExtendsLog(Step(r, calls[0]), calls[1..]);
    }
  }

  // ----------------------------------------------------------------- the gates

  /** Calls that can switch stroking on. */
  predicate EnablesStroke(call: Call) {
    (call.Stroke? && call.c != Canvas2D.Undefined) || (call.SetHasStroke? && call.b)
  }

  predicate EnablesFill(call: Call) {
    (call.Fill? && call.c != Canvas2D.Undefined) || (call.SetHasFill? && call.b)
  }

  /** A constraint on the paint events logged after some point. */
  datatype Rule =
    | NoOutlines
    | NoFills
    | OutlinesIn(color: Canvas2D.Value)
    | FillsIn(color: Canvas2D.Value)

  predicate Obeys(e: Canvas2D.PaintEvent, rule: Rule) {
    match rule
    case NoOutlines => !e.Stroke?
    case NoFills => !e.Fill?
    case OutlinesIn(c) => e.Stroke? ==> e.color == c
    case FillsIn(c) => e.Fill? ==> e.color == c
  }

  /** Every event of `log` from index `from` on obeys `rule`. */
  predicate ObeyedAfter(log: seq<Canvas2D.PaintEvent>, from: nat, rule: Rule) {
    forall i :: from <= i < |log| ==> Obeys(log[i], rule)
  }

  /** Two extensions that each obey a rule make one extension that obeys it. */
  lemma ObeyedChain(log0: seq<Canvas2D.PaintEvent>, log1: seq<Canvas2D.PaintEvent>,
                    log2: seq<Canvas2D.PaintEvent>, rule: Rule)
    requires Extends(log0, log1) && ObeyedAfter(log1, |log0|, rule)
    requires Extends(log1, log2) && ObeyedAfter(log2, |log1|, rule)
    ensures Extends(log0, log2) && ObeyedAfter(log2, |log0|, rule)
  {
    assert log2[..|log0|] == log2[..|log1|][..|log0|];
    forall i | |log0| <= i < |log2|
      ensures Obeys(log2[i], rule)
    {
      if i < |log1| {
        assert log2[i] == log2[..|log1|][i];
      }
    }
  }

  lemma StepKeepsStrokeShut(r: R.Renderer, call: Call)
    requires !r.hasStroke && !EnablesStroke(call)
    ensures var r1 := Step(r, call);
      && !r1.hasStroke && Extends(r.ctx.log, r1.ctx.log)
      && ObeyedAfter(r1.ctx.log, |r.ctx.log|, NoOutlines)
  {
  }

  lemma StepKeepsFillShut(r: R.Renderer, call: Call)
    requires !r.hasFill && !EnablesFill(call)
    ensures var r1 := Step(r, call);
      && !r1.hasFill && Extends(r.ctx.log, r1.ctx.log)
      && ObeyedAfter(r1.ctx.log, |r.ctx.log|, NoFills)
  {
  }

  /** While stroking is disabled and nothing enables it, no outline is
      painted, whatever else happens: only events other than strokes are
      added to the log. */
  lemma {:induction false} StrokeGateStaysShut(r: R.Renderer, calls: seq<Call>)
    requires !r.hasStroke
    requires forall i :: 0 <= i < |calls| ==> !EnablesStroke(calls[i])
    ensures !Run(r, calls).hasStroke
    ensures Extends(r.ctx.log, Run(r, calls).ctx.log)
    ensures ObeyedAfter(Run(r, calls).ctx.log, |r.ctx.log|, NoOutlines)
    decreases |calls|
  {
    if calls != [] {
      var r1 := Step(r, calls[0]);
      StepKeepsStrokeShut(r, calls[0]);
      StrokeGateStaysShut(r1, calls[1..]);
      ObeyedChain(r.ctx.log, r1.ctx.log, Run(r1, calls[1..]).ctx.log, NoOutlines);
    }
  }

  /** While filling is disabled and nothing enables it, no path is filled. */
  lemma {:induction false} FillGateStaysShut(r: R.Renderer, calls: seq<Call>)
    requires !r.hasFill
    requires forall i :: 0 <= i < |calls| ==> !EnablesFill(calls[i])
    ensures !Run(r, calls).hasFill
    ensures Extends(r.ctx.log, Run(r, calls).ctx.log)
    ensures ObeyedAfter(Run(r, calls).ctx.log, |r.ctx.log|, NoFills)
    decreases |calls|
  {
    if calls != [] {
      var r1 := Step(r, calls[0]);
      StepKeepsFillShut(r, calls[0]);
      FillGateStaysShut(r1, calls[1..]);
      ObeyedChain(r.ctx.log, r1.ctx.log, Run(r1, calls[1..]).ctx.log, NoFills);
    }
  }

  /** After `noStroke()`, any number of bare `stroke()` calls leave the
      renderer exactly as `noStroke()` left it. */
  lemma {:induction false} BareStrokesAfterNoStroke(r: R.Renderer, arg: Canvas2D.Value, n: nat)
    ensures Run(r, [NoStroke(arg)] + Repeat(Stroke(Canvas2D.Undefined), n)) == R.NoStroke(r, arg)
    decreases n
  {
    if n == 0 {
      assert [NoStroke(arg)] + Repeat(Stroke(Canvas2D.Undefined), 0) == [NoStroke(arg)];
    } else {
      var calls := [NoStroke(arg)] + Repeat(Stroke(Canvas2D.Undefined), n - 1);
      assert [NoStroke(arg)] + Repeat(Stroke(Canvas2D.Undefined), n) == calls + [Stroke(Canvas2D.Undefined)];
      RunAppend(r, calls, [Stroke(Canvas2D.Undefined)]);
      BareStrokesAfterNoStroke(r, arg, n - 1);
    }
  }

  lemma {:induction false} BareFillsAfterNoFill(r: R.Renderer, n: nat)
    ensures Run(r, [NoFill] + Repeat(Fill(Canvas2D.Undefined), n)) == R.NoFill(r)
    decreases n
  {
    if n == 0 {
      assert [NoFill] + Repeat(Fill(Canvas2D.Undefined), 0) == [NoFill];
    } else {
      var calls := [NoFill] + Repeat(Fill(Canvas2D.Undefined), n - 1);
      assert [NoFill] + Repeat(Fill(Canvas2D.Undefined), n) == calls + [Fill(Canvas2D.Undefined)];
      RunAppend(r, calls, [Fill(Canvas2D.Undefined)]);
      BareFillsAfterNoFill(r, n - 1);
    }
  }

  /** `n` copies of one call. */
  function Repeat(call: Call, n: nat): (calls: seq<Call>)
    ensures |calls| == n && forall i :: 0 <= i < n ==> calls[i] == call
  {
    if n == 0 then [] else Repeat(call, n - 1) + [call]
  }

  // ---------------------------------------------------------------- stickiness

  /** Calls after which a fill colour set by `fill(c)` is still the one in
      force: anything but a new fill colour, a disabling of filling, a
      `restore()` (which may bring back an older style), or a resize (on a
      real canvas, assigning `width` or `height` resets the context's
      styles). Bare `fill()` calls and re-enabling keep it. */
  predicate KeepsFill(call: Call) {
    !((call.Fill? && call.c != Canvas2D.Undefined) || call.NoFill?
      || (call.SetHasFill? && !call.b) || call.SetFillStyle?
      || call.ExternalFillStyle? || call.Restore?
      || call.SetWidth? || call.SetHeight?)
  }

  predicate KeepsStroke(call: Call) {
    !((call.Stroke? && call.c != Canvas2D.Undefined) || call.NoStroke?
      || (call.SetHasStroke? && !call.b) || call.SetStrokeStyle?
      || call.ExternalStrokeStyle? || call.Restore?
      || call.SetWidth? || call.SetHeight?)
  }

  /** Filling is enabled with colour `c` in the context. */
  predicate FillingWith(r: R.Renderer, c: Canvas2D.Value) {
    r.hasFill && r.ctx.fillStyle == c
  }

  /** Stroking is enabled with colour `c` in the context and in the cache. */
  predicate StrokingWith(r: R.Renderer, c: Canvas2D.Value) {
    r.hasStroke && r.ctx.strokeStyle == c && r.strokeCache == c
  }

  lemma StepKeepsFill(r: R.Renderer, c: Canvas2D.Value, call: Call)
    requires FillingWith(r, c) && KeepsFill(call)
    ensures var r1 := Step(r, call);
      && FillingWith(r1, c) && Extends(r.ctx.log, r1.ctx.log)
      && ObeyedAfter(r1.ctx.log, |r.ctx.log|, FillsIn(c))
  {
  }

  lemma StepKeepsStroke(r: R.Renderer, c: Canvas2D.Value, call: Call)
    requires StrokingWith(r, c) && KeepsStroke(call)
    ensures var r1 := Step(r, call);
      && StrokingWith(r1, c) && Extends(r.ctx.log, r1.ctx.log)
      && ObeyedAfter(r1.ctx.log, |r.ctx.log|, OutlinesIn(c))
  {
  }

  /** An enabled fill colour stays enabled and in force across calls that
      keep it, and every path fill painted meanwhile is in that colour. */
  lemma {:induction false} FillColourPersists(r: R.Renderer, c: Canvas2D.Value, calls: seq<Call>)
    requires FillingWith(r, c)
    requires forall i :: 0 <= i < |calls| ==> KeepsFill(calls[i])
    ensures FillingWith(Run(r, calls), c)
    ensures Extends(r.ctx.log, Run(r, calls).ctx.log)
    ensures ObeyedAfter(Run(r, calls).ctx.log, |r.ctx.log|, FillsIn(c))
    decreases |calls|
  {
    if calls != [] {
      var r1 := Step(r, calls[0]);
      StepKeepsFill(r, c, calls[0]);
      FillColourPersists(r1, c, calls[1..]);
      ObeyedChain(r.ctx.log, r1.ctx.log, Run(r1, calls[1..]).ctx.log, FillsIn(c));
    }
  }

  /** The same for stroking: the colour stays in context and cache, and
      every outline painted meanwhile is in it. */
  lemma {:induction false} StrokeColourPersists(r: R.Renderer, c: Canvas2D.Value, calls: seq<Call>)
    requires StrokingWith(r, c)
    requires forall i :: 0 <= i < |calls| ==> KeepsStroke(calls[i])
    ensures StrokingWith(Run(r, calls), c)
    ensures Extends(r.ctx.log, Run(r, calls).ctx.log)
    ensures ObeyedAfter(Run(r, calls).ctx.log, |r.ctx.log|, OutlinesIn(c))
    decreases |calls|
  {
    if calls != [] {
      var r1 := Step(r, calls[0]);
      StepKeepsStroke(r, c, calls[0]);
      StrokeColourPersists(r1, c, calls[1..]);
      ObeyedChain(r.ctx.log, r1.ctx.log, Run(r1, calls[1..]).ctx.log, OutlinesIn(c));
    }
  }

  /** Every path fill painted from `fill(c)` on, through any calls that
      keep the fill, is in `c`. */
  lemma EveryFillInColour(r: R.Renderer, c: Canvas2D.Value, calls: seq<Call>)
    requires c != Canvas2D.Undefined
    requires forall i :: 0 <= i < |calls| ==> KeepsFill(calls[i])
    ensures var r' := Run(Step(r, Fill(c)), calls);
      Extends(r.ctx.log, r'.ctx.log) && ObeyedAfter(r'.ctx.log, |r.ctx.log|, FillsIn(c))
  {
    var r1 := Step(r, Fill(c));
    FillColourPersists(r1, c, calls);
    ObeyedChain(r.ctx.log, r1.ctx.log, Run(r1, calls).ctx.log, FillsIn(c));
  }

  /** Every outline painted from `stroke(c)` on, through any calls that keep
      the stroke, is in `c`. */
  lemma EveryOutlineInColour(r: R.Renderer, c: Canvas2D.Value, calls: seq<Call>)
    requires c != Canvas2D.Undefined
    requires forall i :: 0 <= i < |calls| ==> KeepsStroke(calls[i])
    ensures var r' := Run(Step(r, Stroke(c)), calls);
      Extends(r.ctx.log, r'.ctx.log) && ObeyedAfter(r'.ctx.log, |r.ctx.log|, OutlinesIn(c))
  {
    var r1 := Step(r, Stroke(c));
    StrokeColourPersists(r1, c, calls);
    ObeyedChain(r.ctx.log, r1.ctx.log, Run(r1, calls).ctx.log, OutlinesIn(c));
  }

  /** `fill(c)` followed by calls that keep the fill: each bare `fill()`
      among them, the `k`-th call say, paints exactly one fill of the path
      current at that point, in `c`. */
  lemma FillSticks(r: R.Renderer, c: Canvas2D.Value, calls: seq<Call>, k: nat)
    requires c != Canvas2D.Undefined
    requires forall i :: 0 <= i < |calls| ==> KeepsFill(calls[i])
    requires k < |calls| && calls[k] == Fill(Canvas2D.Undefined)
    ensures var before := Run(r, [Fill(c)] + calls[..k]);
      Run(r, [Fill(c)] + calls[..k + 1]).ctx.log
        == before.ctx.log + [Canvas2D.Fill(c, before.ctx.path)]
  {
    var pre := calls[..k];
    RunAppend(r, [Fill(c)], pre);
    FillColourPersists(R.Fill(r, c), c, pre);
    assert [Fill(c)] + calls[..k + 1] == ([Fill(c)] + pre) + [Fill(Canvas2D.Undefined)];
    RunAppend(r, [Fill(c)] + pre, [Fill(Canvas2D.Undefined)]);
  }

  /** `stroke(c)` followed by calls that keep the stroke: each bare
      `stroke()` among them paints exactly one outline of the current path,
      in `c`. */
  lemma StrokeSticks(r: R.Renderer, c: Canvas2D.Value, calls: seq<Call>, k: nat)
    requires c != Canvas2D.Undefined
    requires forall i :: 0 <= i < |calls| ==> KeepsStroke(calls[i])
    requires k < |calls| && calls[k] == Stroke(Canvas2D.Undefined)
    ensures var before := Run(r, [Stroke(c)] + calls[..k]);
      Run(r, [Stroke(c)] + calls[..k + 1]).ctx.log
        == before.ctx.log + [Canvas2D.Stroke(c, before.ctx.path)]
  {
    var pre := calls[..k];
    RunAppend(r, [Stroke(c)], pre);
    StrokeColourPersists(R.Stroke(r, c), c, pre);
    assert [Stroke(c)] + calls[..k + 1] == ([Stroke(c)] + pre) + [Stroke(Canvas2D.Undefined)];
    RunAppend(r, [Stroke(c)] + pre, [Stroke(Canvas2D.Undefined)]);
  }

  /** `noStroke()` then `stroke(c)`: the coloured call paints and reopens
      the gate for later bare calls. */
  lemma ColouredStrokeReopens(r: R.Renderer, arg: Canvas2D.Value, c: Canvas2D.Value)
    requires c != Canvas2D.Undefined
    ensures var r' := Run(r, [NoStroke(arg), Stroke(c)]);
      r'.hasStroke && r'.ctx.log == r.ctx.log + [Canvas2D.Stroke(c, r.ctx.path)]
  {
    RunThrough(r, [NoStroke(arg), Stroke(c)]);
  }

  // ------------------------------------------------------------------- drift

  /** Calls that cannot make the context disagree with the stroke cache:
      everything except an outside write, a `restore()` and a resize (which
      on a real canvas resets the context's stroke style). */
  predicate KeepsCoherent(call: Call) {
    !(call.ExternalStrokeStyle? || call.Restore? || call.SetWidth? || call.SetHeight?)
  }

  lemma StepKeepsCoherent(r: R.Renderer, call: Call)
    requires R.Coherent(r) && KeepsCoherent(call)
    ensures R.Coherent(Step(r, call))
  {
  }

  lemma {:induction false} CoherenceKept(r: R.Renderer, calls: seq<Call>)
    requires R.Coherent(r)
    requires forall i :: 0 <= i < |calls| ==> KeepsCoherent(calls[i])
    ensures R.Coherent(Run(r, calls))
    decreases |calls|
  {
    if calls != [] {
      StepKeepsCoherent(r, calls[0]);
      CoherenceKept(Step(r, calls[0]), calls[1..]);
    }
  }

  /** A `restore()` can undo the context's stroke style but not the cache,
      so the renderer drifts; the next read of `strokeStyle` repairs it. */
  lemma RestoreDriftsAndReadRepairs(r: R.Renderer, c: Canvas2D.Value)
    requires c != Canvas2D.Undefined && r.ctx.strokeStyle != c
    ensures var r' := Run(r, [Save, Stroke(c), Restore]);
      !R.Coherent(r') && r'.ctx.strokeStyle == r.ctx.strokeStyle && r'.strokeCache == c
    ensures R.Coherent(Run(r, [Save, Stroke(c), Restore, ReadStrokeStyle]))
  {
    var first := [Save, Stroke(c), Restore];
    RunThrough(r, first);
    var t := Trace(r, first);
    assert t[1] == R.Save(r);
    assert t[2] == R.Stroke(t[1], c);
    assert t[3] == R.Restore(t[2]);
    RunAppend(r, first, [ReadStrokeStyle]);
    assert first + [ReadStrokeStyle] == [Save, Stroke(c), Restore, ReadStrokeStyle];
    assert Run(t[3], [ReadStrokeStyle]) == R.StrokeStyle(t[3]).after;
  }

  // ------------------------------------------------------------------ scenario

  /** A line from (0, 0) to (10, 0) stroked in blue on a new renderer: one
      outline of exactly that path, and stroking left enabled. */
  lemma BlueLineScenario(canvas: CanvasElement.Canvas)
    ensures var r := Run(R.New(canvas),
      [BeginPath, MoveTo(0.0, 0.0), LineTo(10.0, 0.0), Stroke(Canvas2D.Val("#0000ff"))]);
      r.hasStroke
      && r.ctx.log == [Canvas2D.Stroke(Canvas2D.Val("#0000ff"),
                         [Canvas2D.Segment.MoveTo(0.0, 0.0), Canvas2D.Segment.LineTo(10.0, 0.0)])]
  {
    var calls := [BeginPath, MoveTo(0.0, 0.0), LineTo(10.0, 0.0), Stroke(Canvas2D.Val("#0000ff"))];
    RunThrough(R.New(canvas), calls);
    var t := Trace(R.New(canvas), calls);
    assert t[1].ctx.path == [] && t[1].ctx.log == [];
    assert t[2].ctx.path == [Canvas2D.Segment.MoveTo(0.0, 0.0)];
    assert t[3].ctx.path == [Canvas2D.Segment.MoveTo(0.0, 0.0), Canvas2D.Segment.LineTo(10.0, 0.0)];
    assert t[4] == R.Stroke(t[3], Canvas2D.Val("#0000ff"));
  }
}
