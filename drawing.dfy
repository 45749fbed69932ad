/**
 * The freehand stroke renderer (class `DrawHandler`): the stroke session
 * fields `isDrawing`, `lastX` and `lastY`, the press, drag and release
 * handlers, the choice of pen or eraser on each drag, and the two slider
 * listeners. The graphics context is a log of the path commands it is given
 * plus its current line width and stroke colour; coordinates are `real`s.
 */
module Drawing {
  import opened Wrappers

  datatype Point = Point(x: real, y: real)

  datatype Color = Color(red: real, green: real, blue: real, opacity: real)

  /** `Color.BLACK`, which is also the page background the eraser paints with. */
  const Black := Color(0.0, 0.0, 0.0, 1.0)

  /** The line width `init` sets, and the fallback when a size slider is absent. */
  const DefaultWidth: real := 5.0

  /** The point halfway between `a` and `b`. */
  function Midpoint(a: Point, b: Point): (m: Point)
    ensures m.x - a.x == b.x - m.x && m.y - a.y == b.y - m.y
  {
    Point((a.x + b.x) / 2.0, (a.y + b.y) / 2.0)
  }

  /**
   * A command given to the graphics context. A stroke records the width and
   * colour it is painted with; `Repainted` gives the path it paints.
   */
  datatype PathOp =
    | BeginPath
    | MoveTo(to: Point)
    | QuadraticCurveTo(control: Point, end: Point)
    | Stroke(width: real, color: Color)

  /**
   * What the handler reads from its widgets at one event. Each widget may be
   * missing (Kotlin `null`); the toggle gives whether the eraser is selected.
   */
  datatype Tools = Tools(
    colorPicker: Option<Color>,
    brushSize: Option<real>,
    eraserSize: Option<real>,
    eraserSelected: Option<bool>)

  /** `eraserToggle?.isSelected == true`: false when the toggle is missing. */
  predicate EraserOn(t: Tools) {
    t.eraserSelected == Some(true)
  }

  /** `eraserToggle?.isSelected == false`: also false when the toggle is missing. */
  predicate BrushOn(t: Tools) {
    t.eraserSelected == Some(false)
  }

  /**
   * The stroke colour a drag sets: black, the page background, for the
   * eraser; otherwise the picker's colour, or black without a picker.
   */
  function ToolColor(t: Tools): (c: Color)
    ensures EraserOn(t) ==> c == Black
    ensures !EraserOn(t) && t.colorPicker.Some? ==> c == t.colorPicker.value
    ensures !EraserOn(t) && t.colorPicker.None? ==> c == Black
  {
    if EraserOn(t) then Black else t.colorPicker.GetOr(Black)
  }

  /**
   * The line width a drag sets: the eraser slider's value for the eraser,
   * otherwise the brush slider's value; 5 when that slider is missing.
   */
  function ToolWidth(t: Tools): (w: real)
    ensures EraserOn(t) && t.eraserSize.Some? ==> w == t.eraserSize.value
    ensures EraserOn(t) && t.eraserSize.None? ==> w == 5.0
    ensures !EraserOn(t) && t.brushSize.Some? ==> w == t.brushSize.value
    ensures !EraserOn(t) && t.brushSize.None? ==> w == 5.0
  {
    if EraserOn(t) then t.eraserSize.GetOr(DefaultWidth) else t.brushSize.GetOr(DefaultWidth)
  }

  /**
   * The stroke session together with the graphics context it draws on:
   * the context's line width, stroke colour and command log, and the
   * handler's last point and drawing flag.
   */
  datatype Pen = Pen(lineWidth: real, strokeColor: Color, ops: seq<PathOp>, last: Point, isDrawing: bool)

  /**
   * A fresh handler after `init` on the context of a new canvas: width 5,
   * the picker's colour or black without a picker, nothing drawn, and no
   * stroke in progress, the last point at the origin.
   */
  function Initial(colorPicker: Option<Color>): (s: Pen)
    ensures s.lineWidth == 5.0 && s.ops == [] && !s.isDrawing && s.last == Point(0.0, 0.0)
    ensures colorPicker.Some? ==> s.strokeColor == colorPicker.value
    ensures colorPicker.None? ==> s.strokeColor == Black
  {
    Pen(DefaultWidth, colorPicker.GetOr(Black), [], Point(0.0, 0.0), false)
  }

  /** `mousePressed` */
  function Pressed(s: Pen, p: Point): Pen {
    s.(ops := s.ops + [BeginPath, MoveTo(p)], last := p, isDrawing := true)
  }

  /** `mouseDragged` */
  function Dragged(s: Pen, p: Point, t: Tools): Pen {
    var s1 := if s.isDrawing then s else Pressed(s, p);
    var w, c := ToolWidth(t), ToolColor(t);
    s1.(lineWidth := w, strokeColor := c,
        ops := s1.ops + [QuadraticCurveTo(s1.last, Midpoint(s1.last, p)), Stroke(w, c)],
        last := p)
  }

  /** `mouseReleased` */
  function Released(s: Pen): Pen {
    s.(isDrawing := false, ops := s.ops + [Stroke(s.lineWidth, s.strokeColor)])
  }

  /** The brush-size slider's listener. */
  function BrushSliderMoved(s: Pen, t: Tools, value: real): Pen {
    if BrushOn(t) then s.(lineWidth := value) else s
  }

  /** The eraser-size slider's listener. */
  function EraserSliderMoved(s: Pen, t: Tools, value: real): Pen {
    if EraserOn(t) then s.(lineWidth := value) else s
  }

  datatype Event =
    | Press(at: Point)
    | Drag(at: Point, tools: Tools)
    | Release
    | BrushSlider(tools: Tools, value: real)
    | EraserSlider(tools: Tools, value: real)

  function Step(s: Pen, e: Event): Pen {
    match e
    case Press(p) => Pressed(s, p)
    case Drag(p, t) => Dragged(s, p, t)
    case Release => Released(s)
    case BrushSlider(t, v) => BrushSliderMoved(s, t, v)
    case EraserSlider(t, v) => EraserSliderMoved(s, t, v)
  }

  /** The state after a sequence of events, in order. */
  function Run(s: Pen, events: seq<Event>): Pen
    decreases |events|
  {
    if events == [] then s else Run(Step(s, events[0]), events[1..])
  }

  predicate AllDrags(events: seq<Event>) {
    forall i :: 0 <= i < |events| ==> events[i].Drag?
  }

  /** The point a drag sequence starting from `prev` has reached before drag `i`. */
  function PointBefore(prev: Point, drags: seq<Event>, i: nat): Point
    requires AllDrags(drags) && i < |drags|
  {
    if i == 0 then prev else drags[i - 1].at
  }

  /** Reference definition: the commands drags emit while a path is open, the last point being `prev`. */
  function CurveOps(prev: Point, drags: seq<Event>): seq<PathOp>
    requires AllDrags(drags)
    decreases |drags|
  {
    if drags == [] then []
    else
      var d := drags[0];
      [QuadraticCurveTo(prev, Midpoint(prev, d.at)), Stroke(ToolWidth(d.tools), ToolColor(d.tools))]
        + CurveOps(d.at, drags[1..])
  }

  /** The end points of the curves in a command log, in order. */
  function CurveEnds(ops: seq<PathOp>): seq<Point>
    decreases |ops|
  {
    if ops == [] then []
    else (if ops[0].QuadraticCurveTo? then [ops[0].end] else []) + CurveEnds(ops[1..])
  }

  // ---------------------------------------------------------------------------
  // Properties of the stroke model

  /**
   * A missing eraser toggle counts as "not eraser" for a drag, which then
   * paints with the brush settings, and it enables neither slider listener.
   */
  lemma MissingToggle(t: Tools)
    requires t.eraserSelected.None?
    ensures !EraserOn(t) && !BrushOn(t)
    ensures ToolColor(t) == t.colorPicker.GetOr(Black)
    ensures ToolWidth(t) == t.brushSize.GetOr(DefaultWidth)
  {
  }

  /** A press opens a new path at the press point and starts the session there. */
  lemma PressSpec(s: Pen, p: Point)
    ensures var r := Pressed(s, p);
      && r.ops == s.ops + [BeginPath, MoveTo(p)]
      && r.last == p && r.isDrawing
      && r.lineWidth == s.lineWidth && r.strokeColor == s.strokeColor
  {
  }

  /** A drag while drawing adds one curve through the midpoint and one stroke, and moves the last point. */
  lemma DragWhileDrawing(s: Pen, p: Point, t: Tools)
    requires s.isDrawing
    ensures var r := Dragged(s, p, t);
      && r.ops == s.ops + [QuadraticCurveTo(s.last, Midpoint(s.last, p)), Stroke(ToolWidth(t), ToolColor(t))]
      && r.last == p && r.isDrawing
      && r.lineWidth == ToolWidth(t) && r.strokeColor == ToolColor(t)
  {
  }

  /** A drag with no press before it opens a path at its own point, so its curve has no length. */
  lemma DragWhenIdle(s: Pen, p: Point, t: Tools)
    requires !s.isDrawing
    ensures var r := Dragged(s, p, t);
      && r.ops == s.ops + [BeginPath, MoveTo(p), QuadraticCurveTo(p, p), Stroke(ToolWidth(t), ToolColor(t))]
      && r.last == p && r.isDrawing
  {
  }

  /** Release ends the session with one stroke in the current paint and keeps the last point. */
  lemma ReleaseSpec(s: Pen)
    ensures var r := Released(s);
      && !r.isDrawing && r.last == s.last
      && r.ops == s.ops + [Stroke(s.lineWidth, s.strokeColor)]
      && r.lineWidth == s.lineWidth && r.strokeColor == s.strokeColor
  {
  }

  /**
   * A slider's new value reaches the line width only while its own tool is
   * selected (a missing toggle selects neither); nothing else ever changes.
   */
  lemma SliderListeners(s: Pen, t: Tools, v: real)
    ensures BrushSliderMoved(s, t, v) == (if t.eraserSelected == Some(false) then s.(lineWidth := v) else s)
    ensures EraserSliderMoved(s, t, v) == (if t.eraserSelected == Some(true) then s.(lineWidth := v) else s)
    ensures t.eraserSelected.None? ==> BrushSliderMoved(s, t, v) == s && EraserSliderMoved(s, t, v) == s
  {
  }

  lemma {:induction false} RunAppend(s: Pen, a: seq<Event>, b: seq<Event>)
    ensures Run(s, a + b) == Run(Run(s, a), b)
    decreases |a|
  {
    if a == [] {
      assert a + b == b;
    } else {
      assert (a + b)[0] == a[0] && (a + b)[1..] == a[1..] + b;
      RunAppend(Step(s, a[0]), a[1..], b);
    }
  }

  /**
   * Events only ever append to the log: no command already issued is
   * changed or removed.
   */
  lemma {:induction false} RunOnlyAppends(s: Pen, events: seq<Event>)
    ensures |Run(s, events).ops| >= |s.ops|
    ensures Run(s, events).ops[..|s.ops|] == s.ops
    decreases |events|
  {
    if events != [] {
      var s' := Step(s, events[0]);
      assert s'.ops[..|s.ops|] == s.ops;
      RunOnlyAppends(s', events[1..]);
      var r := Run(s', events[1..]);
      assert r.ops[..|s.ops|] == r.ops[..|s'.ops|][..|s.ops|];
    }
  }

  /**
   * Drags while a path is open emit exactly `CurveOps`, leave the last
   * drag's point as the last point, and leave the paint the last drag's
   * tools select.
   */
  lemma {:induction false} DragsWhileDrawing(s: Pen, drags: seq<Event>)
    requires s.isDrawing && AllDrags(drags)
    ensures var r := Run(s, drags);
      && r.isDrawing
      && r.ops == s.ops + CurveOps(s.last, drags)
      && r.last == (if drags == [] then s.last else drags[|drags| - 1].at)
      && r.lineWidth == (if drags == [] then s.lineWidth else ToolWidth(drags[|drags| - 1].tools))
      && r.strokeColor == (if drags == [] then s.strokeColor else ToolColor(drags[|drags| - 1].tools))
    decreases |drags|
  {
    if drags != [] {
      var s' := Step(s, drags[0]);
      DragWhileDrawing(s, drags[0].at, drags[0].tools);
      assert AllDrags(drags[1..]);
      DragsWhileDrawing(s', drags[1..]);
    }
  }

  lemma {:induction false} CurveEndsAppend(a: seq<PathOp>, b: seq<PathOp>)
    ensures CurveEnds(a + b) == CurveEnds(a) + CurveEnds(b)
    decreases |a|
  {
    if a == [] {
      assert a + b == b;
    } else {
      assert (a + b)[0] == a[0] && (a + b)[1..] == a[1..] + b;
      CurveEndsAppend(a[1..], b);
    }
  }

  /**
   * The commands of a drag sequence, pair by pair: drag `i` draws a curve
   * controlled by the point before it and ending at the midpoint of the
   * two, then strokes it in the paint its tools select.
   */
  lemma {:induction false} CurveOpsAt(prev: Point, drags: seq<Event>)
    requires AllDrags(drags)
    ensures var ops := CurveOps(prev, drags);
      && |ops| == 2 * |drags|
      && forall i :: 0 <= i < |drags| ==>
           && ops[2 * i] == QuadraticCurveTo(PointBefore(prev, drags, i), Midpoint(PointBefore(prev, drags, i), drags[i].at))
           && ops[2 * i + 1] == Stroke(ToolWidth(drags[i].tools), ToolColor(drags[i].tools))
    decreases |drags|
  {
    if drags != [] {
      var d, rest := drags[0], drags[1..];
      assert AllDrags(rest);
      CurveOpsAt(d.at, rest);
      var ops, tail := CurveOps(prev, drags), CurveOps(d.at, rest);
      forall i | 1 <= i < |drags|
        ensures ops[2 * i] == QuadraticCurveTo(PointBefore(prev, drags, i), Midpoint(PointBefore(prev, drags, i), drags[i].at))
        ensures ops[2 * i + 1] == Stroke(ToolWidth(drags[i].tools), ToolColor(drags[i].tools))
      {
        assert PointBefore(prev, drags, i) == PointBefore(d.at, rest, i - 1);
        assert ops[2 * i] == tail[2 * (i - 1)];
        assert ops[2 * i + 1] == tail[2 * (i - 1) + 1];
      }
    }
  }

  /**
   * The curves of a drag sequence end, one each and in input order, at the
   * midpoints of consecutive sampled points.
   */
  lemma {:induction false} CurveEndsAreMidpoints(prev: Point, drags: seq<Event>)
    requires AllDrags(drags)
    ensures var ends := CurveEnds(CurveOps(prev, drags));
      && |ends| == |drags|
      && forall i :: 0 <= i < |drags| ==> ends[i] == Midpoint(PointBefore(prev, drags, i), drags[i].at)
    decreases |drags|
  {
    if drags != [] {
      var d, rest := drags[0], drags[1..];
      assert AllDrags(rest);
      var head := [QuadraticCurveTo(prev, Midpoint(prev, d.at)), Stroke(ToolWidth(d.tools), ToolColor(d.tools))];
      var tail := CurveOps(d.at, rest);
      CurveEndsAreMidpoints(d.at, rest);
      CurveEndsAppend(head, tail);
      assert CurveEnds(head[1..]) == [] by {
        assert head[1..][1..] == [];
      }
      assert CurveEnds(head) == [Midpoint(prev, d.at)];
      var ends, tailEnds := CurveEnds(CurveOps(prev, drags)), CurveEnds(tail);
      assert ends == [Midpoint(prev, d.at)] + tailEnds;
      forall i | 1 <= i < |drags|
        ensures ends[i] == Midpoint(PointBefore(prev, drags, i), drags[i].at)
      {
        assert PointBefore(prev, drags, i) == PointBefore(d.at, rest, i - 1);
        assert ends[i] == tailEnds[i - 1];
      }
    }
  }

  /**
   * A whole stroke: press at `p0`, then the drags, then release. The log
   * gains exactly one new path: the press's `beginPath` and `moveTo`, the
   * drags' curves and strokes, and the release's final stroke, in the
   * paint the last drag selected (the paint before the press if there was
   * no drag). Afterwards the session is closed and the last point is the
   * last drag's.
   */
  lemma StrokeSession(s: Pen, p0: Point, drags: seq<Event>)
    requires AllDrags(drags)
    ensures var r := Run(s, [Press(p0)] + drags + [Release]);
      && !r.isDrawing
      && r.last == (if drags == [] then p0 else drags[|drags| - 1].at)
      && r.ops == s.ops + [BeginPath, MoveTo(p0)] + CurveOps(p0, drags) + [Stroke(r.lineWidth, r.strokeColor)]
      && r.lineWidth == (if drags == [] then s.lineWidth else ToolWidth(drags[|drags| - 1].tools))
      && r.strokeColor == (if drags == [] then s.strokeColor else ToolColor(drags[|drags| - 1].tools))
  {
    var s1 := Pressed(s, p0);
    RunAppend(s, [Press(p0)] + drags, [Release]);
    RunAppend(s, [Press(p0)], drags);
    assert Run(s, [Press(p0)]) == s1;
    DragsWhileDrawing(s1, drags);
    var s2 := Run(s1, drags);
    assert Run(s2, [Release]) == Released(s2);
  }

  /** The curves in one session's log are those of its drags. */
  lemma SessionLogCurves(before: seq<PathOp>, p0: Point, drags: seq<Event>, last: PathOp)
    requires AllDrags(drags) && last.Stroke?
    ensures var ops := before + [BeginPath, MoveTo(p0)] + CurveOps(p0, drags) + [last];
      && |ops| == |before| + 2 * |drags| + 3
      && CurveEnds(ops[|before|..]) == CurveEnds(CurveOps(p0, drags))
  {
    var open, curves, close := [BeginPath, MoveTo(p0)], CurveOps(p0, drags), [last];
    var ops := before + open + curves + close;
    assert ops[|before|..] == open + curves + close;
    CurveOpsAt(p0, drags);
    CurveEndsAppend(open, curves);
    CurveEndsAppend(open + curves, close);
    assert CurveEnds(open) == [] by {
      assert open[1..][1..] == [];
    }
    assert CurveEnds(close) == [] by {
      assert close[1..] == [];
    }
  }

  /**
   * The curves a whole stroke adds to the log end exactly at the midpoints
   * of consecutive points `p0, p1, ..., pn`: one each, in input order.
   */
  lemma StrokeTouchesEveryMidpoint(s: Pen, p0: Point, drags: seq<Event>)
    requires AllDrags(drags)
    ensures var r := Run(s, [Press(p0)] + drags + [Release]);
      && |r.ops| == |s.ops| + 2 * |drags| + 3
      && var ends := CurveEnds(r.ops[|s.ops|..]);
      && |ends| == |drags|
      && forall i :: 0 <= i < |drags| ==> ends[i] == Midpoint(PointBefore(p0, drags, i), drags[i].at)
  {
    StrokeSession(s, p0, drags);
    var r := Run(s, [Press(p0)] + drags + [Release]);
    SessionLogCurves(s.ops, p0, drags, Stroke(r.lineWidth, r.strokeColor));
    CurveEndsAreMidpoints(p0, drags);
  }

  /** The position of the last `beginPath` in a log, or -1 if there is none. */
  function LastBegin(ops: seq<PathOp>): (r: int)
    ensures -1 <= r < |ops|
    ensures r >= 0 ==> ops[r].BeginPath?
    ensures forall j :: r < j < |ops| ==> !ops[j].BeginPath?
    decreases |ops|
  {
    if ops == [] then -1
    else if ops[|ops| - 1].BeginPath? then |ops| - 1
    else LastBegin(ops[..|ops| - 1])
  }

  /**
   * What the stroke at position `k` of the log paints: as JavaFX's
   * `stroke()` does, the whole current path, in that stroke's width and
   * colour. The result is the slice of the log after the last `beginPath`
   * before `k`; the path elements in it are its `moveTo` and curve entries,
   * and the earlier `Stroke` entries of the same path are carried along.
   */
  function Repainted(ops: seq<PathOp>, k: nat): seq<PathOp>
    requires k < |ops| && ops[k].Stroke?
  {
    ops[LastBegin(ops[..k]) + 1..k]
  }

  lemma {:induction false} CurveOpsKeepPathOpen(prev: Point, drags: seq<Event>)
    requires AllDrags(drags)
    ensures forall j :: 0 <= j < |CurveOps(prev, drags)| ==> !CurveOps(prev, drags)[j].BeginPath?
    decreases |drags|
  {
    if drags != [] {
      assert AllDrags(drags[1..]);
      CurveOpsKeepPathOpen(drags[0].at, drags[1..]);
    }
  }

  /** With no `beginPath` after position `n`, each later stroke repaints exactly what follows `n`. */
  lemma RepaintedSince(ops: seq<PathOp>, n: nat)
    requires n < |ops| && ops[n].BeginPath?
    requires forall j :: n < j < |ops| ==> !ops[j].BeginPath?
    ensures forall k :: n < k < |ops| && ops[k].Stroke? ==> Repainted(ops, k) == ops[n + 1..k]
  {
    forall k | n < k < |ops| && ops[k].Stroke?
      ensures Repainted(ops, k) == ops[n + 1..k]
    {
      var prefix := ops[..k];
      assert prefix[n].BeginPath?;
      assert LastBegin(prefix) == n;
    }
  }

  /** The log of one session after the one it extends: its only `beginPath` is the first command. */
  lemma SessionLogOnePath(before: seq<PathOp>, p0: Point, drags: seq<Event>, last: PathOp)
    requires AllDrags(drags) && !last.BeginPath?
    ensures var ops := before + [BeginPath, MoveTo(p0)] + CurveOps(p0, drags) + [last];
      && ops[|before|].BeginPath?
      && forall j :: |before| < j < |ops| ==> !ops[j].BeginPath?
  {
    CurveOpsKeepPathOpen(p0, drags);
    var curves := CurveOps(p0, drags);
    var ops := before + [BeginPath, MoveTo(p0)] + curves + [last];
    forall j | |before| < j < |ops|
      ensures !ops[j].BeginPath?
    {
      if |before| + 2 <= j < |ops| - 1 {
        assert ops[j] == curves[j - |before| - 2];
      }
    }
  }

  /**
   * Every stroke of a press–drag–release session repaints exactly the
   * session's own path so far, from its `moveTo(p0)` on: a tool change
   * during the session repaints that session's earlier curves in the new
   * paint, but no stroke of the session touches anything drawn before the
   * press. The closing stroke repaints the whole session.
   */
  lemma StrokesRepaintOnlyTheirSession(s: Pen, p0: Point, drags: seq<Event>)
    requires AllDrags(drags)
    ensures var r := Run(s, [Press(p0)] + drags + [Release]);
      && r.ops == s.ops + [BeginPath, MoveTo(p0)] + CurveOps(p0, drags) + [Stroke(r.lineWidth, r.strokeColor)]
      && (forall k :: |s.ops| + 2 <= k < |r.ops| && r.ops[k].Stroke? ==>
            Repainted(r.ops, k) == r.ops[|s.ops| + 1..k])
      && Repainted(r.ops, |r.ops| - 1) == [MoveTo(p0)] + CurveOps(p0, drags)
  {
    StrokeSession(s, p0, drags);
    var r := Run(s, [Press(p0)] + drags + [Release]);
    var closing := Stroke(r.lineWidth, r.strokeColor);
    SessionLogOnePath(s.ops, p0, drags, closing);
    RepaintedSince(r.ops, |s.ops|);
    var body := [MoveTo(p0)] + CurveOps(p0, drags);
    assert r.ops == (s.ops + [BeginPath]) + body + [closing];
    assert r.ops[|s.ops| + 1..|r.ops| - 1] == body;
  }

  // ---------------------------------------------------------------------------
  // The imperative handler

  /** The part of JavaFX's `GraphicsContext` the handler uses. */
  class GraphicsContext {
    var lineWidth: real
    var strokeColor: Color
    var ops: seq<PathOp>

    /** A new canvas's context: JavaFX starts with width 1 and black. */
    constructor ()
      ensures lineWidth == 1.0 && strokeColor == Black && ops == []
    {
      lineWidth := 1.0;
      strokeColor := Black;
      ops := [];
    }

    method BeginPath()
      modifies this
      ensures ops == old(ops) + [PathOp.BeginPath]
      ensures lineWidth == old(lineWidth) && strokeColor == old(strokeColor)
    {
      ops := ops + [PathOp.BeginPath];
    }

    method MoveTo(x: real, y: real)
      modifies this
      ensures ops == old(ops) + [PathOp.MoveTo(Point(x, y))]
      ensures lineWidth == old(lineWidth) && strokeColor == old(strokeColor)
    {
      ops := ops + [PathOp.MoveTo(Point(x, y))];
    }

    method QuadraticCurveTo(xc: real, yc: real, x1: real, y1: real)
      modifies this
      ensures ops == old(ops) + [PathOp.QuadraticCurveTo(Point(xc, yc), Point(x1, y1))]
      ensures lineWidth == old(lineWidth) && strokeColor == old(strokeColor)
    {
      ops := ops + [PathOp.QuadraticCurveTo(Point(xc, yc), Point(x1, y1))];
    }

    /** Paints the current path with the current width and colour. */
    method Stroke()
      modifies this
      ensures ops == old(ops) + [PathOp.Stroke(old(lineWidth), old(strokeColor))]
      ensures lineWidth == old(lineWidth) && strokeColor == old(strokeColor)
    {
      ops := ops + [PathOp.Stroke(lineWidth, strokeColor)];
    }
  }

  class DrawHandler {
    /** The context `init` is given; its handlers draw on it. */
    const gc: GraphicsContext
    var lastX: real
    var lastY: real
    var isDrawing: bool

    function State(): Pen
      reads this, gc
    {
      Pen(gc.lineWidth, gc.strokeColor, gc.ops, Point(lastX, lastY), isDrawing)
    }

    /** `DrawHandler()` followed by `init(gc)`, with the colour picker's value at that moment. */
    constructor Init(gc: GraphicsContext, colorPicker: Option<Color>)
      modifies gc
      ensures this.gc == gc
      ensures State() == Initial(colorPicker).(ops := old(gc.ops))
    {
      this.gc := gc;
      lastX, lastY := 0.0, 0.0;
      isDrawing := false;
      new;
      gc.lineWidth := DefaultWidth;
      gc.strokeColor := colorPicker.GetOr(Black);
    }

    method MousePressed(x: real, y: real)
      modifies this, gc
      ensures State() == Pressed(old(State()), Point(x, y))
    {
      gc.BeginPath();
      gc.MoveTo(x, y);
      lastX := x;
      lastY := y;
      isDrawing := true;
    }

    method MouseDragged(x: real, y: real, tools: Tools)
      modifies this, gc
      ensures State() == Dragged(old(State()), Point(x, y), tools)
    {
      if !isDrawing {
        isDrawing := true;
        lastX := x;
        lastY := y;
        gc.BeginPath();
        gc.MoveTo(lastX, lastY);
      }
      gc.strokeColor := ToolColor(tools);
      gc.lineWidth := ToolWidth(tools);
      var mid := Midpoint(Point(lastX, lastY), Point(x, y));
      gc.QuadraticCurveTo(lastX, lastY, mid.x, mid.y);
      gc.Stroke();
      lastX := x;
      lastY := y;
    }

    method MouseReleased()
      modifies this, gc
      ensures State() == Released(old(State()))
    {
      isDrawing := false;
      gc.Stroke();
    }

    /** The brush-size slider's listener, given the slider's new value. */
    method BrushSizeChanged(tools: Tools, newValue: real)
      modifies gc
      ensures State() == BrushSliderMoved(old(State()), tools, newValue)
    {
      if BrushOn(tools) {
        gc.lineWidth := newValue;
      }
    }

    /** The eraser-size slider's listener, given the slider's new value. */
    method EraserSizeChanged(tools: Tools, newValue: real)
      modifies gc
      ensures State() == EraserSliderMoved(old(State()), tools, newValue)
    {
      if EraserOn(tools) {
        gc.lineWidth := newValue;
      }
    }
  }
}
