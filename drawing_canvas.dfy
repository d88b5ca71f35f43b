/** The freehand drawing surface: pan events accumulate the current stroke, a finished stroke of two
    or more points is recorded and turned into a drawing layer, and the live preview traces the
    points as an SVG path string. */
module DrawingCanvas {
  import opened Wrappers
  import opened Text
  import opened EditorTypes
  import A = EditorActions
  import EditorStore
  import R = LayerRenderer

  /** The brush props the canvas receives. */
  datatype Brush = Brush(brushType: BrushType, size: real, opacity: real, color: string)

  /** A touch sample with `event.pressure || 1.0`. */
  function Sample(x: real, y: real, pressure: Option<real>): (p: Point)
    ensures p.x == x && p.y == y && p.pressure.Some? && p.pressure.value != 0.0
    ensures pressure.Some? && pressure.value != 0.0 ==> p.pressure == pressure
  {
    Point(x, y, Some(OrDefault(pressure, 1.0)))
  }

  /** The recorded stroke; `now` stands for both `Date.now()` readings and `suffix` for the random
      base-36 part of the id. */
  function NewStroke(points: seq<Point>, brush: Brush, now: nat, suffix: string): DrawingStroke {
    DrawingStroke("stroke_" + NatToDecimal(now) + "_" + suffix, points, brush.brushType, brush.color,
                  brush.size, brush.opacity, now)
  }

  /** The layer `addDrawingLayer` adds for the pending strokes. */
  function DrawingLayer(strokes: seq<DrawingStroke>, now: nat): (l: Layer)
    ensures l.visible && !l.locked && l.opacity == 1.0 && l.transform == IDENTITY && l.data == DrawingData(strokes)
  {
    Layer("drawing_" + NatToDecimal(now), true, false, 1.0, Normal, IDENTITY, DrawingData(strokes))
  }

  /** `addDrawingLayer()` on the editor state and the pending strokes: one layer holding them all,
      after which none is pending. */
  function FlushPending(s: EditorState, pending: seq<DrawingStroke>, now: nat): (EditorState, seq<DrawingStroke>) {
    if |pending| == 0 then (s, pending) else (A.AddLayer(s, DrawingLayer(pending, now), now), [])
  }

  /** `onEnd` on the editor state, the pending strokes and the current stroke. */
  function EndStroke(s: EditorState, pending: seq<DrawingStroke>, current: seq<Point>, brush: Brush, now: nat, suffix: string)
    : (EditorState, seq<DrawingStroke>, seq<Point>)
  {
    if |current| > 1 then
      var (s1, p1) := FlushPending(s, pending + [NewStroke(current, brush, now, suffix)], now);
      (s1, p1, [])
    else (s, pending, [])
  }

  /** Ending a gesture always clears the current stroke and leaves nothing pending. One point or none
      records nothing; otherwise exactly one drawing layer is added, selected, holding the earlier
      pending strokes and then the new one with the brush settings and the points in order. */
  lemma EndStrokeEffect(s: EditorState, pending: seq<DrawingStroke>, current: seq<Point>, brush: Brush, now: nat, suffix: string)
    ensures var (s1, p1, c1) := EndStroke(s, pending, current, brush, now, suffix);
      c1 == [] && p1 == (if |current| > 1 then [] else pending)
      && (|current| <= 1 ==> s1 == s)
      && (|current| > 1 ==>
            |s1.layers| == |s.layers| + 1 && s1.layers[..|s.layers|] == s.layers
            && var l := s1.layers[|s.layers|];
            s1.activeLayerId == Some(l.id) && l.data.DrawingData? && l.transform == IDENTITY
            && |l.data.strokes| == |pending| + 1 && l.data.strokes[..|pending|] == pending
            && var st := l.data.strokes[|pending|];
            st.points == current && st.brushType == brush.brushType && st.color == brush.color
            && st.size == brush.size && st.opacity == brush.opacity
            && s1.history[|s1.history| - 1].action == "Add drawing")
  {
    if |current| > 1 {
      var all := pending + [NewStroke(current, brush, now, suffix)];
      assert all[..|pending|] == pending;
    }
  }

  /** Since the handler turns the pending list into a layer at once, each finished stroke becomes a
      drawing layer of its own. */
  lemma OneLayerPerStroke(s: EditorState, current: seq<Point>, brush: Brush, now: nat, suffix: string)
    requires |current| > 1
    ensures var (s1, p1, _) := EndStroke(s, [], current, brush, now, suffix);
      p1 == [] && s1.layers[|s.layers|].data.strokes == [NewStroke(current, brush, now, suffix)]
  {
  }

  /** The template `M ${x} ${y}`. */
  function MoveText(x: real, y: real, fmt: real -> string): string {
    "M " + fmt(x) + " " + fmt(y)
  }

  /** The template ` L ${x} ${y}`. */
  function LineText(x: real, y: real, fmt: real -> string): string {
    " L " + fmt(x) + " " + fmt(y)
  }

  /** The move to the first point, then a line segment to each later one, for the points `points[..n]`. */
  function PathData(points: seq<Point>, n: nat, fmt: real -> string): string
    requires 1 <= n <= |points|
    decreases n
  {
    if n == 1 then MoveText(points[0].x, points[0].y, fmt)
    else PathData(points, n - 1, fmt) + LineText(points[n - 1].x, points[n - 1].y, fmt)
  }

  /** `createPathFromPoints(points)`, with `fmt` standing for JavaScript's number-to-string
      conversion; fewer than two points give the empty string. */
  function PathString(points: seq<Point>, fmt: real -> string): string {
    if |points| < 2 then "" else PathData(points, |points|, fmt)
  }

  /** The text of one path operation. */
  function OpText(op: R.PathOp, fmt: real -> string): string {
    match op
    case MoveTo(x, y) => MoveText(x, y, fmt)
    case LineTo(x, y) => LineText(x, y, fmt)
  }

  function OpsText(ops: seq<R.PathOp>, fmt: real -> string): string
    decreases |ops|
  {
    if ops == [] then "" else OpsText(ops[..|ops| - 1], fmt) + OpText(ops[|ops| - 1], fmt)
  }

  /** `ops` traces `points`: a move to the first, then a line to each later one. */
  predicate Traces(ops: seq<R.PathOp>, points: seq<Point>) {
    |ops| == |points| >= 1 && ops[0] == R.MoveTo(points[0].x, points[0].y)
    && forall i | 1 <= i < |points| :: ops[i] == R.LineTo(points[i].x, points[i].y)
  }

  lemma {:induction false} PathDataTraces(ops: seq<R.PathOp>, points: seq<Point>, n: nat, fmt: real -> string)
    requires Traces(ops, points) && 1 <= n <= |points|
    ensures PathData(points, n, fmt) == OpsText(ops[..n], fmt)
    decreases n
  {
    var prefix := ops[..n];
    assert prefix[..n - 1] == ops[..n - 1];
    if n == 1 {
      var m := MoveText(points[0].x, points[0].y, fmt);
      assert prefix == [] + [ops[0]];
      OpsTextSnoc([], ops[0], fmt);
      assert OpsText(prefix, fmt) == "" + m;
      assert "" + m == m;
    } else {
      var op := ops[n - 1];
      var line := LineText(points[n - 1].x, points[n - 1].y, fmt);
      calc {
        OpsText(prefix, fmt);
        { PrefixSnoc(ops, n); }
        OpsText(ops[..n - 1] + [op], fmt);
        { OpsTextSnoc(ops[..n - 1], op, fmt); }
        OpsText(ops[..n - 1], fmt) + OpText(op, fmt);
        { PathDataTraces(ops, points, n - 1, fmt); }
        PathData(points, n - 1, fmt) + OpText(op, fmt);
        { assert op == R.LineTo(points[n - 1].x, points[n - 1].y); }
        PathData(points, n - 1, fmt) + line;
      }
    }
  }

  lemma PrefixSnoc<T>(s: seq<T>, n: nat)
    requires 1 <= n <= |s|
    ensures s[..n] == s[..n - 1] + [s[n - 1]]
  {
  }

  lemma OpsTextSnoc(ops: seq<R.PathOp>, op: R.PathOp, fmt: real -> string)
    ensures OpsText(ops + [op], fmt) == OpsText(ops, fmt) + OpText(op, fmt)
  {
    assert (ops + [op])[..|ops|] == ops;
  }

  /** The preview string spells out the same path the layer renderer draws for a stroke. */
  lemma PreviewMatchesRenderer(points: seq<Point>, fmt: real -> string)
    requires |points| >= 2
    ensures PathString(points, fmt) == OpsText(R.Polyline(points), fmt)
  {
    var ops := R.Polyline(points);
    PathDataTraces(ops, points, |points|, fmt);
    assert ops[..|points|] == ops;
  }

  lemma {:induction false} PathDataPrefix(points: seq<Point>, p: Point, n: nat, fmt: real -> string)
    requires 1 <= n <= |points|
    ensures PathData(points + [p], n, fmt) == PathData(points, n, fmt)
    decreases n
  {
    if n > 1 {
      PathDataPrefix(points, p, n - 1, fmt);
    }
  }

  /** Each accepted sample extends the preview by one `' L x y'` segment. */
  lemma PathGrowsBySegment(points: seq<Point>, p: Point, fmt: real -> string)
    requires |points| >= 2
    ensures PathString(points + [p], fmt) == PathString(points, fmt) + LineText(p.x, p.y, fmt)
  {
    PathDataPrefix(points, p, |points|, fmt);
  }

  /** `createPathFromPoints`: the string built by the loop. */
  method CreatePathFromPoints(points: seq<Point>, fmt: real -> string) returns (pathData: string)
    ensures pathData == PathString(points, fmt)
  {
    if |points| < 2 {
      return "";
    }
    pathData := MoveText(points[0].x, points[0].y, fmt);
    for i := 1 to |points|
      invariant pathData == PathData(points, i, fmt)
    {
      pathData := pathData + LineText(points[i].x, points[i].y, fmt);
    }
  }

  /** The component's current stroke and pending strokes, over the store it writes. */
  class Surface {
    var currentStroke: seq<Point>
    var strokes: seq<DrawingStroke>
    const store: EditorStore.Store

    constructor(store: EditorStore.Store)
      ensures this.store == store && currentStroke == [] && strokes == []
    {
      this.store := store;
      currentStroke := [];
      strokes := [];
    }

    /** `onStart`: a new stroke of one point. */
    method OnStart(x: real, y: real, pressure: Option<real>)
      modifies this
      ensures currentStroke == [Sample(x, y, pressure)] && strokes == old(strokes)
    {
      currentStroke := [Sample(x, y, pressure)];
    }

    /** `onUpdate`: one more point at the end. */
    method OnUpdate(x: real, y: real, pressure: Option<real>)
      modifies this
      ensures currentStroke == old(currentStroke) + [Sample(x, y, pressure)] && strokes == old(strokes)
    {
      currentStroke := currentStroke + [Sample(x, y, pressure)];
    }

    /** `addDrawingLayer()` */
    method AddDrawingLayer(now: nat)
      requires store.Valid()
      modifies this, store
      ensures store.Valid()
      ensures (store.State(), strokes) == FlushPending(old(store.State()), old(strokes), now)
      ensures currentStroke == old(currentStroke)
    {
      if |strokes| == 0 {
        return;
      }
      store.AddLayer(Layer("drawing_" + NatToDecimal(now), true, false, 1.0, Normal, Transform(0.0, 0.0, 1.0, 0.0),
                           DrawingData(strokes)), now);
      strokes := [];
    }

    /** `onEnd` with `Date.now()` as `now` and the random id part as `suffix`. The `addDrawingLayer`
        call that `onEnd` schedules on the JavaScript thread is run at once, in the same step. */
    method OnEnd(brush: Brush, now: nat, suffix: string)
      requires store.Valid()
      modifies this, store
      ensures store.Valid()
      ensures (store.State(), strokes, currentStroke)
        == EndStroke(old(store.State()), old(strokes), old(currentStroke), brush, now, suffix)
    {
      if |currentStroke| > 1 {
        var stroke := DrawingStroke("stroke_" + NatToDecimal(now) + "_" + suffix, currentStroke, brush.brushType,
                                    brush.color, brush.size, brush.opacity, now);
        strokes := strokes + [stroke];
        AddDrawingLayer(now);
      }
      currentStroke := [];
    }
  }
}
