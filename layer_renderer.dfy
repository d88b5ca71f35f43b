/** The on-screen layer renderer as a display list: a group per visible layer carrying its transform
    and opacity, the per-type content (placeholders, the image, stroke paths) and the selection
    handles of the active layer. */
module LayerRenderer {
  import opened Wrappers
  import opened EditorTypes
  import opened Seqs
  import Stickers = StickerService
  import Export = ExportService

  const PRIMARY := "#8B5CF6"
  const ACCENT := "#EC4899"
  const DARK_GRAY := "#4B5563"
  const WHITE := "#FFFFFF"
  const INFO := "#3B82F6"

  datatype PathOp = MoveTo(x: real, y: real) | LineTo(x: real, y: real)

  datatype GroupTransform = TranslateX(dx: real) | TranslateY(dy: real) | ScaleBy(s: real) | RotateBy(angle: real)

  /** The Skia elements the renderer emits. */
  datatype Node =
    | FillRect(x: real, y: real, width: real, height: real, color: string, rx: real)
    | ImageNode(image: Image, x: real, y: real, width: real, height: real)
    /** A stroked path with round cap and join. */
    | StrokePath(key: string, path: seq<PathOp>, color: string, strokeWidth: real, opacity: real)
    /** The dashed selection border. */
    | BorderRect(x: real, y: real, width: real, height: real, color: string, strokeWidth: real)
    | CircleNode(cx: real, cy: real, r: real, color: string, filled: bool)
    | SvgPath(svg: string, color: string)
    | Group(transform: seq<GroupTransform>, groupOpacity: Option<real>, children: seq<Node>)

  /** The path a stroke's points trace: `moveTo` the first point, then `lineTo` each later one. */
  function Polyline(points: seq<Point>): (r: seq<PathOp>)
    requires |points| >= 1
    ensures |r| == |points| && r[0] == MoveTo(points[0].x, points[0].y)
    ensures forall i | 1 <= i < |points| :: r[i] == LineTo(points[i].x, points[i].y)
  {
    [MoveTo(points[0].x, points[0].y)] + seq(|points| - 1, i requires 0 <= i < |points| - 1 => LineTo(points[i + 1].x, points[i + 1].y))
  }

  /** The loop of `DrawingLayerRenderer` that builds one path. */
  method BuildPath(points: seq<Point>) returns (path: seq<PathOp>)
    requires |points| >= 2
    ensures path == Polyline(points)
  {
    path := [MoveTo(points[0].x, points[0].y)];
    for i := 1 to |points|
      invariant |path| == i && path[0] == MoveTo(points[0].x, points[0].y)
      invariant forall j | 1 <= j < i :: path[j] == LineTo(points[j].x, points[j].y)
    {
      path := path + [LineTo(points[i].x, points[i].y)];
    }
  }

  function StrokeNode(stroke: DrawingStroke): Node
    requires |stroke.points| >= 1
  {
    StrokePath(stroke.id, Polyline(stroke.points), stroke.color, stroke.size, stroke.opacity / 100.0)
  }

  function Drawable(stroke: DrawingStroke): bool {
    |stroke.points| >= 2
  }

  /** `data.strokes.map(...)` with the strokes of fewer than two points rendering nothing. */
  function StrokeNodes(strokes: seq<DrawingStroke>): (r: seq<Node>)
    ensures |r| == |Filter(strokes, Drawable)|
    decreases |strokes|
  {
    if strokes == [] then []
    else if Drawable(strokes[0]) then [StrokeNode(strokes[0])] + StrokeNodes(strokes[1..])
    else StrokeNodes(strokes[1..])
  }

  /** The `i`-th rendered stroke is the `i`-th stroke with at least two points, drawn as a path through
      its points, `size` wide, at `opacity / 100`. */
  lemma {:induction false} StrokeRendering(strokes: seq<DrawingStroke>, i: nat)
    requires i < |StrokeNodes(strokes)|
    ensures var s := Filter(strokes, Drawable)[i];
      var n := StrokeNodes(strokes)[i];
      s in strokes && |s.points| >= 2 && n.StrokePath? && n.key == s.id && n.strokeWidth == s.size
      && n.opacity == s.opacity / 100.0 && n.color == s.color && n.path == Polyline(s.points)
    decreases |strokes|
  {
    var rest := strokes[1..];
    if Drawable(strokes[0]) && i == 0 {
    } else if Drawable(strokes[0]) {
      StrokeRendering(rest, i - 1);
      assert Filter(strokes, Drawable)[i] == Filter(rest, Drawable)[i - 1];
      assert Filter(rest, Drawable)[i - 1] in rest;
    } else {
      StrokeRendering(rest, i);
      assert Filter(strokes, Drawable) == Filter(rest, Drawable);
      assert Filter(rest, Drawable)[i] in rest;
    }
  }

  /** `ImageLayerRenderer`, `StickerLayerRenderer`, `TextLayerRenderer` and `DrawingLayerRenderer`;
      `loaded(path)` is what `useImage` currently holds. */
  function Content(layer: Layer, loaded: string -> Option<Image>): (r: seq<Node>)
    ensures |r| <= 1
  {
    match layer.data
    case ImageData(path, w, h) =>
      (match loaded(path)
        case None => [FillRect(0.0, 0.0, w, h, DARK_GRAY, 0.0)]
        case Some(img) => [ImageNode(img, 0.0, 0.0, w, h)])
    case StickerData(assetId, _, _, w, h) => StickerContent(Stickers.GetStickerById(assetId), w, h)
    case TextData(_, _, _, _, _, tw, th) =>
      [FillRect(0.0, 0.0, OrDefault(tw, 120.0), OrDefault(th, 40.0), INFO, 4.0)]
    case DrawingData(strokes) =>
      if strokes == [] then [] else [Group([], None, StrokeNodes(strokes))]
  }

  /** A sticker's placeholder, with the marker when the catalogue knows its id. */
  function StickerContent(found: Option<Stickers.StickerAsset>, w: real, h: real): seq<Node> {
    match found
    case None => [FillRect(0.0, 0.0, w, h, ACCENT, 8.0)]
    case Some(_) => [Group([], None, [FillRect(0.0, 0.0, w, h, ACCENT, 8.0), FillRect(w - 16.0, 4.0, 12.0, 12.0, WHITE, 6.0)])]
  }

  /** `getLayerBounds()` of `SelectionHandles`. */
  function GetLayerBounds(layer: Layer): (r: Size)
    ensures layer.data.ImageData? ==> r == Size(layer.data.width, layer.data.height)
    ensures layer.data.StickerData? ==> r == Size(layer.data.width, layer.data.height)
    ensures layer.data.TextData? ==> r == Size(OrDefault(layer.data.textWidth, 120.0), OrDefault(layer.data.textHeight, 40.0))
    ensures layer.data.DrawingData? ==> r == Size(100.0, 100.0)
  {
    match layer.data
    case ImageData(_, w, h) => Size(w, h)
    case StickerData(_, _, _, w, h) => Size(w, h)
    case TextData(_, _, _, _, _, tw, th) => Size(OrDefault(tw, 120.0), OrDefault(th, 40.0))
    case _ => Size(100.0, 100.0)
  }

  /** One corner handle: a white disc with a primary-coloured ring. */
  function Handle(cx: real, cy: real): seq<Node> {
    [CircleNode(cx, cy, 6.0, WHITE, true), CircleNode(cx, cy, 6.0, PRIMARY, false)]
  }

  /** `SelectionHandles`: the dashed border 2 units outside the bounds, a handle on each corner
      (top-left, top-right, bottom-left, bottom-right) and the rotation handle above the centre. */
  function SelectionHandles(layer: Layer): (r: Node)
    ensures r.Group? && |r.children| == 11
    ensures var b := GetLayerBounds(layer); var border := r.children[0];
      border == BorderRect(-2.0, -2.0, b.width + 4.0, b.height + 4.0, PRIMARY, 2.0)
      && border.x + 2.0 == 0.0 && border.x + border.width - 2.0 == b.width
      && border.y + 2.0 == 0.0 && border.y + border.height - 2.0 == b.height
  {
    var b := GetLayerBounds(layer);
    var w, h := b.width, b.height;
    Group([], None,
      [BorderRect(-2.0, -2.0, w + 4.0, h + 4.0, PRIMARY, 2.0)]
      + Handle(-6.0, -6.0) + Handle(w + 6.0, -6.0) + Handle(-6.0, h + 6.0) + Handle(w + 6.0, h + 6.0)
      + [CircleNode(w / 2.0, -30.0, 8.0, ACCENT, true),
         Group([TranslateX(w / 2.0), TranslateY(-30.0)], None, [SvgPath("M -3 -1 L 0 -4 L 3 -1 Z", WHITE)])])
  }

  /** `LayerRenderer({ layer, isActive })`: nothing for a hidden layer; otherwise one group that
      translates by x then y, scales, rotates and applies the layer's opacity to its content and
      (when active) the selection handles. */
  function Render(layer: Layer, isActive: bool, loaded: string -> Option<Image>): (r: Option<Node>)
    ensures r.None? <==> !layer.visible
    ensures r.Some? ==> (r.value.Group? && r.value.groupOpacity == Some(layer.opacity)
      && r.value.transform == [TranslateX(layer.transform.x), TranslateY(layer.transform.y),
                               ScaleBy(layer.transform.scale), RotateBy(layer.transform.rotation)]
      && r.value.children == Content(layer, loaded) + (if isActive then [SelectionHandles(layer)] else []))
  {
    if !layer.visible then None
    else
      var t := layer.transform;
      Some(Group([TranslateX(t.x), TranslateY(t.y), ScaleBy(t.scale), RotateBy(t.rotation)], Some(layer.opacity),
                 Content(layer, loaded) + (if isActive then [SelectionHandles(layer)] else [])))
  }

  /** The selection border frames what is drawn: an image, sticker or text layer draws its image or
      placeholder from the origin at exactly the bounds `getLayerBounds` gives, and a drawing layer
      draws a group of its strokes, or nothing when it has none. */
  lemma ContentMatchesBounds(layer: Layer, loaded: string -> Option<Image>)
    ensures var c := Content(layer, loaded); var b := GetLayerBounds(layer);
      (layer.data.DrawingData? ==>
         c == (if layer.data.strokes == [] then [] else [Group([], None, StrokeNodes(layer.data.strokes))]))
      && (!layer.data.DrawingData? ==>
           |c| == 1
           && var base := if c[0].Group? then c[0].children[0] else c[0];
           (base.FillRect? || base.ImageNode?)
           && base.x == 0.0 && base.y == 0.0 && base.width == b.width && base.height == b.height)
  {
  }

  /** A drawing layer with no strokes shows nothing but, when active, its handles. */
  lemma EmptyDrawingRendersNothing(layer: Layer, isActive: bool, loaded: string -> Option<Image>)
    requires layer.visible && layer.data == DrawingData([])
    ensures Render(layer, isActive, loaded).value.children == (if isActive then [SelectionHandles(layer)] else [])
  {
  }

  /** A sticker of the catalogue gets the 12×12 marker 16 units in from its right edge and 4 down. */
  lemma KnownStickerMarker(layer: Layer, loaded: string -> Option<Image>)
    requires layer.data.StickerData? && Stickers.GetStickerById(layer.data.assetId).Some?
    ensures var c := Content(layer, loaded);
      |c| == 1 && c[0].Group? && |c[0].children| == 2
      && c[0].children[1] == FillRect(layer.data.width - 16.0, 4.0, 12.0, 12.0, WHITE, 6.0)
  {
    MarkerOf(Stickers.GetStickerById(layer.data.assetId), layer.data.width, layer.data.height);
  }

  /** The placeholder of a known sticker is one group of the box and the marker. */
  lemma MarkerOf(found: Option<Stickers.StickerAsset>, w: real, h: real)
    requires found.Some?
    ensures var c := StickerContent(found, w, h);
      |c| == 1 && c[0].Group? && |c[0].children| == 2 && c[0].children[1] == FillRect(w - 16.0, 4.0, 12.0, 12.0, WHITE, 6.0)
  {
  }

  /** The export draws every layer's placeholder (or, for an image that loads, its image) at the size
      the selection handles use for it. */
  lemma ExportMatchesBounds(layer: Layer, paint: Export.Paint, load: Export.Loader)
    requires !layer.data.ImageData? || load(layer.data.path).Some?
    ensures var body := Export.LayerBody(layer, paint, load); var b := GetLayerBounds(layer);
      |body| == 1
      && (body[0].DrawRoundRect? ==> body[0].rect == Export.Rect(0.0, 0.0, b.width, b.height))
      && (body[0].DrawImageRect? ==> body[0].dst == Export.Rect(0.0, 0.0, b.width, b.height))
  {
  }
}
