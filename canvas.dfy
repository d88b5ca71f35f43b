/** The editor canvas's gesture logic: the hit box of a layer, the view-to-canvas conversion, picking
    the top-most layer under a touch, dragging it with a 16 ms throttle through `updateLayer`, and the
    pinch-zoom clamp. */
module CanvasGestures {
  import opened Wrappers
  import opened EditorTypes
  import opened Seqs
  import opened Numbers
  import A = EditorActions
  import EditorStore
  import R = LayerRenderer

  const MIN_ZOOM: real := 0.5
  const MAX_ZOOM: real := 5.0

  /** The pinch handler's `Math.max(0.5, Math.min(5, event.scale))`. */
  function ClampZoom(scale: real): (r: real)
    ensures MIN_ZOOM <= r <= MAX_ZOOM
    ensures MIN_ZOOM <= scale <= MAX_ZOOM ==> r == scale
  {
    Clamp(scale, MIN_ZOOM, MAX_ZOOM)
  }

  /** `getLayerSize`: the scaled box a touch must land in. A sticker's `width || 0` is its width;
      image and drawing layers get an empty box. */
  function GetLayerSize(layer: Layer): (r: Size)
    ensures layer.data.StickerData? ==>
      r == Size(layer.data.width * layer.transform.scale, layer.data.height * layer.transform.scale)
    ensures layer.data.TextData? ==>
      r == Size(OrDefault(layer.data.textWidth, 120.0) * layer.transform.scale,
                OrDefault(layer.data.textHeight, 40.0) * layer.transform.scale)
    ensures layer.data.ImageData? || layer.data.DrawingData? ==> r == Size(0.0, 0.0)
  {
    var s := layer.transform.scale;
    match layer.data
    case StickerData(_, _, _, w, h) => Size(w * s, h * s)
    case TextData(_, _, _, _, _, tw, th) => Size(OrDefault(tw, 120.0) * s, OrDefault(th, 40.0) * s)
    case _ => Size(0.0, 0.0)
  }

  /** The hit box of a sticker or text layer is its selection box scaled by the layer's scale. */
  lemma HitBoxIsScaledSelection(layer: Layer)
    requires layer.data.StickerData? || layer.data.TextData?
    ensures var b := R.GetLayerBounds(layer); var s := layer.transform.scale;
      GetLayerSize(layer) == Size(b.width * s, b.height * s)
  {
  }

  /** `transformRef.current`: the canvas zoom and pan. */
  datatype ViewTransform = ViewTransform(scale: real, translateX: real, translateY: real)

  function ViewTransformOf(s: EditorState): ViewTransform {
    ViewTransform(s.zoom, s.pan.x, s.pan.y)
  }

  /** Where a canvas point appears on screen: the inverse of `convertToCanvasCoords`. */
  function CanvasToView(t: ViewTransform, p: Vec): Vec {
    Vec((p.x + t.translateX) * t.scale, (p.y + t.translateY) * t.scale)
  }

  /** `convertToCanvasCoords(viewX, viewY)`: `view / scale - translate` on each axis. A zero scale
      gives non-finite coordinates in the source, modelled as None. */
  function ConvertToCanvasCoords(t: ViewTransform, viewX: real, viewY: real): (r: Option<Vec>)
    ensures r.None? <==> t.scale == 0.0
    ensures r.Some? ==> CanvasToView(t, r.value) == Vec(viewX, viewY)
  {
    if t.scale == 0.0 then None
    else Some(Vec(viewX / t.scale - t.translateX, viewY / t.scale - t.translateY))
  }

  /** Converting a point shown on screen back gives the point. */
  lemma ConvertInvertsView(t: ViewTransform, p: Vec)
    requires t.scale != 0.0
    ensures ConvertToCanvasCoords(t, CanvasToView(t, p).x, CanvasToView(t, p).y) == Some(p)
  {
    var v := CanvasToView(t, p);
    assert v.x / t.scale == p.x + t.translateX;
    assert v.y / t.scale == p.y + t.translateY;
  }

  /** The `candidateTypes` test: only visible sticker and text layers can be dragged. */
  predicate Draggable(layer: Layer) {
    layer.visible && (layer.data.StickerData? || layer.data.TextData?)
  }

  /** The inclusive box `[0, width] × [0, height]` placed at the layer's position (rotation is not
      taken into account). */
  predicate InBox(p: Vec, t: Transform, size: Size) {
    var localX, localY := p.x - t.x, p.y - t.y;
    localX >= 0.0 && localX <= size.width && localY >= 0.0 && localY <= size.height
  }

  /** The touch at `(viewX, viewY)` lands on `layer`. Non-finite coordinates fail every comparison. */
  predicate Hits(layer: Layer, t: ViewTransform, viewX: real, viewY: real) {
    Draggable(layer)
    && match ConvertToCanvasCoords(t, viewX, viewY)
       case None => false
       case Some(p) => InBox(p, layer.transform, GetLayerSize(layer))
  }

  /** The index of the highest layer the touch lands on. */
  function TopmostHit(layers: seq<Layer>, t: ViewTransform, viewX: real, viewY: real): (r: Option<nat>)
    ensures r.Some? ==> (r.value < |layers| && Hits(layers[r.value], t, viewX, viewY)
      && forall j | r.value < j < |layers| :: !Hits(layers[j], t, viewX, viewY))
    ensures r.None? ==> forall j | 0 <= j < |layers| :: !Hits(layers[j], t, viewX, viewY)
    decreases |layers|
  {
    if |layers| == 0 then None
    else if Hits(layers[|layers| - 1], t, viewX, viewY) then Some(|layers| - 1)
    else TopmostHit(layers[..|layers| - 1], t, viewX, viewY)
  }

  /** The drag refs of the canvas and its `isLayerDragging` flag. */
  datatype DragRefs = DragRefs(
    draggingLayerId: Option<string>,
    dragInitialTransform: Option<Vec>,
    lastUpdateTime: int,
    isLayerDragging: bool)

  const IDLE: DragRefs := DragRefs(None, None, 0, false)

  /** A JavaScript truth test on a layer id: null and the empty string are false. */
  predicate Truthy(id: Option<string>) {
    id.Some? && id.value != ""
  }

  function LayerIdIs(id: string): Layer -> bool {
    (l: Layer) => l.id == id
  }

  /** `handleDragStart(x, y)` on the refs and the store. */
  function DragStart(d: DragRefs, s: EditorState, x: real, y: real): (DragRefs, EditorState) {
    match TopmostHit(s.layers, ViewTransformOf(s), x, y)
    case None => (d.(draggingLayerId := None, dragInitialTransform := None), s)
    case Some(i) =>
      var l := s.layers[i];
      (d.(draggingLayerId := Some(l.id), dragInitialTransform := Some(Vec(l.transform.x, l.transform.y)),
          isLayerDragging := true),
       A.SetActiveLayer(s, Some(l.id)))
  }

  /** A touch picks the highest visible sticker or text layer under it, records that layer's position
      and selects it; image and drawing layers are never picked. A touch that lands on nothing clears
      the drag refs. The store changes in its selection at most. */
  lemma DragStartPicksTopmost(d: DragRefs, s: EditorState, x: real, y: real)
    ensures var (d1, s1) := DragStart(d, s, x, y); var t := ViewTransformOf(s);
      s1 == s.(activeLayerId := s1.activeLayerId) && d1.lastUpdateTime == d.lastUpdateTime
      && (d1.draggingLayerId.None? <==> forall j | 0 <= j < |s.layers| :: !Hits(s.layers[j], t, x, y))
      && (d1.draggingLayerId.None? ==> d1 == d.(draggingLayerId := None, dragInitialTransform := None) && s1 == s)
      && (d1.draggingLayerId.Some? ==>
            exists i | 0 <= i < |s.layers| ::
              var l := s.layers[i];
              l.visible && (l.data.StickerData? || l.data.TextData?) && Hits(l, t, x, y)
              && (forall j | i < j < |s.layers| :: !Hits(s.layers[j], t, x, y))
              && d1.draggingLayerId == Some(l.id) && s1.activeLayerId == Some(l.id)
              && d1.dragInitialTransform == Some(Vec(l.transform.x, l.transform.y)) && d1.isLayerDragging)
  {
    var t := ViewTransformOf(s);
    match TopmostHit(s.layers, t, x, y)
    case None =>
    case Some(i) =>
      var l := s.layers[i];
      assert Hits(l, t, x, y);
  }

  /** `handleDragMove(translationX, translationY)` at clock `now`: the dragged layer moves to its
      initial position plus the translation divided by the zoom (1 when the zoom is 0), unless the last
      accepted move was less than 16 ms ago. */
  function DragMove(d: DragRefs, s: EditorState, tx: real, ty: real, now: int): (DragRefs, EditorState) {
    if !Truthy(d.draggingLayerId) then (d, s)
    else
      var id := d.draggingLayerId.value;
      match Find(s.layers, LayerIdIs(id))
      case None => (d, s)
      case Some(target) =>
        match d.dragInitialTransform
        case None => (d, s)
        case Some(initial) =>
          var effectiveScale := if s.zoom == 0.0 then 1.0 else s.zoom;
          var newX, newY := initial.x + tx / effectiveScale, initial.y + ty / effectiveScale;
          if now - d.lastUpdateTime < 16 then (d, s)
          else
            (d.(lastUpdateTime := now),
             A.UpdateLayer(s, id, A.TransformPatch(target.transform.(x := newX, y := newY))))
  }

  /** A move without a truthy dragged id, without that layer, without a recorded start, or within
      16 ms of the last accepted one changes nothing. */
  lemma DragMoveRejects(d: DragRefs, s: EditorState, tx: real, ty: real, now: int)
    requires !Truthy(d.draggingLayerId) || Find(s.layers, LayerIdIs(d.draggingLayerId.value)).None?
      || d.dragInitialTransform.None? || now - d.lastUpdateTime < 16
    ensures DragMove(d, s, tx, ty, now) == (d, s)
  {
  }

  /** The patch an accepted move applies: the found layer's transform at the recorded start plus the
      translation divided by the zoom (1 when the zoom is 0). */
  function MovePatch(d: DragRefs, s: EditorState, tx: real, ty: real): A.LayerPatch
    requires Truthy(d.draggingLayerId) && Find(s.layers, LayerIdIs(d.draggingLayerId.value)).Some?
    requires d.dragInitialTransform.Some?
  {
    var target := Find(s.layers, LayerIdIs(d.draggingLayerId.value)).value;
    var initial := d.dragInitialTransform.value;
    var scale := if s.zoom == 0.0 then 1.0 else s.zoom;
    A.TransformPatch(target.transform.(x := initial.x + tx / scale, y := initial.y + ty / scale))
  }

  /** Otherwise the move stamps the clock and moves the found layer's transform. */
  lemma DragMoveAccepts(d: DragRefs, s: EditorState, tx: real, ty: real, now: int)
    requires Truthy(d.draggingLayerId) && Find(s.layers, LayerIdIs(d.draggingLayerId.value)).Some?
    requires d.dragInitialTransform.Some? && now - d.lastUpdateTime >= 16
    ensures DragMove(d, s, tx, ty, now) ==
      (d.(lastUpdateTime := now), A.UpdateLayer(s, d.draggingLayerId.value, MovePatch(d, s, tx, ty)))
  {
  }

  /** Updating with a transform patch changes only the transform of the layers with that id. */
  lemma TransformPatchOnlyMoves(s: EditorState, id: string, t: Transform)
    ensures var s1 := A.UpdateLayer(s, id, A.TransformPatch(t));
      forall i | 0 <= i < |s.layers| ::
        s1.layers[i] == (if s.layers[i].id == id then s.layers[i].(transform := t) else s.layers[i])
  {
    forall l: Layer {
      A.MergeLaws(l, A.EMPTY_PATCH, t);
    }
  }

  /** A move never adds a history entry and changes only layers with the dragged id, and of those only
      the transform; a move within 16 ms of the last accepted one changes nothing. */
  lemma DragMoveOnlyMoves(d: DragRefs, s: EditorState, tx: real, ty: real, now: int)
    ensures var (d1, s1) := DragMove(d, s, tx, ty, now);
      s1 == s.(layers := s1.layers) && |s1.layers| == |s.layers|
      && d1 == d.(lastUpdateTime := d1.lastUpdateTime)
      && (d1.lastUpdateTime == d.lastUpdateTime || d1.lastUpdateTime == now)
      && (forall i | 0 <= i < |s.layers| ::
            s1.layers[i] == s.layers[i].(transform := s1.layers[i].transform)
            && (s1.layers[i] != s.layers[i] ==> Some(s.layers[i].id) == d.draggingLayerId))
      && (now - d.lastUpdateTime < 16 ==> (d1, s1) == (d, s))
  {
    if Truthy(d.draggingLayerId) && Find(s.layers, LayerIdIs(d.draggingLayerId.value)).Some?
       && d.dragInitialTransform.Some? && now - d.lastUpdateTime >= 16 {
      var id := d.draggingLayerId.value;
      var target := Find(s.layers, LayerIdIs(id)).value;
      var initial := d.dragInitialTransform.value;
      var zoom := if s.zoom == 0.0 then 1.0 else s.zoom;
      DragMoveAccepts(d, s, tx, ty, now);
      TransformPatchOnlyMoves(s, id, target.transform.(x := initial.x + tx / zoom, y := initial.y + ty / zoom));
    } else {
      DragMoveRejects(d, s, tx, ty, now);
    }
  }

  /** No two layers share an id. */
  predicate UniqueIds(layers: seq<Layer>) {
    forall i, j | 0 <= i < j < |layers| :: layers[i].id != layers[j].id
  }

  /** A drag that starts on a layer and makes one accepted move shifts that layer, and only it, by the
      translation divided by the zoom; its scale and rotation stay and no history entry is added. */
  lemma DragFollowsFinger(d: DragRefs, s: EditorState, x: real, y: real, tx: real, ty: real, now: int)
    requires UniqueIds(s.layers)
    requires TopmostHit(s.layers, ViewTransformOf(s), x, y).Some?
    requires s.layers[TopmostHit(s.layers, ViewTransformOf(s), x, y).value].id != ""
    requires now - d.lastUpdateTime >= 16
    ensures var i := TopmostHit(s.layers, ViewTransformOf(s), x, y).value;
      var (d1, s1) := DragStart(d, s, x, y);
      var (d2, s2) := DragMove(d1, s1, tx, ty, now);
      var zoom := if s.zoom == 0.0 then 1.0 else s.zoom;
      var t := s.layers[i].transform;
      |s2.layers| == |s.layers|
      && s2.layers[i] == s.layers[i].(transform := t.(x := t.x + tx / zoom, y := t.y + ty / zoom))
      && (forall j | 0 <= j < |s.layers| && j != i :: s2.layers[j] == s.layers[j])
      && s2.history == s.history && s2.historyIndex == s.historyIndex
      && s2.activeLayerId == Some(s.layers[i].id) && d2.lastUpdateTime == now
  {
    var i := TopmostHit(s.layers, ViewTransformOf(s), x, y).value;
    var (d1, s1) := DragStart(d, s, x, y);
    assert s1 == s.(activeLayerId := Some(s.layers[i].id));
    MoveOfPicked(d1, s1, i, tx, ty, now);
  }

  /** An accepted move of the layer at `i`, recorded with its own position, shifts that layer, and
      only it, by the translation divided by the zoom. */
  lemma MoveOfPicked(d: DragRefs, s: EditorState, i: nat, tx: real, ty: real, now: int)
    requires UniqueIds(s.layers) && i < |s.layers| && s.layers[i].id != ""
    requires d.draggingLayerId == Some(s.layers[i].id)
    requires d.dragInitialTransform == Some(Vec(s.layers[i].transform.x, s.layers[i].transform.y))
    requires now - d.lastUpdateTime >= 16
    ensures var (d2, s2) := DragMove(d, s, tx, ty, now);
      var zoom := if s.zoom == 0.0 then 1.0 else s.zoom;
      var t := s.layers[i].transform;
      |s2.layers| == |s.layers|
      && s2.layers[i] == s.layers[i].(transform := t.(x := t.x + tx / zoom, y := t.y + ty / zoom))
      && (forall j | 0 <= j < |s.layers| && j != i :: s2.layers[j] == s.layers[j])
      && s2.history == s.history && s2.historyIndex == s.historyIndex
      && s2.activeLayerId == s.activeLayerId && d2.lastUpdateTime == now
  {
    var l := s.layers[i];
    var found := Find(s.layers, LayerIdIs(l.id));
    assert LayerIdIs(l.id)(s.layers[i]);
    var k :| 0 <= k < |s.layers| && s.layers[k] == found.value;
    assert k == i;
    var zoom := if s.zoom == 0.0 then 1.0 else s.zoom;
    var t := l.transform.(x := l.transform.x + tx / zoom, y := l.transform.y + ty / zoom);
    assert MovePatch(d, s, tx, ty) == A.TransformPatch(t);
    DragMoveAccepts(d, s, tx, ty, now);
    MovedOnly(s, i, t);
  }

  /** With unique ids, a transform patch on the id of the layer at `i` changes that layer's transform
      and nothing else. */
  lemma MovedOnly(s: EditorState, i: nat, t: Transform)
    requires UniqueIds(s.layers) && i < |s.layers|
    ensures var r := A.UpdateLayer(s, s.layers[i].id, A.TransformPatch(t));
      |r.layers| == |s.layers| && r.layers[i] == s.layers[i].(transform := t)
      && (forall j | 0 <= j < |s.layers| && j != i :: r.layers[j] == s.layers[j])
      && r == s.(layers := r.layers)
  {
    TransformPatchOnlyMoves(s, s.layers[i].id, t);
  }

  /** `handleDragEnd()`: nothing is being dragged any more (an empty-string id, being false, is left
      in place); the throttle clock stays. */
  function DragEnd(d: DragRefs): (r: DragRefs)
    ensures !Truthy(r.draggingLayerId) && r.dragInitialTransform.None? && !r.isLayerDragging
    ensures r.lastUpdateTime == d.lastUpdateTime
  {
    DragRefs(if Truthy(d.draggingLayerId) then None else d.draggingLayerId, None, d.lastUpdateTime, false)
  }

  /** After a drag ends, further moves change nothing until a new drag starts. */
  lemma MoveAfterEndIsNoop(d: DragRefs, s: EditorState, tx: real, ty: real, now: int)
    ensures DragMove(DragEnd(d), s, tx, ty, now) == (DragEnd(d), s)
  {
  }

  /** The canvas component's gesture state over the editor store it reads and writes. */
  class Gestures {
    var draggingLayerId: Option<string>
    var dragInitialTransform: Option<Vec>
    var lastUpdateTime: int
    var isLayerDragging: bool
    /** The pinch gesture's `scale` shared value. */
    var scaleValue: real
    /** The pan gesture's `translateX` and `translateY` shared values. */
    var translateX: real
    var translateY: real
    const store: EditorStore.Store

    function Refs(): DragRefs
      reads this
    {
      DragRefs(draggingLayerId, dragInitialTransform, lastUpdateTime, isLayerDragging)
    }

    constructor(store: EditorStore.Store)
      ensures this.store == store && Refs() == IDLE && scaleValue == store.zoom
      ensures translateX == store.pan.x && translateY == store.pan.y
    {
      this.store := store;
      draggingLayerId := None;
      dragInitialTransform := None;
      lastUpdateTime := 0;
      isLayerDragging := false;
      scaleValue := store.zoom;
      translateX := store.pan.x;
      translateY := store.pan.y;
    }

    /** `handleDragStart`: scan the layers from the top down for the first hit. */
    method HandleDragStart(x: real, y: real)
      requires store.Valid()
      modifies this, store
      ensures store.Valid()
      ensures (Refs(), store.State()) == DragStart(old(Refs()), old(store.State()), x, y)
      ensures scaleValue == old(scaleValue) && translateX == old(translateX) && translateY == old(translateY)
    {
      var layers := store.layers;
      var view := ViewTransformOf(store.State());
      var i := |layers|;
      while i > 0
        invariant 0 <= i <= |layers|
        invariant forall j | i <= j < |layers| :: !Hits(layers[j], view, x, y)
        invariant Refs() == old(Refs()) && store.State() == old(store.State())
      {
        i := i - 1;
        var layer := layers[i];
        if !layer.visible || !(layer.data.StickerData? || layer.data.TextData?) {
          continue;
        }
        var size := GetLayerSize(layer);
        var canvasPoint := ConvertToCanvasCoords(view, x, y);
        if canvasPoint.Some? {
          var localX := canvasPoint.value.x - layer.transform.x;
          var localY := canvasPoint.value.y - layer.transform.y;
          if localX >= 0.0 && localX <= size.width && localY >= 0.0 && localY <= size.height {
            draggingLayerId := Some(layer.id);
            dragInitialTransform := Some(Vec(layer.transform.x, layer.transform.y));
            if store.activeLayerId != Some(layer.id) {
              store.SetActiveLayer(Some(layer.id));
            }
            if !isLayerDragging {
              isLayerDragging := true;
            }
            return;
          }
        }
      }
      draggingLayerId := None;
      dragInitialTransform := None;
    }

    /** `handleDragMove` at clock reading `now` (`Date.now()`). */
    method HandleDragMove(translationX: real, translationY: real, now: int)
      requires store.Valid()
      modifies this`lastUpdateTime, store
      ensures store.Valid()
      ensures Refs() == DragMove(old(Refs()), old(store.State()), translationX, translationY, now).0
      ensures store.State() == DragMove(old(Refs()), old(store.State()), translationX, translationY, now).1
    {
      ghost var d, s := Refs(), store.State();
      var layerId := draggingLayerId;
      var targetLayer := if Truthy(layerId) then Find(store.layers, LayerIdIs(layerId.value)) else None;
      var initialTransform := dragInitialTransform;
      if !Truthy(layerId) || targetLayer.None? || initialTransform.None? || now - lastUpdateTime < 16 {
        // each of these returns early in the source
        DragMoveRejects(d, s, translationX, translationY, now);
      } else {
        var effectiveScale := if store.zoom == 0.0 then 1.0 else store.zoom;
        var deltaX := translationX / effectiveScale;
        var deltaY := translationY / effectiveScale;
        var newX := initialTransform.value.x + deltaX;
        var newY := initialTransform.value.y + deltaY;
        var patch := A.TransformPatch(targetLayer.value.transform.(x := newX, y := newY));
        assert targetLayer == Find(s.layers, LayerIdIs(d.draggingLayerId.value));
        assert effectiveScale == if s.zoom == 0.0 then 1.0 else s.zoom;
        assert patch == MovePatch(d, s, translationX, translationY);
        DragMoveAccepts(d, s, translationX, translationY, now);
        lastUpdateTime := now;
        store.UpdateLayer(layerId.value, patch);
      }
    }

    method HandleDragEnd()
      modifies this
      ensures Refs() == DragEnd(old(Refs())) && scaleValue == old(scaleValue)
      ensures translateX == old(translateX) && translateY == old(translateY)
    {
      if Truthy(draggingLayerId) {
        draggingLayerId := None;
      }
      dragInitialTransform := None;
      if isLayerDragging {
        isLayerDragging := false;
      }
    }

    /** The pan gesture's `onUpdate`, which is disabled while a layer is being dragged: the shared
        values follow the finger's translation. */
    method PanUpdate(translationX: real, translationY: real)
      modifies this
      ensures (translateX, translateY) == (if old(isLayerDragging) then (old(translateX), old(translateY))
                                            else (translationX, translationY))
      ensures Refs() == old(Refs()) && scaleValue == old(scaleValue)
    {
      if !isLayerDragging {
        translateX := translationX;
        translateY := translationY;
      }
    }

    /** The pan gesture's `onEnd`: the translation becomes the store's pan, with no history entry. */
    method PanEnd()
      requires store.Valid()
      modifies store
      ensures store.Valid()
      ensures isLayerDragging ==> store.State() == old(store.State())
      ensures !isLayerDragging ==> store.State() == A.SetPan(old(store.State()), translateX, translateY)
    {
      if !isLayerDragging {
        store.SetPan(translateX, translateY);
      }
    }

    /** The pinch gesture's `onUpdate`, disabled while a layer is being dragged: the scale follows the
        fingers, kept within the zoom range. */
    method PinchUpdate(eventScale: real)
      modifies this
      ensures scaleValue == (if old(isLayerDragging) then old(scaleValue) else ClampZoom(eventScale))
      ensures Refs() == old(Refs()) && translateX == old(translateX) && translateY == old(translateY)
    {
      if !isLayerDragging {
        scaleValue := ClampZoom(eventScale);
      }
    }

    /** The pinch gesture's `onEnd`: the clamped scale becomes the store's zoom, with no history entry. */
    method PinchEnd()
      requires store.Valid()
      modifies store
      ensures store.Valid()
      ensures isLayerDragging ==> store.State() == old(store.State())
      ensures !isLayerDragging ==> store.State() == A.SetZoom(old(store.State()), scaleValue)
    {
      if !isLayerDragging {
        store.SetZoom(scaleValue);
      }
    }

    /** The mount effect: the canvas takes the window's width and its height less 200 points for the
        toolbars. */
    method InitCanvasSize(windowWidth: real, windowHeight: real)
      requires store.Valid()
      modifies store
      ensures store.Valid()
      ensures store.State() == A.SetCanvasSize(old(store.State()), windowWidth, windowHeight - 200.0)
    {
      store.SetCanvasSize(windowWidth, windowHeight - 200.0);
    }
  }
}
