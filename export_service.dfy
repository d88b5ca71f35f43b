/** The export pipeline: render the visible layers into a canvas as a list of draw commands, run the
    (identity) filter step, encode, write the Base64 text to a temporary file and save it to the photo
    library, reporting progress on the way. Skia, the file system and the media library are the
    parameters gathered in `Env`. */
module ExportService {
  import opened Wrappers
  import opened Text
  import opened EditorTypes
  import opened Seqs
  import B64 = Base64

  // ---------------------------------------------------------------------------------------------
  // Draw commands and the canvas

  datatype Rect = Rect(x: real, y: real, width: real, height: real)

  /** A paint and the setter calls made on it, in order: `setAlphaf(alphaf)`, then `setColor(c)` when
      `color` is present. */
  datatype Paint = Paint(alphaf: real, color: Option<string>)

  datatype DrawCmd =
    | Clear(color: string)
    | Save
    | Restore
    | Translate(dx: real, dy: real)
    | Scale(sx: real, sy: real)
    | Rotate(angle: real)
    | DrawImageRect(image: Image, src: Rect, dst: Rect, paint: Paint)
    | DrawRoundRect(rect: Rect, rx: real, ry: real, paint: Paint)

  const STICKER_COLOR := "#EC4899"
  const TEXT_COLOR := "#3B82F6"
  const DRAWING_COLOR := "#10B981"

  /** The save depth after running `cmds` from depth `d`, or None when a `restore` has no matching
      `save`. */
  function Run(d: nat, cmds: seq<DrawCmd>): Option<nat>
    decreases |cmds|
  {
    if cmds == [] then Some(d)
    else match cmds[0]
      case Save => Run(d + 1, cmds[1..])
      case Restore => if d == 0 then None else Run(d - 1, cmds[1..])
      case _ => Run(d, cmds[1..])
  }

  lemma {:induction false} RunConcat(d: nat, a: seq<DrawCmd>, b: seq<DrawCmd>)
    ensures Run(d, a + b) == match Run(d, a) case None => None case Some(e) => Run(e, b)
    decreases |a|
  {
    if a == [] {
      assert a + b == b;
    } else {
      assert (a + b)[0] == a[0];
      assert (a + b)[1..] == a[1..] + b;
      match a[0]
      case Save => RunConcat(d + 1, a[1..], b);
      case Restore => if d > 0 { RunConcat(d - 1, a[1..], b); }
      case _ => RunConcat(d, a[1..], b);
    }
  }

  /** The save depth after one command; a `restore` with nothing saved is ignored. */
  function Push(d: nat, c: DrawCmd): (r: nat)
    ensures Run(d, [c]).Some? ==> Run(d, [c]) == Some(r)
    ensures Run(d, [c]).None? <==> c.Restore? && d == 0
  {
    assert [c][1..] == [];
    match c
    case Save => d + 1
    case Restore => if d == 0 then 0 else d - 1
    case _ => d
  }

  /** The canvas of a Skia surface: the commands issued on it and its save depth. */
  class Canvas {
    var commands: seq<DrawCmd>
    var depth: nat

    constructor()
      ensures commands == [] && depth == 0
    {
      commands := [];
      depth := 0;
    }

    /** Issues one command; `save` pushes and `restore` pops the state stack. */
    method Do(c: DrawCmd)
      modifies this
      ensures commands == old(commands) + [c]
      ensures depth == Push(old(depth), c)
    {
      commands := commands + [c];
      match c
      case Save => depth := depth + 1;
      case Restore => if depth > 0 { depth := depth - 1; }
      case _ =>
    }
  }

  // ---------------------------------------------------------------------------------------------
  // Rendering

  /** `ImageService.loadImage(path)` as seen by the export: the image, or None for null or a throw. */
  type Loader = string -> Option<Image>

  /** The per-type drawing of `renderImageLayer`, `renderStickerLayer`, `renderTextLayer` and
      `renderDrawingLayer`, with `paint` already carrying the layer's opacity. */
  function LayerBody(layer: Layer, paint: Paint, load: Loader): (r: seq<DrawCmd>)
    ensures |r| <= 1
    ensures forall c | c in r :: (c.DrawImageRect? || c.DrawRoundRect?) && c.paint.alphaf == paint.alphaf
  {
    match layer.data
    case ImageData(path, w, h) =>
      (match load(path)
        case None => []
        case Some(img) =>
          [DrawImageRect(img, Rect(0.0, 0.0, img.width as real, img.height as real), Rect(0.0, 0.0, w, h), paint)])
    case StickerData(_, _, _, w, h) =>
      [DrawRoundRect(Rect(0.0, 0.0, w, h), 8.0, 8.0, paint.(color := Some(STICKER_COLOR)))]
    case TextData(_, _, _, _, _, tw, th) =>
      [DrawRoundRect(Rect(0.0, 0.0, OrDefault(tw, 120.0), OrDefault(th, 40.0)), 4.0, 4.0,
                     paint.(color := Some(TEXT_COLOR)))]
    case DrawingData(_) =>
      [DrawRoundRect(Rect(0.0, 0.0, 100.0, 100.0), 4.0, 4.0, paint.(color := Some(DRAWING_COLOR)))]
  }

  /** `renderLayerToCanvas`: save, translate, uniform scale, rotate, the layer's drawing, restore. */
  function LayerCommands(layer: Layer, load: Loader): seq<DrawCmd> {
    var t := layer.transform;
    [Save, Translate(t.x, t.y), Scale(t.scale, t.scale), Rotate(t.rotation)]
      + LayerBody(layer, Paint(layer.opacity, None), load) + [Restore]
  }

  /** Commands other than save and restore leave the depth alone. */
  lemma {:induction false} RunNeutral(d: nat, cmds: seq<DrawCmd>)
    requires forall c | c in cmds :: !c.Save? && !c.Restore?
    ensures Run(d, cmds) == Some(d)
    decreases |cmds|
  {
    if cmds != [] {
      assert cmds[0] in cmds;
      RunNeutral(d, cmds[1..]);
    }
  }

  /** Each layer's commands are bracketed: they start with a save, end with the matching restore and
      leave the depth where it was; every draw uses the layer's opacity. */
  lemma LayerBracketed(d: nat, layer: Layer, load: Loader)
    ensures var cs := LayerCommands(layer, load);
      cs[0] == Save && cs[|cs| - 1] == Restore && Run(d, cs) == Some(d)
    ensures forall c | c in LayerCommands(layer, load) && (c.DrawImageRect? || c.DrawRoundRect?) ::
      c.paint.alphaf == layer.opacity
  {
    var t := layer.transform;
    var mid := [Translate(t.x, t.y), Scale(t.scale, t.scale), Rotate(t.rotation)];
    var body := LayerBody(layer, Paint(layer.opacity, None), load);
    var inner := mid + body;
    var cs := LayerCommands(layer, load);
    assert cs == [Save] + (inner + [Restore]);
    assert cs[1..] == inner + [Restore];
    RunNeutral(d + 1, inner);
    RunConcat(d + 1, inner, [Restore]);
  }

  /** The commands for a list of layers, one bracket per layer, in order. */
  function LayersCommands(layers: seq<Layer>, load: Loader): seq<DrawCmd>
    decreases |layers|
  {
    if layers == [] then [] else LayerCommands(layers[0], load) + LayersCommands(layers[1..], load)
  }

  lemma {:induction false} LayersCommandsConcat(a: seq<Layer>, b: seq<Layer>, load: Loader)
    ensures LayersCommands(a + b, load) == LayersCommands(a, load) + LayersCommands(b, load)
    decreases |a|
  {
    if a == [] {
      assert a + b == b;
    } else {
      assert (a + b)[0] == a[0];
      assert (a + b)[1..] == a[1..] + b;
      LayersCommandsConcat(a[1..], b, load);
    }
  }

  /** The layer brackets never restore more than they saved and end at the starting depth. */
  lemma {:induction false} LayersBalanced(d: nat, layers: seq<Layer>, load: Loader)
    ensures Run(d, LayersCommands(layers, load)) == Some(d)
    decreases |layers|
  {
    if layers != [] {
      LayerBracketed(d, layers[0], load);
      LayersBalanced(d, layers[1..], load);
      RunConcat(d, LayerCommands(layers[0], load), LayersCommands(layers[1..], load));
    }
  }

  function IsVisible(layer: Layer): bool {
    layer.visible
  }

  /** `layers.filter(layer => layer.visible)` */
  function VisibleLayers(layers: seq<Layer>): (r: seq<Layer>)
    ensures forall l | l in r :: l in layers && l.visible
    ensures forall l | l in layers && l.visible :: l in r
  {
    FilterMembers(layers, IsVisible);
    Filter(layers, IsVisible)
  }

  /** The value reported before drawing visible layer `i` of `n`. */
  function Step(i: nat, n: nat): real
    requires i < n
  {
    ((i + 1) as real / n as real) * 0.8
  }

  /** The progress values `renderFinalImage` reports for `n` visible layers. */
  function RenderCallbacks(n: nat): (r: seq<real>)
    ensures |r| == n + 3
  {
    [0.1] + seq(n, i requires 0 <= i < n => Step(i, n)) + [0.9, 1.0]
  }

  predicate InUnitRange(s: seq<real>) {
    forall i | 0 <= i < |s| :: 0.0 <= s[i] <= 1.0
  }

  predicate Nondecreasing(s: seq<real>) {
    forall i | 0 < i < |s| :: s[i - 1] <= s[i]
  }

  lemma StepBounds(i: nat, n: nat)
    requires i < n
    ensures 0.0 < (i + 1) as real / n as real <= 1.0
    ensures i == 0 ==> (i + 1) as real / n as real == 1.0 / n as real
    ensures i + 1 < n ==> (i + 1) as real / n as real < (i + 2) as real / n as real
  {
  }

  /** Every reported value lies in [0, 1]. */
  lemma CallbacksInRange(n: nat)
    ensures InUnitRange(RenderCallbacks(n))
  {
    var r := RenderCallbacks(n);
    forall i | 0 <= i < |r|
      ensures 0.0 <= r[i] <= 1.0
    {
      if 1 <= i <= n {
        StepBounds(i - 1, n);
      }
    }
  }

  /** The reported values never go down exactly when at most eight layers are visible: with nine or
      more, the first layer's `0.8 / n` falls below the initial 0.1. */
  lemma CallbacksMonotoneIff(n: nat)
    ensures Nondecreasing(RenderCallbacks(n)) <==> n <= 8
  {
    var r := RenderCallbacks(n);
    if n <= 8 {
      forall i | 0 < i < |r|
        ensures r[i - 1] <= r[i]
      {
        if i == 1 && n > 0 {
          StepBounds(0, n);
          assert 0.1 <= 0.8 / n as real;
        } else if 1 < i <= n {
          StepBounds(i - 2, n);
        } else if i == n + 1 && n > 0 {
          StepBounds(n - 1, n);
        }
      }
    } else {
      StepBounds(0, n);
      assert r[1] == (1.0 / n as real) * 0.8;
      assert r[1] < r[0];
    }
  }

  /** One canvas render: the image it yields (None when no surface could be made), the commands issued
      and the progress values reported. */
  datatype Render = Render(image: Option<Image>, commands: seq<DrawCmd>, progress: seq<real>)

  /** The outside world of one export. */
  datatype Env = Env(
    surfaceMade: bool,                                // `Skia.Surface.Make` returned a surface
    rasterise: (Size, seq<DrawCmd>) -> Image,         // `makeImageSnapshot()` of a surface of that size
                                                      // after those commands
    load: Loader,                                     // `ImageService.loadImage`
    encodeToBytes: (Image, ImageFormat, real) -> seq<B64.Byte>,
    now: nat,                                         // `Date.now()` in `saveToLibrary`
    documentDirectory: string,
    writeError: Option<string>,                       // `writeAsStringAsync` threw this error
    library: Result<string>,                          // `saveToLibraryAsync`: the asset uri, or the error
    deleteError: Option<string>)                      // `deleteAsync` threw this error

  /** `applyFilterToImage`: returns its input. */
  function ApplyFilterToImage(image: Image, filter: AppliedFilter): (r: Option<Image>)
    ensures r == Some(image)
  {
    Some(image)
  }

  /** `renderFinalImage(editorState)`. */
  function FinalRender(s: EditorState, env: Env): (r: Render)
    ensures !env.surfaceMade ==> r == Render(None, [], [])
    ensures env.surfaceMade ==> r.image == Some(env.rasterise(s.canvasSize, r.commands))
    ensures env.surfaceMade ==> r.commands == [Clear("white")] + LayersCommands(VisibleLayers(s.layers), env.load)
  {
    if !env.surfaceMade then Render(None, [], [])
    else
      var visible := VisibleLayers(s.layers);
      var commands := [Clear("white")] + LayersCommands(visible, env.load);
      Render(Some(env.rasterise(s.canvasSize, commands)), commands, RenderCallbacks(|visible|))
  }

  /** The render is independent of the filter list and of hidden layers. */
  lemma RenderIgnoresFiltersAndHidden(s: EditorState, env: Env, filters: seq<AppliedFilter>, hidden: Layer)
    requires !hidden.visible
    ensures FinalRender(s.(filters := filters), env) == FinalRender(s, env)
    ensures FinalRender(s.(layers := s.layers + [hidden]), env) == FinalRender(s, env)
    ensures FinalRender(s.(layers := [hidden] + s.layers), env) == FinalRender(s, env)
  {
    FilterConcat(s.layers, [hidden], IsVisible);
    FilterConcat([hidden], s.layers, IsVisible);
    assert Filter([hidden], IsVisible) == [];
    assert Filter(s.layers, IsVisible) + [] == Filter(s.layers, IsVisible);
    assert [] + Filter(s.layers, IsVisible) == Filter(s.layers, IsVisible);
  }

  /** A rendered canvas is cleared to white first and its saves and restores balance. */
  lemma RenderBalanced(s: EditorState, env: Env)
    requires env.surfaceMade
    ensures var r := FinalRender(s, env);
      r.commands[0] == Clear("white") && Run(0, r.commands) == Some(0)
  {
    var visible := VisibleLayers(s.layers);
    LayersBalanced(0, visible, env.load);
    RunConcat(0, [Clear("white")], LayersCommands(visible, env.load));
  }

  /** `renderFinalImage`: clear, report 0.1, draw each visible layer after reporting its share, report
      0.9, run the filter step over the snapshot, report 1.0. */
  method RenderFinalImage(s: EditorState, env: Env) returns (r: Render)
    ensures r == FinalRender(s, env)
  {
    if !env.surfaceMade {
      return Render(None, [], []);
    }
    var canvas := new Canvas();
    canvas.Do(Clear("white"));
    var progress := [0.1];
    var visible := VisibleLayers(s.layers);
    var steps := RenderLayers(canvas, visible, env.load);
    var commands := canvas.commands;
    assert commands == [Clear("white")] + LayersCommands(visible, env.load);
    progress := progress + steps + [0.9];
    var snapshot := env.rasterise(s.canvasSize, commands);
    var finalImage := snapshot;
    for k := 0 to |s.filters|
      invariant finalImage == snapshot
    {
      var filtered := ApplyFilterToImage(finalImage, s.filters[k]);
      if filtered.Some? {
        finalImage := filtered.value;
      }
    }
    progress := progress + [1.0];
    CallbacksOf(progress, |visible|);
    r := Render(Some(finalImage), commands, progress);
  }

  /** The layer loop of `renderFinalImage`: report each layer's share, then draw it. */
  method RenderLayers(canvas: Canvas, visible: seq<Layer>, load: Loader) returns (steps: seq<real>)
    modifies canvas
    ensures canvas.commands == old(canvas.commands) + LayersCommands(visible, load)
    ensures canvas.depth == old(canvas.depth)
    ensures |steps| == |visible| && forall j | 0 <= j < |visible| :: steps[j] == Step(j, |visible|)
  {
    var n := |visible|;
    ghost var c0 := canvas.commands;
    steps := [];
    for i := 0 to n
      invariant canvas.commands == c0 + LayersCommands(visible[..i], load)
      invariant canvas.depth == old(canvas.depth)
      invariant |steps| == i && forall j | 0 <= j < i :: steps[j] == Step(j, n)
    {
      steps := steps + [Step(i, n)];
      ghost var before := canvas.commands;
      LayersCommandsSnoc(visible, i, load);
      RenderLayerToCanvas(canvas, visible[i], load);
      assert canvas.commands == before + LayerCommands(visible[i], load);
    }
    assert visible[..n] == visible;
  }

  lemma CallbacksOf(progress: seq<real>, n: nat)
    requires |progress| == n + 3 && progress[0] == 0.1 && progress[n + 1] == 0.9 && progress[n + 2] == 1.0
    requires forall j | 1 <= j <= n :: progress[j] == Step(j - 1, n)
    ensures progress == RenderCallbacks(n)
  {
  }

  lemma LayersCommandsSnoc(layers: seq<Layer>, i: nat, load: Loader)
    requires i < |layers|
    ensures LayersCommands(layers[..i + 1], load) == LayersCommands(layers[..i], load) + LayerCommands(layers[i], load)
  {
    LayersCommandsConcat(layers[..i], [layers[i]], load);
    assert layers[..i + 1] == layers[..i] + [layers[i]];
    assert LayersCommands([layers[i]], load) == LayerCommands(layers[i], load) + LayersCommands([], load);
  }

  /** `renderLayerToCanvas(canvas, layer)`. */
  method RenderLayerToCanvas(canvas: Canvas, layer: Layer, load: Loader)
    modifies canvas
    ensures canvas.commands == old(canvas.commands) + LayerCommands(layer, load)
    ensures canvas.depth == old(canvas.depth)
  {
    var t := layer.transform;
    canvas.Do(Save);
    canvas.Do(Translate(t.x, t.y));
    canvas.Do(Scale(t.scale, t.scale));
    canvas.Do(Rotate(t.rotation));
    var paint := Paint(layer.opacity, None);
    var body := LayerBody(layer, paint, load);
    if body != [] {
      canvas.Do(body[0]);
      assert body == [body[0]];
    }
    canvas.Do(Restore);
  }

  // ---------------------------------------------------------------------------------------------
  // Encoding and saving

  datatype ImageFormat = PNG | JPEG

  datatype ExportOptions = ExportOptions(format: string, quality: real, width: Option<real>, height: Option<real>)

  /** The format switch of `encodeImage`: PNG for "png" only. */
  function EncoderFormat(format: string): (r: ImageFormat)
    ensures r == PNG <==> format == "png"
  {
    if format == "png" then PNG else JPEG
  }

  /** `encodeImage(image, options)`: the bytes of `encodeToBytes(format, options.quality)`. */
  function EncodeImage(image: Image, options: ExportOptions, env: Env): seq<B64.Byte> {
    env.encodeToBytes(image, EncoderFormat(options.format), options.quality)
  }

  /** JPEG and HEIC both encode as JPEG; quality is passed through untouched. */
  lemma EncodeFormats(image: Image, q: real, env: Env)
    ensures EncodeImage(image, ExportOptions("jpg", q, None, None), env) == env.encodeToBytes(image, JPEG, q)
    ensures EncodeImage(image, ExportOptions("heic", q, None, None), env) == env.encodeToBytes(image, JPEG, q)
    ensures EncodeImage(image, ExportOptions("png", q, None, None), env) == env.encodeToBytes(image, PNG, q)
  {
  }

  /** File-system and media-library calls, in the order made. */
  datatype FileOp =
    | WriteBase64(path: string, contents: string)
    | LibrarySave(path: string)
    | Delete(path: string)

  datatype Saved = Saved(result: Result<string>, ops: seq<FileOp>)

  function ExportFileName(now: nat, format: string): string {
    "lumina_export_" + NatToDecimal(now) + "." + format
  }

  /** `saveToLibrary(data, format)`: write the Base64 text to a temporary file, save it to the library,
      then delete the file. The first call that throws ends the save with its error: a failing write
      is followed by nothing, a failing library save skips the delete, and a failing delete loses the
      uri the library returned. */
  function SaveRun(data: seq<B64.Byte>, format: string, env: Env): (r: Saved)
    ensures r.result.Ok? <==> env.writeError.None? && env.library.Ok? && env.deleteError.None?
    ensures r.result.Ok? ==> r.result == env.library
    ensures env.writeError.Some? ==> r.result == Err(env.writeError.value)
    ensures env.writeError.None? && env.library.Err? ==> r.result == env.library
    ensures env.writeError.None? && env.library.Ok? && env.deleteError.Some? ==>
      r.result == Err(env.deleteError.value)
    ensures 1 <= |r.ops| <= 3 && r.ops[0].WriteBase64? && B64.Decode(r.ops[0].contents) == Some(data)
    ensures r.ops[0].path == env.documentDirectory + ExportFileName(env.now, format)
    ensures |r.ops| >= 2 <==> env.writeError.None?
    ensures |r.ops| >= 2 ==> r.ops[1] == LibrarySave(r.ops[0].path)
    ensures |r.ops| == 3 <==> env.writeError.None? && env.library.Ok?
    ensures |r.ops| == 3 ==> r.ops[2] == Delete(r.ops[0].path)
  {
    var tempPath := env.documentDirectory + ExportFileName(env.now, format);
    B64.DecodeEncode(data);
    var write := [WriteBase64(tempPath, B64.Encode(data))];
    if env.writeError.Some? then Saved(Err(env.writeError.value), write)
    else match env.library
      case Err(e) => Saved(Err(e), write + [LibrarySave(tempPath)])
      case Ok(uri) =>
        var all := write + [LibrarySave(tempPath), Delete(tempPath)];
        if env.deleteError.Some? then Saved(Err(env.deleteError.value), all) else Saved(Ok(uri), all)
  }

  method SaveToLibrary(data: seq<B64.Byte>, format: string, env: Env) returns (r: Saved)
    ensures r == SaveRun(data, format, env)
  {
    var filename := "lumina_export_" + NatToDecimal(env.now) + "." + format;
    var tempPath := env.documentDirectory + filename;
    var base64Data := B64.Uint8ArrayToBase64(data);
    var ops := [WriteBase64(tempPath, base64Data)];
    if env.writeError.Some? {
      return Saved(Err(env.writeError.value), ops);
    }
    ops := ops + [LibrarySave(tempPath)];
    if env.library.Err? {
      return Saved(env.library, ops);
    }
    ops := ops + [Delete(tempPath)];
    if env.deleteError.Some? {
      return Saved(Err(env.deleteError.value), ops);
    }
    r := Saved(env.library, ops);
  }

  // ---------------------------------------------------------------------------------------------
  // exportImage

  datatype Phase = Rendering | Encoding | Saving

  datatype Progress = Progress(phase: Phase, progress: real, message: string)

  /** How `exportImage` reports a render callback value. */
  function RenderingEvent(p: real): Progress {
    Progress(Rendering, p * 0.7, "Rendering layers...")
  }

  datatype Exported = Exported(result: Result<string>, events: seq<Progress>, ops: seq<FileOp>)

  /** The events up to the end of rendering: the start, then each render callback scaled into the
      first 70% of the export. */
  function StartEvents(progress: seq<real>): seq<Progress> {
    [Progress(Rendering, 0.0, "Starting export...")] + Map(progress, RenderingEvent)
  }

  /** The events after rendering: encoding and saving, then completion if the save succeeded. */
  function SaveEvents(saved: bool): seq<Progress> {
    [Progress(Encoding, 0.7, "Encoding image..."), Progress(Saving, 0.9, "Saving to library...")]
    + (if saved then [Progress(Saving, 1.0, "Export complete!")] else [])
  }

  /** `exportImage(editorState, options, onProgress)`. */
  function ExportRun(s: EditorState, options: ExportOptions, env: Env): Exported {
    var render := FinalRender(s, env);
    var rendering := StartEvents(render.progress);
    match render.image
    case None => Exported(Err("Failed to render image"), rendering, [])
    case Some(image) =>
      var data := EncodeImage(image, options, env);
      var saved := SaveRun(data, options.format, env);
      Exported(saved.result, rendering + SaveEvents(saved.result.Ok?), saved.ops)
  }

  function Values(events: seq<Progress>): (r: seq<real>)
    ensures |r| == |events| && forall i | 0 <= i < |events| :: r[i] == events[i].progress
  {
    seq(|events|, i requires 0 <= i < |events| => events[i].progress)
  }

  /** Without a surface the export fails after its first event and touches no file. */
  lemma ExportWithoutSurface(s: EditorState, options: ExportOptions, env: Env)
    requires !env.surfaceMade
    ensures ExportRun(s, options, env) ==
      Exported(Err("Failed to render image"), [Progress(Rendering, 0.0, "Starting export...")], [])
  {
  }

  /** A successful export: the rendering events, then encoding at 0.7 and saving at 0.9 and 1.0; the
      result is the saved asset's uri, and the temporary file holds the Base64 text of the encoded
      image rasterised from the white clear and the visible layers' commands, and is deleted. */
  lemma ExportSucceeds(s: EditorState, options: ExportOptions, env: Env, uri: string)
    requires env.surfaceMade && env.writeError.None? && env.library == Ok(uri) && env.deleteError.None?
    ensures var e := ExportRun(s, options, env);
      var n := |VisibleLayers(s.layers)|;
      var image := env.rasterise(s.canvasSize, [Clear("white")] + LayersCommands(VisibleLayers(s.layers), env.load));
      e.result == Ok(uri) && |e.events| == n + 7
      && (forall i | 0 <= i < n + 4 :: e.events[i].phase == Rendering)
      && e.events[n + 4] == Progress(Encoding, 0.7, "Encoding image...")
      && e.events[n + 5] == Progress(Saving, 0.9, "Saving to library...")
      && e.events[n + 6] == Progress(Saving, 1.0, "Export complete!")
      && |e.ops| == 3 && e.ops[2] == Delete(e.ops[0].path)
      && B64.Decode(e.ops[0].contents) == Some(EncodeImage(image, options, env))
  {
    var cb := RenderCallbacks(|VisibleLayers(s.layers)|);
    StartEventsShape(cb);
    assert |SaveEvents(true)| == 3;
  }

  /** An export whose save throws: the error of the first failing call is the result, the events stop
      at saving (0.9) with no completion, and the temporary file is left behind unless the library
      save went through. */
  lemma ExportSaveFails(s: EditorState, options: ExportOptions, env: Env)
    requires env.surfaceMade && !(env.writeError.None? && env.library.Ok? && env.deleteError.None?)
    ensures var e := ExportRun(s, options, env);
      var n := |VisibleLayers(s.layers)|;
      e.result.Err? && |e.events| == n + 6
      && e.events[n + 5] == Progress(Saving, 0.9, "Saving to library...")
      && (env.writeError.Some? ==> e.result == Err(env.writeError.value) && |e.ops| == 1)
      && (env.writeError.None? && env.library.Err? ==> e.result == env.library && |e.ops| == 2)
      && (env.writeError.None? && env.library.Ok? ==>
            e.result == Err(env.deleteError.value) && |e.ops| == 3 && e.ops[2] == Delete(e.ops[0].path))
  {
    var cb := RenderCallbacks(|VisibleLayers(s.layers)|);
    StartEventsShape(cb);
    assert |SaveEvents(false)| == 2;
  }

  /** The start events are one per render callback plus the first, all in the rendering phase, the
      first at 0 and the others at their callback scaled by 0.7. */
  lemma StartEventsShape(progress: seq<real>)
    ensures var r := StartEvents(progress);
      |r| == |progress| + 1 && r[0].progress == 0.0
      && (forall i | 0 <= i < |r| :: r[i].phase == Rendering)
      && forall i | 1 <= i <= |progress| :: r[i].progress == progress[i - 1] * 0.7
  {
    var r := StartEvents(progress);
    forall i | 1 <= i <= |progress|
      ensures r[i] == RenderingEvent(progress[i - 1])
    {
      assert r[i] == Map(progress, RenderingEvent)[i - 1];
    }
  }

  /** The progress values of an export that got past rendering: 0, the render callbacks scaled by
      0.7, then 0.7, 0.9 and, if the save succeeded, 1.0. */
  lemma ExportValues(s: EditorState, options: ExportOptions, env: Env)
    requires env.surfaceMade
    ensures var v := Values(ExportRun(s, options, env).events);
      var n := |VisibleLayers(s.layers)|;
      var cb := RenderCallbacks(n);
      |v| >= n + 6 && v[0] == 0.0 && (forall i | 1 <= i <= n + 3 :: v[i] == cb[i - 1] * 0.7)
      && v[n + 4] == 0.7 && v[n + 5] == 0.9 && (|v| == n + 6 || (|v| == n + 7 && v[n + 6] == 1.0))
  {
    var cb := RenderCallbacks(|VisibleLayers(s.layers)|);
    var saved := SaveRun(EncodeImage(FinalRender(s, env).image.value, options, env), options.format, env);
    assert ExportRun(s, options, env).events == StartEvents(cb) + SaveEvents(saved.result.Ok?);
    EventValues(cb, saved.result.Ok?);
  }

  /** The values of the start events followed by the save events. */
  lemma EventValues(cb: seq<real>, saved: bool)
    ensures var v := Values(StartEvents(cb) + SaveEvents(saved)); var m := |cb|;
      |v| >= m + 3 && v[0] == 0.0 && (forall i | 1 <= i <= m :: v[i] == cb[i - 1] * 0.7)
      && v[m + 1] == 0.7 && v[m + 2] == 0.9 && (|v| == m + 3 || (|v| == m + 4 && v[m + 3] == 1.0))
  {
    StartEventsShape(cb);
    var a := StartEvents(cb);
    var b := SaveEvents(saved);
    var e := a + b;
    assert forall i | 0 <= i < |a| :: e[i] == a[i];
    assert e[|cb| + 1] == b[0] && e[|cb| + 2] == b[1];
    assert saved ==> e[|cb| + 3] == b[2];
  }

  /** Scaling the render callbacks into the export's frame keeps them in range and keeps (or breaks)
      their order. */
  lemma FramedProgress(v: seq<real>, cb: seq<real>, n: nat)
    requires |cb| == n + 3 && InUnitRange(cb) && cb[n + 2] == 1.0
    requires |v| >= n + 6 && v[0] == 0.0 && (forall i | 1 <= i <= n + 3 :: v[i] == cb[i - 1] * 0.7)
    requires v[n + 4] == 0.7 && v[n + 5] == 0.9 && (|v| == n + 6 || (|v| == n + 7 && v[n + 6] == 1.0))
    ensures InUnitRange(v)
    ensures Nondecreasing(v) <==> Nondecreasing(cb)
  {
    forall i | 0 <= i < |v|
      ensures 0.0 <= v[i] <= 1.0
    {
      if 1 <= i <= n + 3 {
        assert 0.0 <= cb[i - 1] <= 1.0;
      }
    }
    if Nondecreasing(cb) {
      forall i | 0 < i < |v|
        ensures v[i - 1] <= v[i]
      {
        if 1 < i <= n + 3 {
          assert cb[i - 2] <= cb[i - 1];
        } else if i == 1 {
          assert 0.0 <= cb[0];
        }
      }
    } else {
      var j :| 0 < j < |cb| && cb[j - 1] > cb[j];
      assert v[j] > v[j + 1];
    }
  }

  /** Overall progress stays in [0, 1], and it never goes down exactly when at most eight layers are
      visible. */
  lemma ExportProgress(s: EditorState, options: ExportOptions, env: Env)
    requires env.surfaceMade
    ensures InUnitRange(Values(ExportRun(s, options, env).events))
    ensures Nondecreasing(Values(ExportRun(s, options, env).events)) <==> |VisibleLayers(s.layers)| <= 8
  {
    var n := |VisibleLayers(s.layers)|;
    CallbacksInRange(n);
    CallbacksMonotoneIff(n);
    ExportValues(s, options, env);
    FramedProgress(Values(ExportRun(s, options, env).events), RenderCallbacks(n), n);
  }

  /** `exportImage`: the progress events and file calls are made in the order of `ExportRun`. */
  method ExportImage(s: EditorState, options: ExportOptions, env: Env) returns (e: Exported)
    ensures e == ExportRun(s, options, env)
  {
    var events := [Progress(Rendering, 0.0, "Starting export...")];
    var render := RenderFinalImage(s, env);
    events := events + Map(render.progress, RenderingEvent);
    if render.image.None? {
      return Exported(Err("Failed to render image"), events, []);
    }
    events := events + [Progress(Encoding, 0.7, "Encoding image...")];
    var data := EncodeImage(render.image.value, options, env);
    events := events + [Progress(Saving, 0.9, "Saving to library...")];
    var saved := SaveToLibrary(data, options.format, env);
    if saved.result.Err? {
      return Exported(saved.result, events, saved.ops);
    }
    events := events + [Progress(Saving, 1.0, "Export complete!")];
    e := Exported(saved.result, events, saved.ops);
  }

  // ---------------------------------------------------------------------------------------------
  // Static tables

  datatype FormatInfo = FormatInfo(id: string, name: string, extension: string)

  /** `getAvailableFormats()`: JPEG, PNG and HEIC; each id is its file extension and only PNG encodes
      losslessly. */
  function GetAvailableFormats(): (r: seq<FormatInfo>)
    ensures |r| == 3 && forall i | 0 <= i < |r| :: r[i].id == r[i].extension
    ensures forall i | 0 <= i < |r| :: (EncoderFormat(r[i].id) == PNG <==> r[i].name == "PNG")
  {
    [FormatInfo("jpg", "JPEG", "jpg"), FormatInfo("png", "PNG", "png"), FormatInfo("heic", "HEIC", "heic")]
  }

  datatype QualityPreset = QualityPreset(id: string, name: string, quality: real)

  /** `getQualityPresets()`: four presets of strictly increasing quality within [0, 100]. */
  function GetQualityPresets(): (r: seq<QualityPreset>)
    ensures |r| == 4 && r[0].quality == 70.0 && r[3].quality == 100.0
    ensures forall i | 0 <= i < |r| :: 0.0 <= r[i].quality <= 100.0
    ensures forall i | 0 < i < |r| :: r[i - 1].quality < r[i].quality
  {
    [QualityPreset("low", "Low (70%)", 70.0), QualityPreset("medium", "Medium (85%)", 85.0),
     QualityPreset("high", "High (95%)", 95.0), QualityPreset("maximum", "Maximum (100%)", 100.0)]
  }
}
