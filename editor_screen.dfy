/** The editor screen: which tool panel is open, the brush settings it owns and hands to the drawing
    canvas and panel, and the undo/redo buttons gated by flags read from the store. */
module EditorScreen {
  import opened Wrappers
  import opened EditorTypes
  import A = EditorActions
  import EditorStore
  import Toolbar
  import DrawingPanel
  import DrawingCanvas

  /** The screen's own state. */
  datatype ScreenState = ScreenState(activeTool: Option<Toolbar.Tool>, showExportModal: bool, brush: DrawingPanel.BrushSettings)

  const WHITE := "#FFFFFF"

  /** No tool open, no export dialog, a white 12-point pen at full opacity. */
  const INITIAL_SCREEN: ScreenState := ScreenState(None, false, DrawingPanel.BrushSettings(Pen, 12, 100, WHITE))

  /** The props the drawing canvas receives: the brush, and whether the draw tool is open. */
  function CanvasBrush(sc: ScreenState): (b: DrawingCanvas.Brush)
    ensures b.brushType == sc.brush.brushType && b.color == sc.brush.color
    ensures b.size == sc.brush.size as real && b.opacity == sc.brush.opacity as real
  {
    DrawingCanvas.Brush(sc.brush.brushType, sc.brush.size as real, sc.brush.opacity as real, sc.brush.color)
  }

  function CanvasActive(sc: ScreenState): bool {
    sc.activeTool == Some(Toolbar.Draw)
  }

  /** What the user does on the screen outside the canvas and the other panels. */
  datatype Event =
    | ToolPressed(tool: Toolbar.Tool)
    | BrushPressed(press: DrawingPanel.Press)
    | ExportPressed

  /** The screen after one event: the toolbar's choice goes to `setActiveTool`, the drawing panel's
      values go to the brush setters (the panel is only shown while the draw tool is open), and the
      export button opens the dialog. */
  function Step(sc: ScreenState, e: Event): ScreenState {
    match e
    case ToolPressed(t) => sc.(activeTool := Toolbar.HandleToolPress(sc.activeTool, t))
    case BrushPressed(p) => if CanvasActive(sc) then sc.(brush := DrawingPanel.Handle(sc.brush, p)) else sc
    case ExportPressed => sc.(showExportModal := true)
  }

  /** A run of events, one after another. */
  function Run(sc: ScreenState, es: seq<Event>): ScreenState
    decreases |es|
  {
    if es == [] then sc else Step(Run(sc, es[..|es| - 1]), es[|es| - 1])
  }

  /** The initial screen has no tool open and in-range brush settings. */
  lemma InitialScreenValid()
    ensures INITIAL_SCREEN.activeTool.None? && !CanvasActive(INITIAL_SCREEN)
    ensures DrawingPanel.Valid(INITIAL_SCREEN.brush)
    ensures CanvasBrush(INITIAL_SCREEN) == DrawingCanvas.Brush(Pen, 12.0, 100.0, WHITE)
  {
  }

  /** Whatever the user presses, the brush stays in range, so the canvas always draws between 2 and
      50 points wide at an opacity between 10% and 100%. */
  lemma {:induction false} RunKeepsBrushValid(sc: ScreenState, es: seq<Event>)
    requires DrawingPanel.Valid(sc.brush)
    ensures DrawingPanel.Valid(Run(sc, es).brush)
    ensures var b := CanvasBrush(Run(sc, es));
      2.0 <= b.size <= 50.0 && 0.1 <= b.opacity / 100.0 <= 1.0
    decreases |es|
  {
    if es != [] {
      var init := es[..|es| - 1];
      RunKeepsBrushValid(sc, init);
      var last := es[|es| - 1];
      if last.BrushPressed? {
        DrawingPanel.HandleKeepsValid(Run(sc, init).brush, last.press);
      }
    }
  }

  /** The brush settings change only through the drawing panel, which is only there while the draw
      tool is open; the panel's presses then act as the panel computes them. */
  lemma BrushOnlyWhileDrawing(sc: ScreenState, e: Event)
    ensures Step(sc, e).brush != sc.brush ==> e.BrushPressed? && CanvasActive(sc)
    ensures e.BrushPressed? && CanvasActive(sc) ==> Step(sc, e).brush == DrawingPanel.Handle(sc.brush, e.press)
    ensures Step(sc, e).activeTool == (if e.ToolPressed? then Toolbar.HandleToolPress(sc.activeTool, e.tool) else sc.activeTool)
  {
  }

  /** The drawing canvas is live exactly while the draw tool is. */
  lemma ToolChoice(sc: ScreenState, tool: Toolbar.Tool)
    ensures CanvasActive(Step(sc, ToolPressed(tool))) <==> (tool == Toolbar.Draw && sc.activeTool != Some(Toolbar.Draw))
    ensures Step(Step(sc, ToolPressed(tool)), ToolPressed(tool)).activeTool
      == (if sc.activeTool == Some(tool) then sc.activeTool else None)
  {
    Toolbar.PressTwice(sc.activeTool, tool);
  }

  /** The undo flag and the store's undo guard agree, so a gated call always moves the index down by
      one, and the disabled button does nothing; likewise for redo. */
  lemma GatedCallsMoveByOne(s: EditorState)
    requires A.StoreInvariant(s)
    ensures s.historyIndex > 0 ==> A.Undo(s).historyIndex == s.historyIndex - 1
    ensures !(s.historyIndex > 0) ==> A.Undo(s) == s
    ensures s.historyIndex < |s.history| - 1 ==> A.Redo(s).historyIndex == s.historyIndex + 1
    ensures !(s.historyIndex < |s.history| - 1) ==> A.Redo(s) == s
  {
  }

  /** `handleUndo`: `undo()` only while `canUndo`. The gate repeats the store's own guard, so the
      handler is exactly the store's undo; on the store's invariant an enabled button moves the
      index down by one and a disabled one changes nothing. */
  method HandleUndo(store: EditorStore.Store)
    requires store.Valid()
    modifies store
    ensures store.State() == A.Undo(old(store.State())) && store.Valid()
    ensures old(store.historyIndex) > 0 ==> store.historyIndex == old(store.historyIndex) - 1
    ensures !(old(store.historyIndex) > 0) ==> store.State() == old(store.State())
  {
    GatedCallsMoveByOne(store.State());
    var canUndo := store.historyIndex > 0;
    if canUndo {
      store.Undo();
    }
  }

  /** `handleRedo`: `redo()` only while `canRedo`; an enabled button moves the index up by one. */
  method HandleRedo(store: EditorStore.Store)
    requires store.Valid()
    modifies store
    ensures store.State() == A.Redo(old(store.State())) && store.Valid()
    ensures old(store.historyIndex) < |old(store.history)| - 1 ==> store.historyIndex == old(store.historyIndex) + 1
    ensures !(old(store.historyIndex) < |old(store.history)| - 1) ==> store.State() == old(store.State())
  {
    GatedCallsMoveByOne(store.State());
    var canRedo := store.historyIndex < |store.history| - 1;
    if canRedo {
      store.Redo();
    }
  }
}
