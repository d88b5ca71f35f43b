/** The editor store object: the nine EditorState fields, overwritten in place by its actions. Each
    method is proved to perform the transition of the same name in EditorActions. */
module EditorStore {
  import opened Wrappers
  import opened Text
  import opened EditorTypes
  import opened Seqs
  import A = EditorActions

  class Store {
    var layers: seq<Layer>
    var activeLayerId: Option<string>
    var canvasSize: Size
    var zoom: real
    var pan: Vec
    var history: seq<HistoryState>
    var historyIndex: int
    var filters: seq<AppliedFilter>
    var adjustments: Adjustment

    /** The store's fields as one EditorState value (`get()`). */
    function State(): EditorState
      reads this
    {
      EditorState(layers, activeLayerId, canvasSize, zoom, pan, history, historyIndex, filters, adjustments)
    }

    /** The invariant every action keeps (EditorActions.StoreInvariant of the fields): the
        history index lies in [-1, |history|] and the history is well formed. */
    ghost predicate Valid()
      reads this
    {
      A.StoreInvariant(State())
    }

    /** `create(...)` starts from `initialState`. */
    constructor()
      ensures State() == A.INITIAL_STATE && Valid()
    {
      layers := [];
      activeLayerId := None;
      canvasSize := Size(0.0, 0.0);
      zoom := 1.0;
      pan := Vec(0.0, 0.0);
      history := [];
      historyIndex := -1;
      filters := [];
      adjustments := DEFAULT_ADJUSTMENTS;
    }

    /** `set(s)` with every field present. */
    method SetAll(s: EditorState)
      modifies this
      ensures State() == s
    {
      layers := s.layers;
      activeLayerId := s.activeLayerId;
      canvasSize := s.canvasSize;
      zoom := s.zoom;
      pan := s.pan;
      history := s.history;
      historyIndex := s.historyIndex;
      filters := s.filters;
      adjustments := s.adjustments;
    }

    method AddHistoryState(action: string, now: nat)
      requires Valid()
      modifies this
      ensures State() == A.AddHistoryState(old(State()), action, now)
      ensures Valid()
    {
      var newState := A.Snapshot(State(), action, now);
      var newHistory := Prefix(history, historyIndex + 1);
      newHistory := newHistory + [newState];
      history := newHistory;
      historyIndex := |newHistory| - 1;
    }

    method AddLayer(layer: Layer, now: nat)
      requires Valid()
      modifies this
      ensures State() == A.AddLayer(old(State()), layer, now)
      ensures Valid()
    {
      layers := layers + [layer];
      activeLayerId := Some(layer.id);
      AddHistoryState(A.AddLabel(layer), now);
    }

    method UpdateLayer(layerId: string, updates: A.LayerPatch)
      requires Valid()
      modifies this
      ensures State() == A.UpdateLayer(old(State()), layerId, updates)
      ensures Valid()
    {
      layers := Map(layers, (l: Layer) => if l.id == layerId then A.Merge(l, updates) else l);
    }

    method RemoveLayer(layerId: string)
      requires Valid()
      modifies this
      ensures State() == A.RemoveLayer(old(State()), layerId)
      ensures Valid()
    {
      layers := Filter(layers, A.LayerIdIsNot(layerId));
      activeLayerId := if activeLayerId == Some(layerId) then None else activeLayerId;
    }

    method SetActiveLayer(layerId: Option<string>)
      requires Valid()
      modifies this
      ensures State() == A.SetActiveLayer(old(State()), layerId)
      ensures Valid()
    {
      activeLayerId := layerId;
    }

    method SetCanvasSize(width: real, height: real)
      requires Valid()
      modifies this
      ensures State() == A.SetCanvasSize(old(State()), width, height)
      ensures Valid()
    {
      canvasSize := Size(width, height);
    }

    method SetZoom(z: real)
      requires Valid()
      modifies this
      ensures State() == A.SetZoom(old(State()), z)
      ensures Valid()
    {
      zoom := z;
    }

    method SetPan(x: real, y: real)
      requires Valid()
      modifies this
      ensures State() == A.SetPan(old(State()), x, y)
      ensures Valid()
    {
      pan := Vec(x, y);
    }

    method ApplyFilter(filter: AppliedFilter, now: nat)
      requires Valid()
      modifies this
      ensures State() == A.ApplyFilter(old(State()), filter, now)
      ensures Valid()
    {
      filters := filters + [filter];
      AddHistoryState(A.FilterLabel(filter), now);
    }

    method RemoveFilter(filterId: string)
      requires Valid()
      modifies this
      ensures State() == A.RemoveFilter(old(State()), filterId)
      ensures Valid()
    {
      filters := Filter(filters, A.FilterIdIsNot(filterId));
    }

    method UpdateAdjustment(key: AdjustmentKey, value: real, now: nat)
      requires Valid()
      modifies this
      ensures State() == A.UpdateAdjustment(old(State()), key, value, now)
      ensures Valid()
    {
      adjustments := adjustments.With(key, value);
      AddHistoryState(A.AdjustLabel(key), now);
    }

    method ResetAdjustments()
      requires Valid()
      modifies this
      ensures State() == A.ResetAdjustments(old(State()))
      ensures Valid()
    {
      adjustments := DEFAULT_ADJUSTMENTS;
    }

    method Undo()
      requires Valid()
      modifies this
      ensures State() == A.Undo(old(State()))
      ensures Valid()
    {
      if historyIndex > 0 && historyIndex - 1 < |history| {
        var newIndex := historyIndex - 1;
        var state := history[newIndex].editorState;
        SetAll(state.(historyIndex := newIndex));
      }
    }

    method Redo()
      requires Valid()
      modifies this
      ensures State() == A.Redo(old(State()))
      ensures Valid()
    {
      if historyIndex < |history| - 1 && 0 <= historyIndex + 1 {
        var newIndex := historyIndex + 1;
        var state := history[newIndex].editorState;
        SetAll(state.(historyIndex := newIndex));
      }
    }

    method Reset()
      requires Valid()
      modifies this
      ensures State() == A.Reset(old(State()))
      ensures Valid()
    {
      SetAll(A.INITIAL_STATE);
    }
  }
}
