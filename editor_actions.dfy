/** The editor store's actions as transitions on EditorState, and the snapshot-based undo history.
    Every action is a `set` of some fields; `addLayer`, `applyFilter` and `updateAdjustment` then commit
    a snapshot of the whole state, history included. */
module EditorActions {
  import opened Wrappers
  import opened Text
  import opened EditorTypes
  import opened Seqs

  /** `initialState` */
  const INITIAL_STATE: EditorState :=
    EditorState([], None, Size(0.0, 0.0), 1.0, Vec(0.0, 0.0), [], -1, [], DEFAULT_ADJUSTMENTS)

  /** What the editor shows: every field except the history bookkeeping. */
  datatype View = View(
    layers: seq<Layer>,
    activeLayerId: Option<string>,
    canvasSize: Size,
    zoom: real,
    pan: Vec,
    filters: seq<AppliedFilter>,
    adjustments: Adjustment)

  function ViewOf(s: EditorState): View {
    View(s.layers, s.activeLayerId, s.canvasSize, s.zoom, s.pan, s.filters, s.adjustments)
  }

  /** The snapshot at position p was taken when the history held at least p entries, and the
      snapshot's own embedded history is well formed in the same sense. */
  predicate HistoryWf(s: EditorState)
    decreases s
  {
    forall p | 0 <= p < |s.history| ::
      p <= |s.history[p].editorState.history| && HistoryWf(s.history[p].editorState)
  }

  /** Well-formedness depends on the history alone. */
  lemma HistoryWfOfHistory(a: EditorState, b: EditorState)
    requires a.history == b.history && HistoryWf(a)
    ensures HistoryWf(b)
  {
  }

  /** What every reachable state satisfies: the index lies in [-1, |history|] (it reaches |history|
      right after an undo) and the history is well formed, so undo and redo always find an entry. */
  predicate StoreInvariant(s: EditorState) {
    -1 <= s.historyIndex <= |s.history| && HistoryWf(s)
  }

  lemma InitialStateInvariant()
    ensures StoreInvariant(INITIAL_STATE)
    ensures ViewOf(INITIAL_STATE).layers == [] && INITIAL_STATE.history == []
  {
  }

  /** The snapshot `addHistoryState` records: `Date.now()` as id (decimal) and timestamp. */
  function Snapshot(s: EditorState, action: string, now: nat): HistoryState {
    HistoryState(NatToDecimal(now), now, action, s)
  }

  /** `addHistoryState(action)`: keep `history[0..historyIndex]`, append a snapshot of the current
      state, and point the index at it. */
  function AddHistoryState(s: EditorState, action: string, now: nat): (r: EditorState)
    ensures |r.history| >= 1 && r.historyIndex == |r.history| - 1
    ensures r.history[|r.history| - 1] == Snapshot(s, action, now)
    ensures r.history[..|r.history| - 1] == Prefix(s.history, s.historyIndex + 1)
    ensures -1 <= s.historyIndex < |s.history| ==> |r.history| == s.historyIndex + 2
    ensures ViewOf(r) == ViewOf(s)
    ensures StoreInvariant(s) ==> StoreInvariant(r)
  {
    var kept := Prefix(s.history, s.historyIndex + 1);
    var h := kept + [Snapshot(s, action, now)];
    assert h[..|h| - 1] == kept;
    var r := s.(history := h, historyIndex := |h| - 1);
    assert StoreInvariant(s) ==> HistoryWf(r) by {
      if StoreInvariant(s) {
        forall p | 0 <= p < |h|
          ensures p <= |h[p].editorState.history| && HistoryWf(h[p].editorState)
        {
          if p < |kept| {
            assert h[p] == s.history[p];
          }
        }
      }
    }
    r
  }

  /** The history label of `addLayer`. */
  function AddLabel(layer: Layer): string {
    "Add " + layer.Type().Name()
  }

  /** `addLayer(layer)`: append, select it, then commit. */
  function AddLayer(s: EditorState, layer: Layer, now: nat): (r: EditorState)
    ensures |r.layers| == |s.layers| + 1 && r.layers[..|s.layers|] == s.layers && r.layers[|s.layers|] == layer
    ensures r.activeLayerId == Some(layer.id)
    ensures r.filters == s.filters && r.adjustments == s.adjustments
    ensures r.canvasSize == s.canvasSize && r.zoom == s.zoom && r.pan == s.pan
    ensures |r.history| >= 1 && r.historyIndex == |r.history| - 1
    ensures r.history[..|r.history| - 1] == Prefix(s.history, s.historyIndex + 1)
    ensures r.history[|r.history| - 1].action == AddLabel(layer)
    ensures ViewOf(r.history[|r.history| - 1].editorState) == ViewOf(r)
    ensures StoreInvariant(s) ==> StoreInvariant(r)
  {
    var added := s.(layers := s.layers + [layer], activeLayerId := Some(layer.id));
    assert added.layers[..|s.layers|] == s.layers;
    AddHistoryState(added, AddLabel(layer), now)
  }

  /** `Partial<Layer>`: the fields an update overrides. */
  datatype LayerPatch = LayerPatch(
    id: Option<string>,
    visible: Option<bool>,
    locked: Option<bool>,
    opacity: Option<real>,
    blendMode: Option<BlendMode>,
    transform: Option<Transform>,
    data: Option<LayerData>)

  const EMPTY_PATCH: LayerPatch := LayerPatch(None, None, None, None, None, None, None)

  /** A patch that only moves the layer, as a drag sends it. */
  function TransformPatch(t: Transform): LayerPatch {
    EMPTY_PATCH.(transform := Some(t))
  }

  /** `{ ...layer, ...updates }` */
  function Merge(l: Layer, u: LayerPatch): Layer {
    Layer(u.id.GetOr(l.id), u.visible.GetOr(l.visible), u.locked.GetOr(l.locked), u.opacity.GetOr(l.opacity),
          u.blendMode.GetOr(l.blendMode), u.transform.GetOr(l.transform), u.data.GetOr(l.data))
  }

  /** The spread is a right-biased override: later patches win, and reapplying a patch does nothing. */
  lemma MergeLaws(l: Layer, u: LayerPatch, t: Transform)
    ensures Merge(l, EMPTY_PATCH) == l
    ensures Merge(Merge(l, u), u) == Merge(l, u)
    ensures Merge(l, TransformPatch(t)) == l.(transform := t)
  {
  }

  /** `updateLayer(layerId, updates)`: merge into the layer(s) with that id; nothing else changes and
      no snapshot is taken. */
  function UpdateLayer(s: EditorState, layerId: string, u: LayerPatch): (r: EditorState)
    ensures |r.layers| == |s.layers|
    ensures forall i | 0 <= i < |s.layers| ::
      r.layers[i] == (if s.layers[i].id == layerId then Merge(s.layers[i], u) else s.layers[i])
    ensures r == s.(layers := r.layers)
    ensures StoreInvariant(s) ==> StoreInvariant(r)
  {
    s.(layers := Map(s.layers, (l: Layer) => if l.id == layerId then Merge(l, u) else l))
  }

  /** Updating an id no layer has, or with an empty patch, leaves the state as it is. */
  lemma UpdateLayerNoop(s: EditorState, layerId: string, u: LayerPatch)
    requires u == EMPTY_PATCH || forall i | 0 <= i < |s.layers| :: s.layers[i].id != layerId
    ensures UpdateLayer(s, layerId, u) == s
  {
    var r := UpdateLayer(s, layerId, u);
    assert r.layers == s.layers;
  }

  /** Keeps the layers whose id differs from `id`. */
  function LayerIdIsNot(id: string): Layer -> bool {
    (l: Layer) => l.id != id
  }

  /** `removeLayer(layerId)`: drop every layer with the id, keep the rest in order, and clear the
      selection only if it was that id. No snapshot is taken. */
  function RemoveLayer(s: EditorState, layerId: string): (r: EditorState)
    ensures r.layers == Filter(s.layers, LayerIdIsNot(layerId))
    ensures forall l | l in r.layers :: l in s.layers && l.id != layerId
    ensures forall l | l in s.layers && l.id != layerId :: l in r.layers
    ensures s.activeLayerId == Some(layerId) ==> r.activeLayerId == None
    ensures s.activeLayerId != Some(layerId) ==> r.activeLayerId == s.activeLayerId
    ensures r == s.(layers := r.layers, activeLayerId := r.activeLayerId)
    ensures StoreInvariant(s) ==> StoreInvariant(r)
  {
    FilterMembers(s.layers, LayerIdIsNot(layerId));
    s.(layers := Filter(s.layers, LayerIdIsNot(layerId)),
       activeLayerId := if s.activeLayerId == Some(layerId) then None else s.activeLayerId)
  }

  /** Removing an id no layer has changes only a selection that named it. */
  lemma RemoveAbsentLayer(s: EditorState, layerId: string)
    requires forall l | l in s.layers :: l.id != layerId
    requires s.activeLayerId != Some(layerId)
    ensures RemoveLayer(s, layerId) == s
  {
    FilterAll(s.layers, LayerIdIsNot(layerId));
  }

  lemma RemoveLayerIdempotent(s: EditorState, layerId: string)
    ensures RemoveLayer(RemoveLayer(s, layerId), layerId) == RemoveLayer(s, layerId)
  {
    FilterIdempotent(s.layers, LayerIdIsNot(layerId));
  }

  /** `setActiveLayer`, `setCanvasSize`, `setZoom`, `setPan`: one field each, no snapshot. */
  function SetActiveLayer(s: EditorState, layerId: Option<string>): (r: EditorState)
    ensures r.activeLayerId == layerId && r == s.(activeLayerId := layerId)
    ensures StoreInvariant(s) ==> StoreInvariant(r)
  {
    s.(activeLayerId := layerId)
  }

  function SetCanvasSize(s: EditorState, width: real, height: real): (r: EditorState)
    ensures r.canvasSize == Size(width, height) && r == s.(canvasSize := r.canvasSize)
    ensures StoreInvariant(s) ==> StoreInvariant(r)
  {
    s.(canvasSize := Size(width, height))
  }

  function SetZoom(s: EditorState, zoom: real): (r: EditorState)
    ensures r.zoom == zoom && r == s.(zoom := zoom)
    ensures StoreInvariant(s) ==> StoreInvariant(r)
  {
    s.(zoom := zoom)
  }

  function SetPan(s: EditorState, x: real, y: real): (r: EditorState)
    ensures r.pan == Vec(x, y) && r == s.(pan := r.pan)
    ensures StoreInvariant(s) ==> StoreInvariant(r)
  {
    s.(pan := Vec(x, y))
  }

  /** The history label of `applyFilter`. */
  function FilterLabel(f: AppliedFilter): string {
    "Apply " + f.name + " filter"
  }

  /** `applyFilter(filter)`: append to the filter list, then commit. */
  function ApplyFilter(s: EditorState, f: AppliedFilter, now: nat): (r: EditorState)
    ensures r.filters == s.filters + [f]
    ensures r.layers == s.layers && r.activeLayerId == s.activeLayerId && r.adjustments == s.adjustments
    ensures r.canvasSize == s.canvasSize && r.zoom == s.zoom && r.pan == s.pan
    ensures |r.history| >= 1 && r.historyIndex == |r.history| - 1
    ensures r.history[..|r.history| - 1] == Prefix(s.history, s.historyIndex + 1)
    ensures r.history[|r.history| - 1].action == FilterLabel(f)
    ensures ViewOf(r.history[|r.history| - 1].editorState) == ViewOf(r)
    ensures StoreInvariant(s) ==> StoreInvariant(r)
  {
    AddHistoryState(s.(filters := s.filters + [f]), FilterLabel(f), now)
  }

  /** Keeps the filters whose id differs from `id`. */
  function FilterIdIsNot(id: string): AppliedFilter -> bool {
    (f: AppliedFilter) => f.id != id
  }

  /** `removeFilter(filterId)`: drop every filter with the id, keep the rest in order, no snapshot. */
  function RemoveFilter(s: EditorState, filterId: string): (r: EditorState)
    ensures r.filters == Filter(s.filters, FilterIdIsNot(filterId))
    ensures forall f | f in r.filters :: f in s.filters && f.id != filterId
    ensures forall f | f in s.filters && f.id != filterId :: f in r.filters
    ensures r == s.(filters := r.filters)
    ensures StoreInvariant(s) ==> StoreInvariant(r)
  {
    FilterMembers(s.filters, FilterIdIsNot(filterId));
    s.(filters := Filter(s.filters, FilterIdIsNot(filterId)))
  }

  /** The history label of `updateAdjustment`. */
  function AdjustLabel(key: AdjustmentKey): string {
    "Adjust " + key.Name()
  }

  /** `updateAdjustment(key, value)`: set one channel, then commit. */
  function UpdateAdjustment(s: EditorState, key: AdjustmentKey, value: real, now: nat): (r: EditorState)
    ensures r.adjustments == s.adjustments.With(key, value)
    ensures r.adjustments.Get(key) == value
    ensures forall k: AdjustmentKey | k != key :: r.adjustments.Get(k) == s.adjustments.Get(k)
    ensures r.layers == s.layers && r.activeLayerId == s.activeLayerId && r.filters == s.filters
    ensures r.canvasSize == s.canvasSize && r.zoom == s.zoom && r.pan == s.pan
    ensures |r.history| >= 1 && r.historyIndex == |r.history| - 1
    ensures r.history[..|r.history| - 1] == Prefix(s.history, s.historyIndex + 1)
    ensures r.history[|r.history| - 1].action == AdjustLabel(key)
    ensures ViewOf(r.history[|r.history| - 1].editorState) == ViewOf(r)
    ensures StoreInvariant(s) ==> StoreInvariant(r)
  {
    AddHistoryState(s.(adjustments := s.adjustments.With(key, value)), AdjustLabel(key), now)
  }

  /** `resetAdjustments()`: all channels back to 0, no snapshot. */
  function ResetAdjustments(s: EditorState): (r: EditorState)
    ensures forall k: AdjustmentKey :: r.adjustments.Get(k) == 0.0
    ensures r == s.(adjustments := r.adjustments)
    ensures StoreInvariant(s) ==> StoreInvariant(r)
  {
    s.(adjustments := DEFAULT_ADJUSTMENTS)
  }

  /** The guard of `undo`, and the `canUndo` flag of the editor screen. */
  predicate CanUndo(s: EditorState) {
    s.historyIndex > 0
  }

  /** The guard of `redo`, and the `canRedo` flag of the editor screen. */
  predicate CanRedo(s: EditorState) {
    s.historyIndex < |s.history| - 1
  }

  /** `undo()`: spread `history[historyIndex - 1].editorState` back, history included, with the index
      moved down by one. Reading past the end of the history throws in the source; the state is then
      left as it was (the invariant rules that case out). */
  function Undo(s: EditorState): (r: EditorState)
    ensures !CanUndo(s) ==> r == s
    ensures CanUndo(s) && s.historyIndex <= |s.history| ==>
      var snap := s.history[s.historyIndex - 1].editorState;
      r.historyIndex == s.historyIndex - 1 && ViewOf(r) == ViewOf(snap) && r.history == snap.history
    ensures StoreInvariant(s) ==> StoreInvariant(r)
  {
    if s.historyIndex > 0 && s.historyIndex - 1 < |s.history| then
      var snap := s.history[s.historyIndex - 1].editorState;
      var r := snap.(historyIndex := s.historyIndex - 1);
      assert StoreInvariant(s) ==> HistoryWf(r) by {
        if StoreInvariant(s) {
          HistoryWfOfHistory(snap, r);
        }
      }
      r
    else
      s
  }

  /** `redo()`: spread `history[historyIndex + 1].editorState` back with the index moved up by one. */
  function Redo(s: EditorState): (r: EditorState)
    ensures !CanRedo(s) ==> r == s
    ensures CanRedo(s) && -1 <= s.historyIndex ==>
      var snap := s.history[s.historyIndex + 1].editorState;
      r.historyIndex == s.historyIndex + 1 && ViewOf(r) == ViewOf(snap) && r.history == snap.history
    ensures StoreInvariant(s) ==> StoreInvariant(r)
  {
    if s.historyIndex < |s.history| - 1 && 0 <= s.historyIndex + 1 then
      var snap := s.history[s.historyIndex + 1].editorState;
      var r := snap.(historyIndex := s.historyIndex + 1);
      assert StoreInvariant(s) ==> HistoryWf(r) by {
        if StoreInvariant(s) {
          HistoryWfOfHistory(snap, r);
        }
      }
      r
    else
      s
  }

  /** `reset()` */
  function Reset(s: EditorState): (r: EditorState)
    ensures r == INITIAL_STATE && StoreInvariant(r)
  {
    INITIAL_STATE
  }

  /** The three committing actions. */
  datatype Commit =
    | AddLayerCommit(layer: Layer, now: nat)
    | ApplyFilterCommit(filter: AppliedFilter, now: nat)
    | AdjustCommit(key: AdjustmentKey, value: real, now: nat)

  /** The `set` a committing action performs before its snapshot. */
  function Mutation(s: EditorState, c: Commit): EditorState {
    match c
    case AddLayerCommit(l, _) => s.(layers := s.layers + [l], activeLayerId := Some(l.id))
    case ApplyFilterCommit(f, _) => s.(filters := s.filters + [f])
    case AdjustCommit(k, v, _) => s.(adjustments := s.adjustments.With(k, v))
  }

  function Label(c: Commit): string {
    match c
    case AddLayerCommit(l, _) => AddLabel(l)
    case ApplyFilterCommit(f, _) => FilterLabel(f)
    case AdjustCommit(k, _, _) => AdjustLabel(k)
  }

  function Perform(s: EditorState, c: Commit): EditorState {
    AddHistoryState(Mutation(s, c), Label(c), c.now)
  }

  /** The three actions are each their mutation followed by exactly one commit. */
  lemma PerformIsAction(s: EditorState, c: Commit)
    ensures c.AddLayerCommit? ==> Perform(s, c) == AddLayer(s, c.layer, c.now)
    ensures c.ApplyFilterCommit? ==> Perform(s, c) == ApplyFilter(s, c.filter, c.now)
    ensures c.AdjustCommit? ==> Perform(s, c) == UpdateAdjustment(s, c.key, c.value, c.now)
  {
  }

  /** Each committing action takes exactly one snapshot, after its mutation, and the snapshot shows the
      new state. */
  lemma PerformCommitsOnce(s: EditorState, c: Commit)
    ensures var r := Perform(s, c);
      |r.history| >= 1 && r.historyIndex == |r.history| - 1 &&
      r.history[..|r.history| - 1] == Prefix(s.history, s.historyIndex + 1) &&
      r.history[|r.history| - 1].editorState.history == s.history &&
      r.history[|r.history| - 1].editorState.historyIndex == s.historyIndex &&
      ViewOf(r.history[|r.history| - 1].editorState) == ViewOf(r)
  {
  }

  /** The commits `cs`, in order, from `s`. */
  function PerformAll(s: EditorState, cs: seq<Commit>): EditorState
    decreases |cs|
  {
    if cs == [] then s else Perform(PerformAll(s, cs[..|cs| - 1]), cs[|cs| - 1])
  }

  /** A commit made with the index on the last entry keeps the whole history and appends one. */
  lemma CommitAtTip(s: EditorState, c: Commit)
    requires s.historyIndex == |s.history| - 1
    ensures var r := Perform(s, c);
      |r.history| == |s.history| + 1 && r.historyIndex == |s.history| &&
      (forall k | 0 <= k < |s.history| :: r.history[k] == s.history[k]) &&
      r.history[|s.history|].editorState.history == s.history &&
      r.history[|s.history|].editorState.historyIndex == s.historyIndex &&
      ViewOf(r.history[|s.history|].editorState) == ViewOf(r)
  {
    var r := Perform(s, c);
    PerformCommitsOnce(s, c);
    assert Prefix(s.history, s.historyIndex + 1) == s.history;
    forall k | 0 <= k < |s.history|
      ensures r.history[k] == s.history[k]
    {
      assert r.history[k] == r.history[..|r.history| - 1][k];
    }
  }

  /** The history `n` commits leave behind from an empty one: the k-th snapshot embeds a history of
      k entries with index k - 1. */
  predicate FreshShape(h: seq<HistoryState>, n: nat) {
    |h| == n &&
    forall k | 0 <= k < n :: |h[k].editorState.history| == k && h[k].editorState.historyIndex == k - 1
  }

  /** One more snapshot, of a state with `n` entries and index n - 1, keeps the shape. */
  lemma FreshShapeStep(h: seq<HistoryState>, rh: seq<HistoryState>, n: nat)
    requires FreshShape(h, n) && |rh| == n + 1 && (forall k | 0 <= k < n :: rh[k] == h[k])
    requires |rh[n].editorState.history| == n && rh[n].editorState.historyIndex == n - 1
    ensures FreshShape(rh, n + 1)
  {
  }

  /** From an empty history, n commits give n snapshots with the index on the last; the k-th snapshot
      embeds a history of k entries with index k - 1. */
  lemma {:induction false} FreshHistoryShape(s: EditorState, cs: seq<Commit>)
    requires s.history == [] && s.historyIndex == -1
    ensures var r := PerformAll(s, cs);
      FreshShape(r.history, |cs|) && r.historyIndex == |cs| - 1
  {
    if cs != [] {
      var front := cs[..|cs| - 1];
      var m := PerformAll(s, front);
      FreshHistoryShape(s, front);
      CommitAtTip(m, cs[|cs| - 1]);
      FreshShapeStep(m.history, PerformAll(s, cs).history, |front|);
    }
  }

  /** The very first commit after a reset cannot be undone: its index is 0. */
  lemma FirstCommitNotUndoable(s: EditorState, c: Commit)
    requires s.history == [] && s.historyIndex == -1
    ensures !CanUndo(Perform(s, c)) && Undo(Perform(s, c)) == Perform(s, c)
  {
    PerformCommitsOnce(s, c);
  }

  /** After n >= 2 commits from an empty history, one undo restores the state after n - 1 commits but
      also restores that snapshot's shorter history, leaving `historyIndex = n - 2 = |history|`; redo
      then has nothing to move to. */
  lemma UndoStrandsRedo(s: EditorState, cs: seq<Commit>)
    requires s.history == [] && s.historyIndex == -1
    requires |cs| >= 2
    ensures var u := Undo(PerformAll(s, cs));
      u.historyIndex == |cs| - 2 == |u.history| &&
      ViewOf(u) == ViewOf(PerformAll(s, cs[..|cs| - 1])) &&
      !CanRedo(u) && Redo(u) == u
  {
    var n := |cs|;
    var front := cs[..n - 1];
    var r0 := PerformAll(s, front);
    FreshHistoryShape(s, cs);
    FreshHistoryShape(s, front);
    CommitAtTip(r0, cs[n - 1]);
    assert front[..n - 2] == cs[..n - 2];
    PerformCommitsOnce(PerformAll(s, cs[..n - 2]), cs[n - 2]);
  }

  /** A state is clean when its current snapshot shows it, as holds right after any commit. */
  predicate Clean(s: EditorState) {
    0 <= s.historyIndex < |s.history| && ViewOf(s.history[s.historyIndex].editorState) == ViewOf(s)
  }

  lemma CommitLeavesClean(s: EditorState, c: Commit)
    ensures Clean(Perform(s, c))
  {
    PerformCommitsOnce(s, c);
  }

  /** From a clean state, commit then undo restores what the editor showed before the commit. */
  lemma UndoAfterCommitRestoresView(s: EditorState, c: Commit)
    requires Clean(s)
    ensures ViewOf(Undo(Perform(s, c))) == ViewOf(s)
  {
    var r := Perform(s, c);
    PerformCommitsOnce(s, c);
    KeptEntry(r.history, s.history, s.historyIndex);
    UndoShowsPrevious(r);
  }

  /** Undo shows the snapshot just below the index. */
  lemma UndoShowsPrevious(r: EditorState)
    requires 0 < r.historyIndex <= |r.history|
    ensures ViewOf(Undo(r)) == ViewOf(r.history[r.historyIndex - 1].editorState)
  {
  }

  /** An entry at or below the index survives a commit. */
  lemma KeptEntry(rh: seq<HistoryState>, sh: seq<HistoryState>, k: nat)
    requires k < |sh| && |rh| >= 1 && rh[..|rh| - 1] == Prefix(sh, k + 1)
    ensures k + 1 < |rh| && rh[k] == sh[k]
  {
    assert rh[k] == rh[..|rh| - 1][k];
  }
}
