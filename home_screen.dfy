/** The home screen: the recent-projects list, opening a saved project by replaying its layers into
    a fresh editor, starting an empty one, and importing a photo from the library as a new project. */
module HomeScreen {
  import opened Wrappers
  import opened EditorTypes
  import opened Seqs
  import opened Text
  import A = EditorActions
  import EditorStore
  import ProjectService

  /** `getRecentProjects(6)`: the list shows the six most recently modified projects. */
  const RECENT_LIMIT := 6

  /** The dimension used when the picked asset reports none (or zero). */
  const FALLBACK_SIZE := 1080.0

  /** The editor state after `addLayer` of each layer of `layers`, in order, starting from `s`. */
  function Replay(s: EditorState, layers: seq<Layer>, now: nat): EditorState
    decreases |layers|
  {
    if layers == [] then s
    else A.AddLayer(Replay(s, layers[..|layers| - 1], now), layers[|layers| - 1], now)
  }

  /** One step of a replay: the last layer is appended and made active, its history entry is pushed
      after the entries up to the index, and the other fields stay. */
  lemma ReplayStep(s: EditorState, layers: seq<Layer>, now: nat)
    requires layers != []
    ensures var m := Replay(s, layers[..|layers| - 1], now);
      var r := Replay(s, layers, now);
      var last := layers[|layers| - 1];
      r.layers == m.layers + [last] && r.activeLayerId == Some(last.id)
      && r.filters == m.filters && r.adjustments == m.adjustments
      && r.canvasSize == m.canvasSize && r.zoom == m.zoom && r.pan == m.pan
      && |r.history| >= 1 && r.historyIndex == |r.history| - 1
      && r.history[..|r.history| - 1] == Prefix(m.history, m.historyIndex + 1)
      && r.history[|r.history| - 1].action == A.AddLabel(last)
  {
    var m := Replay(s, layers[..|layers| - 1], now);
    var r := Replay(s, layers, now);
    assert r.layers[..|m.layers|] == m.layers;
  }

  /** Replaying one more layer of a sequence is one more `addLayer`. */
  lemma ReplaySnoc(s: EditorState, layers: seq<Layer>, i: nat, now: nat)
    requires i < |layers|
    ensures Replay(s, layers[..i + 1], now) == A.AddLayer(Replay(s, layers[..i], now), layers[i], now)
  {
    assert layers[..i + 1][..i] == layers[..i];
  }

  /** The facts `ReplayEffect` states, for a replay `m` of `init` from `s`, carried over to `r`,
      one `addLayer` of `last` after `m`. */
  lemma TipStep(s: EditorState, m: EditorState, r: EditorState, init: seq<Layer>, last: Layer)
    requires m.layers == s.layers + init && |m.history| == |s.history| + |init|
    requires m.historyIndex == |m.history| - 1 && m.history[..|s.history|] == s.history
    requires m.filters == s.filters && m.adjustments == s.adjustments
    requires m.canvasSize == s.canvasSize && m.zoom == s.zoom && m.pan == s.pan
    requires r.layers == m.layers + [last] && r.activeLayerId == Some(last.id)
    requires r.filters == m.filters && r.adjustments == m.adjustments
    requires r.canvasSize == m.canvasSize && r.zoom == m.zoom && r.pan == m.pan
    requires |r.history| >= 1 && r.historyIndex == |r.history| - 1
    requires r.history[..|r.history| - 1] == Prefix(m.history, m.historyIndex + 1)
    ensures r.layers == s.layers + (init + [last]) && r.activeLayerId == Some(last.id)
    ensures |r.history| == |s.history| + |init| + 1 && r.historyIndex == |r.history| - 1
    ensures r.history[..|s.history|] == s.history && r.history[..|m.history|] == m.history
    ensures r.filters == s.filters && r.adjustments == s.adjustments
    ensures r.canvasSize == s.canvasSize && r.zoom == s.zoom && r.pan == s.pan
  {
    PrefixOfPrefix(r.history, |m.history|, |s.history|);
  }

  /** Replaying from a state whose index is at the tip of its history appends the layers, makes the
      last of them active, adds one history entry per layer on top of the old history and leaves the
      index at the new tip; filters, adjustments, canvas size, zoom and pan are untouched. */
  lemma {:induction false} ReplayEffect(s: EditorState, layers: seq<Layer>, now: nat)
    requires s.historyIndex == |s.history| - 1
    ensures var r := Replay(s, layers, now);
      r.layers == s.layers + layers
      && r.activeLayerId == (if layers == [] then s.activeLayerId else Some(layers[|layers| - 1].id))
      && |r.history| == |s.history| + |layers| && r.historyIndex == |r.history| - 1
      && r.history[..|s.history|] == s.history && Labelled(r.history, |s.history|, layers)
      && r.filters == s.filters && r.adjustments == s.adjustments
      && r.canvasSize == s.canvasSize && r.zoom == s.zoom && r.pan == s.pan
    decreases |layers|
  {
    if layers == [] {
      assert Replay(s, layers, now) == s;
    } else {
      var init := layers[..|layers| - 1];
      var last := layers[|layers| - 1];
      assert layers == init + [last];
      ReplayEffect(s, init, now);
      ReplayStep(s, layers, now);
      TipStep(s, Replay(s, init, now), Replay(s, layers, now), init, last);
      LabelledStep(Replay(s, init, now).history, Replay(s, layers, now).history, |s.history|, init, last);
    }
  }

  /** Entries `base`, `base + 1`, ... of `h` carry the labels of `layers`, in order. */
  predicate Labelled(h: seq<HistoryState>, base: nat, layers: seq<Layer>) {
    base + |layers| <= |h| && forall j | 0 <= j < |layers| :: h[base + j].action == A.AddLabel(layers[j])
  }

  /** One more entry labelled for `last`, on top of a history labelled for `init`. */
  lemma LabelledStep(mh: seq<HistoryState>, rh: seq<HistoryState>, base: nat, init: seq<Layer>, last: Layer)
    requires Labelled(mh, base, init) && |mh| == base + |init|
    requires |rh| == |mh| + 1 && rh[..|mh|] == mh && rh[|mh|].action == A.AddLabel(last)
    ensures Labelled(rh, base, init + [last])
  {
    forall j | 0 <= j < |init| + 1
      ensures rh[base + j].action == A.AddLabel((init + [last])[j])
    {
      if j < |init| {
        assert rh[base + j] == mh[base + j];
      }
    }
  }

  /** What `loadProject(projectId)` leaves in the editor: an unknown id only raises an alert; a known
      one resets the editor and adds the saved layers one by one. */
  function Load(s: EditorState, c: ProjectService.Catalogue, projectId: string, now: nat): EditorState {
    match ProjectService.GetProject(c, projectId)
    case None => s
    case Some(p) => Replay(A.Reset(s), p.editorState.layers, now)
  }

  /** Loading an unknown project changes nothing. Loading a known one gives exactly its saved layers,
      the last of them active (none when it has no layers), one history entry per layer with the index
      on the newest, and the filters, adjustments, canvas size, zoom and pan of a fresh editor: the
      saved ones are not restored. */
  lemma LoadEffect(s: EditorState, c: ProjectService.Catalogue, projectId: string, now: nat)
    ensures ProjectService.GetProject(c, projectId).None? ==> Load(s, c, projectId, now) == s
    ensures ProjectService.GetProject(c, projectId).Some? ==>
      var saved := ProjectService.GetProject(c, projectId).value.editorState.layers;
      var r := Load(s, c, projectId, now);
      r.layers == saved
      && r.activeLayerId == (if saved == [] then None else Some(saved[|saved| - 1].id))
      && |r.history| == |saved| && r.historyIndex == |saved| - 1
      && (forall j | 0 <= j < |saved| :: r.history[j].action == A.AddLabel(saved[j]))
      && r.filters == [] && r.adjustments == DEFAULT_ADJUSTMENTS
      && r.canvasSize == Size(0.0, 0.0) && r.zoom == 1.0 && r.pan == Vec(0.0, 0.0)
  {
    if ProjectService.GetProject(c, projectId).Some? {
      var saved := ProjectService.GetProject(c, projectId).value.editorState.layers;
      assert Load(s, c, projectId, now) == Replay(A.INITIAL_STATE, saved, now);
      FreshReplay(saved, now);
    }
  }

  /** Replaying layers into a fresh editor gives exactly those layers, one labelled entry each. */
  lemma FreshReplay(saved: seq<Layer>, now: nat)
    ensures var r := Replay(A.INITIAL_STATE, saved, now);
      r.layers == saved
      && r.activeLayerId == (if saved == [] then None else Some(saved[|saved| - 1].id))
      && |r.history| == |saved| && r.historyIndex == |saved| - 1
      && (forall j | 0 <= j < |saved| :: r.history[j].action == A.AddLabel(saved[j]))
      && r.filters == [] && r.adjustments == DEFAULT_ADJUSTMENTS
      && r.canvasSize == Size(0.0, 0.0) && r.zoom == 1.0 && r.pan == Vec(0.0, 0.0)
  {
    ReplayEffect(A.INITIAL_STATE, saved, now);
  }

  /** The picker's answer: permission refused, the picker dismissed (or no asset), or a photo with
      the dimensions it reports, if any. */
  datatype PickOutcome =
    | PermissionDenied
    | Canceled
    | Picked(uri: string, width: Option<real>, height: Option<real>)

  /** The base layer the import adds, `image_<Date.now()>`, at clock reading `idNow`. */
  function ImportLayer(uri: string, width: Option<real>, height: Option<real>, idNow: nat): (l: Layer)
    ensures l.id == "image_" + NatToDecimal(idNow)
    ensures l.visible && !l.locked && l.opacity == 1.0 && l.blendMode == Normal && l.transform == IDENTITY
    ensures l.data == ImageData(uri, OrDefault(width, FALLBACK_SIZE), OrDefault(height, FALLBACK_SIZE))
    ensures l.Type() == ImageLayer
  {
    Layer("image_" + NatToDecimal(idNow), true, false, 1.0, Normal, IDENTITY,
          ImageData(uri, OrDefault(width, FALLBACK_SIZE), OrDefault(height, FALLBACK_SIZE)))
  }

  /** The project the import saves: one image layer, a canvas of the photo's size, no history, no
      filters and every adjustment at zero. */
  function ImportDraft(dateText: string, uri: string, width: Option<real>, height: Option<real>, idNow: nat): ProjectService.ProjectDraft {
    var w := OrDefault(width, FALLBACK_SIZE);
    var h := OrDefault(height, FALLBACK_SIZE);
    ProjectService.ProjectDraft("Photo " + dateText, None,
      EditorState([ImportLayer(uri, width, height, idNow)], None, Size(w, h), 1.0, Vec(0.0, 0.0), [], -1, [],
                  DEFAULT_ADJUSTMENTS))
  }

  /** After an import the editor holds just the image layer, active and recorded as "Add image", with
      the photo's reported size or 1080 for a missing or zero one. */
  lemma ImportEditorEffect(uri: string, width: Option<real>, height: Option<real>, idNow: nat, now: nat)
    ensures var r := A.AddLayer(A.Reset(A.INITIAL_STATE), ImportLayer(uri, width, height, idNow), now);
      |r.layers| == 1 && r.layers[0] == ImportLayer(uri, width, height, idNow)
      && r.activeLayerId == Some("image_" + NatToDecimal(idNow))
      && |r.history| == 1 && r.historyIndex == 0 && r.history[0].action == "Add image"
    ensures (width.None? || width == Some(0.0)) ==> ImportLayer(uri, width, height, idNow).data.width == 1080.0
    ensures (height.None? || height == Some(0.0)) ==> ImportLayer(uri, width, height, idNow).data.height == 1080.0
  {
    var r := A.AddLayer(A.Reset(A.INITIAL_STATE), ImportLayer(uri, width, height, idNow), now);
    assert |r.history[..|r.history| - 1]| == 0;
  }

  /** The saved import reads back with the photo's layer, a canvas of the same fallback dimensions
      as the layer, an empty history at index −1 and every adjustment at zero. */
  lemma ImportDraftSaved(c: ProjectService.Catalogue, dateText: string, uri: string, width: Option<real>,
                         height: Option<real>, idNow: nat, saveNow: nat, suffix: string)
    ensures var (r, id) := ProjectService.Save(c, ImportDraft(dateText, uri, width, height, idNow), saveNow, suffix);
      var p := ProjectService.GetProject(r, id);
      p.Some? && p.value.name == "Photo " + dateText
      && p.value.editorState.layers == [ImportLayer(uri, width, height, idNow)]
      && p.value.editorState.canvasSize
         == Size(p.value.editorState.layers[0].data.width, p.value.editorState.layers[0].data.height)
      && p.value.editorState.history == [] && p.value.editorState.historyIndex == -1
      && p.value.editorState.filters == [] && p.value.editorState.activeLayerId == None
      && forall k: AdjustmentKey :: p.value.editorState.adjustments.Get(k) == 0.0
  {
    ProjectService.SaveThenGet(c, ImportDraft(dateText, uri, width, height, idNow), saveNow, suffix);
    forall k: AdjustmentKey
      ensures DEFAULT_ADJUSTMENTS.Get(k) == 0.0
    {
      DefaultAdjustmentsAllZero(k);
    }
  }

  /** The screen component, over the editor store and project storage. */
  class Home {
    var recentProjects: seq<ProjectService.ProjectMetadata>
    const store: EditorStore.Store
    const storage: ProjectService.ProjectStorage

    constructor(store: EditorStore.Store, storage: ProjectService.ProjectStorage)
      ensures this.store == store && this.storage == storage && recentProjects == []
    {
      this.store := store;
      this.storage := storage;
      recentProjects := [];
    }

    /** `loadRecentProjects`: at most six, newest first. */
    method LoadRecentProjects()
      modifies this`recentProjects
      ensures recentProjects == ProjectService.GetRecentProjects(storage.Contents(), Some(RECENT_LIMIT))
      ensures |recentProjects| == (if |storage.Contents().list| <= RECENT_LIMIT then |storage.Contents().list| else RECENT_LIMIT)
      ensures ProjectService.SortedRecent(recentProjects)
      ensures ProjectService.NewestOf(recentProjects, storage.Contents().list)
    {
      ProjectService.RecentProjects(storage.Contents(), Some(RECENT_LIMIT));
      recentProjects := ProjectService.GetRecentProjects(storage.Contents(), Some(RECENT_LIMIT));
    }

    /** `loadProject(projectId)`; `notFound` stands for the "Project not found." alert. */
    method LoadProject(projectId: string, now: nat) returns (notFound: bool)
      requires store.Valid()
      modifies store
      ensures store.Valid()
      ensures notFound <==> ProjectService.GetProject(storage.Contents(), projectId).None?
      ensures store.State() == Load(old(store.State()), storage.Contents(), projectId, now)
    {
      var project := ProjectService.GetProject(storage.Contents(), projectId);
      if project.None? {
        return true;
      }
      store.Reset();
      var layers := project.value.editorState.layers;
      for i := 0 to |layers|
        invariant store.State() == Replay(A.INITIAL_STATE, layers[..i], now)
        invariant store.Valid()
      {
        store.AddLayer(layers[i], now);
        ReplaySnoc(A.INITIAL_STATE, layers, i, now);
      }
      assert layers[..|layers|] == layers;
      return false;
    }

    /** `handleCreateNew`: a fresh editor. */
    method HandleCreateNew()
      requires store.Valid()
      modifies store
      ensures store.Valid()
      ensures store.State() == A.INITIAL_STATE
    {
      store.Reset();
    }

    /** The picked branch of `handleImportFromGallery`: a fresh editor holding `layer`, `draft` saved
        and the recent list reloaded. */
    method OpenAndSave(layer: Layer, now: nat, draft: ProjectService.ProjectDraft, saveNow: nat, suffix: string)
      requires store.Valid()
      modifies this`recentProjects, store, storage
      ensures store.Valid()
      ensures store.State() == A.AddLayer(A.INITIAL_STATE, layer, now)
      ensures storage.Contents() == ProjectService.Save(old(storage.Contents()), draft, saveNow, suffix).0
      ensures recentProjects == ProjectService.GetRecentProjects(storage.Contents(), Some(RECENT_LIMIT))
    {
      store.Reset();
      store.AddLayer(layer, now);
      var id := storage.SaveProject(draft, saveNow, suffix);
      LoadRecentProjects();
    }

    /** `handleImportFromGallery` with the picker's outcome; the layer ids, the history entry and the
        save each read the clock, given as `idNow`, `now`, `savedIdNow` and `saveNow`. */
    method HandleImportFromGallery(pick: PickOutcome, dateText: string, idNow: nat, now: nat,
                                   savedIdNow: nat, saveNow: nat, suffix: string)
      requires store.Valid()
      modifies this`recentProjects, store, storage
      ensures store.Valid()
      ensures !pick.Picked? ==>
        store.State() == old(store.State()) && storage.Contents() == old(storage.Contents())
        && recentProjects == old(recentProjects)
      ensures pick.Picked? ==>
        store.State() == A.AddLayer(A.INITIAL_STATE, ImportLayer(pick.uri, pick.width, pick.height, idNow), now)
      ensures pick.Picked? ==>
        storage.Contents()
        == ProjectService.Save(old(storage.Contents()),
                               ImportDraft(dateText, pick.uri, pick.width, pick.height, savedIdNow), saveNow, suffix).0
      ensures pick.Picked? ==>
        recentProjects == ProjectService.GetRecentProjects(storage.Contents(), Some(RECENT_LIMIT))
    {
      if pick.Picked? {
        var layer := ImportLayer(pick.uri, pick.width, pick.height, idNow);
        var draft := ImportDraft(dateText, pick.uri, pick.width, pick.height, savedIdNow);
        OpenAndSave(layer, now, draft, saveNow, suffix);
      }
    }
  }
}
