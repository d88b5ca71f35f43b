# Lumina, modelled in Dafny

Lumina is a React Native photo editor. A user composes a picture from layers (imported photos,
emoji stickers, text and freehand drawings), moves and zooms them on a canvas, applies filters and
fifteen numeric adjustments, and undoes and redoes through a history of snapshots. Projects are
kept in local storage, and the result is exported to the photo library. This project models the
editor's core and proves properties of it:

- the editor store (`src/stores/editorStore.ts`):
  - its actions, written as transitions on one `EditorState` value (module `EditorActions`);
  - the store object, written as a class whose methods overwrite its fields (module `EditorStore`);
- the services:
  - project storage (`ProjectService`);
  - the image cache and image geometry (`ImageService`);
  - the filter catalogue and shader lookup (`FilterService`);
  - the export pipeline (`ExportService`, with `Base64` for the `btoa` step);
  - the sticker catalogue (`StickerService`);
- the filter hook `useFilterEngine` (`FilterEngine`);
- the editor screen and its panels: `EditorScreen`, `CanvasGestures`, `LayerRenderer`,
  `DrawingCanvas`, `DrawingPanel`, `TextPanel`, `StickerPanel`, `FilterPanel`, `AdjustmentPanel`
  and `Toolbar`;
- the home screen (`HomeScreen`);
- the colour helper of the splash animation (`PhysicsAnimation`).

The remaining modules hold shared definitions (`Wrappers`, `Seqs`, `Text`, `Numbers`, `EditorTypes`).

The model follows several conventions:

- **Numbers.** JavaScript numbers are Dafny `real`s where geometry, opacity and adjustments are
  concerned. Where the source rounds, truncates or wraps, the model writes it out. Clock readings
  (`Date.now()`) and random suffixes are parameters.
- **State.** Where the source mutates an object (the zustand store, the service caches,
  the storage, component state), the model is a class whose methods say they perform a pure
  transition function (`ensures State() == F(old(State()), …)`). The properties are then proved
  about that function. The editor store's invariant `EditorStore.Store.Valid` (the history index in
  [-1, |history|], a well-formed history) is required and kept by every store action and by every
  component method that calls one. The undo and redo buttons rely on it.
- **Outside effects.** Rendering and I/O are modelled as the sequence of calls the code makes
  (draw commands, file operations, progress events). What the outside world answers (a decoded
  image, a failed surface, a library error) is a parameter.

## Model

| member | source | states |
|---|---|---|
| EditorActions.InitialStateInvariant | src/stores/editorStore.ts:29-39 | the initial state has no layers and an empty history with index -1, and satisfies the store invariant |
| EditorActions.AddHistoryState | src/stores/editorStore.ts:122-148 | the history is cut after the current index and one snapshot of the current state is appended; the index points at it; nothing the editor shows changes; the invariant is kept |
| EditorActions.AddLayer | src/stores/editorStore.ts:44-50 | the layer is appended and becomes active; filters, adjustments and view are untouched; one history entry labelled `Add <type>` shows the new layers; the invariant is kept |
| EditorActions.MergeLaws | src/stores/editorStore.ts:52-57 | the `{...layer, ...updates}` spread: an empty patch changes nothing, a patch applied twice is the same as once, and a transform-only patch replaces only the transform |
| EditorActions.UpdateLayer | src/stores/editorStore.ts:52-57 | each layer with the id is merged with the patch, every other layer and every other field is unchanged, and no history entry is made |
| EditorActions.UpdateLayerNoop | src/stores/editorStore.ts:52-57 | an empty patch, or an id no layer has, leaves the state unchanged |
| EditorActions.RemoveLayer | src/stores/editorStore.ts:59-64 | the layers left are exactly the old ones without that id, in order; the selection is cleared exactly when it named the id; nothing else changes |
| EditorActions.RemoveAbsentLayer | src/stores/editorStore.ts:59-64 | removing an id that no layer has and that is not selected changes nothing |
| EditorActions.RemoveLayerIdempotent | src/stores/editorStore.ts:59-64 | removing the same id twice equals removing it once |
| EditorActions.SetActiveLayer | src/stores/editorStore.ts:66 | only the active layer id changes, with no history entry |
| EditorActions.SetCanvasSize | src/stores/editorStore.ts:68 | only the canvas size changes |
| EditorActions.SetZoom | src/stores/editorStore.ts:70 | only the zoom changes |
| EditorActions.SetPan | src/stores/editorStore.ts:72 | only the pan changes |
| EditorActions.ApplyFilter | src/stores/editorStore.ts:74-79 | the filter is appended; layers, selection, adjustments and view are untouched; one history entry labelled `Apply <name> filter` is made; the invariant is kept |
| EditorActions.RemoveFilter | src/stores/editorStore.ts:81-84 | the filters left are exactly the old ones without that id, in order; nothing else changes and no history entry is made |
| EditorActions.UpdateAdjustment | src/stores/editorStore.ts:86-94 | that one channel takes the value and every other channel keeps its value; one history entry labelled `Adjust <key>` is made; the invariant is kept |
| EditorActions.ResetAdjustments | src/stores/editorStore.ts:96 | every channel is 0 and nothing else changes, with no history entry |
| EditorActions.Undo | src/stores/editorStore.ts:98-108 | when the index is 0 or below nothing changes; otherwise the index moves down by one and the editor shows the earlier snapshot, history included; the invariant is kept |
| EditorActions.Redo | src/stores/editorStore.ts:110-120 | at the tip nothing changes; otherwise the index moves up by one and the editor shows the later snapshot, history included; the invariant is kept |
| EditorActions.Reset | src/stores/editorStore.ts:150 | the result is the initial state |
| EditorActions.Perform | src/stores/editorStore.ts:44-94 | the three committing actions (`addLayer`, `applyFilter`, `updateAdjustment`) as one transition; `PerformIsAction` and `PerformCommitsOnce` state what each does |
| EditorActions.PerformIsAction | src/stores/editorStore.ts:44-94 | each of the three committing actions is its own mutation followed by `addHistoryState` |
| EditorActions.PerformCommitsOnce | src/stores/editorStore.ts:122-148 | a committing action adds exactly one entry after the kept prefix; that snapshot carries the new view and the old history and index |
| EditorActions.CommitAtTip | src/stores/editorStore.ts:141-147 | at the tip, a commit keeps every earlier entry and grows the history by one |
| EditorActions.FreshHistoryShape | src/stores/editorStore.ts:122-148 | after n commits from an empty history, the snapshot at position k holds a history of length k and index k-1 |
| EditorActions.FirstCommitNotUndoable | src/stores/editorStore.ts:98-108 | after the first commit from an empty history, undo is disabled and does nothing |
| EditorActions.UndoStrandsRedo | src/stores/editorStore.ts:98-120 | after two or more fresh commits, undo shows the previous view but restores the snapshot's shorter history, so redo is disabled straight after |
| EditorActions.CommitLeavesClean | src/stores/editorStore.ts:122-148 | after any commit the latest snapshot shows what the editor shows |
| EditorActions.UndoAfterCommitRestoresView | src/stores/editorStore.ts:98-148 | from a state whose latest snapshot matches the view, a commit followed by undo brings that view back |
| EditorStore.Store.constructor | src/stores/editorStore.ts:41-42 | the store starts in the initial state, which is valid |
| EditorStore.Store.SetAll | src/stores/editorStore.ts:103-106 | `set(...)` with a full state overwrites all nine fields |
| EditorStore.Store.AddHistoryState | src/stores/editorStore.ts:122-148 | the new fields are `EditorActions.AddHistoryState` of the old ones, and the store invariant (`Valid`) is kept |
| EditorStore.Store.AddLayer | src/stores/editorStore.ts:44-50 | the new fields are `EditorActions.AddLayer` of the old ones, and the store invariant (`Valid`) is kept |
| EditorStore.Store.UpdateLayer | src/stores/editorStore.ts:52-57 | the new fields are `EditorActions.UpdateLayer` of the old ones, and the store invariant (`Valid`) is kept |
| EditorStore.Store.RemoveLayer | src/stores/editorStore.ts:59-64 | the new fields are `EditorActions.RemoveLayer` of the old ones, and the store invariant (`Valid`) is kept |
| EditorStore.Store.SetActiveLayer | src/stores/editorStore.ts:66 | the new fields are `EditorActions.SetActiveLayer` of the old ones, and the store invariant (`Valid`) is kept |
| EditorStore.Store.SetCanvasSize | src/stores/editorStore.ts:68 | the new fields are `EditorActions.SetCanvasSize` of the old ones, and the store invariant (`Valid`) is kept |
| EditorStore.Store.SetZoom | src/stores/editorStore.ts:70 | the new fields are `EditorActions.SetZoom` of the old ones, and the store invariant (`Valid`) is kept |
| EditorStore.Store.SetPan | src/stores/editorStore.ts:72 | the new fields are `EditorActions.SetPan` of the old ones, and the store invariant (`Valid`) is kept |
| EditorStore.Store.ApplyFilter | src/stores/editorStore.ts:74-79 | the new fields are `EditorActions.ApplyFilter` of the old ones, and the store invariant (`Valid`) is kept |
| EditorStore.Store.RemoveFilter | src/stores/editorStore.ts:81-84 | the new fields are `EditorActions.RemoveFilter` of the old ones, and the store invariant (`Valid`) is kept |
| EditorStore.Store.UpdateAdjustment | src/stores/editorStore.ts:86-94 | the new fields are `EditorActions.UpdateAdjustment` of the old ones, and the store invariant (`Valid`) is kept |
| EditorStore.Store.ResetAdjustments | src/stores/editorStore.ts:96 | the new fields are `EditorActions.ResetAdjustments` of the old ones, and the store invariant (`Valid`) is kept |
| EditorStore.Store.Undo | src/stores/editorStore.ts:98-108 | the new fields are `EditorActions.Undo` of the old ones, and the store invariant (`Valid`) is kept |
| EditorStore.Store.Redo | src/stores/editorStore.ts:110-120 | the new fields are `EditorActions.Redo` of the old ones, and the store invariant (`Valid`) is kept |
| EditorStore.Store.Reset | src/stores/editorStore.ts:150 | the new fields are `EditorActions.Reset` of the old ones, and the store invariant (`Valid`) is kept |
| EditorTypes.DefaultAdjustmentsAllZero | src/utils/constants.ts:129-145 | every one of the fifteen default adjustment channels is 0 |
| EditorTypes.Adjustment.With | src/stores/editorStore.ts:88-91 | `{...adjustments, [key]: value}` sets that one channel and keeps the other fourteen |
| EditorTypes.AdjustmentExtensional | src/types/editor.types.ts:107-123 | two adjustment records with equal channels are equal |
| EditorTypes.Centered | src/screens/EditorScreen/StickerPanel.tsx:40-41 | a box placed with the source's centring formula has its centre at the centre of the canvas, with scale 1 and no rotation |
| EditorTypes.OrDefault | src/screens/HomeScreen/index.tsx:120-121 | `v \|\| fallback` on a number: the fallback when v is missing or 0, v otherwise |
| Numbers.Clamp | src/screens/EditorScreen/AdjustmentPanel.tsx:58-61 | clamping lands in [lo, hi], is the identity inside the range and gives the nearer bound outside it |
| Numbers.Min | src/services/ImageService.ts:50 | `Math.min` is at most both arguments and equals one of them |
| Numbers.Max | src/screens/EditorScreen/TextPanel.tsx:137 | `Math.max` is at least both arguments and equals one of them |
| Numbers.ClampMonotone | src/screens/EditorScreen/AdjustmentPanel.tsx:58-61 | clamping is monotone and idempotent |
| ExportService.Canvas.constructor | src/services/ExportService.ts:95-98 | a new canvas has recorded nothing and has no saved layer open |
| ExportService.Canvas.Do | src/services/ExportService.ts:138-173 | a canvas call is appended to the recorded commands and the save depth follows it |
| ExportService.Push | src/services/ExportService.ts:145-172 | a save increases the depth and a restore decreases it; only a restore at depth 0 fails |
| ExportService.RunConcat | src/services/ExportService.ts:108-113 | running two command lists in turn is running their concatenation |
| ExportService.RunNeutral | src/services/ExportService.ts:175-235 | draw commands leave the save depth as it is |
| ExportService.LayerBody | src/services/ExportService.ts:156-235 | a layer draws at most one image or round rectangle, whose paint carries the layer's opacity |
| ExportService.LayerBracketed | src/services/ExportService.ts:138-173 | each layer's commands start with save, end with restore and leave the depth unchanged, and every draw uses the layer's opacity |
| ExportService.LayersCommandsConcat | src/services/ExportService.ts:108-113 | rendering two lists of layers is rendering the first then the second |
| ExportService.LayersBalanced | src/services/ExportService.ts:108-113 | rendering any list of layers leaves the save depth unchanged |
| ExportService.VisibleLayers | src/services/ExportService.ts:106 | the layers rendered are exactly the visible ones |
| ExportService.RenderCallbacks | src/services/ExportService.ts:103-127 | a render reports n + 3 progress values for n visible layers |
| ExportService.CallbacksInRange | src/services/ExportService.ts:103-127 | every render progress value is in [0, 1] |
| ExportService.CallbacksMonotoneIff | src/services/ExportService.ts:103-127 | the render progress is non-decreasing exactly when at most 8 layers are visible |
| ExportService.ApplyFilterToImage | src/services/ExportService.ts:237-244 | applying a filter returns the image it was given |
| ExportService.FinalRender | src/services/ExportService.ts:87-133 | without a surface, the render yields null and records nothing; otherwise the commands are the white clear followed by the visible layers' commands, and the image is the rasterisation of exactly those commands at the canvas size |
| ExportService.RenderIgnoresFiltersAndHidden | src/services/ExportService.ts:106-125 | the rendered result does not depend on the filter list or on hidden layers at either end |
| ExportService.RenderBalanced | src/services/ExportService.ts:95-113 | a render clears to white first and leaves every save matched by a restore |
| ExportService.RenderFinalImage | src/services/ExportService.ts:87-133 | the loop over the visible layers records exactly `FinalRender`'s commands and progress |
| ExportService.RenderLayers | src/services/ExportService.ts:108-113 | the loop appends each visible layer's commands in order, keeps the depth, and reports `(i+1)/n*0.8` at step i |
| ExportService.CallbacksOf | src/services/ExportService.ts:103-127 | the progress values the loop produces are `RenderCallbacks(n)` |
| ExportService.LayerCommands | src/services/ExportService.ts:138-173 | the commands drawn for one layer: save, translate, scale, rotate, the content, restore; `RenderLayerToCanvas` issues exactly these and `RenderBalanced` shows them balanced |
| ExportService.RenderLayerToCanvas | src/services/ExportService.ts:138-173 | the layer's commands are appended and the save depth is unchanged |
| ExportService.EncoderFormat | src/services/ExportService.ts:255-264 | PNG exactly for `png`, JPEG for everything else |
| ExportService.EncodeImage | src/services/ExportService.ts:249-268 | `encodeImage`: the encoder run at the format `EncoderFormat` picks and the requested quality, as `EncodeFormats` states per format |
| ExportService.EncodeFormats | src/services/ExportService.ts:249-268 | jpg and heic encode as JPEG, png as PNG, at the requested quality |
| ExportService.SaveRun | src/services/ExportService.ts:273-296 | writes the Base64 of the bytes to `documentDirectory + lumina_export_<now>.<format>` (it decodes back to the bytes), then saves that path to the library, then deletes it; the first call that throws ends the run with its error (a failed write makes no further call, a failed library save skips the delete, a failed delete loses the uri); it succeeds with the library's uri exactly when no call throws |
| ExportService.SaveToLibrary | src/services/ExportService.ts:273-296 | the method performs `SaveRun` |
| ExportService.Values | src/services/ExportService.ts:15-19 | the progress numbers of a list of events, in order |
| ExportService.ExportRun | src/services/ExportService.ts:25-82 | `exportImage`: render, encode and save with the progress events in order; `ExportWithoutSurface`, `ExportSucceeds`, `ExportSaveFails` and `ExportProgress` state its outcomes |
| ExportService.ExportWithoutSurface | src/services/ExportService.ts:30-51 | without a surface, the export reports only `Starting export...` and fails with `Failed to render image` |
| ExportService.ExportSucceeds | src/services/ExportService.ts:25-82 | with a surface and a successful save, the export returns the asset URI after n + 7 events (rendering, then encoding at 0.7, saving at 0.9 and completion at 1); the temp file holds the encoding of the image rasterised from the white clear and the visible layers' commands, and is deleted |
| ExportService.ExportSaveFails | src/services/ExportService.ts:273-296 | when the write, the library save or the delete throws, the export fails with that call's error after n + 6 events, the last at saving (0.9), with one, two or three file calls made |
| ExportService.ExportValues | src/services/ExportService.ts:25-82 | the reported progress values are 0, the render values times 0.7, then 0.7, 0.9 and (on success) 1 |
| ExportService.FramedProgress | src/services/ExportService.ts:40-75 | framing in-range render values this way stays in [0, 1] and is non-decreasing exactly when they are |
| ExportService.ExportProgress | src/services/ExportService.ts:25-82 | the export's progress values are all in [0, 1], and are non-decreasing exactly when at most 8 layers are visible |
| ExportService.ExportImage | src/services/ExportService.ts:25-82 | the method performs `ExportRun` |
| ExportService.GetAvailableFormats | src/services/ExportService.ts:313-323 | three formats, each with its id equal to its extension, and PNG encoding exactly for the one named PNG |
| ExportService.GetQualityPresets | src/services/ExportService.ts:328-339 | four presets from 70 to 100, strictly increasing, all within 0-100 |
| Base64.Char | src/services/ExportService.ts:301-308 | every 6-bit value maps into the Base64 alphabet |
| Base64.Value | src/services/ExportService.ts:301-308 | reading a character back gives a value whose character is that one |
| Base64.ValueOfChar | src/services/ExportService.ts:301-308 | the alphabet is a bijection: each value's character reads back as that value |
| Base64.Tokens | src/services/ExportService.ts:301-308 | n bytes become 4·⌈n/3⌉ output symbols |
| Base64.Encode | src/services/ExportService.ts:301-308 | the output of `btoa` on n bytes has length 4·⌈n/3⌉ |
| Base64.PaddingAtEnd | src/services/ExportService.ts:301-308 | padding appears only in the last group of four |
| Base64.EncodeAlphabet | src/services/ExportService.ts:301-308 | the output holds only alphabet characters and `=`, and `=` only in the last four |
| Base64.Parse | src/services/ExportService.ts:301-308 | parsing a string gives symbols that print back as that string |
| Base64.ParseRender | src/services/ExportService.ts:301-308 | printing symbols and parsing them back gives the same symbols |
| Base64.UnpackTokens | src/services/ExportService.ts:301-308 | unpacking the symbols of some bytes gives those bytes back |
| Base64.Decode | src/services/ExportService.ts:301-308 | the inverse of the `btoa` encoding, as `DecodeEncode` states |
| Base64.DecodeEncode | src/services/ExportService.ts:301-308 | decoding the encoding of any bytes gives them back |
| Base64.EncodeInjective | src/services/ExportService.ts:301-308 | different byte strings have different encodings |
| Base64.Uint8ArrayToBase64 | src/services/ExportService.ts:301-308 | the loop's output is the Base64 encoding of the bytes, and it decodes back to them |
| ProjectService.Key | src/services/ProjectService.ts:38 | a project's key is `project_` followed by its id |
| ProjectService.KeysDistinct | src/services/ProjectService.ts:37-38 | different ids give different keys, and no project key is `projects_list` |
| ProjectService.MetadataOf | src/services/ProjectService.ts:67-73 | the metadata carries the project's id, name, both timestamps and thumbnail |
| ProjectService.GetProject | src/services/ProjectService.ts:127-139 | `getProject(id)`: the stored project under `project_<id>`, or null; what a save, update or delete leaves is read back through it in `SaveThenGet`, `UpdateEffect` and `DeleteEffect` |
| ProjectService.Save | src/services/ProjectService.ts:43-83 | `saveProject`: stores the draft under a new `proj_<now>_<suffix>` id and appends its metadata; `SaveThenGet` states the outcome |
| ProjectService.Update | src/services/ProjectService.ts:88-122 | `updateProject`: `Project not found` for a missing id, otherwise the merged record and its rewritten list entry, as `UpdateEffect` states |
| ProjectService.Delete | src/services/ProjectService.ts:159-167 | `deleteProject`: removes the record and its list entries, as `DeleteEffect` states |
| ProjectService.Duplicate | src/services/ProjectService.ts:172-185 | `duplicateProject`: fails for a missing id, otherwise saves `<name> Copy` under a new id, as `CopiesAreSaved` states |
| ProjectService.Import | src/services/ProjectService.ts:245-260 | `importProject`: `Invalid project data` when the text does not parse, otherwise saves `<name> (Imported)` under a new id, as `CopiesAreSaved` and `ExportThenImport` state |
| ProjectService.SaveThenGet | src/services/ProjectService.ts:43-83 | a save stores the draft under `proj_<now>_<suffix>` with both timestamps at now, appends its metadata to the list, and leaves every other project as it was |
| ProjectService.Merge | src/services/ProjectService.ts:97-101 | an update keeps the id and creation time, takes each field the update gives and keeps the others, and stamps the modification time |
| ProjectService.UpdateEffect | src/services/ProjectService.ts:88-122 | the update fails with `Project not found` exactly when the project is missing; otherwise the project reads back merged, its list entry alone is rewritten, and every other project is unchanged |
| ProjectService.DeleteEffect | src/services/ProjectService.ts:159-167 | after a delete the project is gone and not listed, every other entry stays listed, and every other project reads back as before |
| ProjectService.CopiesAreSaved | src/services/ProjectService.ts:172-185 | duplicating fails exactly for a missing project; a copy or an import is saved as `<name> Copy` or `<name> (Imported)`, with the original thumbnail and editor state and fresh timestamps |
| ProjectService.ExportThenImport | src/services/ProjectService.ts:235-260 | importing an exported project fails exactly when it is missing; otherwise it saves `<name> (Imported)` under the new id and the original stays |
| ProjectService.SortRecent | src/services/ProjectService.ts:192 | the stable newest-first sort by modification time; `SortRecentCorrect` proves it sorted and a permutation |
| ProjectService.GetRecentProjects | src/services/ProjectService.ts:190-195 | `getRecentProjects(limit)`: the sorted list, cut to the limit when one is given and non-zero, as `RecentProjects` states |
| ProjectService.Search | src/services/ProjectService.ts:200-207 | `searchProjects(query)`: the case-insensitive substring filter that `SearchEffect` characterises |
| ProjectService.ClearAll | src/services/ProjectService.ts:265-275 | `clearAllProjects()`: every listed project deleted, then the list, as `ClearAllEffect` states |
| ProjectService.Insert | src/services/ProjectService.ts:192 | insertion adds exactly the one entry |
| ProjectService.InsertSorted | src/services/ProjectService.ts:192 | inserting into a newest-first list keeps it newest-first |
| ProjectService.SortRecentCorrect | src/services/ProjectService.ts:192 | the sort is newest-first by modification time and a permutation of the list |
| ProjectService.RecentProjects | src/services/ProjectService.ts:190-195 | the recent projects are newest-first and all listed; with no limit (or 0) they are the whole list; with a positive limit they number min(limit, count), with a negative one all but the last -limit; in every case they are a newest part of the list, that is the list less some remainder, counted with repetitions, of which no entry is more recent than any entry kept |
| ProjectService.SearchEffect | src/services/ProjectService.ts:200-207 | the search returns exactly the listed projects whose lower-cased name contains the lower-cased query, and everything for the empty query |
| ProjectService.ClearAllEffect | src/services/ProjectService.ts:265-275 | after clearing, the list is empty and no listed project can be read back |
| ProjectService.ProjectStorage.constructor | src/services/ProjectService.ts:21-34 | the storage starts empty |
| ProjectService.ProjectStorage.SaveProject | src/services/ProjectService.ts:43-83 | the contents and the returned id are those of `Save` |
| ProjectService.ProjectStorage.UpdateProject | src/services/ProjectService.ts:88-122 | a missing project raises `Project not found` and changes nothing; otherwise the contents are those of `Update` |
| ProjectService.ProjectStorage.DeleteProject | src/services/ProjectService.ts:159-167 | the contents are those of `Delete` |
| ProjectService.ProjectStorage.DuplicateProject | src/services/ProjectService.ts:172-185 | a missing project raises `Project not found` and changes nothing; otherwise the new id and the contents are those of `Duplicate` |
| ProjectService.ProjectStorage.ImportProject | src/services/ProjectService.ts:245-260 | unparseable data raises `Invalid project data` and changes nothing; otherwise the new id and the contents are those of `Import` |
| ProjectService.ProjectStorage.ClearAllProjects | src/services/ProjectService.ts:265-275 | the contents are those of `ClearAll` |
| HomeScreen.Replay | src/screens/HomeScreen/index.tsx:58-60 | `forEach(layer => addLayer(layer))`: one `addLayer` per saved layer in order, as `ReplayStep` and `ReplayEffect` state |
| HomeScreen.ReplayStep | src/screens/HomeScreen/index.tsx:58-60 | replaying one more layer appends it, selects it, keeps the other fields, and adds one history entry labelled `Add <type>` |
| HomeScreen.ReplaySnoc | src/screens/HomeScreen/index.tsx:58-60 | replaying a prefix one layer longer is one more `addLayer` |
| HomeScreen.ReplayEffect | src/screens/HomeScreen/index.tsx:58-60 | replaying layers from the history's tip appends them all, selects the last, adds one entry per layer after the kept history, the j-th labelled `Add <type of layer j>`, and leaves filters, adjustments and view alone |
| HomeScreen.LabelledStep | src/screens/HomeScreen/index.tsx:58-60 | one more `addLayer` keeps the labels already committed and labels its own entry with the new layer's type |
| HomeScreen.FreshReplay | src/screens/HomeScreen/index.tsx:55-60 | replaying saved layers into a fresh editor gives exactly those layers, the last selected, one labelled entry each with the index on the newest, and the initial filters, adjustments and view |
| HomeScreen.Load | src/screens/HomeScreen/index.tsx:46-68 | `loadProject`: an unknown id leaves the editor alone, a known one resets it and replays the layers, as `LoadEffect` states |
| HomeScreen.LoadEffect | src/screens/HomeScreen/index.tsx:46-68 | an unknown id leaves the editor as it is; otherwise the editor holds exactly the saved layers, the last selected, one `Add` entry per layer, and the initial filters, adjustments, canvas size, zoom and pan (the saved ones are not restored) |
| HomeScreen.ImportLayer | src/screens/HomeScreen/index.tsx:105-123 | the imported layer is a visible, unlocked, fully opaque, normal-blend image layer at the identity transform with id `image_<now>`, and sides of 1080 where the picker reports none |
| HomeScreen.ImportEditorEffect | src/screens/HomeScreen/index.tsx:98-123 | after an import the editor holds that one layer, selected, with one history entry `Add image` |
| HomeScreen.ImportDraft | src/screens/HomeScreen/index.tsx:126-175 | the draft project an import saves, which `ImportDraftSaved` reads back |
| HomeScreen.ImportDraftSaved | src/screens/HomeScreen/index.tsx:126-175 | the saved draft reads back named `Photo <date>`, with that one layer, a canvas of the layer's size, an empty history at index -1, no filters, no selection and every adjustment 0 |
| HomeScreen.Home.constructor | src/screens/HomeScreen/index.tsx:29-32 | the screen starts with no recent projects, on the given store and storage |
| HomeScreen.Home.LoadRecentProjects | src/screens/HomeScreen/index.tsx:34-37 | the list shown is the six most recent projects, newest first, or all when there are fewer: six entries (or all), sorted, and none of the entries left out is more recent than one shown |
| HomeScreen.Home.LoadProject | src/screens/HomeScreen/index.tsx:46-68 | the not-found alert shows exactly when the project is missing, and the store ends in `Load`'s state (reset, then one `addLayer` per saved layer) |
| HomeScreen.Home.HandleCreateNew | src/screens/HomeScreen/index.tsx:70-74 | the store is back in its initial state |
| HomeScreen.Home.OpenAndSave | src/screens/HomeScreen/index.tsx:98-178 | the picked branch: the store holds a fresh editor with just the new layer, storage holds the saved draft, and the recent list is reloaded from the new storage |
| HomeScreen.Home.HandleImportFromGallery | src/screens/HomeScreen/index.tsx:76-185 | a refused or cancelled pick changes nothing; a picked photo resets the store and adds its layer, saves the draft project, and refreshes the recent list from the new storage |
| ImageService.Load | src/services/ImageService.ts:10-36 | `loadImage`: a cache hit, or a fetch whose image is cached; `LoadCases` and `LoadTwice` state its outcomes |
| ImageService.LoadCases | src/services/ImageService.ts:10-36 | a cached URI returns the cached image without fetching; a miss that decodes returns and caches the image (one entry more); a miss that fails or throws returns null and keeps the cache; other entries are untouched |
| ImageService.LoadTwice | src/services/ImageService.ts:13-28 | after a load has returned an image, loading the URI again returns the same image and keeps the cache, whatever fetching would give |
| ImageService.ImageCache.constructor | src/services/ImageService.ts:5 | the cache starts empty |
| ImageService.ImageCache.LoadImage | src/services/ImageService.ts:10-36 | the image returned and the new cache are those of `Load` |
| ImageService.ImageCache.ClearCache | src/services/ImageService.ts:120-122 | the cache is empty |
| ImageService.ImageCache.GetCacheSize | src/services/ImageService.ts:127-129 | the number of cached images |
| ImageService.ClearedCacheMisses | src/services/ImageService.ts:10-36 | on an empty cache, a load returns exactly what fetching gives and caches at most that one image |
| ImageService.Thumbnail | src/services/ImageService.ts:41-70 | `createThumbnail`: the whole image drawn centred into a size × size surface, as `ThumbnailFits` states |
| ImageService.ThumbnailFits | src/services/ImageService.ts:41-70 | a thumbnail draws the whole image into a size × size surface, keeps the aspect ratio, fills one dimension exactly, stays inside, and is centred |
| ImageService.Round | src/services/ImageService.ts:89-90 | `Math.round` gives the integer within half a unit, halves rounding up |
| ImageService.ShrinkSide | src/services/ImageService.ts:85-90 | a side scaled down by the fit scale rounds to at most its length and at most the limit plus one half |
| ImageService.ResizeImage | src/services/ImageService.ts:75-115 | `resizeImage`: the image itself when it fits, otherwise a redraw at the fit scale, as `ResizeOnlyWhenNeeded` and `ResizeNeverUpscales` state |
| ImageService.ResizeOnlyWhenNeeded | src/services/ImageService.ts:75-115 | the image comes back unchanged exactly when it already fits; otherwise a result is given exactly when a surface could be made |
| ImageService.ResizeNeverUpscales | src/services/ImageService.ts:85-110 | a redrawn image is the whole image drawn at the rounded scaled size, no side larger than the original, and each within half a pixel of the box |
| PhysicsAnimation.HexDigitChar | src/screens/SplashScreen/PhysicsAnimation.tsx:216 | `toString(16)` writes each digit in lower case, and the digit reads back as its value |
| PhysicsAnimation.LowerHexCanonical | src/screens/SplashScreen/PhysicsAnimation.tsx:216 | each lower-case hex digit is the one written for its value |
| PhysicsAnimation.HexValueBound | src/screens/SplashScreen/PhysicsAnimation.tsx:211 | a string of k hex digits denotes a value below 16^k |
| PhysicsAnimation.HexValueConcat | src/screens/SplashScreen/PhysicsAnimation.tsx:211 | the value of two hex strings joined is the first shifted by the second's length plus the second |
| PhysicsAnimation.HexInjective | src/screens/SplashScreen/PhysicsAnimation.tsx:216 | two lower-case hex strings of equal length with equal value are the same string |
| PhysicsAnimation.ToHex | src/screens/SplashScreen/PhysicsAnimation.tsx:216 | `toString(16)` of a non-negative integer is a non-empty lower-case hex string |
| PhysicsAnimation.ToHexValue | src/screens/SplashScreen/PhysicsAnimation.tsx:211-216 | reading `toString(16)` back as hex gives the number |
| PhysicsAnimation.ToHexLength | src/screens/SplashScreen/PhysicsAnimation.tsx:216 | a number below 16^k needs at most k hex digits |
| PhysicsAnimation.ZerosValue | src/screens/SplashScreen/PhysicsAnimation.tsx:216 | padding zeros are hex digits of value 0 |
| PhysicsAnimation.PadStart6 | src/screens/SplashScreen/PhysicsAnimation.tsx:216 | `padStart(6, '0')` makes a string at least six long and leaves longer ones alone |
| PhysicsAnimation.PadFacts | src/screens/SplashScreen/PhysicsAnimation.tsx:216 | padding a hex string of at most six digits gives six lower-case digits of the same value |
| PhysicsAnimation.PaddedHex | src/screens/SplashScreen/PhysicsAnimation.tsx:216 | a number below 16^6 is written as exactly six lower-case hex digits that read back as it |
| PhysicsAnimation.RemoveFirstHash | src/screens/SplashScreen/PhysicsAnimation.tsx:212 | `replace('#', '')` removes only the first `#`, and leaves a string without one alone |
| PhysicsAnimation.HexPrefix | src/screens/SplashScreen/PhysicsAnimation.tsx:212 | `parseInt` reads the longest run of hex digits and stops at the first other character |
| PhysicsAnimation.HexPrefixAll | src/screens/SplashScreen/PhysicsAnimation.tsx:212 | a string made only of hex digits is read whole |
| PhysicsAnimation.ParseIntHex | src/screens/SplashScreen/PhysicsAnimation.tsx:212 | `parseInt(s, 16)` with NaN as None; `HexPrefix`, `HexPrefixAll` and `ParseSixDigits` state what it reads |
| PhysicsAnimation.Format | src/screens/SplashScreen/PhysicsAnimation.tsx:216 | `#` and the packed channels as six hex digits; `OutputEncodesChannels` shows they read back as the channels |
| PhysicsAnimation.AdjustBrightness | src/screens/SplashScreen/PhysicsAnimation.tsx:211-217 | `adjustBrightness(color, amount)`; `OutputEncodesChannels`, `ChannelsClamped` and `BrightnessMonotone` state its result |
| PhysicsAnimation.Bits | src/screens/SplashScreen/PhysicsAnimation.tsx:212-215 | the operand of `>>` and `&` is a 32-bit pattern, with NaN read as 0 |
| PhysicsAnimation.Channels | src/screens/SplashScreen/PhysicsAnimation.tsx:212-215 | the three masked bytes are each in 0-255 |
| PhysicsAnimation.SplitPacked | src/screens/SplashScreen/PhysicsAnimation.tsx:212-216 | packing three in-range channels and reading them back gives the channels |
| PhysicsAnimation.PackSplit | src/screens/SplashScreen/PhysicsAnimation.tsx:212-216 | splitting a 24-bit value into channels and packing them gives the value |
| PhysicsAnimation.Adjust | src/screens/SplashScreen/PhysicsAnimation.tsx:213-216 | a channel plus the amount is clamped to 0-255 and truncated; below 0 gives 0 and above 255 gives 255 |
| PhysicsAnimation.Adjusted | src/screens/SplashScreen/PhysicsAnimation.tsx:212-215 | all three adjusted channels are in range |
| PhysicsAnimation.OutputEncodesChannels | src/screens/SplashScreen/PhysicsAnimation.tsx:211-217 | the result is always `#` and six lower-case hex digits, which read back as the adjusted channels |
| PhysicsAnimation.ChannelsClamped | src/screens/SplashScreen/PhysicsAnimation.tsx:212-215 | for a whole-number amount, each channel is its old value plus the amount, clamped to 0-255 |
| PhysicsAnimation.BrightnessMonotone | src/screens/SplashScreen/PhysicsAnimation.tsx:212-215 | a larger amount never darkens any channel |
| PhysicsAnimation.AdjustMonotone | src/screens/SplashScreen/PhysicsAnimation.tsx:213-215 | one channel's adjustment is monotone in the amount |
| PhysicsAnimation.ParseSixDigits | src/screens/SplashScreen/PhysicsAnimation.tsx:212 | `#` and six hex digits parse to the digits' value |
| PhysicsAnimation.LowerHexString | src/screens/SplashScreen/PhysicsAnimation.tsx:216 | lower-casing hex digits keeps their value |
| PhysicsAnimation.SmallBits | src/screens/SplashScreen/PhysicsAnimation.tsx:212 | a 24-bit value is its own 32-bit pattern |
| PhysicsAnimation.ZeroIsIdentity | src/screens/SplashScreen/PhysicsAnimation.tsx:211-217 | adjusting `#` and six hex digits by 0 gives the same colour written in lower case |
| PhysicsAnimation.NotANumber | src/screens/SplashScreen/PhysicsAnimation.tsx:212-215 | a colour that does not parse has every channel at `0 + amount`, clamped |
| PhysicsAnimation.NotANumberDarkens | src/screens/SplashScreen/PhysicsAnimation.tsx:211-217 | an unparseable colour darkened by any non-positive amount comes out with all three channels 0, which the output encodes |
| FilterService.GetAvailableFilters | src/services/FilterService.ts:207-209 | the filter names, in the order of the shader table |
| FilterService.AvailableFiltersList | src/services/FilterService.ts:5-127 | the names are vintage, bw, vibrant, cool, warm and dramatic, and there is no `none` |
| FilterService.ShaderSource | src/services/FilterService.ts:143-148 | a shader exists exactly for the listed names, and it is that name's shader |
| FilterService.Luma | src/services/FilterService.ts:50 | the weighted sum 0.299 r + 0.587 g + 0.114 b of the black-and-white shader; `BwIsGray` and `BwFixesGray` state its use |
| FilterService.Sepia | src/services/FilterService.ts:24-28 | the vintage shader's sepia matrix on a colour; `Kernel` and `KernelBetween` state how it is mixed in |
| FilterService.Effect | src/services/FilterService.ts:33-125 | the full effect of each of the six shaders on a colour; `Kernel` shows intensity 0 gives the original and 1 this effect |
| FilterService.Kernel | src/services/FilterService.ts:33-125 | every shader keeps alpha, shows the original colour at intensity 0 and the full effect at 1 |
| FilterService.KernelBetween | src/services/FilterService.ts:36-123 | at an intensity in [0, 1] each channel lies between the original and the effect |
| FilterService.MixBetween | src/services/FilterService.ts:36 | `mix(x, y, t)` for t in [0, 1] lies between x and y |
| FilterService.BwIsGray | src/services/FilterService.ts:45-51 | the black-and-white shader at full intensity gives three equal channels, the luma |
| FilterService.BwFixesGray | src/services/FilterService.ts:45-51 | the black-and-white shader leaves a gray pixel unchanged at any intensity |
| FilterService.EffectLookup | src/services/FilterService.ts:135-165 | a cached name returns the cached effect; an unknown name or a failed compile returns null and keeps the cache; a compiled effect is cached under the name, for that name's shader; other entries are untouched |
| FilterService.SecondLookupHits | src/services/FilterService.ts:138-140 | after a lookup has returned an effect, the same lookup returns it again from the cache |
| FilterService.LookupAfterClear | src/services/FilterService.ts:214-216 | after clearing, a listed filter is compiled from its own shader again |
| FilterService.ApplyFilterResult | src/services/FilterService.ts:170-202 | the filtered image exists exactly when there is an effect and a surface, and it is the whole image drawn through the effect at the given intensity (default 1) |
| FilterService.UnknownFilterYieldsNothing | src/services/FilterService.ts:143-148 | applying a name with no shader yields null |
| FilterService.Service.constructor | src/services/FilterService.ts:130 | the shader cache starts empty |
| FilterService.Service.GetFilterEffect | src/services/FilterService.ts:135-165 | the effect returned and the new cache are those of `EffectLookup` |
| FilterService.Service.ApplyFilter | src/services/FilterService.ts:170-202 | the cache after the lookup and the result are those of `EffectLookup` and `ApplyFilterResult` |
| FilterService.Service.ClearCache | src/services/FilterService.ts:214-216 | the shader cache is empty |
| FilterEngine.FirstNamed | src/hooks/useFilterEngine.ts:24 | `find` gives the first filter with the name, or nothing when none has it |
| FilterEngine.RemoveByName | src/hooks/useFilterEngine.ts:51-59 | with no filter of that name nothing changes; otherwise the store removes the first such filter's id |
| FilterEngine.ApplyByName | src/hooks/useFilterEngine.ts:15-46 | the first filter of that name is removed, then `filter_<now>` with the name and intensity is applied and ends the list; `ApplyByNameReplaces` and `ApplyThenQuery` state that it is then the only filter of that name |
| FilterEngine.RemoveByIdOfIndex | src/hooks/useFilterEngine.ts:24-27 | with distinct ids, removing a filter's id removes exactly that one entry |
| FilterEngine.RemoveByNameList | src/hooks/useFilterEngine.ts:51-59 | with distinct ids, removing by name deletes exactly the first entry of that name |
| FilterEngine.RemoveByNameRemovesName | src/hooks/useFilterEngine.ts:51-59 | when at most one filter has the name, none is left after removing it, whatever the ids, since every filter sharing the removed id goes |
| FilterEngine.ApplyByNameReplaces | src/hooks/useFilterEngine.ts:15-46 | with distinct ids, applying by name keeps every filter of another name, in order; when at most one had the name, the new one is the only one with it, at the end, whatever the ids |
| FilterEngine.GetFilterIntensity | src/hooks/useFilterEngine.ts:74-80 | the intensity of the first filter of that name, or 0 |
| FilterEngine.IsFilterApplied | src/hooks/useFilterEngine.ts:85-90 | true exactly when some filter has the name |
| FilterEngine.ApplyThenQuery | src/hooks/useFilterEngine.ts:15-90 | after applying a name, it is applied at the given intensity |
| FilterEngine.RemoveThenQuery | src/hooks/useFilterEngine.ts:51-90 | after removing a name, it is not applied and its intensity reads 0 |
| FilterEngine.Engine.constructor | src/hooks/useFilterEngine.ts:8-10 | the hook starts on the store, not processing |
| FilterEngine.Engine.ApplyFilterToLayers | src/hooks/useFilterEngine.ts:15-46 | while processing nothing happens; otherwise the store ends in `ApplyByName`'s state, and the processing flag is cleared again |
| FilterEngine.Engine.UpdateFilterIntensity | src/hooks/useFilterEngine.ts:64-69 | the same as applying the filter again with the new intensity |
| FilterEngine.Engine.RemoveFilterByName | src/hooks/useFilterEngine.ts:51-59 | the store ends in `RemoveByName`'s state |
| FilterEngine.Engine.ClearAllFilters | src/hooks/useFilterEngine.ts:126-130 | removing every filter's id empties the filter list and changes nothing else |
| FilterPanel.AllFilters | src/screens/EditorScreen/FilterPanel.tsx:23-59 | the carousel shows the twelve free entries, then the four premium ones |
| FilterPanel.CarouselSplit | src/screens/EditorScreen/FilterPanel.tsx:23-59 | an entry is premium exactly when it comes after the twelve free ones |
| FilterPanel.IntensityDown | src/screens/EditorScreen/FilterPanel.tsx:138-143 | the minus button lowers the intensity by 10, but not below 0 |
| FilterPanel.IntensityUp | src/screens/EditorScreen/FilterPanel.tsx:144-151 | the plus button raises the intensity by 10, but not above 100 |
| FilterPanel.ButtonsKeepRange | src/screens/EditorScreen/FilterPanel.tsx:136-152 | from an intensity in 0-100 both buttons stay in 0-100, so the fraction sent to the hook lies in [0, 1] |
| FilterPanel.SelectEffect | src/screens/EditorScreen/FilterPanel.tsx:60-73 | what `handleFilterSelect` does to the editor state, as `GuardedSelections` and `SelectFreeApplies` state |
| FilterPanel.IntensityEffect | src/screens/EditorScreen/FilterPanel.tsx:75-81 | what `handleIntensityChange` does to the editor state, as `IntensityReachesSelected` states |
| FilterPanel.GuardedSelections | src/screens/EditorScreen/FilterPanel.tsx:60-73 | a premium entry changes neither the selection nor the editor; `none` is selected but applies nothing; any free entry becomes the selection |
| FilterPanel.SelectFreeApplies | src/screens/EditorScreen/FilterPanel.tsx:60-73 | selecting a free filter other than `none` applies it, last in the list, at the slider's percentage over 100; with distinct ids, filters of other names keep their order |
| FilterPanel.IntensityReachesSelected | src/screens/EditorScreen/FilterPanel.tsx:75-81 | with `none` selected, moving the slider does nothing; otherwise the selected filter's intensity becomes the new percentage over 100 |
| FilterPanel.Panel.constructor | src/screens/EditorScreen/FilterPanel.tsx:56-57 | the panel starts with `none` selected and the intensity at 100 |
| FilterPanel.Panel.HandleFilterSelect | src/screens/EditorScreen/FilterPanel.tsx:60-73 | the selection and the editor state become `NextSelection` and `SelectEffect` of the old ones |
| FilterPanel.Panel.HandleIntensityChange | src/screens/EditorScreen/FilterPanel.tsx:75-81 | the slider takes the new value and the editor state becomes `IntensityEffect` of the old one |
| FilterPanel.Panel.DecreaseIntensity | src/screens/EditorScreen/FilterPanel.tsx:138-143 | the slider moves to `IntensityDown`, stays in range, and that value is sent on |
| FilterPanel.Panel.IncreaseIntensity | src/screens/EditorScreen/FilterPanel.tsx:144-151 | the slider moves to `IntensityUp`, stays in range, and that value is sent on |
| AdjustmentPanel.RowsListed | src/screens/EditorScreen/AdjustmentPanel.tsx:25-36 | each channel with a slider has its row in the table |
| AdjustmentPanel.TableRanges | src/screens/EditorScreen/AdjustmentPanel.tsx:25-36 | each slider row has the range its channel is meant to have |
| AdjustmentPanel.ControlRanges | src/screens/EditorScreen/AdjustmentPanel.tsx:25-55 | `find` returns a row exactly for the ten slider channels, with its own key: exposure ±200, sharpness 0-100 and the others ±100 |
| AdjustmentPanel.ValueChange | src/screens/EditorScreen/AdjustmentPanel.tsx:53-63 | `handleValueChange`: the stepped and clamped value written through `updateAdjustment`, as `ValueChangeClamps` states |
| AdjustmentPanel.ValueChangeClamps | src/screens/EditorScreen/AdjustmentPanel.tsx:53-63 | a ± step on a slider channel stores the sum clamped to the row's range, in that channel only, with one `Adjust <key>` entry; a channel without a row is left alone |
| AdjustmentPanel.UpdateAll | src/screens/EditorScreen/AdjustmentPanel.tsx:69-71 | the preset's `updateAdjustment` calls in order; `UpdateAllChannels`, `UpdateAllKeepsLayers` and `UpdateAllHistory` state their effect |
| AdjustmentPanel.PresetPress | src/screens/EditorScreen/AdjustmentPanel.tsx:65-73 | `handlePresetPress`: a full reset for Reset, otherwise the preset's writes, as `ResetPresetZeroes` and `AutoPreset` state |
| AdjustmentPanel.LookupAbsent | src/screens/EditorScreen/AdjustmentPanel.tsx:69-71 | a channel no write of a preset names has no last written value |
| AdjustmentPanel.UpdateAllChannels | src/screens/EditorScreen/AdjustmentPanel.tsx:69-71 | after a preset's writes, each channel holds the last value written to it, or its old value |
| AdjustmentPanel.UpdateAllKeepsUnnamed | src/screens/EditorScreen/AdjustmentPanel.tsx:69-71 | a channel no write of a preset names keeps its old value, whatever the state |
| AdjustmentPanel.UpdateAllKeepsLayers | src/screens/EditorScreen/AdjustmentPanel.tsx:69-71 | a preset's writes leave the layers, the selection and the filters untouched |
| AdjustmentPanel.UpdateAllHistory | src/screens/EditorScreen/AdjustmentPanel.tsx:69-71 | in every state, a preset with n > 0 writes keeps what `history.slice(0, historyIndex + 1)` keeps (the whole history after an undo has left the index at its length), then adds exactly n entries, the j-th labelled `Adjust <key of write j>`, with the index on the last; no writes leave the history and index as they were |
| AdjustmentPanel.ResetPresetZeroes | src/screens/EditorScreen/AdjustmentPanel.tsx:42-67 | the Reset preset sets every channel to 0 and adds no history entry |
| AdjustmentPanel.AutoPreset | src/screens/EditorScreen/AdjustmentPanel.tsx:39-71 | Auto sets brightness 10, contrast 15 and saturation 10, leaves every other channel, and adds three entries after the kept history: `historyIndex + 4` entries in all when the index lies inside the history, `|history| + 3` when an undo has left it at the length |
| AdjustmentPanel.ThreeWrites | src/screens/EditorScreen/AdjustmentPanel.tsx:69-71 | three writes to three different channels set exactly those channels to their values and, in every state, add three entries after the kept history |
| AdjustmentPanel.Panel.constructor | src/screens/EditorScreen/AdjustmentPanel.tsx:47 | no row starts expanded |
| AdjustmentPanel.Panel.HandleAdjustmentPress | src/screens/EditorScreen/AdjustmentPanel.tsx:49-51 | pressing the expanded row collapses it; pressing another row expands that one |
| AdjustmentPanel.Panel.HandleValueChange | src/screens/EditorScreen/AdjustmentPanel.tsx:53-63 | the store ends in `ValueChange`'s state |
| AdjustmentPanel.Panel.HandlePresetPress | src/screens/EditorScreen/AdjustmentPanel.tsx:65-73 | the store ends in `PresetPress`'s state: a full reset for Reset, otherwise the preset's writes in order |
| AdjustmentPanel.Panel.ClearChannel | src/screens/EditorScreen/AdjustmentPanel.tsx:113-120 | the × button sets that channel to 0 through `updateAdjustment` |
| CanvasGestures.ClampZoom | src/screens/EditorScreen/Canvas.tsx:102 | the pinch scale is kept within [0.5, 5] and is left alone inside that range |
| CanvasGestures.GetLayerSize | src/screens/EditorScreen/Canvas.tsx:122-141 | a sticker's hit box is its width and height times the layer's scale, a text's is its measured box (120 × 40 when unmeasured) times the scale, and image and drawing layers have an empty hit box |
| CanvasGestures.HitBoxIsScaledSelection | src/screens/EditorScreen/Canvas.tsx:122-141 | for stickers and texts the hit box is the selection bounds of the renderer scaled by the layer's scale |
| CanvasGestures.ConvertToCanvasCoords | src/screens/EditorScreen/Canvas.tsx:143-154 | a view point has canvas coordinates exactly when the zoom is not 0, and mapping them back through pan and zoom gives the view point |
| CanvasGestures.ConvertInvertsView | src/screens/EditorScreen/Canvas.tsx:143-154 | converting the view image of a canvas point gives that canvas point back |
| CanvasGestures.TopmostHit | src/screens/EditorScreen/Canvas.tsx:156-187 | the index found is a layer hit by the point with no hit layer above it; no index means no layer is hit |
| CanvasGestures.DragStart | src/screens/EditorScreen/Canvas.tsx:156-193 | `handleDragStart` on the drag refs and the store, whose choice of layer `DragStartPicksTopmost` states |
| CanvasGestures.DragStartPicksTopmost | src/screens/EditorScreen/Canvas.tsx:156-193 | a drag start grabs the topmost visible sticker or text under the finger, records its position and makes it active, or, with none hit, clears the drag refs and leaves the store alone |
| CanvasGestures.TransformPatchOnlyMoves | src/screens/EditorScreen/Canvas.tsx:226-232 | a transform-only update replaces the transform of the layers with that id and changes no other layer |
| CanvasGestures.DragMove | src/screens/EditorScreen/Canvas.tsx:195-235 | `handleDragMove` with its 16 ms throttle; `DragMoveRejects`, `DragMoveAccepts` and `DragMoveOnlyMoves` state its cases |
| CanvasGestures.DragMoveRejects | src/screens/EditorScreen/Canvas.tsx:195-222 | a move with no dragged id, no such layer, no recorded start position, or within 16 ms of the last accepted move changes neither the refs nor the store |
| CanvasGestures.DragMoveAccepts | src/screens/EditorScreen/Canvas.tsx:195-232 | any other move stamps the clock and patches the dragged layer's transform to its start position plus the translation over the zoom |
| CanvasGestures.MovedOnly | src/screens/EditorScreen/Canvas.tsx:226-232 | with unique ids, patching the transform of the layer at i changes that layer's transform and nothing else in the state |
| CanvasGestures.DragMoveOnlyMoves | src/screens/EditorScreen/Canvas.tsx:195-235 | a drag move changes only transforms, only of the dragged layer, makes no history entry, and within 16 ms of the last update changes nothing |
| CanvasGestures.DragFollowsFinger | src/screens/EditorScreen/Canvas.tsx:156-235 | after grabbing a layer, a move past the throttle puts it at its grab position plus the translation over the zoom (zoom 0 counting as 1) and leaves every other layer and the history as they were |
| CanvasGestures.DragEnd | src/screens/EditorScreen/Canvas.tsx:237-245 | a drag end clears the dragged id, the recorded position and the dragging flag and keeps the throttle clock |
| CanvasGestures.MoveAfterEndIsNoop | src/screens/EditorScreen/Canvas.tsx:195-245 | once a drag has ended, a move changes neither the refs nor the store |
| CanvasGestures.Gestures.constructor | src/screens/EditorScreen/Canvas.tsx:46-63 | the canvas starts with no drag in progress and the shared values at the store's zoom and pan |
| CanvasGestures.Gestures.HandleDragStart | src/screens/EditorScreen/Canvas.tsx:156-193 | the top-down scan ends in the refs and store state that `DragStart` gives |
| CanvasGestures.Gestures.HandleDragMove | src/screens/EditorScreen/Canvas.tsx:195-235 | the refs and the store end in the state `DragMove` gives |
| CanvasGestures.Gestures.HandleDragEnd | src/screens/EditorScreen/Canvas.tsx:237-245 | the refs end as `DragEnd` gives, and the pan and pinch values are untouched |
| CanvasGestures.Gestures.PanUpdate | src/screens/EditorScreen/Canvas.tsx:86-93 | unless a layer is being dragged, the pan values follow the finger's translation |
| CanvasGestures.Gestures.PanEnd | src/screens/EditorScreen/Canvas.tsx:94-96 | unless a layer is being dragged, the translation becomes the store's pan |
| CanvasGestures.Gestures.PinchUpdate | src/screens/EditorScreen/Canvas.tsx:99-103 | unless a layer is being dragged, the scale follows the pinch, clamped to the zoom range |
| CanvasGestures.Gestures.PinchEnd | src/screens/EditorScreen/Canvas.tsx:104-106 | unless a layer is being dragged, the clamped scale becomes the store's zoom |
| CanvasGestures.Gestures.InitCanvasSize | src/screens/EditorScreen/Canvas.tsx:78-83 | on mount the canvas size becomes the window's width by its height less 200 |
| LayerRenderer.Polyline | src/screens/EditorScreen/LayerRenderer.tsx:170-177 | a stroke's path moves to its first point and draws a line to each later point, in order |
| LayerRenderer.BuildPath | src/screens/EditorScreen/LayerRenderer.tsx:170-177 | the path-building loop produces the polyline through the points |
| LayerRenderer.StrokeNodes | src/screens/EditorScreen/LayerRenderer.tsx:166-191 | one path node per stroke that has at least two points |
| LayerRenderer.StrokeRendering | src/screens/EditorScreen/LayerRenderer.tsx:166-191 | the i-th path is the i-th stroke with two or more points, with its id as key, its colour and size, its opacity over 100, and its polyline |
| LayerRenderer.GetLayerBounds | src/screens/EditorScreen/LayerRenderer.tsx:197-215 | image and sticker bounds are their width and height, a text's its measured box with 120 × 40 for a missing or zero measure, and a drawing's 100 × 100 |
| LayerRenderer.SelectionHandles | src/screens/EditorScreen/LayerRenderer.tsx:196-318 | the handles are eleven nodes, the first a border 2 units outside the bounds on every side |
| LayerRenderer.Render | src/screens/EditorScreen/LayerRenderer.tsx:29-67 | a hidden layer renders nothing; a visible one renders a group that translates, scales and rotates by its transform, at its opacity, holding its content and, when active, its handles |
| LayerRenderer.ContentMatchesBounds | src/screens/EditorScreen/LayerRenderer.tsx:38-194 | image, sticker and text content is drawn from the origin at exactly the selection bounds; a drawing draws a group of its strokes, or nothing without strokes |
| LayerRenderer.EmptyDrawingRendersNothing | src/screens/EditorScreen/LayerRenderer.tsx:157-162 | a drawing without strokes shows nothing but its handles when active |
| LayerRenderer.KnownStickerMarker | src/screens/EditorScreen/LayerRenderer.tsx:98-139 | a sticker in the catalogue shows the 12 × 12 marker 16 units in from its right edge |
| LayerRenderer.ExportMatchesBounds | src/screens/EditorScreen/LayerRenderer.tsx:197-215 | the export draws each layer at the size the selection handles use for it |
| DrawingCanvas.Sample | src/screens/EditorScreen/DrawingCanvas.tsx:31-35 | a touch sample keeps the event's position, and its pressure, or 1 when the pressure is missing or 0, so it is never 0 |
| DrawingCanvas.DrawingLayer | src/screens/EditorScreen/DrawingCanvas.tsx:67-83 | the layer added for the pending strokes is visible, unlocked, fully opaque, untransformed and holds exactly those strokes |
| DrawingCanvas.FlushPending | src/screens/EditorScreen/DrawingCanvas.tsx:64-87 | `addDrawingLayer` on the state and the pending strokes: one layer holding them all, then none pending; `DrawingLayer` states the layer |
| DrawingCanvas.EndStroke | src/screens/EditorScreen/DrawingCanvas.tsx:46-62 | `onEnd` on the state, the pending strokes and the current stroke, as `EndStrokeEffect` and `OneLayerPerStroke` state |
| DrawingCanvas.EndStrokeEffect | src/screens/EditorScreen/DrawingCanvas.tsx:46-87 | ending a gesture clears the current stroke; with two or more points one drawing layer is added and selected, holding the earlier pending strokes and then the new stroke with the brush settings and the points in order, and nothing stays pending; otherwise nothing changes |
| DrawingCanvas.OneLayerPerStroke | src/screens/EditorScreen/DrawingCanvas.tsx:58-87 | with the scheduled `addDrawingLayer` run at once (see "## Left out"), each finished stroke becomes a drawing layer of its own |
| DrawingCanvas.PathString | src/screens/EditorScreen/DrawingCanvas.tsx:89-99 | the path string of `createPathFromPoints`; `PreviewMatchesRenderer` and `PathGrowsBySegment` state what it spells |
| DrawingCanvas.PathDataTraces | src/screens/EditorScreen/DrawingCanvas.tsx:89-99 | after n steps of the loop the string is the text of the first n path operations that move to the first point and line to the others |
| DrawingCanvas.PreviewMatchesRenderer | src/screens/EditorScreen/DrawingCanvas.tsx:89-99 | the live preview's path string spells out the same polyline the layer renderer builds for the stroke |
| DrawingCanvas.PathDataPrefix | src/screens/EditorScreen/DrawingCanvas.tsx:94-96 | adding a point does not change the text already built for the earlier points |
| DrawingCanvas.PathGrowsBySegment | src/screens/EditorScreen/DrawingCanvas.tsx:94-96 | one more point adds exactly one ` L x y` segment at the end of the path string |
| DrawingCanvas.CreatePathFromPoints | src/screens/EditorScreen/DrawingCanvas.tsx:89-99 | the loop builds the path string of the points, empty for fewer than two |
| DrawingCanvas.Surface.constructor | src/screens/EditorScreen/DrawingCanvas.tsx:25-26 | no stroke is in progress and none is pending |
| DrawingCanvas.Surface.OnStart | src/screens/EditorScreen/DrawingCanvas.tsx:30-37 | a gesture start begins a stroke of the one sample |
| DrawingCanvas.Surface.OnUpdate | src/screens/EditorScreen/DrawingCanvas.tsx:38-45 | each update appends one sample to the current stroke |
| DrawingCanvas.Surface.AddDrawingLayer | src/screens/EditorScreen/DrawingCanvas.tsx:64-87 | the store and the pending list end as `FlushPending` gives: nothing happens without pending strokes, otherwise one layer is added and the list emptied |
| DrawingCanvas.Surface.OnEnd | src/screens/EditorScreen/DrawingCanvas.tsx:46-62 | the store, the pending strokes and the current stroke end as `EndStroke` gives |
| DrawingPanel.Handle | src/screens/EditorScreen/DrawingPanel.tsx:51-151 | each button sets one setting: a brush button the type, a swatch the colour, the ± buttons size or opacity, and Clear All nothing |
| DrawingPanel.HandleKeepsValid | src/screens/EditorScreen/DrawingPanel.tsx:98-133 | from an even size in 2-50 and an opacity in 10-100 that is a multiple of 10, every press stays in range, and a ± press moves by one step unless at that end already |
| DrawingPanel.BrushTypesListed | src/screens/EditorScreen/DrawingPanel.tsx:23-28 | the brush list has each brush type exactly once |
| DrawingPanel.SizeDown | src/screens/EditorScreen/DrawingPanel.tsx:100 | the − size button gives the larger of size − 2 and 2 |
| DrawingPanel.SizeUp | src/screens/EditorScreen/DrawingPanel.tsx:106 | the + size button gives the smaller of size + 2 and 50 |
| DrawingPanel.OpacityDown | src/screens/EditorScreen/DrawingPanel.tsx:124 | the − opacity button gives the larger of opacity − 10 and 10 |
| DrawingPanel.OpacityUp | src/screens/EditorScreen/DrawingPanel.tsx:130 | the + opacity button gives the smaller of opacity + 10 and 100 |
| DrawingPanel.SizeUpSteps | src/screens/EditorScreen/DrawingPanel.tsx:104-109 | n presses of + give the size plus 2n, capped at 50 |
| DrawingPanel.SizeDownSteps | src/screens/EditorScreen/DrawingPanel.tsx:98-103 | n presses of − give the size minus 2n, floored at 2 |
| EditorScreen.CanvasBrush | src/screens/EditorScreen/index.tsx:104-110 | the drawing canvas receives the screen's brush type, colour, size and opacity unchanged |
| EditorScreen.InitialScreenValid | src/screens/EditorScreen/index.tsx:21-30 | the screen opens with no tool, no canvas drawing, and a white 12-point pen at 100% opacity, which is in range |
| EditorScreen.Step | src/screens/EditorScreen/index.tsx:24-136 | the screen's response to one button press; `ToolChoice`, `BrushOnlyWhileDrawing` and `RunKeepsBrushValid` state its effects |
| EditorScreen.Run | src/screens/EditorScreen/index.tsx:24-136 | a sequence of presses, one `Step` after another, over which `RunKeepsBrushValid` holds |
| EditorScreen.RunKeepsBrushValid | src/screens/EditorScreen/index.tsx:24-136 | whatever is pressed, the brush stays in range, so strokes are 2-50 points wide at 10%-100% opacity |
| EditorScreen.BrushOnlyWhileDrawing | src/screens/EditorScreen/index.tsx:109-136 | the brush changes only through the drawing panel, which is there only while the draw tool is open, and the toolbar alone picks the tool |
| EditorScreen.ToolChoice | src/screens/EditorScreen/index.tsx:109-115 | the drawing canvas is live exactly while the draw tool is open, and pressing a tool twice restores whether it was open |
| EditorScreen.GatedCallsMoveByOne | src/screens/EditorScreen/index.tsx:34-51 | the undo and redo flags agree with the store's own guards: a gated call moves the index by exactly one and a disabled button changes nothing |
| EditorScreen.HandleUndo | src/screens/EditorScreen/index.tsx:41-45 | the store ends in the state of its own undo and keeps its invariant; an enabled undo moves the index down by exactly one, a disabled one changes nothing |
| EditorScreen.HandleRedo | src/screens/EditorScreen/index.tsx:47-51 | the store ends in the state of its own redo and keeps its invariant; an enabled redo moves the index up by exactly one, a disabled one changes nothing |
| Toolbar.ToolsListed | src/screens/EditorScreen/Toolbar.tsx:16-22 | the toolbar has five buttons, one per tool |
| Toolbar.HandleToolPress | src/screens/EditorScreen/Toolbar.tsx:25-31 | `handleToolPress`: closes the open tool, opens any other, as `PressToggles` and `PressTwice` state |
| Toolbar.PressToggles | src/screens/EditorScreen/Toolbar.tsx:25-31 | pressing the open tool closes it, pressing any other opens that one, and no third tool is ever chosen |
| Toolbar.PressTwice | src/screens/EditorScreen/Toolbar.tsx:25-31 | two presses of one tool leave it open if it was open, and closed otherwise |
| TextPanel.NewTextLayer | src/screens/EditorScreen/TextPanel.tsx:44-77 | the added layer holds the trimmed text, the font, size and colour, plain style, and a measured box of 0.6 em per character by 1.2 em, centred on the canvas |
| TextPanel.AddedText | src/screens/EditorScreen/TextPanel.tsx:38-81 | non-blank input appends one selected text layer with the trimmed text, the measured size and a centred box, recorded as `Add text` |
| TextPanel.AddText | src/screens/EditorScreen/TextPanel.tsx:38-81 | `handleAddText` on the editor state: blank input adds nothing, otherwise one text layer, as `AddTextEffect` and `AddedText` state |
| TextPanel.AddTextEffect | src/screens/EditorScreen/TextPanel.tsx:38-81 | blank input (only spaces) adds nothing; otherwise one text layer is added and selected, its box centred on the canvas, with an `Add text` entry |
| TextPanel.MeasuredBoxIsUsed | src/screens/EditorScreen/TextPanel.tsx:45-75 | the renderer and the hit test use the measured box, not the 120 × 40 fallback, for non-empty text at a positive size |
| TextPanel.DecreaseFontSize | src/screens/EditorScreen/TextPanel.tsx:137 | the − button lowers the size by 4, not below 12, and keeps a size in 12-72 in range |
| TextPanel.IncreaseFontSize | src/screens/EditorScreen/TextPanel.tsx:146 | the + button raises the size by 4, not above 72, and keeps a size in 12-72 in range |
| TextPanel.Panel.constructor | src/screens/EditorScreen/TextPanel.tsx:33-36 | empty input, the System font, white, 32 points |
| TextPanel.Panel.SetText | src/screens/EditorScreen/TextPanel.tsx:91-94 | the input holds at most its first 100 characters |
| TextPanel.Panel.SelectFont | src/screens/EditorScreen/TextPanel.tsx:109-117 | a font button selects that font and nothing else |
| TextPanel.Panel.SelectColor | src/screens/EditorScreen/TextPanel.tsx:157-165 | a swatch selects that colour and nothing else |
| TextPanel.Panel.HandleAddText | src/screens/EditorScreen/TextPanel.tsx:38-81 | the store ends as `AddText` gives, and the input is cleared exactly when a layer was added |
| TextPanel.Panel.DecreaseFont | src/screens/EditorScreen/TextPanel.tsx:135-140 | the size becomes `DecreaseFontSize` of the old size and stays in 12-72 |
| TextPanel.Panel.IncreaseFont | src/screens/EditorScreen/TextPanel.tsx:144-149 | the size becomes `IncreaseFontSize` of the old size and stays in 12-72 |
| StickerPanel.NewStickerLayer | src/screens/EditorScreen/StickerPanel.tsx:39-57 | the added layer is a visible, unlocked, opaque sticker layer with the asset's data, its box centred on the canvas |
| StickerPanel.SelectSticker | src/screens/EditorScreen/StickerPanel.tsx:32-58 | `handleStickerSelect` on the editor state: a premium sticker is refused, a free one added, as `SelectStickerEffect` states |
| StickerPanel.SelectStickerEffect | src/screens/EditorScreen/StickerPanel.tsx:32-58 | a premium sticker adds nothing; a free one becomes the selected top layer, centred, with an `Add sticker` entry |
| StickerPanel.CenteredExample | src/screens/EditorScreen/StickerPanel.tsx:40-55 | the heart sticker, 60 × 60, dropped on a 1080 × 1080 canvas lands at (510, 510), unscaled and unrotated |
| StickerPanel.TabsMatchCatalogue | src/screens/EditorScreen/StickerPanel.tsx:19-90 | the tabs are the catalogue's categories, in order, and only the fashion tab, the one with the crown badge, shows premium stickers |
| StickerPanel.Panel.constructor | src/screens/EditorScreen/StickerPanel.tsx:28 | the emoji tab is open |
| StickerPanel.Panel.ShownStickers | src/screens/EditorScreen/StickerPanel.tsx:30 | the grid shows exactly the catalogue entries of the open tab |
| StickerPanel.Panel.SetActiveCategory | src/screens/EditorScreen/StickerPanel.tsx:75 | a tab press opens that tab |
| StickerPanel.Panel.HandleStickerSelect | src/screens/EditorScreen/StickerPanel.tsx:32-58 | the store ends as `SelectSticker` gives |
| StickerService.GetAllStickers | src/services/StickerService.ts:15-349 | the catalogue is the 30 free stickers, then the 5 premium ones |
| StickerService.GetFreeStickers | src/services/StickerService.ts:363-365 | 30 stickers, none premium |
| StickerService.GetPremiumStickers | src/services/StickerService.ts:370-372 | 5 stickers, all premium |
| StickerService.GetStickersByCategory | src/services/StickerService.ts:354-358 | the catalogue filtered by category, characterised by `GetStickersByCategoryMembers` and `StickersByCategoryInOrder` |
| StickerService.GetStickersByCategoryMembers | src/services/StickerService.ts:354-358 | exactly the catalogue entries of that category |
| StickerService.StickersByCategoryInOrder | src/services/StickerService.ts:354-358 | a category's stickers are its pack in catalogue order, and an unknown category has none |
| StickerService.CatalogueSlices | src/services/StickerService.ts:15-341 | the catalogue runs emoji, doodles, shapes, fashion, ten, ten, ten and five entries |
| StickerService.GetAllStickersPremiumIsFashion | src/services/StickerService.ts:15-341 | a sticker is premium exactly when it is in the fashion category |
| StickerService.GetStickerById | src/services/StickerService.ts:377-379 | `find` by id over the catalogue, characterised by `GetStickerByIdFinds` and `FoundById` |
| StickerService.GetStickerByIdFinds | src/services/StickerService.ts:377-379 | the result is a catalogue entry with that id, and it is null exactly when no entry has that id |
| StickerService.DistinctIds | src/services/StickerService.ts:15-341 | no two entries share an id |
| StickerService.FoundById | src/services/StickerService.ts:377-379 | every entry is found by its own id |
| StickerService.Dedup | src/services/StickerService.ts:385-388 | `Array.from(new Set(s))`, characterised by `DedupMembers`, `DedupAbsorbs` and `DedupRun` |
| StickerService.DedupMembers | src/services/StickerService.ts:385-388 | `Array.from(new Set(s))` holds each element of s exactly once and nothing else |
| StickerService.DedupAbsorbs | src/services/StickerService.ts:385-388 | appending elements already seen leaves the distinct list unchanged |
| StickerService.DedupRun | src/services/StickerService.ts:385-388 | a run of one new value adds that value once at the end of the distinct list |
| StickerService.DedupFourRuns | src/services/StickerService.ts:385-388 | four runs of distinct values give those four values in order |
| StickerService.GetCategories | src/services/StickerService.ts:384-389 | each category of the catalogue once, and nothing else |
| StickerService.CategoriesList | src/services/StickerService.ts:384-389 | the categories are emoji, doodles, shapes and fashion, in that order |
| StickerService.CreateStickerLayerData | src/services/StickerService.ts:394-402 | emoji-sourced layer data with the asset's id, emoji, width and height |
| StickerService.IsPremium | src/services/StickerService.ts:407-410 | false for an unknown id, otherwise the asset's premium flag |
| StickerService.IsPremiumOfAsset | src/services/StickerService.ts:407-410 | an entry's id reports that entry's premium flag |
| Text.NatToDecimal | src/stores/editorStore.ts:125 | `Date.now().toString()`: at least one decimal digit, and no leading zero |
| Text.DecimalRoundTrip | src/stores/editorStore.ts:125 | reading the digits back gives the number, so ids made from the clock encode its reading |
| Text.DecimalInjective | src/screens/EditorScreen/TextPanel.tsx:51 | two different clock readings give two different id strings |
| Text.TrimStart | src/screens/EditorScreen/TextPanel.tsx:39 | the white space at the start is dropped, and only that: the result is a suffix that does not start with white space |
| Text.TrimEnd | src/screens/EditorScreen/TextPanel.tsx:39 | the white space at the end is dropped, and only that: the result is a prefix that does not end with white space |
| Text.Trim | src/screens/EditorScreen/TextPanel.tsx:39-64 | `trim()` gives an infix of the input that neither starts nor ends with white space, and everything it drops before and after that infix is white space |
| Text.TrimEmptyIffAllSpace | src/screens/EditorScreen/TextPanel.tsx:39 | the trimmed text is empty exactly when every character is white space |
| Text.ToLower | src/services/ProjectService.ts:202-205 | `toLowerCase()` maps each character on its own, lowering only A to Z |

## Where the model follows the code

Several behaviours of the code differ from what its comments, names or documentation suggest. The
model does what the code does, and the lemmas named below state it.

- Undo after the very first commit from an empty history does nothing, because index 0 is the floor
  of `undo` (`EditorActions.FirstCommitNotUndoable`). Commit-then-undo gives back the earlier view
  only from a state whose latest snapshot already shows it (`EditorActions.UndoAfterCommitRestoresView`).
- Each snapshot embeds the history as it was when the snapshot was made. Undo restores that shorter
  history, so redo is disabled straight after an undo that follows two or more fresh commits
  (`EditorActions.UndoStrandsRedo`).
- Pressing the same toolbar button twice does not always close the panel. A panel that was open
  is closed and then opened again (`Toolbar.PressTwice`).
- Loading a project restores only its layers. The saved filters, adjustments, canvas size, zoom
  and pan are not restored; they stay at the initial values (`HomeScreen.LoadEffect`).
- The export ignores the filter list and the requested width and height. The exported picture
  depends only on the visible layers (`ExportService.RenderIgnoresFiltersAndHidden`).
- Export progress is non-decreasing only when at most 8 layers are visible. The render reports 0.1
  before the first layer and then (1/n) · 0.8 after it, which falls below 0.1 once n > 8
  (`ExportService.CallbacksMonotoneIff`).
- When the write or the save to the photo library fails, the temporary file is not deleted. A
  failing delete turns an export whose picture is already in the library into a failure
  (`ExportService.SaveRun`).
- A placeholder's paint receives `setAlphaf(opacity)` and then `setColor`. The model records both
  calls in that order and does not decide how Skia combines them.
- Filter intensity is passed to the shader without clamping (`FilterService.Service.ApplyFilter`).
- Five free entries of the filter carousel have no shader: natural, portrait, food, sunset and
  pastel. Selecting one records a filter that the shader lookup cannot find.
- With a zoom of 0, a touch point cannot be mapped to the canvas and no layer is hit. A drag move
  divides by 1 instead (`CanvasGestures.ConvertToCanvasCoords`, `CanvasGestures.DragFollowsFinger`).
- A drag end leaves a dragged id of `""` in place, because `""` is falsy in JavaScript. It then
  counts as no drag (`CanvasGestures.DragEnd`).

## Left out

- React rendering and styling, the gesture detectors' composition (`Gesture.Simultaneous`, the
  `GestureDetector` wiring, Canvas.tsx:108-283), and shared-value animation are left out. Only the
  handlers and the values they compute are modelled.
- The screens outside the editor core are left out: Settings, the store screen, the splash screens
  apart from `adjustBrightness`, `ExportModal`, and navigation. Navigation calls such as
  `navigation.goBack` and `navigate('Editor')` are left out too.
- The particle physics of PhysicsAnimation.tsx:99-167 is left out. It is frame callbacks with float
  integration and `Math.random`.
- Skia is not modelled beyond the calls the code makes: surfaces, image decoding, `RuntimeEffect`
  compilation, encoding and rasterisation. Their outcomes are parameters (`FetchOutcome`,
  `CompileOutcome`, `surfaceMade`, the export environment). In ImageService and FilterService a
  snapshot is modelled as the draw call that produced it. The export's snapshot is
  `rasterise(canvasSize, commands)`, a parameter applied to the commands issued on the canvas.
- `StickerService.createEmojiParagraph` (StickerService.ts:415-447) is left out. It is Skia
  paragraph layout, and nothing in the repository calls it.
- `createFilterThumbnail` (useFilterEngine.ts:100-121) is left out. It calls a
  `FilterService.createFilterThumbnail` that FilterService.ts does not define.
- The shader bodies' float arithmetic is left out beyond the `mix(orig, effect, intensity)` shape
  over reals and the black-and-white luma.
- Storage is left out as a medium: MMKV is an abstract map from keys to project values, and JSON
  stringify and parse are the identity. The file-system and library I/O of export is a list of
  operations. Each call's outcome is a parameter: an optional thrown error for the write and the
  delete, and the uri or an error for the library save.
- ExportService.SaveRun, ExportService.SaveToLibrary and ExportService.ExportSucceeds: the model
  takes the value `MediaLibrary.saveToLibraryAsync` resolves to as an object carrying the saved
  asset's `uri`, which ExportService.ts:295 returns. The library's own declaration of that call is
  not part of this model. If the call resolves to nothing, line 295 throws a `TypeError` after the
  save and the delete, and no export succeeds. The model does not represent that outcome.
- `ProjectService.getStorageStats` is left out. It measures serialized string lengths, which the
  model does not represent.
- The I/O failure paths of `saveProject`, and the `try`/`catch` blocks of the home screen that only
  log, are left out.
- The alerts are left out. The text panel's `Enter Text` alert is not modelled; blank input simply
  adds nothing. The home screen's not-found alert is the `notFound` flag of `HomeScreen.Home.LoadProject`.
- The image picker is `PickOutcome`. A pick without an asset is folded into "cancelled", and
  `toLocaleDateString` becomes the `dateText` parameter.
- Clock readings and random id suffixes are parameters. Where the code reads `Date.now()` twice
  for one record, one reading stands for both.
- HomeScreen.Replay, HomeScreen.Load, HomeScreen.Home.LoadProject, AdjustmentPanel.UpdateAll,
  AdjustmentPanel.PresetPress and AdjustmentPanel.Panel.HandlePresetPress take one clock reading
  for the whole `forEach`. The code reads `Date.now()` again in each `addHistoryState`
  (editorStore.ts:125-126). So the model cannot represent a replay or a preset whose history
  entries carry different ids or timestamps. Only the ids and timestamps are affected: labels,
  snapshots and the order of the entries are as the code makes them.
- DrawingCanvas.EndStroke: the gesture's `onEnd` schedules `addDrawingLayer` with `runOnJS`
  (DrawingCanvas.tsx:59). The model runs the scheduled call at once, inside the same gesture end.
  `DrawingCanvas.EndStrokeEffect`, `DrawingCanvas.Surface.OnEnd` and
  `DrawingCanvas.OneLayerPerStroke` hold under that reading. Under it, every finished stroke
  becomes a drawing layer of its own. A second stroke that ends before the JavaScript thread has
  run the call is not modelled.
- DrawingCanvas.EndStroke, DrawingCanvas.Surface.OnEnd and DrawingCanvas.OneLayerPerStroke: the
  pan gesture is not switched to the JavaScript thread (Canvas.tsx:252 does that with
  `.runOnJS(true)`; DrawingCanvas.tsx does not). So `onEnd` may run as a UI-thread worklet on its
  own copy of `strokesRef`, and its `push` (DrawingCanvas.tsx:58) need not reach the ref that
  `addDrawingLayer` reads (DrawingCanvas.tsx:65). In that case `addDrawingLayer` returns at its
  empty check and no drawing layer is ever added. The model assumes one shared `strokesRef`: the
  push made in `onEnd` is seen by `addDrawingLayer`. The worklet's copy is not modelled.
- ExportService.Loader: during export, image loading is a pure function of the path. The export
  calls `ImageService.loadImage` (ExportService.ts:182), which fills ImageService's cache. That
  effect on the cache is not modelled, and two layers with the same path always get the same
  answer.
- Hit testing does not take a layer's rotation into account, and neither does the source.
- CanvasGestures.Gestures: the pan and pinch handlers read the dragging flag at the time they are
  called. The source reads it when the gesture was last built.
- DrawingCanvas.Surface: the handlers do not check `enabled(isActive)`. Whether the drawing gesture
  is live is `EditorScreen.CanvasActive`, and `EditorScreen.ToolChoice` states when it is.
- The inputs of the image geometry must have positive sides (`ImageService.HasArea`). `Infinity`
  and `NaN` are not modelled, nor is a `NaN` limit passed to `getRecentProjects`.
- ProjectService.SortRecentCorrect: proves the sort newest-first and a permutation, but not that it
  is stable for equal modification times.
- PhysicsAnimation.Bits: `parseInt` is exact over unbounded integers. Loss of precision beyond
  2^53 is not modelled, and only ASCII white space is skipped.
- Strings are sequences of characters: `trim` skips ASCII white space only, and `toLowerCase`
  lowers A to Z only. `length` counts characters here, where JavaScript counts UTF-16 code units.
  So a text with characters outside the Basic Multilingual Plane measures narrower in the model
  (`TextPanel.NewTextLayer`, width `length * fontSize * 0.6`), and `TextPanel.Panel.SetText`
  keeps up to 100 such characters where `maxLength={100}` keeps up to 100 code units.
- A layer's `type` is derived from its `data`, so an update that changes `type` without `data`
  cannot be written.
- The emoji strings of the sticker catalogue are written as the Unicode code points of the named emoji.
- The history caps of `EDITOR_CONSTRAINTS` are not modelled; no code shown enforces them.
- Optional fields that no modelled code reads are dropped from the data model:
  `StickerLayerData.image` and `tint` (editor.types.ts:26-27); `HistoryState.thumbnail`
  (editor.types.ts:130), which editorStore.ts never sets; `TextLayerData.background`,
  `shadow`, `outline`, `padding`, `borderRadius`, `curved`, `curveRadius` and `curveAngle`
  (editor.types.ts:43-65); and `AppliedFilter.shader` and `uniforms` (editor.types.ts:102-103).
  The code that creates layers, filters and history entries never sets them, so dropping them
  loses no state the model makes.
