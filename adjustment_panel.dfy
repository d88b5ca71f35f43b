/** The adjustments panel: the ten slider channels with their ranges, the ± steps clamped to a
    channel's range, the presets (a sequence of `updateAdjustment` writes, or a full reset) and the
    per-channel × button. */
module AdjustmentPanel {
  import opened Wrappers
  import opened EditorTypes
  import opened Seqs
  import opened Numbers
  import A = EditorActions
  import EditorStore

  /** One slider row: the channel it edits and its range. */
  datatype Control = Control(key: AdjustmentKey, title: string, min: real, max: real)

  /** `ADJUSTMENTS`, in display order. */
  const ADJUSTMENTS: seq<Control> := [
    Control(Brightness, "Brightness", -100.0, 100.0),
    Control(Contrast, "Contrast", -100.0, 100.0),
    Control(Saturation, "Saturation", -100.0, 100.0),
    Control(Temperature, "Temperature", -100.0, 100.0),
    Control(Tint, "Tint", -100.0, 100.0),
    Control(Exposure, "Exposure", -200.0, 200.0),
    Control(Highlights, "Highlights", -100.0, 100.0),
    Control(Shadows, "Shadows", -100.0, 100.0),
    Control(Sharpness, "Sharpness", 0.0, 100.0),
    Control(Vibrance, "Vibrance", -100.0, 100.0)
  ]

  function KeyIs(key: AdjustmentKey): Control -> bool {
    (c: Control) => c.key == key
  }

  /** `ADJUSTMENTS.find(adj => adj.key === key)` */
  function FindControl(key: AdjustmentKey): Option<Control> {
    Find(ADJUSTMENTS, KeyIs(key))
  }

  /** The range each channel's slider allows, or None for the channels without a slider. */
  function ExpectedRange(key: AdjustmentKey): Option<(real, real)> {
    match key
    case Exposure => Some((-200.0, 200.0))
    case Sharpness => Some((0.0, 100.0))
    case Whites => None
    case Blacks => None
    case Clarity => None
    case Grain => None
    case Vignette => None
    case _ => Some((-100.0, 100.0))
  }

  /** Every row's range is the one `ExpectedRange` gives its channel. */
  lemma TableRanges()
    ensures forall i | 0 <= i < |ADJUSTMENTS| ::
      ExpectedRange(ADJUSTMENTS[i].key) == Some((ADJUSTMENTS[i].min, ADJUSTMENTS[i].max))
  {
  }

  /** The index of each slider channel's row. */
  function RowOf(key: AdjustmentKey): nat {
    match key
    case Brightness => 0
    case Contrast => 1
    case Saturation => 2
    case Temperature => 3
    case Tint => 4
    case Exposure => 5
    case Highlights => 6
    case Shadows => 7
    case Sharpness => 8
    case Vibrance => 9
    case _ => 10
  }

  lemma RowsListed(key: AdjustmentKey)
    requires ExpectedRange(key).Some?
    ensures RowOf(key) < |ADJUSTMENTS| && ADJUSTMENTS[RowOf(key)].key == key
  {
  }

  /** Exposure ranges over [−200, 200], sharpness over [0, 100], the other slider channels over
      [−100, 100], and whites, blacks, clarity, grain and vignette have no slider. */
  lemma ControlRanges(key: AdjustmentKey)
    ensures FindControl(key).None? <==> ExpectedRange(key).None?
    ensures FindControl(key).Some? ==>
      FindControl(key).value.key == key
      && (FindControl(key).value.min, FindControl(key).value.max) == ExpectedRange(key).value
  {
    TableRanges();
    if ExpectedRange(key).Some? {
      RowsListed(key);
      assert KeyIs(key)(ADJUSTMENTS[RowOf(key)]);
    }
    var r := FindControl(key);
    if r.Some? {
      assert r.value in ADJUSTMENTS && r.value.key == key;
      var i :| 0 <= i < |ADJUSTMENTS| && ADJUSTMENTS[i] == r.value;
    }
  }

  /** The value `handleValueChange(key, delta)` writes: the channel's value moved by `delta` and
      clamped to its row's range, or None for a channel without a row. */
  function SteppedValue(current: Adjustment, key: AdjustmentKey, delta: real): Option<real> {
    match FindControl(key)
    case None => None
    case Some(c) => Some(Clamp(current.Get(key) + delta, c.min, c.max))
  }

  /** `handleValueChange(key, delta)`: the stepped value is written through `updateAdjustment`; a
      channel without a slider is left alone. */
  function ValueChange(s: EditorState, key: AdjustmentKey, delta: real, now: nat): EditorState {
    match SteppedValue(s.adjustments, key, delta)
    case None => s
    case Some(v) => A.UpdateAdjustment(s, key, v, now)
  }

  /** A step on a slider channel stores the clamped sum for that channel only, with one history
      entry; a step on a channel without a slider changes nothing. */
  lemma ValueChangeClamps(s: EditorState, key: AdjustmentKey, delta: real, now: nat)
    ensures ExpectedRange(key).None? ==> ValueChange(s, key, delta, now) == s
    ensures ExpectedRange(key).Some? ==>
      var r := ValueChange(s, key, delta, now); var (lo, hi) := ExpectedRange(key).value;
      lo <= r.adjustments.Get(key) <= hi
      && (lo <= s.adjustments.Get(key) + delta <= hi ==> r.adjustments.Get(key) == s.adjustments.Get(key) + delta)
      && (forall k: AdjustmentKey | k != key :: r.adjustments.Get(k) == s.adjustments.Get(k))
      && |r.history| >= 1 && r.history[|r.history| - 1].action == A.AdjustLabel(key)
  {
    ControlRanges(key);
  }

  /** A preset: its name and the writes it makes, in `Object.entries` order. */
  datatype Preset = Preset(name: string, values: seq<(AdjustmentKey, real)>)

  const PRESETS: seq<Preset> := [
    Preset("Auto", [(Brightness, 10.0), (Contrast, 15.0), (Saturation, 10.0)]),
    Preset("Portrait", [(Brightness, 5.0), (Contrast, 10.0), (Sharpness, 20.0)]),
    Preset("Vivid", [(Saturation, 30.0), (Vibrance, 25.0), (Contrast, 20.0)]),
    Preset("Reset", [])
  ]

  /** The `updateAdjustment` calls of a preset, one after another. */
  function UpdateAll(s: EditorState, values: seq<(AdjustmentKey, real)>, now: nat): EditorState
    decreases |values|
  {
    if values == [] then s
    else
      var last := values[|values| - 1];
      A.UpdateAdjustment(UpdateAll(s, values[..|values| - 1], now), last.0, last.1, now)
  }

  /** The first `i + 1` writes are the first `i` followed by write `i`. */
  lemma UpdateAllSnoc(s: EditorState, values: seq<(AdjustmentKey, real)>, i: nat, now: nat)
    requires i < |values|
    ensures UpdateAll(s, values[..i + 1], now) == A.UpdateAdjustment(UpdateAll(s, values[..i], now), values[i].0, values[i].1, now)
  {
    assert values[..i + 1][..i] == values[..i];
  }

  /** The value the last write to `key` in `values` gives it, if any. */
  function Lookup(values: seq<(AdjustmentKey, real)>, key: AdjustmentKey): Option<real>
    decreases |values|
  {
    if values == [] then None
    else if values[|values| - 1].0 == key then Some(values[|values| - 1].1)
    else Lookup(values[..|values| - 1], key)
  }

  /** A channel the writes never name has no looked-up value. */
  lemma {:induction false} LookupAbsent(values: seq<(AdjustmentKey, real)>, key: AdjustmentKey)
    requires forall i | 0 <= i < |values| :: values[i].0 != key
    ensures Lookup(values, key) == None
    decreases |values|
  {
    if values != [] {
      var init := values[..|values| - 1];
      assert forall i | 0 <= i < |init| :: init[i] == values[i];
      LookupAbsent(init, key);
    }
  }

  /** `handlePresetPress(preset)` */
  function PresetPress(s: EditorState, preset: Preset, now: nat): EditorState {
    if preset.name == "Reset" then A.ResetAdjustments(s) else UpdateAll(s, preset.values, now)
  }

  /** A run of writes sets each listed channel to its last listed value and leaves the rest. */
  lemma {:induction false} UpdateAllChannels(s: EditorState, values: seq<(AdjustmentKey, real)>, now: nat, k: AdjustmentKey)
    ensures UpdateAll(s, values, now).adjustments.Get(k) == Lookup(values, k).GetOr(s.adjustments.Get(k))
    decreases |values|
  {
    if values != [] {
      var init := values[..|values| - 1];
      var last := values[|values| - 1];
      var m := UpdateAll(s, init, now);
      UpdateAllChannels(s, init, now, k);
      ChannelStep(s.adjustments, values, k, m.adjustments, UpdateAll(s, values, now).adjustments);
    }
  }

  /** A channel no write of the run names keeps its value. */
  lemma UpdateAllKeepsUnnamed(s: EditorState, values: seq<(AdjustmentKey, real)>, now: nat, k: AdjustmentKey)
    requires forall i | 0 <= i < |values| :: values[i].0 != k
    ensures UpdateAll(s, values, now).adjustments.Get(k) == s.adjustments.Get(k)
  {
    UpdateAllChannels(s, values, now, k);
    LookupAbsent(values, k);
  }

  /** One more write of a run, given the channels after the writes before it. */
  lemma ChannelStep(base: Adjustment, values: seq<(AdjustmentKey, real)>, k: AdjustmentKey, before: Adjustment, after: Adjustment)
    requires values != []
    requires before.Get(k) == Lookup(values[..|values| - 1], k).GetOr(base.Get(k))
    requires after == before.With(values[|values| - 1].0, values[|values| - 1].1)
    ensures after.Get(k) == Lookup(values, k).GetOr(base.Get(k))
  {
  }

  /** A run of writes leaves the layers, the selection and the filters as they were. */
  lemma {:induction false} UpdateAllKeepsLayers(s: EditorState, values: seq<(AdjustmentKey, real)>, now: nat)
    ensures var r := UpdateAll(s, values, now);
      r.layers == s.layers && r.activeLayerId == s.activeLayerId && r.filters == s.filters
    decreases |values|
  {
    if values != [] {
      UpdateAllKeepsLayers(s, values[..|values| - 1], now);
    }
  }

  /** The last write of a run commits on top of the state the writes before it left. */
  lemma UpdateAllStep(s: EditorState, values: seq<(AdjustmentKey, real)>, now: nat)
    requires values != []
    ensures var m := UpdateAll(s, values[..|values| - 1], now); var r := UpdateAll(s, values, now);
      |r.history| >= 1 && r.historyIndex == |r.history| - 1
      && r.history[..|r.history| - 1] == Prefix(m.history, m.historyIndex + 1)
      && r.history[|r.history| - 1].action == A.AdjustLabel(values[|values| - 1].0)
  {
    var last := values[|values| - 1];
    CommitOn(UpdateAll(s, values[..|values| - 1], now), last.0, last.1, now);
  }

  /** The history facts of one `updateAdjustment` commit. */
  lemma CommitOn(m: EditorState, key: AdjustmentKey, value: real, now: nat)
    ensures var r := A.UpdateAdjustment(m, key, value, now);
      |r.history| >= 1 && r.historyIndex == |r.history| - 1
      && r.history[..|r.history| - 1] == Prefix(m.history, m.historyIndex + 1)
      && r.history[|r.history| - 1].action == A.AdjustLabel(key)
  {
  }

  /** The history a run of writes leaves behind on a history `sh` with index `idx`: nothing new for
      no writes; otherwise what `history.slice(0, idx + 1)` keeps (the whole history when the index
      has been left at its length by an undo), then one entry per write labelled with its channel,
      in order, with the index at the last. */
  ghost predicate Committed(sh: seq<HistoryState>, idx: int, h: seq<HistoryState>, index: int,
                            values: seq<(AdjustmentKey, real)>)
  {
    if values == [] then h == sh && index == idx
    else
      var kept := Prefix(sh, idx + 1);
      |h| == |kept| + |values| && index == |h| - 1
      && h[..|kept|] == kept
      && forall j | 0 <= j < |values| :: h[|kept| + j].action == A.AdjustLabel(values[j].0)
  }

  /** The first write of a run keeps the history up to the index and puts its entry after it. */
  lemma CommitFirst(sh: seq<HistoryState>, idx: int, rh: seq<HistoryState>, ri: int, values: seq<(AdjustmentKey, real)>)
    requires |values| == 1
    requires |rh| >= 1 && ri == |rh| - 1 && rh[..|rh| - 1] == Prefix(sh, idx + 1)
    requires rh[|rh| - 1].action == A.AdjustLabel(values[0].0)
    ensures Committed(sh, idx, rh, ri, values)
  {
  }

  /** A later write of a run keeps what the writes before it committed and adds its entry. */
  lemma CommitNext(sh: seq<HistoryState>, idx: int, mh: seq<HistoryState>, mi: int, rh: seq<HistoryState>, ri: int,
                   values: seq<(AdjustmentKey, real)>)
    requires |values| >= 2
    requires Committed(sh, idx, mh, mi, values[..|values| - 1])
    requires |rh| >= 1 && ri == |rh| - 1 && rh[..|rh| - 1] == Prefix(mh, mi + 1)
    requires rh[|rh| - 1].action == A.AdjustLabel(values[|values| - 1].0)
    ensures Committed(sh, idx, rh, ri, values)
  {
    var kept := Prefix(sh, idx + 1);
    assert rh[..|rh| - 1] == mh;
    PrefixOfPrefix(rh, |rh| - 1, |kept|);
    KeptLabels(mh, rh, |kept|, values, values[..|values| - 1]);
  }

  /** Entries kept from `mh` keep their labels, and the new last entry carries the last write's. */
  lemma KeptLabels(mh: seq<HistoryState>, rh: seq<HistoryState>, base: nat, values: seq<(AdjustmentKey, real)>,
                   init: seq<(AdjustmentKey, real)>)
    requires |values| >= 1 && init == values[..|values| - 1] && |rh| == base + |values| && rh[..|rh| - 1] == mh
    requires forall j | 0 <= j < |init| :: mh[base + j].action == A.AdjustLabel(init[j].0)
    requires rh[|rh| - 1].action == A.AdjustLabel(values[|values| - 1].0)
    ensures forall j | 0 <= j < |values| :: rh[base + j].action == A.AdjustLabel(values[j].0)
  {
    forall j | 0 <= j < |values|
      ensures rh[base + j].action == A.AdjustLabel(values[j].0)
    {
      if j < |values| - 1 {
        assert rh[base + j] == mh[base + j] && init[j] == values[j];
      }
    }
  }

  /** A run of writes commits one history entry per write, labelled with its channel, on top of the
      history kept below the index, and leaves the index at the last. */
  lemma {:induction false} UpdateAllHistory(s: EditorState, values: seq<(AdjustmentKey, real)>, now: nat)
    ensures var r := UpdateAll(s, values, now); Committed(s.history, s.historyIndex, r.history, r.historyIndex, values)
    decreases |values|
  {
    if values != [] {
      var init := values[..|values| - 1];
      UpdateAllHistory(s, init, now);
      UpdateAllStep(s, values, now);
      var m := UpdateAll(s, init, now);
      var r := UpdateAll(s, values, now);
      CommitStep(s.history, s.historyIndex, m.history, m.historyIndex, r.history, r.historyIndex, values);
    }
  }

  /** A run of n > 0 writes leaves the kept history plus n entries. */
  lemma UpdateAllLength(s: EditorState, values: seq<(AdjustmentKey, real)>, now: nat)
    requires values != []
    ensures |UpdateAll(s, values, now).history| == |Prefix(s.history, s.historyIndex + 1)| + |values|
  {
    UpdateAllHistory(s, values, now);
  }

  /** One more write of a run, whether it is the first or a later one. */
  lemma CommitStep(sh: seq<HistoryState>, idx: int, mh: seq<HistoryState>, mi: int, rh: seq<HistoryState>, ri: int,
                   values: seq<(AdjustmentKey, real)>)
    requires values != []
    requires Committed(sh, idx, mh, mi, values[..|values| - 1])
    requires |rh| >= 1 && ri == |rh| - 1 && rh[..|rh| - 1] == Prefix(mh, mi + 1)
    requires rh[|rh| - 1].action == A.AdjustLabel(values[|values| - 1].0)
    ensures Committed(sh, idx, rh, ri, values)
  {
    if |values| == 1 {
      assert values[..|values| - 1] == [];
      CommitFirst(sh, idx, rh, ri, values);
    } else {
      CommitNext(sh, idx, mh, mi, rh, ri, values);
    }
  }

  /** The Reset preset zeroes every channel and adds no history entry. */
  lemma ResetPresetZeroes(s: EditorState, now: nat)
    ensures var r := PresetPress(s, PRESETS[3], now);
      (forall k: AdjustmentKey :: r.adjustments.Get(k) == 0.0) && r.history == s.history
  {
  }

  /** Auto raises brightness to 10, contrast to 15 and saturation to 10, touches nothing else and
      adds three history entries after the kept ones: after the index, or after the whole history
      when an undo has left the index at its length. */
  lemma AutoPreset(s: EditorState, now: nat)
    ensures var r := PresetPress(s, PRESETS[0], now);
      r.adjustments.brightness == 10.0 && r.adjustments.contrast == 15.0 && r.adjustments.saturation == 10.0
      && (forall k: AdjustmentKey | k != Brightness && k != Contrast && k != Saturation ::
            r.adjustments.Get(k) == s.adjustments.Get(k))
      && |r.history| == |Prefix(s.history, s.historyIndex + 1)| + 3
    ensures -1 <= s.historyIndex < |s.history| ==> |PresetPress(s, PRESETS[0], now).history| == s.historyIndex + 4
    ensures s.historyIndex == |s.history| ==> |PresetPress(s, PRESETS[0], now).history| == |s.history| + 3
  {
    assert PRESETS[0].name == "Auto";
    ThreeWrites(s, PRESETS[0].values, now);
  }

  /** Three writes to three different channels set exactly those channels and commit three entries. */
  lemma ThreeWrites(s: EditorState, values: seq<(AdjustmentKey, real)>, now: nat)
    requires |values| == 3 && values[0].0 != values[1].0 && values[0].0 != values[2].0 && values[1].0 != values[2].0
    ensures var r := UpdateAll(s, values, now);
      r.adjustments.Get(values[0].0) == values[0].1 && r.adjustments.Get(values[1].0) == values[1].1
      && r.adjustments.Get(values[2].0) == values[2].1
      && (forall k: AdjustmentKey | k != values[0].0 && k != values[1].0 && k != values[2].0 ::
            r.adjustments.Get(k) == s.adjustments.Get(k))
      && |r.history| == |Prefix(s.history, s.historyIndex + 1)| + 3
  {
    ThreeLookups(values);
    forall k: AdjustmentKey
      ensures UpdateAll(s, values, now).adjustments.Get(k) == Lookup(values, k).GetOr(s.adjustments.Get(k))
    {
      UpdateAllChannels(s, values, now, k);
    }
    UpdateAllLength(s, values, now);
  }

  /** Of three writes to different channels, each is its channel's last, and no other channel has one. */
  lemma ThreeLookups(values: seq<(AdjustmentKey, real)>)
    requires |values| == 3 && values[0].0 != values[1].0 && values[0].0 != values[2].0 && values[1].0 != values[2].0
    ensures Lookup(values, values[0].0) == Some(values[0].1)
    ensures Lookup(values, values[1].0) == Some(values[1].1)
    ensures Lookup(values, values[2].0) == Some(values[2].1)
    ensures forall k: AdjustmentKey | k != values[0].0 && k != values[1].0 && k != values[2].0 :: Lookup(values, k) == None
  {
    LookupHit1(values);
    LookupHit2(values);
    forall k: AdjustmentKey | k != values[0].0 && k != values[1].0 && k != values[2].0
      ensures Lookup(values, k) == None
    {
      forall i | 0 <= i < |values|
        ensures values[i].0 != k
      {
        assert i == 0 || i == 1 || i == 2;
      }
      LookupAbsent(values, k);
    }
  }

  /** The middle of three writes to different channels is that channel's last. */
  lemma LookupHit2(values: seq<(AdjustmentKey, real)>)
    requires |values| == 3 && values[0].0 != values[2].0 && values[1].0 != values[2].0 && values[0].0 != values[1].0
    ensures Lookup(values, values[1].0) == Some(values[1].1)
  {
    var two := values[..2];
    assert two[1] == values[1];
    LookupSkip(values, values[1].0);
  }

  /** The first of three writes to different channels is that channel's last. */
  lemma LookupHit1(values: seq<(AdjustmentKey, real)>)
    requires |values| == 3 && values[0].0 != values[2].0 && values[1].0 != values[2].0 && values[0].0 != values[1].0
    ensures Lookup(values, values[0].0) == Some(values[0].1)
  {
    var two := values[..2];
    var one := two[..1];
    assert two[1] == values[1] && one[0] == values[0];
    LookupSkip(values, values[0].0);
    LookupSkip(two, values[0].0);
  }

  /** A last write to another channel does not decide a channel's lookup. */
  lemma LookupSkip(values: seq<(AdjustmentKey, real)>, key: AdjustmentKey)
    requires values != [] && values[|values| - 1].0 != key
    ensures Lookup(values, key) == Lookup(values[..|values| - 1], key)
  {
  }

  /** The panel component: which row is expanded, over the store it writes. */
  class Panel {
    var activeAdjustment: Option<AdjustmentKey>
    const store: EditorStore.Store

    constructor(store: EditorStore.Store)
      ensures this.store == store && activeAdjustment.None?
    {
      this.store := store;
      activeAdjustment := None;
    }

    /** `handleAdjustmentPress`: pressing the expanded row collapses it. */
    method HandleAdjustmentPress(key: AdjustmentKey)
      modifies this
      ensures activeAdjustment == (if old(activeAdjustment) == Some(key) then None else Some(key))
    {
      activeAdjustment := if activeAdjustment == Some(key) then None else Some(key);
    }

    method HandleValueChange(key: AdjustmentKey, delta: real, now: nat)
      requires store.Valid()
      modifies store
      ensures store.Valid()
      ensures store.State() == ValueChange(old(store.State()), key, delta, now)
    {
      ghost var s0 := store.State();
      var newValue := SteppedValue(store.adjustments, key, delta);
      assert newValue == SteppedValue(s0.adjustments, key, delta);
      if newValue.Some? {
        store.UpdateAdjustment(key, newValue.value, now);
      }
    }

    /** `handlePresetPress`, every write at clock reading `now`. */
    method HandlePresetPress(preset: Preset, now: nat)
      requires store.Valid()
      modifies store
      ensures store.Valid()
      ensures store.State() == PresetPress(old(store.State()), preset, now)
    {
      if preset.name == "Reset" {
        store.ResetAdjustments();
      } else {
        ghost var s0 := store.State();
        var values := preset.values;
        for i := 0 to |values|
          invariant store.State() == UpdateAll(s0, values[..i], now)
          invariant store.Valid()
        {
          UpdateAllSnoc(s0, values, i, now);
          store.UpdateAdjustment(values[i].0, values[i].1, now);
        }
        assert values[..|values|] == values;
      }
    }

    /** The × button of a row: that channel back to 0. */
    method ClearChannel(key: AdjustmentKey, now: nat)
      requires store.Valid()
      modifies store
      ensures store.Valid()
      ensures store.State() == A.UpdateAdjustment(old(store.State()), key, 0.0, now)
    {
      store.UpdateAdjustment(key, 0.0, now);
    }
  }
}
