/** The property resolver: from a lifecycle event (and the auto-save flag) to the
    record the button should show (extension/ui/bg/ui-button.js, getProperties and
    the onInitialize/onError/onCancelled/onEnd/onProgress record builders). */
module Resolver {
  import opened ButtonTypes
  import opened Decimal

  const DEFAULT_ICON_PATH: string := "/extension/ui/resources/icon_16.png"
  const WAIT_ICON_PATH_PREFIX: string := "/extension/ui/resources/icon_16_wait"
  const DEFAULT_COLOR: Color := [2, 147, 20, 255]
  /** Auto-save colour unless the caller passes another. */
  const AUTO_SAVE_COLOR: Color := [208, 208, 208, 255]
  /** Auto-save colour passed by onProgress. */
  const PROGRESS_AUTO_SAVE_COLOR: Color := [128, 128, 128, 255]
  const SUCCESS_COLOR: Color := [4, 229, 36, 255]
  const ERROR_COLOR: Color := [229, 4, 12, 255]

  /** The optional arguments of getProperties after `tabId` and `options`;
      `None` is an argument that is not passed (or is undefined). */
  datatype Args = Args(
    text: Option<string>,
    color: Option<Color>,
    title: Option<string>,
    path: Option<string>,
    progress: Option<int>,
    barProgress: Option<int>,
    autoColor: Option<Color>)

  const NO_ARGS: Args := Args(None, None, None, None, None, None, None)

  /** The record shown while auto-save is active. */
  function AutoSaveState(cat: Catalog, autoColor: Color): VisualState
  {
    VisualState(cat.autoSaveActiveBadge, autoColor, cat.autoSaveActiveTooltip, DEFAULT_ICON_PATH, -1, -1)
  }

  /** The record shown when nothing is known: no badge, default colour,
      tooltip and icon, no progress. */
  function DefaultState(cat: Catalog): VisualState
  {
    VisualState("", DEFAULT_COLOR, cat.defaultTooltip, DEFAULT_ICON_PATH, -1, -1)
  }

  /** The animated icon frame for a bar position. */
  function WaitIcon(frame: int): string
  {
    WAIT_ICON_PATH_PREFIX + IntToString(frame) + ".png"
  }

  /** getProperties: the auto-save flag decides every field; otherwise each
      argument that is absent takes its default. */
  function GetProperties(cat: Catalog, autoSave: bool, a: Args): (r: VisualState)
    ensures autoSave ==> r == AutoSaveState(cat, Or(a.autoColor, AUTO_SAVE_COLOR))
    ensures !autoSave ==> r.text == Or(a.text, "") && r.color == Or(a.color, DEFAULT_COLOR)
    ensures !autoSave ==> r.title == Or(a.title, cat.defaultTooltip) && r.path == Or(a.path, DEFAULT_ICON_PATH)
    ensures !autoSave ==> r.progress == Or(a.progress, -1) && r.barProgress == Or(a.barProgress, -1)
    ensures !autoSave && a == NO_ARGS ==> r == DefaultState(cat)
  {
    var autoColor := Or(a.autoColor, AUTO_SAVE_COLOR);
    VisualState(
      text := if autoSave then cat.autoSaveActiveBadge else (if a.text.Some? && a.text.value != "" then a.text.value else ""),
      color := if autoSave then autoColor else (if a.color.Some? then a.color.value else DEFAULT_COLOR),
      title := if autoSave then cat.autoSaveActiveTooltip else Or(a.title, cat.defaultTooltip),
      path := if autoSave then DEFAULT_ICON_PATH else Or(a.path, DEFAULT_ICON_PATH),
      progress := if autoSave then -1 else Or(a.progress, -1),
      barProgress := if autoSave then -1 else Or(a.barProgress, -1))
  }

  /** Under auto-save the lifecycle arguments are ignored: two calls that agree on
      the auto-save colour give the same record. */
  lemma AutoSaveIgnoresArguments(cat: Catalog, a: Args, b: Args)
    requires a.autoColor == b.autoColor
    ensures GetProperties(cat, true, a) == GetProperties(cat, true, b)
  {
  }

  // ---------------------------------------------------------------- quantisation

  lemma FloorDivBounds(a: int, d: int)
    requires d > 0
    ensures d * (a / d) <= a < d * (a / d) + d
  {
  }

  lemma MulMonotone(c: int, x: int, y: int)
    requires c >= 0 && x <= y
    ensures c * x <= c * y
  {
    assert c * y - c * x == c * (y - x);
  }

  lemma DivLowerBound(a: int, d: int, k: int)
    requires d > 0 && d * k <= a
    ensures k <= a / d
  {
    FloorDivBounds(a, d);
    if a / d < k {
      MulMonotone(d, a / d, k - 1);
    }
  }

  lemma DivUpperBound(a: int, d: int, k: int)
    requires d > 0 && a <= d * k
    ensures a / d <= k
  {
    FloorDivBounds(a, d);
    if a / d > k {
      MulMonotone(d, k + 1, a / d);
    }
  }

  lemma DivMonotone(a: int, b: int, d: int)
    requires d > 0 && a <= b
    ensures a / d <= b / d
  {
    FloorDivBounds(a, d);
    DivLowerBound(b, d, a / d);
  }

  /** The 0..20 progress step of onProgress: `floor(index / maxIndex * 20)`
      clamped to [0, 20]. */
  function Progress(index: int, maxIndex: int): (r: int)
    requires maxIndex > 0
    ensures 0 <= r <= 20
    ensures 0 <= index <= maxIndex ==> r * maxIndex <= index * 20 < (r + 1) * maxIndex
    ensures index >= maxIndex ==> r == 20
    ensures index <= 0 ==> r == 0
  {
    var q := (index * 20) / maxIndex;
    FloorDivBounds(index * 20, maxIndex);
    DivMonotoneBounds(index, maxIndex, 20);
    Max(Min(20, q), 0)
  }

  /** The icon frame of onProgress: `floor(index / maxIndex * 8)` capped at 8;
      it is not clamped from below. */
  function BarProgress(index: int, maxIndex: int): (r: int)
    requires maxIndex > 0
    ensures r <= 8
    ensures index >= 0 ==> r >= 0
    ensures index < 0 ==> r < 0
    ensures index <= maxIndex ==> r * maxIndex <= index * 8 < (r + 1) * maxIndex
    ensures index >= maxIndex ==> r == 8
  {
    var q := (index * 8) / maxIndex;
    FloorDivBounds(index * 8, maxIndex);
    DivMonotoneBounds(index, maxIndex, 8);
    Min(q, 8)
  }

  /** `floor(index * steps / maxIndex)` is non-negative for a non-negative index,
      at most `steps` when index does not exceed maxIndex, at least `steps`
      when it does, and not positive for a non-positive index. */
  lemma DivMonotoneBounds(index: int, maxIndex: int, steps: nat)
    requires maxIndex > 0
    ensures index >= 0 ==> (index * steps) / maxIndex >= 0
    ensures index <= maxIndex ==> (index * steps) / maxIndex <= steps
    ensures index >= maxIndex ==> (index * steps) / maxIndex >= steps
    ensures index <= 0 ==> (index * steps) / maxIndex <= 0
  {
    if index >= 0 {
      MulMonotone(steps, 0, index);
      DivLowerBound(index * steps, maxIndex, 0);
    }
    if index <= maxIndex {
      MulMonotone(steps, index, maxIndex);
      DivUpperBound(index * steps, maxIndex, steps);
    }
    if index >= maxIndex {
      MulMonotone(steps, maxIndex, index);
      DivLowerBound(index * steps, maxIndex, steps);
    }
    if index <= 0 {
      MulMonotone(steps, index, 0);
      DivUpperBound(index * steps, maxIndex, 0);
    }
  }

  /** A later index never shows less progress, on either scale. */
  lemma QuantizeMonotone(i: int, j: int, maxIndex: int)
    requires maxIndex > 0 && i <= j
    ensures Progress(i, maxIndex) <= Progress(j, maxIndex)
    ensures BarProgress(i, maxIndex) <= BarProgress(j, maxIndex)
  {
    DivMonotone(i * 20, j * 20, maxIndex);
    DivMonotone(i * 8, j * 8, maxIndex);
  }

  /** The three reference points of the two scales. */
  lemma QuantizeExamples()
    ensures Progress(0, 20) == 0 && BarProgress(0, 20) == 0
    ensures Progress(20, 20) == 20 && BarProgress(20, 20) == 8
    ensures Progress(10, 20) == 10 && BarProgress(10, 20) == 4
  {
  }

  function Min(a: int, b: int): int { if a < b then a else b }

  function Max(a: int, b: int): int { if a > b then a else b }

  // ---------------------------------------------------------------- lifecycle records

  /** onInitialize: the initialising badge, the default colour on step 1 and the
      success colour otherwise, a "(step/2)" tooltip and the first wait frame. */
  function InitializeState(cat: Catalog, autoSave: bool, step: int): (r: VisualState)
    ensures autoSave ==> r == AutoSaveState(cat, AUTO_SAVE_COLOR)
    ensures !autoSave ==> r.text == cat.initializingBadge && r.path == WaitIcon(0)
    ensures !autoSave ==> r.color == (if step == 1 then DEFAULT_COLOR else SUCCESS_COLOR)
    ensures !autoSave ==> r.title == cat.initializingTooltip + " (" + IntToString(step) + "/2)"
    ensures !autoSave ==> r.progress == -1 && r.barProgress == -1
  {
    GetProperties(cat, autoSave, Args(
      Some(cat.initializingBadge),
      Some(if step == 1 then DEFAULT_COLOR else SUCCESS_COLOR),
      Some(cat.initializingTooltip + " (" + IntToString(step) + "/2)"),
      Some(WAIT_ICON_PATH_PREFIX + "0.png"),
      None, None, None))
  }

  /** onError: the error badge in red; tooltip and icon are the defaults. */
  function ErrorState(cat: Catalog, autoSave: bool): (r: VisualState)
    ensures autoSave ==> r == AutoSaveState(cat, AUTO_SAVE_COLOR)
    ensures !autoSave ==> r == DefaultState(cat).(text := cat.errorBadge, color := ERROR_COLOR)
  {
    GetProperties(cat, autoSave, Args(Some(cat.errorBadge), Some(ERROR_COLOR), None, None, None, None, None))
  }

  /** onCancelled: back to the default record. */
  function CancelledState(cat: Catalog, autoSave: bool): (r: VisualState)
    ensures autoSave ==> r == AutoSaveState(cat, AUTO_SAVE_COLOR)
    ensures !autoSave ==> r == DefaultState(cat)
  {
    GetProperties(cat, autoSave, Args(Some(""), Some(DEFAULT_COLOR), Some(cat.defaultTooltip), None, None, None, None))
  }

  /** onEnd: the OK badge in green; tooltip and icon are the defaults. */
  function EndState(cat: Catalog, autoSave: bool): (r: VisualState)
    ensures autoSave ==> r == AutoSaveState(cat, AUTO_SAVE_COLOR)
    ensures !autoSave ==> r == DefaultState(cat).(text := cat.okBadge, color := SUCCESS_COLOR)
  {
    GetProperties(cat, autoSave, Args(Some(cat.okBadge), Some(SUCCESS_COLOR), None, None, None, None, None))
  }

  /** onProgress: no badge, green, a percentage tooltip in steps of 5 and the
      wait frame of the bar position; under auto-save the darker grey. */
  function ProgressState(cat: Catalog, autoSave: bool, index: int, maxIndex: int): (r: VisualState)
    requires maxIndex > 0
    ensures autoSave ==> r == AutoSaveState(cat, PROGRESS_AUTO_SAVE_COLOR)
    ensures !autoSave ==> 0 <= r.progress <= 20 && 0 <= r.progress * 5 <= 100
    ensures !autoSave ==> r.barProgress <= 8 && (index >= 0 ==> r.barProgress >= 0)
    ensures !autoSave ==> r.progress == Progress(index, maxIndex) && r.barProgress == BarProgress(index, maxIndex)
    ensures !autoSave ==> r.path == WaitIcon(r.barProgress)
    ensures !autoSave ==> r.title == cat.saveProgressTooltip + IntToString(r.progress * 5) + "%"
    ensures !autoSave ==> r.text == "" && r.color == SUCCESS_COLOR
  {
    var progress := Progress(index, maxIndex);
    var barProgress := BarProgress(index, maxIndex);
    GetProperties(cat, autoSave, Args(
      Some(""),
      Some(SUCCESS_COLOR),
      Some(cat.saveProgressTooltip + IntToString(progress * 5) + "%"),
      Some(WAIT_ICON_PATH_PREFIX + IntToString(barProgress) + ".png"),
      Some(progress),
      Some(barProgress),
      Some(PROGRESS_AUTO_SAVE_COLOR)))
  }

  /** Distinct bar positions select distinct icon frames, and no frame is the
      static icon. */
  lemma WaitIconsDistinct(f: int, g: int)
    ensures f != g ==> WaitIcon(f) != WaitIcon(g)
    ensures WaitIcon(f) != DEFAULT_ICON_PATH
  {
    var n := |WAIT_ICON_PATH_PREFIX|;
    if f != g && WaitIcon(f) == WaitIcon(g) {
      var s := WaitIcon(f);
      assert s[n..|s| - 4] == IntToString(f);
      assert WaitIcon(g)[n..|WaitIcon(g)| - 4] == IntToString(g);
      IntToStringInjective(f, g);
    }
    assert WaitIcon(f)[31] == '_';
    assert DEFAULT_ICON_PATH[31] == '.';
  }

  // ---------------------------------------------------------------- snapshot

  function TextSlot(s: Slots, m: Method): Option<string>
  {
    if m in s && s[m].Str? then Some(s[m].s) else None
  }

  function ColorSlot(s: Slots): Option<Color>
  {
    if SetBadgeBackgroundColor in s && s[SetBadgeBackgroundColor].Rgba? then Some(s[SetBadgeBackgroundColor].channels) else None
  }

  /** getCurrentProperties on a given snapshot: under auto-save the auto-save
      record; otherwise the badge text, colour, tooltip and icon last pushed
      (each slot that is missing takes its default), or the default record when
      there is no snapshot. */
  function PropertiesFromSnapshot(cat: Catalog, autoSave: bool, snapshot: Option<Slots>): (r: VisualState)
    ensures autoSave ==> r == AutoSaveState(cat, AUTO_SAVE_COLOR)
    ensures !autoSave && snapshot.None? ==> r == DefaultState(cat)
    ensures !autoSave && snapshot.Some? ==>
      r == VisualState(
        Or(TextSlot(snapshot.value, SetBadgeText), ""),
        Or(ColorSlot(snapshot.value), DEFAULT_COLOR),
        Or(TextSlot(snapshot.value, SetTitle), cat.defaultTooltip),
        Or(TextSlot(snapshot.value, SetIcon), DEFAULT_ICON_PATH),
        -1, -1)
  {
    if autoSave then
      GetProperties(cat, autoSave, NO_ARGS)
    else if snapshot.Some? then
      var s := snapshot.value;
      GetProperties(cat, autoSave, Args(TextSlot(s, SetBadgeText), ColorSlot(s), TextSlot(s, SetTitle), TextSlot(s, SetIcon), None, None, None))
    else
      GetProperties(cat, autoSave, NO_ARGS)
  }
}
