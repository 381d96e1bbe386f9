# SingleFile toolbar button: per-tab visual-state engine

A Dafny model of `extension/ui/bg/ui-button.js`, the SingleFile extension's
driver of the per-tab toolbar badge. The model has three parts:

- **Property resolver.** `getProperties` and the builders `onInitialize`,
  `onError`, `onCancelled`, `onEnd` and `onProgress` become pure functions.
  Each maps the auto-save flag and the optional arguments to a record
  `{text, color, title, path, progress, barProgress}`. `getCurrentProperties`
  rebuilds a record from a tab's stored `button` snapshot.
- **Diff gate.** `refreshProperty` and the loop of `refreshAsync` over
  `BUTTON_PROPERTIES` are specified as functions on an `Engine` value, which
  holds the per-tab data and the log of native setter calls. A property is
  pushed only when its setter exists and either `force` is set or the value
  differs from the one recorded. The value is recorded before the call.
- **Refresh scheduler.** Each tab's `pendingRefresh` promise chain becomes an
  explicit queue of jobs. `refresh` appends a job. One turn of the chain takes
  the head job and runs `refreshAsync` on it.

The class `UiButton.Button` holds this state the way the source does:
`tabs` is the `tabsData` map of temporary storage, `available` is the set of
setters `browser.browserAction` offers, and `log` records every native call.
Its methods change the state in place, and each `ensures` ties the new state
to the specification functions. The lemmas prove properties of those
functions: override precedence, defaults, bounds, idempotent refreshes, push
order, per-tab isolation and FIFO order.

Modelling choices:

- Localised messages are a `Catalog` of opaque strings.
- The `options` object becomes its only field that is read, `autoSave`.
- `JSON.stringify(a) != JSON.stringify(b)` becomes inequality of
  `Option<Value>`, where a slot never written is `None`, distinct from every
  value.
- Native calls always succeed.

Behaviour of `ui-button.js` worth knowing, which the model keeps:

- `onInitialize` (line 118) passes the wait frame 0 icon but no `barProgress`,
  so that record carries an animated icon with `barProgress` -1.
- `barProgress` (line 135) is capped at 8 but not clamped from below; it is
  negative for a negative index.
- Of the record builders, only `getCurrentProperties` (lines 166-178), used on
  tab activation, reads the stored snapshot; `getProperties` with no arguments gives the defaults, or the auto-save
  record when auto-save is on.
- `onInitialize` gives the colour `[4, 229, 36, 255]` to every step other
  than 1 (line 118).
- `refresh` extends `pendingRefresh` with `.then` only (line 200), so a
  rejected refresh would also reject every later one on that tab; the model's
  native calls always succeed.

## Model

| member | source | states |
|---|---|---|
| ButtonTypes.MethodOf | extension/ui/bg/ui-button.js:29 | each property name maps to its browser-action setter, and `PropertyOf` inverts the mapping |
| ButtonTypes.Rank | extension/ui/bg/ui-button.js:29 | a setter's position in the fixed order color, icon, text, title, and that position maps back to that setter |
| ButtonTypes.ValueOf | extension/ui/bg/ui-button.js:214 | the value read from a record for a property has the kind its setter takes (a colour only for the badge colour) |
| Decimal.NatToString | extension/ui/bg/ui-button.js:136 | a number is written as non-empty decimal digits with no leading zero |
| Decimal.IntToString | extension/ui/bg/ui-button.js:118 | an integer is written with a leading minus sign exactly when it is negative |
| Decimal.NatToStringRoundTrip | extension/ui/bg/ui-button.js:136 | reading the digits back gives the number |
| Decimal.IntToStringRoundTrip | extension/ui/bg/ui-button.js:118 | reading back the integer's string gives the integer |
| Decimal.IntToStringInjective | extension/ui/bg/ui-button.js:136 | distinct integers give distinct strings |
| Resolver.GetProperties | extension/ui/bg/ui-button.js:180-189 | with auto-save on: the auto-save badge, tooltip, default icon, `autoColor` (default `[208,208,208,255]`) and both progress values -1, whatever else is passed; otherwise `text` or "", `color` or `DEFAULT_COLOR`, and title, path, progress and barProgress default to `DEFAULT_TITLE`, `DEFAULT_ICON_PATH`, -1 and -1 |
| Resolver.AutoSaveIgnoresArguments | extension/ui/bg/ui-button.js:180-188 | under auto-save, two argument lists that agree on `autoColor` give the same record |
| Resolver.Progress | extension/ui/bg/ui-button.js:134 | the step lies in [0,20]; for 0 <= index <= maxIndex it is the floor of index*20/maxIndex; it is 20 from maxIndex on and 0 at or below 0 |
| Resolver.BarProgress | extension/ui/bg/ui-button.js:135 | the frame is at most 8; it is at least 0 for a non-negative index and negative for a negative one; for every index <= maxIndex it is the floor of index*8/maxIndex; it is 8 from maxIndex on |
| Resolver.QuantizeMonotone | extension/ui/bg/ui-button.js:134-135 | a larger index never gives a smaller step or frame |
| Resolver.QuantizeExamples | extension/ui/bg/ui-button.js:134-135 | (0,20) gives 0 and 0, (20,20) gives 20 and 8, (10,20) gives 10 and 4 |
| Resolver.InitializeState | extension/ui/bg/ui-button.js:111-119 | the initialising badge; `DEFAULT_COLOR` on step 1 and `[4,229,36,255]` otherwise; tooltip "(step/2)"; wait frame 0; under auto-save the auto-save record |
| Resolver.ErrorState | extension/ui/bg/ui-button.js:121-123 | the default record with the error badge and `[229,4,12,255]`, or the auto-save record |
| Resolver.CancelledState | extension/ui/bg/ui-button.js:125-127 | the default record, or the auto-save record |
| Resolver.EndState | extension/ui/bg/ui-button.js:129-131 | the default record with the OK badge and `[4,229,36,255]`, or the auto-save record |
| Resolver.ProgressState | extension/ui/bg/ui-button.js:133-137 | progress in [0,20], tooltip percent progress*5 in [0,100], barProgress <= 8 (>= 0 for index >= 0), icon `WAIT_ICON_PATH_PREFIX + barProgress + ".png"`; under auto-save the auto-save record in `[128,128,128,255]` |
| Resolver.WaitIconsDistinct | extension/ui/bg/ui-button.js:135-136 | distinct bar positions select distinct wait icons, and no wait icon is the static icon |
| Resolver.PropertiesFromSnapshot | extension/ui/bg/ui-button.js:166-178 | under auto-save, the auto-save record; with no snapshot, the defaults; otherwise badge text, colour, tooltip and icon from the `setBadgeText`, `setBadgeBackgroundColor`, `setTitle` and `setIcon` slots, each defaulted when missing, with progress -1 |
| DiffGate.PushProperty | extension/ui/bg/ui-button.js:213-229 | with the setter missing nothing changes; otherwise the tab's entry and snapshot exist afterwards, the slot holds the value, other slots, other tabs and the queue are unchanged, and one call is logged exactly when forced or the recorded slot differs |
| DiffGate.ApplyProps | extension/ui/bg/ui-button.js:207-211 | walking properties changes only this tab's bucket, keeps its queue, and only appends calls for this tab that carry the record's own values |
| DiffGate.ApplyPropsSlots | extension/ui/bg/ui-button.js:216-226 | afterwards each available walked setter holds its property's value; setters not walked, and setters the browser lacks, keep their slots |
| DiffGate.ApplyJob | extension/ui/bg/ui-button.js:207-211 | one refreshAsync leaves every available setter holding the record's value and every missing setter's slot as it was, changes no other tab and keeps the queue; `RefreshCalls`, `ForcedRefreshPushesAll`, `RefreshPushOrder` and `RefreshTwiceIsSilent` give its calls |
| DiffGate.ApplyPropsLog | extension/ui/bg/ui-button.js:208-227 | for non-repeating properties the calls logged are the gates, in order, each read against the state before the walk |
| DiffGate.RefreshCalls | extension/ui/bg/ui-button.js:207-227 | one refreshAsync logs exactly color, icon, text and title, each when its setter exists and the push is forced or its value differs from the recorded one |
| DiffGate.ForcedRefreshPushesAll | extension/ui/bg/ui-button.js:224 | with `force`, every available property is pushed with its value, and nothing else is pushed |
| DiffGate.RefreshPushOrder | extension/ui/bg/ui-button.js:29 | within one refresh the calls follow BUTTON_PROPERTIES order, each setter at most once |
| DiffGate.SyncedIsFixpoint | extension/ui/bg/ui-button.js:224 | an unforced walk over slots that already hold the record's values changes nothing and makes no call |
| DiffGate.RefreshTwiceIsSilent | extension/ui/bg/ui-button.js:224-226 | a second unforced refresh with the same record leaves state and log unchanged |
| Scheduler.Enqueued | extension/ui/bg/ui-button.js:191-201 | refresh creates the tab's entry if needed and appends the job to its queue; snapshot, log and other tabs are unchanged |
| Scheduler.ClearButton | extension/ui/bg/ui-button.js:112-117 | the tab's snapshot becomes null; its queue, the set of tabs and other tabs are unchanged |
| Scheduler.Stepped | extension/ui/bg/ui-button.js:200 | one turn removes the head of the tab's queue; other tabs are unchanged and only calls for this tab are appended |
| Scheduler.Steps | extension/ui/bg/ui-button.js:196-201 | any number of turns of one tab's chain leave other tabs unchanged and append only calls for this tab |
| Scheduler.EnqueuedAll | extension/ui/bg/ui-button.js:191-201 | successive refreshes append their jobs to the queue in call order |
| Scheduler.StepsFollowQueueOrder | extension/ui/bg/ui-button.js:196-201 | n turns run the first n queued records, oldest first, and leave the rest queued |
| Scheduler.RefreshOrderIsRunOrder | extension/ui/bg/ui-button.js:196-201 | records refreshed on an idle tab reach refreshAsync in the order they were refreshed |
| Scheduler.LastJobWins | extension/ui/bg/ui-button.js:200 | after a run of jobs every available setter holds the last record's value |
| Scheduler.QueuedTwiceIsSilent | extension/ui/bg/ui-button.js:200-226 | the same record refreshed twice on an idle tab: the second turn of the chain only empties the queue and makes no native call |
| Scheduler.TabsAreIndependent | extension/ui/bg/ui-button.js:192-201 | enqueuing on one tab commutes with a turn of another tab's chain |
| UiButton.SnapshotRestoresAppearance | extension/ui/bg/ui-button.js:166-177 | getCurrentProperties after a refresh gives back that record's text, colour, tooltip and icon for each available setter, with progress -1 |
| UiButton.ResetActivationShowsDefaults | extension/ui/bg/ui-button.js:141-147 | after a reset the record used on activation is the default (or the auto-save) record |
| UiButton.CaptureLifecycleEndsOk | extension/ui/bg/ui-button.js:111-137 | initialise 1 and 2, progress(5,20) and end on one tab run in that order and leave the end record on every available setter |
| UiButton.Button.RefreshProperty | extension/ui/bg/ui-button.js:213-229 | the in-place update matches `PushProperty` and keeps every slot well typed |
| UiButton.Button.RefreshAsync | extension/ui/bg/ui-button.js:207-211 | the loop over BUTTON_PROPERTIES matches `ApplyJob` |
| UiButton.Button.Refresh | extension/ui/bg/ui-button.js:191-205 | the `pendingRefresh` update matches `Enqueued` |
| UiButton.Button.RunNext | extension/ui/bg/ui-button.js:200 | running the oldest pending refresh matches `Stepped`, and reports whether one was pending |
| UiButton.Button.ClearSnapshot | extension/ui/bg/ui-button.js:114-116 | nulling the snapshot matches `ClearButton` |
| UiButton.Button.GetCurrentProperties | extension/ui/bg/ui-button.js:166-178 | the auto-save record under auto-save; the defaults when the tab has no snapshot; with well-typed slots, every present text, colour, tooltip and icon slot is read back as stored, with progress -1 |
| UiButton.Button.OnInitialize | extension/ui/bg/ui-button.js:111-119 | on step 1 the snapshot is cleared before the initialising record is queued, unforced |
| UiButton.Button.OnError | extension/ui/bg/ui-button.js:121-123 | the error record is queued, unforced |
| UiButton.Button.OnCancelled | extension/ui/bg/ui-button.js:125-127 | the cancelled record is queued, unforced |
| UiButton.Button.OnEnd | extension/ui/bg/ui-button.js:129-131 | the end record is queued, unforced |
| UiButton.Button.OnProgress | extension/ui/bg/ui-button.js:133-137 | the progress record is queued, unforced |
| UiButton.Button.OnTabActivated | extension/ui/bg/ui-button.js:139-148 | with `reset`, the snapshot is cleared first; the current properties of the resulting snapshot are queued as a forced refresh |
| UiButton.Button.RefreshDefault | extension/ui/bg/ui-button.js:82 | the exported `refresh(tabId, options)` queues the no-argument record, unforced |

## Left out

- Listener registration is host I/O and is not modelled: `browserAction.onClicked`, `tabs.onActivated`/`onCreated`/`onUpdated`, `runtime.onMessage`, `onMessageExternal`, `tabs.query` and the saving of highlighted tabs (lines 31-75). Their effect on the button comes through the entry points that are modelled.
- The enable/disable of the action in `onTabActivated` (lines 149-163) is I/O with swallowed errors. Its inner `else` branch cannot run.
- `setAutoSaveActiveTabEnabled` and `isAutoSaveEnabled` (lines 85-109) are round trips through persistent storage and are not modelled. `singlefile.ui.autosave.isEnabled`, awaited by `onTabActivated`, becomes the `autoSave` parameter.
- Promise semantics are not modelled. Each entry point is one atomic step, and the `await`s of storage reads inside it are not interleaved. In the source, `onInitialize` with step 1 awaits `getTemporary()` before it calls `refresh` (lines 111-118), so a refresh from a later entry point that is not awaited, such as step 2, can be chained ahead of it. The order that `UiButton.CaptureLifecycleEndsOk` proves holds only when the entry points run to completion one after the other. A turn of the chain is atomic too: in the source each `refreshProperty` awaits its native call (line 226), so `onInitialize` step 1 (line 115) or a reset in `onTabActivated` (line 144) can null the snapshot between two properties of a running `refreshAsync`, and `getCurrentProperties` (line 171) can read a half-written snapshot. Those interleavings are not modelled. A rejected native call would stop later refreshes of that tab, because the chain uses `.then` only. The model's native calls cannot fail, so this path is absent.
- The storage object behind `storage.getTemporary()` is assumed to be one shared in-memory map. That is how `refresh` and `refreshAsync` use it.
- Resolver.Progress: floating-point `Math.floor((index / maxIndex) * 20)` is modelled as exact `floor(index * 20 / maxIndex)`. Rounding of the division could differ at a few boundaries.
- Resolver.BarProgress: the same exact-division model as `Progress` is used for `* 8`.
- `onProgress` requires `maxIndex > 0`. The `runtime.onMessage` listener calls it only when `maxIndex` is truthy (line 49). That guard also admits a negative `maxIndex`, which the model does not cover.
- `index`, `maxIndex` and `step` are integers. Fractional values, `NaN` and JavaScript number formatting beyond integers are not modelled.
- Decimal.NatToString: writes every natural number as plain digits. JavaScript writes numbers of 10^21 and above in exponent form (`1e+21`), and its numbers (doubles) hold integers exactly only up to 2^53. In use, `step` counts the two initialisation steps of the tooltip "(step/2)", `progress * 5` lies in [0, 100], and `barProgress` lies in [0, 8] for a non-negative index; these stay far below either limit.
- Decimal.IntToString: the same limits apply to negative integers, whose magnitude is written by `NatToString`.
- `browser.i18n.getMessage` is a fixed `Catalog` of opaque strings.
- Logging through `console.error` (line 58) is not modelled.
- Per-tab data is never removed when a tab closes, and neither the source nor the model removes it.
