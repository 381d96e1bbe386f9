/** The toolbar button of one browser session (extension/ui/bg/ui-button.js): the
    per-tab data held in temporary storage, the setters the browser offers, and
    the log of native calls issued, with the entry points that resolve a
    lifecycle event and chain its refresh. */
module UiButton {
  import opened ButtonTypes
  import opened Decimal
  import opened Resolver
  import opened DiffGate
  import opened Scheduler

  /** getCurrentProperties reads back what a refresh pushed: each field whose
      setter is available comes back as the record had it; the progress values
      are not kept. */
  lemma SnapshotRestoresAppearance(cat: Catalog, avail: set<Method>, e: Engine, tab: TabId, j: Job)
    ensures var r := PropertiesFromSnapshot(cat, false, ButtonOf(ApplyJob(avail, e, tab, j).tabs, tab));
      (SetBadgeText in avail ==> r.text == j.state.text) &&
      (SetBadgeBackgroundColor in avail ==> r.color == j.state.color) &&
      (SetTitle in avail ==> r.title == j.state.title) &&
      (SetIcon in avail ==> r.path == j.state.path) &&
      r.progress == -1 && r.barProgress == -1
  {
    var vs := j.state;
    var after := ApplyJob(avail, e, tab, j);
    assert MethodOf(TextProperty) == SetBadgeText && MethodOf(ColorProperty) == SetBadgeBackgroundColor;
    assert MethodOf(TitleProperty) == SetTitle && MethodOf(PathProperty) == SetIcon;
    assert SetBadgeText in avail ==> Slot(after.tabs, tab, SetBadgeText) == Some(Str(vs.text));
    assert SetBadgeBackgroundColor in avail ==> Slot(after.tabs, tab, SetBadgeBackgroundColor) == Some(Rgba(vs.color));
    assert SetTitle in avail ==> Slot(after.tabs, tab, SetTitle) == Some(Str(vs.title));
    assert SetIcon in avail ==> Slot(after.tabs, tab, SetIcon) == Some(Str(vs.path));
  }

  class Button {
    /** The localised messages. */
    const cat: Catalog
    /** The setters `browser.browserAction` offers. */
    const available: set<Method>
    /** `tabsData` of temporary storage, keyed by tab. */
    var tabs: map<TabId, TabData>
    /** Every native setter call issued, oldest first. */
    var log: seq<Call>

    /** Every recorded slot holds the kind of value its setter takes. */
    ghost predicate Valid()
      reads this
    {
      WellTypedTabs(tabs)
    }

    function State(): Engine
      reads this
    {
      Engine(tabs, log)
    }

    constructor (cat: Catalog, available: set<Method>)
      ensures this.cat == cat && this.available == available
      ensures tabs == map[] && log == [] && Valid()
    {
      this.cat := cat;
      this.available := available;
      tabs := map[];
      log := [];
    }

    /** refreshProperty (extension/ui/bg/ui-button.js:213-229). */
    method RefreshProperty(tab: TabId, p: Property, vs: VisualState, force: bool)
      requires Valid()
      modifies this
      ensures Valid()
      ensures State() == PushProperty(available, old(State()), tab, p, vs, force)
    {
      var m := MethodOf(p);
      var value := ValueOf(vs, p);
      if m in available {
        if tab !in tabs {
          tabs := tabs[tab := TabData(None, [])];
        }
        if tabs[tab].button.None? {
          tabs := tabs[tab := tabs[tab].(button := Some(map[]))];
        }
        var slots := tabs[tab].button.value;
        if force || m !in slots || slots[m] != value {
          tabs := tabs[tab := tabs[tab].(button := Some(slots[m := value]))];
          log := log + [Call(tab, m, value)];
        }
      }
    }

    /** refreshAsync: each property of BUTTON_PROPERTIES in turn through the gate. */
    method RefreshAsync(tab: TabId, vs: VisualState, force: bool)
      requires Valid()
      modifies this
      ensures Valid()
      ensures State() == ApplyJob(available, old(State()), tab, Job(vs, force))
    {
      for i := 0 to |BUTTON_PROPERTIES|
        invariant Valid()
        invariant State() == ApplyProps(available, old(State()), tab, vs, force, BUTTON_PROPERTIES[..i])
      {
        RefreshProperty(tab, BUTTON_PROPERTIES[i], vs, force);
        assert BUTTON_PROPERTIES[..i + 1][..i] == BUTTON_PROPERTIES[..i];
      }
      assert BUTTON_PROPERTIES[..|BUTTON_PROPERTIES|] == BUTTON_PROPERTIES;
    }

    /** refresh: chain a record behind the tab's pending refreshes. */
    method Refresh(tab: TabId, vs: VisualState, force: bool)
      requires Valid()
      modifies this
      ensures Valid()
      ensures State() == Enqueued(old(State()), tab, Job(vs, force))
    {
      if tab !in tabs {
        tabs := tabs[tab := TabData(None, [])];
      }
      tabs := tabs[tab := tabs[tab].(queue := tabs[tab].queue + [Job(vs, force)])];
    }

    /** One turn of the tab's chain: the oldest pending refresh runs. */
    method RunNext(tab: TabId) returns (ran: bool)
      requires Valid()
      modifies this
      ensures Valid()
      ensures ran == (QueueOf(old(tabs), tab) != [])
      ensures State() == Stepped(available, old(State()), tab)
    {
      if tab !in tabs || tabs[tab].queue == [] {
        return false;
      }
      var job := tabs[tab].queue[0];
      tabs := tabs[tab := tabs[tab].(queue := tabs[tab].queue[1..])];
      RefreshAsync(tab, job.state, job.force);
      ran := true;
    }

    /** `tabsData[tabId].button = null` when the tab has an entry. */
    method ClearSnapshot(tab: TabId)
      requires Valid()
      modifies this
      ensures Valid()
      ensures State() == ClearButton(old(State()), tab)
    {
      if tab in tabs {
        tabs := tabs[tab := tabs[tab].(button := None)];
      }
    }

    /** getCurrentProperties on the tab's stored snapshot. */
    function GetCurrentProperties(tab: TabId, autoSave: bool): (r: VisualState)
      reads this
      ensures autoSave ==> r == AutoSaveState(cat, AUTO_SAVE_COLOR)
      ensures !autoSave && ButtonOf(tabs, tab).None? ==> r == DefaultState(cat)
      // With the slots well typed, every slot present is read back as pushed.
      ensures Valid() && !autoSave && ButtonOf(tabs, tab).Some? ==>
        var s := ButtonOf(tabs, tab).value;
        (SetBadgeText in s ==> r.text == s[SetBadgeText].s) &&
        (SetBadgeBackgroundColor in s ==> r.color == s[SetBadgeBackgroundColor].channels) &&
        (SetTitle in s ==> r.title == s[SetTitle].s) &&
        (SetIcon in s ==> r.path == s[SetIcon].s) &&
        r.progress == -1 && r.barProgress == -1
    {
      PropertiesFromSnapshot(cat, autoSave, ButtonOf(tabs, tab))
    }

    /** onInitialize: step 1 first clears the snapshot; then the initialising
        record is chained. */
    method OnInitialize(tab: TabId, autoSave: bool, step: int)
      requires Valid()
      modifies this
      ensures Valid()
      ensures var cleared := if step == 1 then ClearButton(old(State()), tab) else old(State());
        State() == Enqueued(cleared, tab, Job(InitializeState(cat, autoSave, step), false))
    {
      if step == 1 {
        ClearSnapshot(tab);
      }
      Refresh(tab, InitializeState(cat, autoSave, step), false);
    }

    method OnError(tab: TabId, autoSave: bool)
      requires Valid()
      modifies this
      ensures Valid()
      ensures State() == Enqueued(old(State()), tab, Job(ErrorState(cat, autoSave), false))
    {
      Refresh(tab, ErrorState(cat, autoSave), false);
    }

    method OnCancelled(tab: TabId, autoSave: bool)
      requires Valid()
      modifies this
      ensures Valid()
      ensures State() == Enqueued(old(State()), tab, Job(CancelledState(cat, autoSave), false))
    {
      Refresh(tab, CancelledState(cat, autoSave), false);
    }

    method OnEnd(tab: TabId, autoSave: bool)
      requires Valid()
      modifies this
      ensures Valid()
      ensures State() == Enqueued(old(State()), tab, Job(EndState(cat, autoSave), false))
    {
      Refresh(tab, EndState(cat, autoSave), false);
    }

    /** onProgress; the `runtime.onMessage` listener (line 49) calls it only with a
        non-zero maxIndex, and the model takes the positive ones. */
    method OnProgress(tab: TabId, index: int, maxIndex: int, autoSave: bool)
      requires Valid() && maxIndex > 0
      modifies this
      ensures Valid()
      ensures State() == Enqueued(old(State()), tab, Job(ProgressState(cat, autoSave, index, maxIndex), false))
    {
      Refresh(tab, ProgressState(cat, autoSave, index, maxIndex), false);
    }

    /** onTabActivated without the enable/disable of the action: a reset clears
        the snapshot, then the current record is chained as a forced refresh. */
    method OnTabActivated(tab: TabId, autoSave: bool, reset: bool)
      requires Valid()
      modifies this
      ensures Valid()
      ensures var cleared := if reset then ClearButton(old(State()), tab) else old(State());
        State() == Enqueued(cleared, tab, Job(PropertiesFromSnapshot(cat, autoSave, ButtonOf(cleared.tabs, tab)), true))
    {
      if reset {
        ClearSnapshot(tab);
      }
      var properties := GetCurrentProperties(tab, autoSave);
      Refresh(tab, properties, true);
    }

    /** The exported `refresh(tabId, options)`: the default record, unforced. */
    method RefreshDefault(tab: TabId, autoSave: bool)
      requires Valid()
      modifies this
      ensures Valid()
      ensures State() == Enqueued(old(State()), tab, Job(GetProperties(cat, autoSave, NO_ARGS), false))
    {
      Refresh(tab, GetProperties(cat, autoSave, NO_ARGS), false);
    }
  }

  /** A reset activation chains the default record (or the auto-save one),
      whatever was shown before. */
  lemma ResetActivationShowsDefaults(cat: Catalog, e: Engine, tab: TabId, autoSave: bool)
    ensures PropertiesFromSnapshot(cat, autoSave, ButtonOf(ClearButton(e, tab).tabs, tab))
         == GetProperties(cat, autoSave, NO_ARGS)
  {
  }

  /** A capture of one tab with auto-save off: initialise (steps 1 and 2), one
      progress report, the end. Run in the order they were refreshed, the four
      records leave every available setter showing the end record. */
  lemma CaptureLifecycleEndsOk(cat: Catalog, avail: set<Method>, e: Engine, tab: TabId)
    requires QueueOf(e.tabs, tab) == []
    ensures var js := [Job(InitializeState(cat, false, 1), false), Job(InitializeState(cat, false, 2), false),
                       Job(ProgressState(cat, false, 5, 20), false), Job(EndState(cat, false), false)];
      var after := Steps(avail, EnqueuedAll(e, tab, js), tab, 4);
      after == RunJobs(avail, WithQueue(EnqueuedAll(e, tab, js), tab, []), tab, js) &&
      (forall p :: MethodOf(p) in avail ==> Slot(after.tabs, tab, MethodOf(p)) == Some(ValueOf(EndState(cat, false), p)))
  {
    var js := [Job(InitializeState(cat, false, 1), false), Job(InitializeState(cat, false, 2), false),
               Job(ProgressState(cat, false, 5, 20), false), Job(EndState(cat, false), false)];
    RefreshOrderIsRunOrder(avail, e, tab, js);
    LastJobWins(avail, WithQueue(EnqueuedAll(e, tab, js), tab, []), tab, js);
  }
}
