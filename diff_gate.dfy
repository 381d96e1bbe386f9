/** The diff gate: refreshProperty and the loop of refreshAsync as functions on the
    engine's state, the per-tab data and the log of native calls issued
    (extension/ui/bg/ui-button.js:207-229). */
module DiffGate {
  import opened ButtonTypes

  /** One queued refresh: the record to show and whether every property is pushed. */
  datatype Job = Job(state: VisualState, force: bool)

  /** `tabsData[tabId]`: the last pushed values (`button`, None when absent or
      cleared) and the refreshes chained behind `pendingRefresh`. */
  datatype TabData = TabData(button: Option<Slots>, queue: seq<Job>)

  /** One call `browser.browserAction[method]({ tabId, [property]: value })`. */
  datatype Call = Call(tab: TabId, setter: Method, value: Value)

  datatype Engine = Engine(tabs: map<TabId, TabData>, log: seq<Call>)

  function Entry(tabs: map<TabId, TabData>, tab: TabId): TabData
  {
    if tab in tabs then tabs[tab] else TabData(None, [])
  }

  function ButtonOf(tabs: map<TabId, TabData>, tab: TabId): Option<Slots>
  {
    Entry(tabs, tab).button
  }

  function QueueOf(tabs: map<TabId, TabData>, tab: TabId): seq<Job>
  {
    Entry(tabs, tab).queue
  }

  /** What `JSON.stringify(tabsData[tabId].button[method])` compares: the value
      recorded, or None for a slot never written. */
  function Slot(tabs: map<TabId, TabData>, tab: TabId, m: Method): Option<Value>
  {
    var b := ButtonOf(tabs, tab);
    if b.Some? && m in b.value then Some(b.value[m]) else None
  }

  /** Every tab other than `tab` has the same entry (or none) in both maps. */
  ghost predicate SameOutside(before: map<TabId, TabData>, after: map<TabId, TabData>, tab: TabId)
  {
    forall t :: t != tab ==> (t in after <==> t in before) && (t in before ==> after[t] == before[t])
  }

  predicate WellTypedTabs(tabs: map<TabId, TabData>)
  {
    forall t :: t in tabs && tabs[t].button.Some? ==> WellTypedSlots(tabs[t].button.value)
  }

  /** The gate: the setter exists, and the push is forced or the value differs
      from what was last recorded for it. */
  predicate Pushed(avail: set<Method>, tabs: map<TabId, TabData>, tab: TabId, p: Property, vs: VisualState, force: bool)
  {
    MethodOf(p) in avail && (force || Slot(tabs, tab, MethodOf(p)) != Some(ValueOf(vs, p)))
  }

  /** refreshProperty: with the setter available, the tab's entry and snapshot are
      created when missing, and a value that passes the gate is recorded and
      pushed; with the setter missing nothing happens. */
  function PushProperty(avail: set<Method>, e: Engine, tab: TabId, p: Property, vs: VisualState, force: bool): (r: Engine)
    ensures MethodOf(p) !in avail ==> r == e
    ensures MethodOf(p) in avail ==> tab in r.tabs && ButtonOf(r.tabs, tab).Some?
    ensures MethodOf(p) in avail ==> Slot(r.tabs, tab, MethodOf(p)) == Some(ValueOf(vs, p))
    ensures forall m :: m != MethodOf(p) ==> Slot(r.tabs, tab, m) == Slot(e.tabs, tab, m)
    ensures SameOutside(e.tabs, r.tabs, tab) && QueueOf(r.tabs, tab) == QueueOf(e.tabs, tab)
    ensures tab in e.tabs ==> tab in r.tabs
    ensures r.log == e.log + (if Pushed(avail, e.tabs, tab, p, vs, force) then [Call(tab, MethodOf(p), ValueOf(vs, p))] else [])
    ensures WellTypedTabs(e.tabs) ==> WellTypedTabs(r.tabs)
  {
    var m := MethodOf(p);
    var value := ValueOf(vs, p);
    if m !in avail then e
    else
      var entry := Entry(e.tabs, tab);
      var slots := if entry.button.Some? then entry.button.value else map[];
      if force || m !in slots || slots[m] != value then
        Engine(e.tabs[tab := entry.(button := Some(slots[m := value]))], e.log + [Call(tab, m, value)])
      else
        Engine(e.tabs[tab := entry.(button := Some(slots))], e.log)
  }

  /** Walking a list of properties in order, as the loop of refreshAsync does:
      only `tab`'s bucket changes, its queue is kept, and the log only grows by
      calls for `tab` carrying the record's own values. */
  function ApplyProps(avail: set<Method>, e: Engine, tab: TabId, vs: VisualState, force: bool, props: seq<Property>): (r: Engine)
    ensures SameOutside(e.tabs, r.tabs, tab) && QueueOf(r.tabs, tab) == QueueOf(e.tabs, tab)
    ensures tab in e.tabs ==> tab in r.tabs
    ensures |e.log| <= |r.log| && r.log[..|e.log|] == e.log
    ensures forall i :: |e.log| <= i < |r.log| ==> r.log[i].tab == tab && r.log[i].value == ValueOf(vs, PropertyOf(r.log[i].setter))
    ensures WellTypedTabs(e.tabs) ==> WellTypedTabs(r.tabs)
    decreases |props|
  {
    if props == [] then e
    else PushProperty(avail, ApplyProps(avail, e, tab, vs, force, props[..|props| - 1]), tab, props[|props| - 1], vs, force)
  }

  /** refreshAsync: one record pushed through the gate in BUTTON_PROPERTIES order.
      Afterwards every available setter holds the record's value, every missing
      setter keeps what it had, and nothing outside the tab's snapshot changes. */
  function ApplyJob(avail: set<Method>, e: Engine, tab: TabId, j: Job): (r: Engine)
    ensures forall p :: MethodOf(p) in avail ==> Slot(r.tabs, tab, MethodOf(p)) == Some(ValueOf(j.state, p))
    ensures forall m :: m !in avail ==> Slot(r.tabs, tab, m) == Slot(e.tabs, tab, m)
    ensures SameOutside(e.tabs, r.tabs, tab) && QueueOf(r.tabs, tab) == QueueOf(e.tabs, tab)
  {
    ApplyPropsSlots(avail, e, tab, j.state, j.force, BUTTON_PROPERTIES);
    EveryPropertyListed();
    ApplyProps(avail, e, tab, j.state, j.force, BUTTON_PROPERTIES)
  }

  lemma AllPropertiesListed(p: Property)
    ensures p in BUTTON_PROPERTIES
  {
    match p
    case ColorProperty => assert BUTTON_PROPERTIES[0] == p;
    case PathProperty => assert BUTTON_PROPERTIES[1] == p;
    case TextProperty => assert BUTTON_PROPERTIES[2] == p;
    case TitleProperty => assert BUTTON_PROPERTIES[3] == p;
  }

  lemma EveryPropertyListed()
    ensures forall p: Property :: p in BUTTON_PROPERTIES
  {
    forall p: Property
      ensures p in BUTTON_PROPERTIES
    {
      AllPropertiesListed(p);
    }
  }

  function MethodsOf(props: seq<Property>): set<Method>
  {
    set p | p in props :: MethodOf(p)
  }

  /** After walking `props`, each available setter among them holds its
      property's value, and every setter not among them is untouched. */
  lemma {:induction false} ApplyPropsSlots(avail: set<Method>, e: Engine, tab: TabId, vs: VisualState, force: bool, props: seq<Property>)
    ensures var r := ApplyProps(avail, e, tab, vs, force, props);
      forall p :: p in props && MethodOf(p) in avail ==> Slot(r.tabs, tab, MethodOf(p)) == Some(ValueOf(vs, p))
    ensures var r := ApplyProps(avail, e, tab, vs, force, props);
      forall m :: m !in MethodsOf(props) ==> Slot(r.tabs, tab, m) == Slot(e.tabs, tab, m)
    ensures var r := ApplyProps(avail, e, tab, vs, force, props);
      forall m :: m !in avail ==> Slot(r.tabs, tab, m) == Slot(e.tabs, tab, m)
    decreases |props|
  {
    if props != [] {
      var init := props[..|props| - 1];
      var last := props[|props| - 1];
      ApplyPropsSlots(avail, e, tab, vs, force, init);
      assert forall p :: p in props ==> p in init || p == last;
      assert forall m :: m !in MethodsOf(props) ==> m !in MethodsOf(init) && m != MethodOf(last);
    }
  }

  /** The calls one record can cause, in push order: each property whose gate
      opens against the state before the refresh. */
  function Gate(avail: set<Method>, tabs: map<TabId, TabData>, tab: TabId, vs: VisualState, force: bool, p: Property): seq<Call>
  {
    if Pushed(avail, tabs, tab, p, vs, force) then [Call(tab, MethodOf(p), ValueOf(vs, p))] else []
  }

  function ExpectedCalls(avail: set<Method>, tabs: map<TabId, TabData>, tab: TabId, vs: VisualState, force: bool): seq<Call>
  {
    Gate(avail, tabs, tab, vs, force, ColorProperty)
    + Gate(avail, tabs, tab, vs, force, PathProperty)
    + Gate(avail, tabs, tab, vs, force, TextProperty)
    + Gate(avail, tabs, tab, vs, force, TitleProperty)
  }

  /** Pushing a property logs exactly what its gate lets through. */
  lemma PushLog(avail: set<Method>, e: Engine, tab: TabId, vs: VisualState, force: bool, p: Property)
    ensures PushProperty(avail, e, tab, p, vs, force).log == e.log + Gate(avail, e.tabs, tab, vs, force, p)
  {
  }

  /** The gates of `props`, all read against the same state. */
  function Gates(avail: set<Method>, tabs: map<TabId, TabData>, tab: TabId, vs: VisualState, force: bool, props: seq<Property>): seq<Call>
    decreases |props|
  {
    if props == [] then []
    else Gates(avail, tabs, tab, vs, force, props[..|props| - 1]) + Gate(avail, tabs, tab, vs, force, props[|props| - 1])
  }

  predicate DistinctProps(props: seq<Property>)
  {
    forall i, k :: 0 <= i < k < |props| ==> props[i] != props[k]
  }

  /** For properties that do not repeat, walking them logs each gate read
      against the state before the walk: earlier pushes never touch a later
      property's slot. */
  lemma {:induction false} ApplyPropsLog(avail: set<Method>, e: Engine, tab: TabId, vs: VisualState, force: bool, props: seq<Property>)
    requires DistinctProps(props)
    ensures ApplyProps(avail, e, tab, vs, force, props).log == e.log + Gates(avail, e.tabs, tab, vs, force, props)
    decreases |props|
  {
    if props != [] {
      var init := props[..|props| - 1];
      var last := props[|props| - 1];
      LastIsNew(props);
      ApplyPropsLog(avail, e, tab, vs, force, init);
      LastPushLog(avail, e, tab, vs, force, props);
    }
  }

  /** Walking a list whose last setter the earlier ones do not touch logs the
      earlier walk's calls, then that last gate read against the state before
      the walk. */
  lemma LastPushLog(avail: set<Method>, e: Engine, tab: TabId, vs: VisualState, force: bool, props: seq<Property>)
    requires props != [] && MethodOf(props[|props| - 1]) !in MethodsOf(props[..|props| - 1])
    ensures ApplyProps(avail, e, tab, vs, force, props).log
         == ApplyProps(avail, e, tab, vs, force, props[..|props| - 1]).log + Gate(avail, e.tabs, tab, vs, force, props[|props| - 1])
  {
    var init := props[..|props| - 1];
    var last := props[|props| - 1];
    var mid := ApplyProps(avail, e, tab, vs, force, init);
    PushLog(avail, mid, tab, vs, force, last);
    SlotUntouched(avail, e, tab, vs, force, init, MethodOf(last));
  }

  /** A setter outside the walked properties keeps its slot. */
  lemma SlotUntouched(avail: set<Method>, e: Engine, tab: TabId, vs: VisualState, force: bool, props: seq<Property>, m: Method)
    requires m !in MethodsOf(props)
    ensures Slot(ApplyProps(avail, e, tab, vs, force, props).tabs, tab, m) == Slot(e.tabs, tab, m)
  {
    ApplyPropsSlots(avail, e, tab, vs, force, props);
  }

  /** In a list without repeats, the last property's setter is not among the
      setters of the ones before it. */
  lemma LastIsNew(props: seq<Property>)
    requires DistinctProps(props) && props != []
    ensures DistinctProps(props[..|props| - 1])
    ensures MethodOf(props[|props| - 1]) !in MethodsOf(props[..|props| - 1])
  {
    var init := props[..|props| - 1];
    var last := props[|props| - 1];
    forall p | p in init
      ensures MethodOf(p) != MethodOf(last)
    {
      var i :| 0 <= i < |init| && init[i] == p;
      assert props[i] == p;
      assert PropertyOf(MethodOf(p)) == p && PropertyOf(MethodOf(last)) == last;
    }
  }

  /** One refresh issues exactly the expected calls: colour, icon, badge text,
      tooltip, each only when its gate opens against the earlier state. */
  lemma RefreshCalls(avail: set<Method>, e: Engine, tab: TabId, j: Job)
    ensures ApplyJob(avail, e, tab, j).log == e.log + ExpectedCalls(avail, e.tabs, tab, j.state, j.force)
  {
    ButtonPropertiesDistinct();
    ApplyPropsLog(avail, e, tab, j.state, j.force, BUTTON_PROPERTIES);
    GatesInOrder(avail, e.tabs, tab, j.state, j.force);
  }

  lemma ButtonPropertiesDistinct()
    ensures DistinctProps(BUTTON_PROPERTIES)
  {
  }

  /** The gates of BUTTON_PROPERTIES are the four gates in that order. */
  lemma GatesInOrder(avail: set<Method>, tabs: map<TabId, TabData>, tab: TabId, vs: VisualState, force: bool)
    ensures Gates(avail, tabs, tab, vs, force, BUTTON_PROPERTIES) == ExpectedCalls(avail, tabs, tab, vs, force)
  {
    var P := BUTTON_PROPERTIES;
    assert P[..3][..2] == P[..2] && P[..2][..1] == P[..1] && P[..1][..0] == [];
    assert Gates(avail, tabs, tab, vs, force, P[..1]) == Gate(avail, tabs, tab, vs, force, ColorProperty);
    assert Gates(avail, tabs, tab, vs, force, P[..2])
        == Gates(avail, tabs, tab, vs, force, P[..1]) + Gate(avail, tabs, tab, vs, force, PathProperty);
    assert Gates(avail, tabs, tab, vs, force, P[..3])
        == Gates(avail, tabs, tab, vs, force, P[..2]) + Gate(avail, tabs, tab, vs, force, TextProperty);
    assert P[..|P| - 1] == P[..3];
  }

  /** A forced refresh pushes every available property and nothing else. */
  lemma ForcedRefreshPushesAll(avail: set<Method>, e: Engine, tab: TabId, vs: VisualState)
    ensures var calls := ApplyJob(avail, e, tab, Job(vs, true)).log[|e.log|..];
      (forall p :: MethodOf(p) in avail ==> Call(tab, MethodOf(p), ValueOf(vs, p)) in calls) &&
      (forall c :: c in calls ==> c.setter in avail && c == Call(tab, c.setter, ValueOf(vs, PropertyOf(c.setter))))
  {
    RefreshCalls(avail, e, tab, Job(vs, true));
    var r := ApplyJob(avail, e, tab, Job(vs, true));
    assert r.log[|e.log|..] == ExpectedCalls(avail, e.tabs, tab, vs, true);
    ForcedCalls(avail, e.tabs, tab, vs);
  }

  lemma ForcedCalls(avail: set<Method>, tabs: map<TabId, TabData>, tab: TabId, vs: VisualState)
    ensures var calls := ExpectedCalls(avail, tabs, tab, vs, true);
      (forall p :: MethodOf(p) in avail ==> Call(tab, MethodOf(p), ValueOf(vs, p)) in calls) &&
      (forall c :: c in calls ==> c.setter in avail && c == Call(tab, c.setter, ValueOf(vs, PropertyOf(c.setter))))
  {
    var g0 := Gate(avail, tabs, tab, vs, true, ColorProperty);
    var g1 := Gate(avail, tabs, tab, vs, true, PathProperty);
    var g2 := Gate(avail, tabs, tab, vs, true, TextProperty);
    var g3 := Gate(avail, tabs, tab, vs, true, TitleProperty);
    var calls := g0 + g1 + g2 + g3;
    forall c: Call | c in calls
      ensures c.setter in avail && c == Call(tab, c.setter, ValueOf(vs, PropertyOf(c.setter)))
    {
      assert c in g0 || c in g1 || c in g2 || c in g3;
    }
    forall p | MethodOf(p) in avail
      ensures Call(tab, MethodOf(p), ValueOf(vs, p)) in calls
    {
      match p
      case ColorProperty => assert g0 == [Call(tab, MethodOf(p), ValueOf(vs, p))];
      case PathProperty => assert g1 == [Call(tab, MethodOf(p), ValueOf(vs, p))];
      case TextProperty => assert g2 == [Call(tab, MethodOf(p), ValueOf(vs, p))];
      case TitleProperty => assert g3 == [Call(tab, MethodOf(p), ValueOf(vs, p))];
    }
  }

  /** The calls of one refresh follow the order of BUTTON_PROPERTIES: colour,
      icon, badge text, tooltip, each at most once. */
  lemma RefreshPushOrder(avail: set<Method>, e: Engine, tab: TabId, j: Job)
    ensures var r := ApplyJob(avail, e, tab, j);
      forall i, k :: |e.log| <= i < k < |r.log| ==> Rank(r.log[i].setter) < Rank(r.log[k].setter)
  {
    RefreshCalls(avail, e, tab, j);
    var r := ApplyJob(avail, e, tab, j);
    var calls := ExpectedCalls(avail, e.tabs, tab, j.state, j.force);
    ExpectedCallsIncrease(avail, e.tabs, tab, j.state, j.force);
    assert r.log == e.log + calls;
    forall i, k | |e.log| <= i < k < |r.log|
      ensures Rank(r.log[i].setter) < Rank(r.log[k].setter)
    {
      assert r.log[i] == calls[i - |e.log|] && r.log[k] == calls[k - |e.log|];
    }
  }

  /** The four gates, concatenated in BUTTON_PROPERTIES order, have strictly
      increasing setter ranks. */
  lemma ExpectedCallsIncrease(avail: set<Method>, tabs: map<TabId, TabData>, tab: TabId, vs: VisualState, force: bool)
    ensures Increasing(ExpectedCalls(avail, tabs, tab, vs, force))
  {
    var g0 := Gate(avail, tabs, tab, vs, force, ColorProperty);
    var g1 := Gate(avail, tabs, tab, vs, force, PathProperty);
    var g2 := Gate(avail, tabs, tab, vs, force, TextProperty);
    var g3 := Gate(avail, tabs, tab, vs, force, TitleProperty);
    GateRank(avail, tabs, tab, vs, force, ColorProperty);
    GateRank(avail, tabs, tab, vs, force, PathProperty);
    GateRank(avail, tabs, tab, vs, force, TextProperty);
    GateRank(avail, tabs, tab, vs, force, TitleProperty);
    assert Increasing(g0);
    RanksIncrease(g0, g1, 0);
    RanksIncrease(g0 + g1, g2, 1);
    RanksIncrease(g0 + g1 + g2, g3, 2);
  }

  lemma GateRank(avail: set<Method>, tabs: map<TabId, TabData>, tab: TabId, vs: VisualState, force: bool, p: Property)
    ensures var g := Gate(avail, tabs, tab, vs, force, p);
      |g| <= 1 && forall i :: 0 <= i < |g| ==> Rank(g[i].setter) == Rank(MethodOf(p))
  {
  }

  predicate Increasing(calls: seq<Call>)
  {
    forall i, k :: 0 <= i < k < |calls| ==> Rank(calls[i].setter) < Rank(calls[k].setter)
  }

  lemma RanksIncrease(a: seq<Call>, b: seq<Call>, n: nat)
    requires Increasing(a) && forall i :: 0 <= i < |a| ==> Rank(a[i].setter) <= n
    requires |b| <= 1 && forall i :: 0 <= i < |b| ==> Rank(b[i].setter) == n + 1
    ensures Increasing(a + b) && forall i :: 0 <= i < |a + b| ==> Rank((a + b)[i].setter) <= n + 1
  {
  }

  /** A state in which every available setter of `props` already holds the
      record's value is left unchanged by an unforced walk. */
  lemma {:induction false} SyncedIsFixpoint(avail: set<Method>, e: Engine, tab: TabId, vs: VisualState, props: seq<Property>)
    requires forall p :: p in props && MethodOf(p) in avail ==> Slot(e.tabs, tab, MethodOf(p)) == Some(ValueOf(vs, p))
    ensures ApplyProps(avail, e, tab, vs, false, props) == e
    decreases |props|
  {
    if props != [] {
      var init := props[..|props| - 1];
      var last := props[|props| - 1];
      assert forall p :: p in init ==> p in props;
      SyncedIsFixpoint(avail, e, tab, vs, init);
      var m := MethodOf(last);
      if m in avail {
        assert tab in e.tabs;
        var entry := e.tabs[tab];
        assert entry.(button := Some(entry.button.value)) == entry;
        assert e.tabs[tab := entry] == e.tabs;
      }
    }
  }

  /** Refreshing twice with the same record: the second, unforced refresh makes
      no native call and changes nothing. */
  lemma RefreshTwiceIsSilent(avail: set<Method>, e: Engine, tab: TabId, vs: VisualState, force: bool)
    ensures var e1 := ApplyJob(avail, e, tab, Job(vs, force));
      ApplyJob(avail, e1, tab, Job(vs, false)) == e1
  {
    var e1 := ApplyJob(avail, e, tab, Job(vs, force));
    ApplyPropsSlots(avail, e, tab, vs, force, BUTTON_PROPERTIES);
    SyncedIsFixpoint(avail, e1, tab, vs, BUTTON_PROPERTIES);
  }
}
