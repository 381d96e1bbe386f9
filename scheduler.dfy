/** The refresh scheduler: each tab's `pendingRefresh` chain as an explicit queue of
    jobs. `refresh` appends a job (extension/ui/bg/ui-button.js:191-205); a step of
    the chain takes the head job and runs refreshAsync on it. */
module Scheduler {
  import opened ButtonTypes
  import opened DiffGate

  function SetEntry(e: Engine, tab: TabId, x: TabData): Engine
  {
    e.(tabs := e.tabs[tab := x])
  }

  /** The same state with `tab`'s queue replaced. */
  function WithQueue(e: Engine, tab: TabId, q: seq<Job>): Engine
  {
    SetEntry(e, tab, Entry(e.tabs, tab).(queue := q))
  }

  /** refresh: the tab's entry is created when missing and the job is chained
      after the current tail; nothing runs yet. */
  function Enqueued(e: Engine, tab: TabId, j: Job): (r: Engine)
    ensures QueueOf(r.tabs, tab) == QueueOf(e.tabs, tab) + [j]
    ensures ButtonOf(r.tabs, tab) == ButtonOf(e.tabs, tab)
    ensures tab in r.tabs && SameOutside(e.tabs, r.tabs, tab) && r.log == e.log
    ensures WellTypedTabs(e.tabs) ==> WellTypedTabs(r.tabs)
  {
    var entry := Entry(e.tabs, tab);
    SetEntry(e, tab, entry.(queue := entry.queue + [j]))
  }

  /** The tab's snapshot set to null when the tab has an entry
      (`tabsData[tabId].button = null`). */
  function ClearButton(e: Engine, tab: TabId): (r: Engine)
    ensures ButtonOf(r.tabs, tab).None? && QueueOf(r.tabs, tab) == QueueOf(e.tabs, tab)
    ensures r.tabs.Keys == e.tabs.Keys && SameOutside(e.tabs, r.tabs, tab) && r.log == e.log
    ensures WellTypedTabs(e.tabs) ==> WellTypedTabs(r.tabs)
  {
    if tab in e.tabs then SetEntry(e, tab, e.tabs[tab].(button := None)) else e
  }

  /** One turn of the tab's chain: the head job leaves the queue and is run
      through refreshAsync; an empty chain does nothing. */
  function Stepped(avail: set<Method>, e: Engine, tab: TabId): (r: Engine)
    ensures QueueOf(e.tabs, tab) == [] ==> r == e
    ensures QueueOf(e.tabs, tab) != [] ==> QueueOf(r.tabs, tab) == QueueOf(e.tabs, tab)[1..]
    ensures SameOutside(e.tabs, r.tabs, tab) && (tab in e.tabs ==> tab in r.tabs)
    ensures |e.log| <= |r.log| && r.log[..|e.log|] == e.log
    ensures forall i :: |e.log| <= i < |r.log| ==> r.log[i].tab == tab
    ensures WellTypedTabs(e.tabs) ==> WellTypedTabs(r.tabs)
  {
    var q := QueueOf(e.tabs, tab);
    if q == [] then e else ApplyJob(avail, WithQueue(e, tab, q[1..]), tab, q[0])
  }

  /** `n` turns of one tab's chain: other tabs are untouched and every call
      logged is for this tab. */
  function Steps(avail: set<Method>, e: Engine, tab: TabId, n: nat): (r: Engine)
    ensures SameOutside(e.tabs, r.tabs, tab) && (tab in e.tabs ==> tab in r.tabs)
    ensures |e.log| <= |r.log| && r.log[..|e.log|] == e.log
    ensures forall i :: |e.log| <= i < |r.log| ==> r.log[i].tab == tab
    decreases n
  {
    if n == 0 then e
    else
      var s := Stepped(avail, e, tab);
      var r := Steps(avail, s, tab, n - 1);
      LogsCompose(e.log, s.log, r.log, tab);
      r
  }

  /** Two log extensions by calls for `tab` make one. */
  lemma LogsCompose(a: seq<Call>, b: seq<Call>, c: seq<Call>, tab: TabId)
    requires |a| <= |b| && b[..|a|] == a && forall i :: |a| <= i < |b| ==> b[i].tab == tab
    requires |b| <= |c| && c[..|b|] == b && forall i :: |b| <= i < |c| ==> c[i].tab == tab
    ensures |a| <= |c| && c[..|a|] == a && forall i :: |a| <= i < |c| ==> c[i].tab == tab
  {
    assert forall i :: |a| <= i < |b| ==> c[i] == b[i];
  }

  /** The jobs run one after the other, in the order given. */
  function RunJobs(avail: set<Method>, e: Engine, tab: TabId, jobs: seq<Job>): Engine
    decreases |jobs|
  {
    if jobs == [] then e else RunJobs(avail, ApplyJob(avail, e, tab, jobs[0]), tab, jobs[1..])
  }

  // ---------------------------------------------------------------- refreshes ignore queues

  lemma PushPropertyWithQueue(avail: set<Method>, e: Engine, tab: TabId, p: Property, vs: VisualState, force: bool, q: seq<Job>)
    ensures PushProperty(avail, WithQueue(e, tab, q), tab, p, vs, force) == WithQueue(PushProperty(avail, e, tab, p, vs, force), tab, q)
  {
    var entry := Entry(e.tabs, tab);
    var entry' := entry.(queue := q);
    assert Entry(WithQueue(e, tab, q).tabs, tab) == entry';
    if MethodOf(p) in avail {
      var m := MethodOf(p);
      var slots := if entry.button.Some? then entry.button.value else map[];
      var b := if force || m !in slots || slots[m] != ValueOf(vs, p) then slots[m := ValueOf(vs, p)] else slots;
      assert entry'.(button := Some(b)) == entry.(button := Some(b)).(queue := q);
      assert e.tabs[tab := entry'][tab := entry'.(button := Some(b))] == e.tabs[tab := entry.(button := Some(b))][tab := entry.(button := Some(b)).(queue := q)];
    }
  }

  lemma {:induction false} ApplyPropsWithQueue(avail: set<Method>, e: Engine, tab: TabId, vs: VisualState, force: bool, props: seq<Property>, q: seq<Job>)
    ensures ApplyProps(avail, WithQueue(e, tab, q), tab, vs, force, props) == WithQueue(ApplyProps(avail, e, tab, vs, force, props), tab, q)
    decreases |props|
  {
    if props != [] {
      var init := props[..|props| - 1];
      ApplyPropsWithQueue(avail, e, tab, vs, force, init, q);
      PushPropertyWithQueue(avail, ApplyProps(avail, e, tab, vs, force, init), tab, props[|props| - 1], vs, force, q);
    }
  }

  lemma PushPropertyOtherEntry(avail: set<Method>, e: Engine, tab: TabId, p: Property, vs: VisualState, force: bool, t: TabId, x: TabData)
    requires t != tab
    ensures PushProperty(avail, SetEntry(e, t, x), tab, p, vs, force) == SetEntry(PushProperty(avail, e, tab, p, vs, force), t, x)
  {
    var entry := Entry(e.tabs, tab);
    assert Entry(SetEntry(e, t, x).tabs, tab) == entry;
    if MethodOf(p) in avail {
      var m := MethodOf(p);
      var slots := if entry.button.Some? then entry.button.value else map[];
      var b := if force || m !in slots || slots[m] != ValueOf(vs, p) then slots[m := ValueOf(vs, p)] else slots;
      assert e.tabs[t := x][tab := entry.(button := Some(b))] == e.tabs[tab := entry.(button := Some(b))][t := x];
    }
  }

  lemma {:induction false} ApplyPropsOtherEntry(avail: set<Method>, e: Engine, tab: TabId, vs: VisualState, force: bool, props: seq<Property>, t: TabId, x: TabData)
    requires t != tab
    ensures ApplyProps(avail, SetEntry(e, t, x), tab, vs, force, props) == SetEntry(ApplyProps(avail, e, tab, vs, force, props), t, x)
    decreases |props|
  {
    if props != [] {
      var init := props[..|props| - 1];
      ApplyPropsOtherEntry(avail, e, tab, vs, force, init, t, x);
      PushPropertyOtherEntry(avail, ApplyProps(avail, e, tab, vs, force, init), tab, props[|props| - 1], vs, force, t, x);
    }
  }

  // ---------------------------------------------------------------- per-tab FIFO

  lemma WithQueueTwice(e: Engine, tab: TabId, q1: seq<Job>, q2: seq<Job>)
    ensures WithQueue(WithQueue(e, tab, q1), tab, q2) == WithQueue(e, tab, q2)
  {
    assert Entry(WithQueue(e, tab, q1).tabs, tab).(queue := q2) == Entry(e.tabs, tab).(queue := q2);
  }

  lemma WithOwnQueue(e: Engine, tab: TabId)
    requires tab in e.tabs
    ensures WithQueue(e, tab, QueueOf(e.tabs, tab)) == e
  {
    assert e.tabs[tab].(queue := e.tabs[tab].queue) == e.tabs[tab];
  }

  /** A turn of the chain followed by replacing the queue is the head job run
      on the state with the replaced queue. */
  lemma SteppedThenRequeued(avail: set<Method>, e: Engine, tab: TabId, q': seq<Job>)
    requires QueueOf(e.tabs, tab) != []
    ensures var q := QueueOf(e.tabs, tab);
      WithQueue(Stepped(avail, e, tab), tab, q') == ApplyJob(avail, WithQueue(e, tab, q'), tab, q[0])
  {
    var q := QueueOf(e.tabs, tab);
    ApplyPropsWithQueue(avail, WithQueue(e, tab, q[1..]), tab, q[0].state, q[0].force, BUTTON_PROPERTIES, q');
    WithQueueTwice(e, tab, q[1..], q');
  }

  /** Draining `n` jobs of a tab's chain runs exactly its first `n` queued
      records, oldest first, and leaves the rest queued. */
  lemma {:induction false} StepsFollowQueueOrder(avail: set<Method>, e: Engine, tab: TabId, n: nat)
    requires tab in e.tabs && n <= |QueueOf(e.tabs, tab)|
    ensures var q := QueueOf(e.tabs, tab);
      Steps(avail, e, tab, n) == RunJobs(avail, WithQueue(e, tab, q[n..]), tab, q[..n])
    decreases n
  {
    var q := QueueOf(e.tabs, tab);
    if n == 0 {
      assert q[0..] == q;
      WithOwnQueue(e, tab);
    } else {
      var e1 := Stepped(avail, e, tab);
      assert QueueOf(e1.tabs, tab) == q[1..] && tab in e1.tabs;
      StepsFollowQueueOrder(avail, e1, tab, n - 1);
      TailSlices(q, n);
      FirstTurnRunsHead(avail, e, tab, n);
    }
  }

  lemma TailSlices(q: seq<Job>, n: nat)
    requires 0 < n <= |q|
    ensures q[1..][n - 1..] == q[n..] && q[1..][..n - 1] == q[1..n]
  {
  }

  /** The first turn of the chain runs the head job: running the rest of the
      first `n` jobs afterwards is running all `n` from the start. */
  lemma FirstTurnRunsHead(avail: set<Method>, e: Engine, tab: TabId, n: nat)
    requires 0 < n <= |QueueOf(e.tabs, tab)|
    ensures var q := QueueOf(e.tabs, tab);
      RunJobs(avail, WithQueue(Stepped(avail, e, tab), tab, q[n..]), tab, q[1..n])
        == RunJobs(avail, WithQueue(e, tab, q[n..]), tab, q[..n])
  {
    var q := QueueOf(e.tabs, tab);
    SteppedThenRequeued(avail, e, tab, q[n..]);
    assert q[..n][0] == q[0] && q[..n][1..] == q[1..n];
  }

  /** After a run of jobs, every available setter of the tab holds the value of
      the last record run. */
  lemma {:induction false} LastJobWins(avail: set<Method>, e: Engine, tab: TabId, jobs: seq<Job>)
    requires jobs != []
    ensures forall p :: MethodOf(p) in avail ==>
      Slot(RunJobs(avail, e, tab, jobs).tabs, tab, MethodOf(p)) == Some(ValueOf(jobs[|jobs| - 1].state, p))
    decreases |jobs|
  {
    var e1 := ApplyJob(avail, e, tab, jobs[0]);
    if |jobs| == 1 {
      assert RunJobs(avail, e, tab, jobs) == e1;
      ApplyPropsSlots(avail, e, tab, jobs[0].state, jobs[0].force, BUTTON_PROPERTIES);
      forall p | MethodOf(p) in avail
        ensures Slot(e1.tabs, tab, MethodOf(p)) == Some(ValueOf(jobs[0].state, p))
      {
        AllPropertiesListed(p);
      }
    } else {
      LastJobWins(avail, e1, tab, jobs[1..]);
      assert jobs[1..][|jobs[1..]| - 1] == jobs[|jobs| - 1];
    }
  }

  /** A sequence of refresh calls on one tab, in call order. */
  function EnqueuedAll(e: Engine, tab: TabId, js: seq<Job>): (r: Engine)
    ensures QueueOf(r.tabs, tab) == QueueOf(e.tabs, tab) + js
    ensures ButtonOf(r.tabs, tab) == ButtonOf(e.tabs, tab)
    ensures (js != [] || tab in e.tabs) ==> tab in r.tabs
    ensures SameOutside(e.tabs, r.tabs, tab) && r.log == e.log
    decreases |js|
  {
    if js == [] then e else EnqueuedAll(Enqueued(e, tab, js[0]), tab, js[1..])
  }

  /** Records reach refreshAsync in the order refresh was called: refreshing a
      tab whose chain is idle with `js` and letting the chain run |js| turns runs
      exactly `js`, in that order. */
  lemma RefreshOrderIsRunOrder(avail: set<Method>, e: Engine, tab: TabId, js: seq<Job>)
    requires QueueOf(e.tabs, tab) == [] && js != []
    ensures var queued := EnqueuedAll(e, tab, js);
      Steps(avail, queued, tab, |js|) == RunJobs(avail, WithQueue(queued, tab, []), tab, js)
  {
    var queued := EnqueuedAll(e, tab, js);
    StepsFollowQueueOrder(avail, queued, tab, |js|);
    assert QueueOf(queued.tabs, tab) == js;
    assert js[|js|..] == [] && js[..|js|] == js;
  }

  /** The same record refreshed twice on an idle tab: once the chain has run the
      first, the second turn empties the queue and changes nothing else, so it
      makes no native call. */
  lemma QueuedTwiceIsSilent(avail: set<Method>, e: Engine, tab: TabId, vs: VisualState, force: bool)
    requires QueueOf(e.tabs, tab) == []
    ensures var e1 := Stepped(avail, EnqueuedAll(e, tab, [Job(vs, force), Job(vs, false)]), tab);
      Stepped(avail, e1, tab) == WithQueue(e1, tab, []) && Stepped(avail, e1, tab).log == e1.log
  {
    var e0 := EnqueuedAll(e, tab, [Job(vs, force), Job(vs, false)]);
    var e1 := Stepped(avail, e0, tab);
    assert QueueOf(e0.tabs, tab) == [Job(vs, force), Job(vs, false)];
    assert QueueOf(e1.tabs, tab) == [Job(vs, false)];
    SteppedThenRequeued(avail, e0, tab, []);
    RefreshTwiceIsSilent(avail, WithQueue(e0, tab, []), tab, vs, force);
  }

  // ---------------------------------------------------------------- tabs are independent

  /** Queuing a job on one tab and running a turn of another tab's chain commute. */
  lemma TabsAreIndependent(avail: set<Method>, e: Engine, t1: TabId, j: Job, t2: TabId)
    requires t1 != t2
    ensures Stepped(avail, Enqueued(e, t1, j), t2) == Enqueued(Stepped(avail, e, t2), t1, j)
  {
    var x := Entry(e.tabs, t1).(queue := Entry(e.tabs, t1).queue + [j]);
    var e' := Enqueued(e, t1, j);
    assert e' == SetEntry(e, t1, x);
    var q := QueueOf(e.tabs, t2);
    assert QueueOf(e'.tabs, t2) == q;
    if q != [] {
      var w := WithQueue(e, t2, q[1..]);
      assert WithQueue(e', t2, q[1..]) == SetEntry(w, t1, x);
      ApplyPropsOtherEntry(avail, w, t2, q[0].state, q[0].force, BUTTON_PROPERTIES, t1, x);
      var s := Stepped(avail, e, t2);
      assert Entry(s.tabs, t1) == Entry(e.tabs, t1);
    }
  }
}
