/**
 * The demo application's view-models (test/TabPageVM.cs, test/MainVM.cs): tab pages that
 * load and unload on visibility edges, and a main window that owns three tab pages,
 * switches between two tab sets and forwards its lifecycle to the tabs. Every
 * view-model raises its lifecycle notifications into one shared event log, tagged with
 * its id (the window is 0, the tabs 1, 2 and 3), so the log records the order of calls
 * across objects.
 */
module DemoApp {
  import opened Wrappers
  import opened Lifecycle
  import WindowVM
  import StatusCountdown

  /**
   * What SetVisibility adds to the log of tab `id` when its visibility goes from `was`
   * to `now`: one Unload on a visible-to-hidden edge, one Load on a hidden-to-visible
   * edge, nothing otherwise, and never an Update.
   */
  function EdgeNotices(id: nat, was: bool, now: bool): (ns: seq<Notice>)
    ensures |ns| == if was == now then 0 else 1
    ensures was && !now ==> ns == [Notice(id, Unload)]
    ensures !was && now ==> ns == [Notice(id, Load)]
    ensures forall n :: n in ns ==> n.source == id && n.event != Update
  {
    if was && !now then [Notice(id, Unload)]
    else if now && !was then [Notice(id, Load)]
    else []
  }

  class TabPageVM {
    const id: nat
    const log: EventLog
    var title: Nullable<string>
    var mainWindow: MainVM?
    var isVisible: bool  // m_isVisible

    constructor (id: nat, log: EventLog, title: string)
      ensures this.id == id && this.log == log && this.title == Some(title)
      ensures mainWindow == null && !isVisible
    {
      this.id, this.log, this.title := id, log, Some(title);
      mainWindow := null;
      isVisible := false;
    }

    // The lifecycle operations of the UserControlVM base class, which raise their notification.

    method Init()
      modifies log
      ensures log.entries == old(log.entries) + [Notice(id, Event.Init)]
    {
      log.Fire(id, Event.Init);
    }

    method Shutdown()
      modifies log
      ensures log.entries == old(log.entries) + [Notice(id, Event.Shutdown)]
    {
      log.Fire(id, Event.Shutdown);
    }

    method Load()
      modifies log
      ensures log.entries == old(log.entries) + [Notice(id, Event.Load)]
    {
      log.Fire(id, Event.Load);
    }

    method Unload()
      modifies log
      ensures log.entries == old(log.entries) + [Notice(id, Event.Unload)]
    {
      log.Fire(id, Event.Unload);
    }

    method Update()
      modifies log
      ensures log.entries == old(log.entries) + [Notice(id, Event.Update)]
    {
      log.Fire(id, Event.Update);
    }

    /** The Title setter: stores the title and calls no lifecycle operation. */
    method SetTitle(t: Nullable<string>)
      modifies this
      ensures title == t && isVisible == old(isVisible) && mainWindow == old(mainWindow)
    {
      title := t;
    }

    /** The MainWindow setter: stores the reference and calls no lifecycle operation. */
    method SetMainWindow(w: MainVM?)
      modifies this
      ensures mainWindow == w && isVisible == old(isVisible) && title == old(title)
    {
      mainWindow := w;
    }

    /** The IsVisible setter (SetVisibility): stores the value and unloads or loads on an edge. */
    method SetIsVisible(visible: bool)
      modifies this, log
      ensures isVisible == visible
      ensures log.entries == old(log.entries) + EdgeNotices(id, old(isVisible), visible)
      ensures title == old(title) && mainWindow == old(mainWindow)
    {
      var wasVisible := isVisible;
      isVisible := visible;
      if wasVisible && !isVisible {
        Unload();
      }
      if isVisible && !wasVisible {
        Load();
      }
    }
  }

  /**
   * `Tabs.IndexOf(Tabs.Where(x => x.IsVisible).FirstOrDefault())` over the tabs'
   * visibilities: the index of the first visible tab, or -1 when none is visible.
   */
  function FirstVisibleIndex(visible: seq<bool>): (k: int)
    ensures -1 <= k < |visible|
    ensures k >= 0 ==> visible[k] && forall j :: 0 <= j < k ==> !visible[j]
    ensures k == -1 <==> forall j :: 0 <= j < |visible| ==> !visible[j]
  {
    if visible == [] then -1
    else if visible[0] then 0
    else
      var k := FirstVisibleIndex(visible[1..]);
      if k == -1 then -1 else k + 1
  }

  /** The visibilities SwitchTabSets gives [vectors, status text, extras] for tab set `tabSet`. */
  function TabSetVisibility(tabSet: int): seq<bool> {
    [tabSet == 0, tabSet == 0, tabSet == 1]
  }

  /**
   * Tab set 0 selects the vectors tab, tab set 1 the extras tab, and any other tab set
   * leaves every tab hidden and selects nothing.
   */
  lemma {:induction false} SelectedTabOfSet(tabSet: int)
    ensures FirstVisibleIndex(TabSetVisibility(tabSet)) == if tabSet == 0 then 0 else if tabSet == 1 then 2 else -1
  {
    var v := TabSetVisibility(tabSet);
    if tabSet != 0 {
      assert v[1..][1..] == [tabSet == 1];
      assert FirstVisibleIndex(v[1..][1..]) == if tabSet == 1 then 0 else -1;
    }
  }

  /** One notification of `e` from each of the tabs 1, 2 and 3, in list order. */
  /** The Status the status-text page's constructor sets, which its Init shows in the window. */
  const ReadyStatus := "Ready."

  function TabNotices(e: Event): seq<Notice> {
    [Notice(1, e), Notice(2, e), Notice(3, e)]
  }

  class MainVM {
    /** The WindowVM part of the object (id 0). */
    const window: WindowVM.WindowVM
    const vectorsTab: TabPageVM
    const statusTextTab: TabPageVM
    const extrasTab: TabPageVM
    const log: EventLog

    var selectedTabIndex: int
    var selectedTabSet: int
    var initialized: bool

    /** The tab list, fixed by the constructor. */
    function Tabs(): seq<TabPageVM> {
      [vectorsTab, statusTextTab, extrasTab]
    }

    /** The tabs' visibilities, in list order. */
    function Visible(): seq<bool>
      reads vectorsTab, statusTextTab, extrasTab
    {
      [vectorsTab.isVisible, statusTextTab.isVisible, extrasTab.isVisible]
    }

    /** Every part raises into the same log, under ids 0 (the window) and 1, 2, 3 (the tabs). */
    predicate Valid() {
      && window.log == log && vectorsTab.log == log && statusTextTab.log == log && extrasTab.log == log
      && window.id == 0 && vectorsTab.id == 1 && statusTextTab.id == 2 && extrasTab.id == 3
    }

    constructor (log: EventLog)
      ensures Valid() && this.log == log
      ensures [vectorsTab.title, statusTextTab.title, extrasTab.title] == [Some("Vectors"), Some("Status Text"), Some("Extras")]
      ensures forall t :: t in Tabs() ==> t.mainWindow == this
      ensures Visible() == [false, false, false]
      ensures selectedTabIndex == 0 && selectedTabSet == 0 && !initialized
      ensures fresh(window) && fresh(vectorsTab) && fresh(statusTextTab) && fresh(extrasTab)
    {
      this.log := log;
      window := new WindowVM.WindowVM(0, log);
      vectorsTab := new TabPageVM(1, log, "Vectors");
      statusTextTab := new TabPageVM(2, log, "Status Text");
      extrasTab := new TabPageVM(3, log, "Extras");
      selectedTabIndex, selectedTabSet, initialized := 0, 0, false;
      new;
      vectorsTab.SetMainWindow(this);
      statusTextTab.SetMainWindow(this);
      extrasTab.SetMainWindow(this);
    }

    /**
     * InitAllTabs: calls Init on each tab once, in list order. The status-text page's Init
     * override (StatusTextVM) then shows its Status, "Ready.", in the main window.
     */
    method InitAllTabs()
      requires Valid()
      modifies log, window
      ensures log.entries == old(log.entries) + TabNotices(Event.Init)
      ensures window.Status() == StatusCountdown.SetStatus(old(window.Status()), Some(ReadyStatus))
      ensures window.tickHandlers == old(window.tickHandlers) && window.requests == old(window.requests)
      ensures window.title == old(window.title)
    {
      var tabs := Tabs();
      var i := 0;
      while i < |tabs|
        invariant 0 <= i <= |tabs|
        invariant log.entries == old(log.entries) + TabNotices(Event.Init)[..i]
        invariant window.Status() == if i <= 1 then old(window.Status()) else StatusCountdown.SetStatus(old(window.Status()), Some(ReadyStatus))
        invariant window.tickHandlers == old(window.tickHandlers) && window.requests == old(window.requests)
        invariant window.title == old(window.title)
      {
        tabs[i].Init();
        if tabs[i] == statusTextTab {
          window.SetStatusText(Some(ReadyStatus));
        }
        i := i + 1;
      }
    }

    /** ShutdownAllTabs: calls Shutdown on each tab once, in list order. */
    method ShutdownAllTabs()
      requires Valid()
      modifies log
      ensures log.entries == old(log.entries) + TabNotices(Event.Shutdown)
    {
      var tabs := Tabs();
      var i := 0;
      while i < |tabs|
        invariant 0 <= i <= |tabs|
        invariant log.entries == old(log.entries) + TabNotices(Event.Shutdown)[..i]
      {
        tabs[i].Shutdown();
        i := i + 1;
      }
    }

    /** UpdateActiveTab: calls Update on the first visible tab, and on nothing when none is visible. */
    method UpdateActiveTab()
      requires Valid()
      modifies log
      ensures var k := FirstVisibleIndex(Visible());
        log.entries == old(log.entries) + (if k >= 0 then [Notice(k + 1, Event.Update)] else [])
    {
      var k := FirstVisibleIndex(Visible());
      if k >= 0 {
        Tabs()[k].Update();
      }
    }

    /**
     * SwitchTabSets: shows vectors and status text exactly for tab set 0 and extras exactly
     * for tab set 1 (each tab loading or unloading on its edge), then selects the first
     * visible tab.
     */
    method SwitchTabSets()
      requires Valid()
      modifies this, vectorsTab, statusTextTab, extrasTab, log
      ensures Visible() == TabSetVisibility(selectedTabSet)
      ensures selectedTabIndex == FirstVisibleIndex(Visible())
      ensures log.entries == old(log.entries)
        + EdgeNotices(1, old(vectorsTab.isVisible), selectedTabSet == 0)
        + EdgeNotices(2, old(statusTextTab.isVisible), selectedTabSet == 0)
        + EdgeNotices(3, old(extrasTab.isVisible), selectedTabSet == 1)
      ensures selectedTabSet == old(selectedTabSet) && initialized == old(initialized)
      ensures window.Status() == old(window.Status()) && window.tickHandlers == old(window.tickHandlers)
      ensures vectorsTab.title == old(vectorsTab.title) && statusTextTab.title == old(statusTextTab.title)
        && extrasTab.title == old(extrasTab.title)
      ensures vectorsTab.mainWindow == old(vectorsTab.mainWindow) && statusTextTab.mainWindow == old(statusTextTab.mainWindow)
        && extrasTab.mainWindow == old(extrasTab.mainWindow)
    {
      vectorsTab.SetIsVisible(selectedTabSet == 0);
      statusTextTab.SetIsVisible(selectedTabSet == 0);
      extrasTab.SetIsVisible(selectedTabSet == 1);
      selectedTabIndex := FirstVisibleIndex(Visible());
    }

    /**
     * Init: the window's Init, then every tab's Init; Initialized is set last. The
     * status-text page leaves "Ready." shown with no countdown pending.
     */
    method Init()
      requires Valid()
      modifies this, window, log
      ensures log.entries == old(log.entries) + [Notice(0, Event.Init)] + TabNotices(Event.Init)
      ensures initialized
      ensures window.tickHandlers == old(window.tickHandlers) + 1
      ensures selectedTabIndex == old(selectedTabIndex) && selectedTabSet == old(selectedTabSet)
      ensures window.Status() == StatusCountdown.SetStatus(old(window.Status()), Some(ReadyStatus))
      ensures window.Status().text == Some(ReadyStatus) && !window.Status().enabled
      ensures window.requests == old(window.requests) && window.title == old(window.title)
    {
      window.Init();
      InitAllTabs();
      initialized := true;
    }

    /** Shutdown: the window's Shutdown, then every tab's Shutdown. */
    method Shutdown()
      requires Valid()
      modifies window, log
      ensures log.entries == old(log.entries) + [Notice(0, Event.Shutdown)] + TabNotices(Event.Shutdown)
      ensures window.tickHandlers == if old(window.tickHandlers) > 0 then old(window.tickHandlers) - 1 else 0
      ensures window.Status() == old(window.Status()) && window.requests == old(window.requests) && window.title == old(window.title)
    {
      window.Shutdown();
      ShutdownAllTabs();
    }

    /** Load: the window's Load, then SwitchTabSets, then UpdateActiveTab. */
    method Load()
      requires Valid()
      modifies this, vectorsTab, statusTextTab, extrasTab, log
      ensures Visible() == TabSetVisibility(selectedTabSet)
      ensures selectedTabIndex == FirstVisibleIndex(Visible())
      ensures log.entries == old(log.entries) + [Notice(0, Event.Load)]
        + EdgeNotices(1, old(vectorsTab.isVisible), selectedTabSet == 0)
        + EdgeNotices(2, old(statusTextTab.isVisible), selectedTabSet == 0)
        + EdgeNotices(3, old(extrasTab.isVisible), selectedTabSet == 1)
        + (if selectedTabIndex >= 0 then [Notice(selectedTabIndex + 1, Event.Update)] else [])
      ensures selectedTabSet == old(selectedTabSet) && initialized == old(initialized)
      ensures vectorsTab.title == old(vectorsTab.title) && statusTextTab.title == old(statusTextTab.title)
        && extrasTab.title == old(extrasTab.title)
      ensures vectorsTab.mainWindow == old(vectorsTab.mainWindow) && statusTextTab.mainWindow == old(statusTextTab.mainWindow)
        && extrasTab.mainWindow == old(extrasTab.mainWindow)
    {
      window.Load();
      SwitchTabSets();
      UpdateActiveTab();
    }
  }

  /**
   * The demo's start-up as the window drives it (Init, then Load) for tab set `tabSet`: the
   * window initialises before the tabs, the tabs of the chosen set load in list order,
   * and only the selected tab is updated.
   */
  method StartUp(tabSet: int) returns (entries: seq<Notice>, selected: int)
    ensures selected == if tabSet == 0 then 0 else if tabSet == 1 then 2 else -1
    ensures entries ==
      [Notice(0, Init)] + TabNotices(Init) + [Notice(0, Load)]
      + (if tabSet == 0 then [Notice(1, Load), Notice(2, Load), Notice(1, Update)]
         else if tabSet == 1 then [Notice(3, Load), Notice(3, Update)]
         else [])
  {
    var log := new EventLog();
    var main := new MainVM(log);
    main.selectedTabSet := tabSet;
    main.Init();
    main.Load();
    SelectedTabOfSet(tabSet);
    entries, selected := log.entries, main.selectedTabIndex;
  }
}
