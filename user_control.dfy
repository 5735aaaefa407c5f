/**
 * The first-generation user control (src/UserControlBase.cs): it forwards its
 * view-model's five lifecycle notifications to its own hooks, and when it has no
 * view-model yet at initialisation it defers subscribing to its first Loaded event.
 * Event subscriptions are a multiset of handlers; the hooks called are a trace.
 */
module UserControl {
  import opened Wrappers
  import opened Lifecycle

  /** A handler this control can have on an event: a forwarding handler on the view-model, or LazyInitializer on Loaded. */
  datatype Handler = Forwarder(event: Event) | LazyInitializer

  /** The five forwarding handlers, one for each view-model notification. */
  const Forwarders: multiset<Handler> :=
    multiset{Forwarder(Init), Forwarder(Shutdown), Forwarder(Load), Forwarder(Unload), Forwarder(Update)}

  class UserControlBase {
    /** FrameworkElement.IsInitialized: OnInitialized has run. */
    var isInitialized: bool
    /** ViewModel != null. */
    var hasViewModel: bool
    /** m_lazyInitialize. */
    var lazyInitialize: bool
    /** The handlers currently subscribed, on the view-model's events and on Loaded. */
    var subscriptions: multiset<Handler>
    /** The hooks called so far (OnInitialize, OnShutdown, OnLoad, OnUnload, OnUpdate), by notification. */
    var hooks: seq<Event>

    /** The five forwarding handlers are subscribed all together or not at all. */
    predicate Subscribed()
      reads this
    {
      subscriptions[Forwarder(Init)] > 0
    }

    /**
     * Each handler is subscribed at most once; the five forwarding handlers come and go
     * together; while initialisation is deferred none of them is subscribed; nothing is
     * subscribed before OnInitialized.
     */
    ghost predicate Valid()
      reads this
    {
      && (forall h :: subscriptions[h] <= 1)
      && (forall e :: subscriptions[Forwarder(e)] == subscriptions[Forwarder(Init)])
      && (lazyInitialize ==> !Subscribed())
      && (!isInitialized ==> subscriptions == multiset{} && !lazyInitialize)
    }

    constructor ()
      ensures Valid() && !isInitialized && !hasViewModel && hooks == []
      ensures subscriptions == multiset{} && !lazyInitialize
    {
      isInitialized, hasViewModel, lazyInitialize := false, false, false;
      subscriptions := multiset{};
      hooks := [];
    }

    /** The ViewModel setter (DataContext): gives the control a view-model, or takes it away. */
    method SetViewModel(present: bool)
      requires Valid()
      modifies this
      ensures Valid() && hasViewModel == present
      ensures isInitialized == old(isInitialized) && lazyInitialize == old(lazyInitialize)
      ensures subscriptions == old(subscriptions) && hooks == old(hooks)
    {
      hasViewModel := present;
    }

    /** InitializeHandlers: subscribes the five forwarding handlers; with no view-model the first `+=` throws. */
    method InitializeHandlers() returns (outcome: Outcome)
      modifies this
      ensures outcome.Pass? <==> old(hasViewModel)
      ensures outcome.Fail? ==> outcome.error == NullReference && subscriptions == old(subscriptions)
      ensures outcome.Pass? ==> subscriptions == old(subscriptions) + Forwarders
      ensures isInitialized == old(isInitialized) && hasViewModel == old(hasViewModel)
      ensures lazyInitialize == old(lazyInitialize) && hooks == old(hooks)
    {
      if !hasViewModel {
        return Fail(NullReference);
      }
      subscriptions := subscriptions + multiset{Forwarder(Init)};
      subscriptions := subscriptions + multiset{Forwarder(Shutdown)};
      subscriptions := subscriptions + multiset{Forwarder(Load)};
      subscriptions := subscriptions + multiset{Forwarder(Unload)};
      subscriptions := subscriptions + multiset{Forwarder(Update)};
      outcome := Pass;
    }

    /**
     * ShutdownHandlers: unsubscribes the five forwarding handlers and LazyInitializer;
     * with no view-model the first `-=` throws.
     */
    method ShutdownHandlers() returns (outcome: Outcome)
      modifies this
      ensures outcome.Pass? <==> old(hasViewModel)
      ensures outcome.Fail? ==> outcome.error == NullReference && subscriptions == old(subscriptions)
      ensures outcome.Pass? ==> subscriptions == old(subscriptions) - Forwarders - multiset{LazyInitializer}
      ensures isInitialized == old(isInitialized) && hasViewModel == old(hasViewModel)
      ensures lazyInitialize == old(lazyInitialize) && hooks == old(hooks)
    {
      if !hasViewModel {
        return Fail(NullReference);
      }
      subscriptions := subscriptions - Forwarders;  // the five `-=` on the view-model's events
      subscriptions := subscriptions - multiset{LazyInitializer};
      outcome := Pass;
    }

    /**
     * OnInitialized (raised once by the framework): with a view-model the forwarding
     * handlers are subscribed and nothing is deferred; without one initialisation is
     * deferred. Either way LazyInitializer is put on Loaded. No hook is called here.
     */
    method OnInitialized()
      requires Valid() && !isInitialized
      modifies this
      ensures Valid() && isInitialized
      ensures lazyInitialize == !hasViewModel
      ensures subscriptions == (if hasViewModel then Forwarders else multiset{}) + multiset{LazyInitializer}
      ensures hasViewModel == old(hasViewModel) && hooks == old(hooks)
    {
      if hasViewModel {
        AddForwarders(subscriptions);
        var _ := InitializeHandlers();
        lazyInitialize := false;
      } else {
        lazyInitialize := true;
      }
      subscriptions := subscriptions + multiset{LazyInitializer};
      isInitialized := true;
    }

    /**
     * The control's Loaded event: runs LazyInitializer when it is subscribed. If
     * initialisation was deferred, it subscribes the forwarding handlers and then calls
     * OnInitialize and OnLoad and clears the flag; when the view-model is still missing,
     * subscribing throws and nothing changes. Otherwise nothing happens.
     */
    method Loaded() returns (outcome: Outcome)
      requires Valid()
      modifies this
      ensures Valid()
      ensures var runs := old(lazyInitialize) && old(subscriptions)[LazyInitializer] > 0;
        && (runs && old(hasViewModel) ==>
              outcome.Pass? && !lazyInitialize && hooks == old(hooks) + [Init, Load]
              && subscriptions == old(subscriptions) + Forwarders)
        && (runs && !old(hasViewModel) ==>
              outcome == Fail(NullReference) && lazyInitialize && hooks == old(hooks)
              && subscriptions == old(subscriptions))
        && (!runs ==>
              outcome.Pass? && lazyInitialize == old(lazyInitialize) && hooks == old(hooks)
              && subscriptions == old(subscriptions))
      ensures isInitialized == old(isInitialized) && hasViewModel == old(hasViewModel)
    {
      outcome := Pass;
      if subscriptions[LazyInitializer] > 0 && lazyInitialize {
        AddForwarders(subscriptions);
        outcome := InitializeHandlers();
        if outcome.Fail? {
          return;
        }
        hooks := hooks + [Init];
        hooks := hooks + [Load];
        lazyInitialize := false;
      }
    }

    /**
     * The view-model raises notification `e`. If the forwarding handler for `e` is
     * subscribed it calls the matching hook; the ShuttingDown handler then unsubscribes
     * everything (LazyInitializer too), which throws when the control has lost its
     * view-model. With no handler subscribed nothing happens.
     */
    method Deliver(e: Event) returns (outcome: Outcome)
      requires Valid()
      modifies this
      ensures Valid()
      ensures !old(Subscribed()) ==> outcome.Pass? && hooks == old(hooks) && subscriptions == old(subscriptions)
      ensures old(Subscribed()) ==> hooks == old(hooks) + [e]
      ensures e != Shutdown ==> outcome.Pass? && subscriptions == old(subscriptions)
      ensures e == Shutdown && old(Subscribed()) && hasViewModel ==> outcome.Pass? && subscriptions == multiset{}
      ensures e == Shutdown && old(Subscribed()) && !hasViewModel ==>
        outcome == Fail(NullReference) && subscriptions == old(subscriptions)
      ensures isInitialized == old(isInitialized) && hasViewModel == old(hasViewModel)
      ensures lazyInitialize == old(lazyInitialize)
    {
      outcome := Pass;
      if subscriptions[Forwarder(e)] == 0 {
        return;
      }
      hooks := hooks + [e];
      if e == Shutdown {
        ghost var before := subscriptions;
        outcome := ShutdownHandlers();
        if outcome.Pass? {
          AllRemoved(before);
        }
      }
    }
  }

  /** The five forwarding handlers occur once each in Forwarders, and nothing else occurs. */
  lemma ForwardersCount(h: Handler)
    ensures Forwarders[h] == if h.Forwarder? then 1 else 0
  {
    match h
    case LazyInitializer =>
    case Forwarder(e) =>
      match e
      case Init =>
      case Shutdown =>
      case Load =>
      case Unload =>
      case Update =>
  }

  /** Adding the five forwarding handlers to subscriptions holding none of them gives one of each. */
  lemma AddForwarders(s: multiset<Handler>)
    requires forall h :: s[h] <= 1
    requires forall e :: s[Forwarder(e)] == 0
    ensures forall h :: (s + Forwarders)[h] <= 1
    ensures forall e :: (s + Forwarders)[Forwarder(e)] == 1
    ensures (s + Forwarders)[LazyInitializer] == s[LazyInitializer]
  {
    forall h
      ensures (s + Forwarders)[h] == s[h] + (if h.Forwarder? then 1 else 0)
    {
      ForwardersCount(h);
    }
  }

  /** Removing the five forwarders and LazyInitializer from a multiset holding each at most once and all five empties it. */
  lemma AllRemoved(s: multiset<Handler>)
    requires forall h :: s[h] <= 1
    requires forall e :: s[Forwarder(e)] == s[Forwarder(Init)] && s[Forwarder(Init)] > 0
    ensures s - Forwarders - multiset{LazyInitializer} == multiset{}
  {
    var r := s - Forwarders - multiset{LazyInitializer};
    forall h
      ensures r[h] == 0
    {
      ForwardersCount(h);
    }
  }

  /**
   * A control initialised without a view-model and given one before it is first loaded:
   * the first Loaded calls OnInitialize and OnLoad, later Loaded events call nothing,
   * the view-model's notifications then reach their hooks, and after ShuttingDown none
   * of `later` reaches any hook.
   */
  method DeferredLifecycle(loads: nat, events: seq<Event>, later: seq<Event>)
    returns (hooks: seq<Event>, subscriptions: multiset<Handler>)
    requires Shutdown !in events
    ensures hooks == [Init, Load] + events + [Shutdown]
    ensures subscriptions == multiset{}
  {
    var c := new UserControlBase();
    c.OnInitialized();
    c.SetViewModel(true);
    var _ := c.Loaded();
    var i := 0;
    while i < loads
      invariant c.Valid() && c.hasViewModel && !c.lazyInitialize && c.Subscribed()
      invariant c.hooks == [Init, Load]
    {
      var _ := c.Loaded();
      i := i + 1;
    }
    i := 0;
    while i < |events|
      invariant 0 <= i <= |events|
      invariant c.Valid() && c.hasViewModel && c.Subscribed()
      invariant c.hooks == [Init, Load] + events[..i]
    {
      var _ := c.Deliver(events[i]);
      i := i + 1;
    }
    var _ := c.Deliver(Shutdown);
    i := 0;
    while i < |later|
      invariant 0 <= i <= |later|
      invariant c.Valid() && c.subscriptions == multiset{}
      invariant c.hooks == [Init, Load] + events + [Shutdown]
    {
      var _ := c.Deliver(later[i]);
      i := i + 1;
    }
    hooks, subscriptions := c.hooks, c.subscriptions;
  }
}
