/**
 * The second-generation user control (ToolUI/UserControlBase.cs): at initialisation it
 * subscribes its five forwarding handlers to the view-model, each handler calls the
 * matching hook, and the ShuttingDown handler calls OnShutdown and then unsubscribes all
 * five. There is no deferred path: the view-model must already be there.
 */
module ToolUserControl {
  import opened Wrappers
  import opened Lifecycle

  /** The five forwarding handlers, one for each view-model notification. */
  const Forwarders: multiset<Event> := multiset{Init, Shutdown, Load, Unload, Update}

  lemma ForwardersCount(e: Event)
    ensures Forwarders[e] == 1
  {
    match e
    case Init =>
    case Shutdown =>
    case Load =>
    case Unload =>
    case Update =>
  }

  class UserControlBase {
    /** FrameworkElement.IsInitialized: OnInitialized has run. */
    var isInitialized: bool
    /** ViewModel != null. */
    var hasViewModel: bool
    /** The forwarding handlers currently on the view-model's events, by the event they handle. */
    var subscriptions: multiset<Event>
    /** The hooks called so far (OnInitialize, OnShutdown, OnLoad, OnUnload, OnUpdate), by notification. */
    var hooks: seq<Event>

    /** The five handlers are subscribed once each, or none of them is. */
    ghost predicate Valid()
      reads this
    {
      && (subscriptions == multiset{} || subscriptions == Forwarders)
      && (!isInitialized ==> subscriptions == multiset{})
    }

    constructor ()
      ensures Valid() && !isInitialized && !hasViewModel
      ensures subscriptions == multiset{} && hooks == []
    {
      isInitialized, hasViewModel := false, false;
      subscriptions := multiset{};
      hooks := [];
    }

    /** The ViewModel setter (DataContext). */
    method SetViewModel(present: bool)
      requires Valid()
      modifies this
      ensures Valid() && hasViewModel == present
      ensures isInitialized == old(isInitialized) && subscriptions == old(subscriptions) && hooks == old(hooks)
    {
      hasViewModel := present;
    }

    /**
     * OnInitialized (raised once by the framework): subscribes the five handlers; with no
     * view-model the first `+=` throws and nothing is subscribed.
     */
    method OnInitialized() returns (outcome: Outcome)
      requires Valid() && !isInitialized
      modifies this
      ensures Valid() && isInitialized
      ensures outcome.Pass? <==> hasViewModel
      ensures outcome.Pass? ==> subscriptions == Forwarders
      ensures outcome.Fail? ==> outcome.error == NullReference && subscriptions == multiset{}
      ensures hasViewModel == old(hasViewModel) && hooks == old(hooks)
    {
      isInitialized := true;
      if !hasViewModel {
        return Fail(NullReference);
      }
      subscriptions := subscriptions + multiset{Init};
      subscriptions := subscriptions + multiset{Shutdown};
      subscriptions := subscriptions + multiset{Load};
      subscriptions := subscriptions + multiset{Unload};
      subscriptions := subscriptions + multiset{Update};
      outcome := Pass;
    }

    /**
     * The view-model raises notification `e`: a subscribed handler calls the matching
     * hook; the ShuttingDown handler then unsubscribes all five handlers, which throws when
     * the control has lost its view-model.
     */
    method Deliver(e: Event) returns (outcome: Outcome)
      requires Valid()
      modifies this
      ensures Valid()
      ensures old(subscriptions)[e] == 0 ==> outcome.Pass? && hooks == old(hooks) && subscriptions == old(subscriptions)
      ensures old(subscriptions)[e] > 0 ==> hooks == old(hooks) + [e]
      ensures e != Shutdown ==> outcome.Pass? && subscriptions == old(subscriptions)
      ensures e == Shutdown && old(subscriptions)[e] > 0 && hasViewModel ==> outcome.Pass? && subscriptions == multiset{}
      ensures e == Shutdown && old(subscriptions)[e] > 0 && !hasViewModel ==>
        outcome == Fail(NullReference) && subscriptions == old(subscriptions)
      ensures isInitialized == old(isInitialized) && hasViewModel == old(hasViewModel)
    {
      outcome := Pass;
      if subscriptions[e] == 0 {
        return;
      }
      hooks := hooks + [e];
      if e == Shutdown {
        if !hasViewModel {
          return Fail(NullReference);
        }
        subscriptions := subscriptions - Forwarders;  // the five `-=`
      }
    }
  }

  /**
   * Driving a control through initialisation, the notifications `events`, the
   * view-model's shutdown and then the notifications `later`: every notification before
   * the shutdown reaches exactly its hook, OnShutdown runs, and nothing after it reaches
   * any hook.
   */
  method ForwardUntilShutdown(events: seq<Event>, later: seq<Event>)
    returns (hooks: seq<Event>, subscriptions: multiset<Event>)
    requires Shutdown !in events
    ensures hooks == events + [Shutdown]
    ensures subscriptions == multiset{}
  {
    var c := new UserControlBase();
    c.SetViewModel(true);
    var _ := c.OnInitialized();
    var i := 0;
    while i < |events|
      invariant 0 <= i <= |events|
      invariant c.Valid() && c.hasViewModel && c.subscriptions == Forwarders
      invariant c.hooks == events[..i]
    {
      ForwardersCount(events[i]);
      var _ := c.Deliver(events[i]);
      i := i + 1;
    }
    ForwardersCount(Shutdown);
    var _ := c.Deliver(Shutdown);
    i := 0;
    while i < |later|
      invariant 0 <= i <= |later|
      invariant c.Valid() && c.subscriptions == multiset{}
      invariant c.hooks == events + [Shutdown]
    {
      var _ := c.Deliver(later[i]);
      i := i + 1;
    }
    hooks, subscriptions := c.hooks, c.subscriptions;
  }
}
