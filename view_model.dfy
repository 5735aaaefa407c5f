/**
 * The first-generation view-model base class (src/ViewModelBase.cs): five lifecycle
 * operations, each of which raises its busy flag, increments its counter, fires its
 * notification and lowers the flag again. Counters and flags have private setters,
 * so the five operations are the only way to change them.
 */
module ViewModel {
  import opened Lifecycle

  /**
   * What a subscriber can read while a notification is being fired: which notification,
   * the value of that operation's counter, and the value of its busy flag.
   */
  datatype Observation = Observation(event: Event, count: int32, busy: bool)

  class ViewModelBase {
    var initCount: int32
    var shutdownCount: int32
    var loadCount: int32
    var unloadCount: int32
    var updateCount: int32

    var isInitializing: bool
    var isShuttingDown: bool
    var isLoading: bool
    var isUnloading: bool
    var isUpdating: bool

    /** The notifications fired so far, each with what its subscribers observed. */
    var fired: seq<Observation>

    /** The five counters as one value. */
    function Counts(): Counters
      reads this
    {
      Counters(initCount, shutdownCount, loadCount, unloadCount, updateCount)
    }

    /** No lifecycle operation is in progress: every busy flag is down. */
    predicate Idle()
      reads this
    {
      !isInitializing && !isShuttingDown && !isLoading && !isUnloading && !isUpdating
    }

    constructor ()
      ensures Counts() == Zero && Idle() && fired == []
    {
      initCount, shutdownCount, loadCount, unloadCount, updateCount := 0, 0, 0, 0, 0;
      isInitializing, isShuttingDown, isLoading, isUnloading, isUpdating := false, false, false, false, false;
      fired := [];
    }

    /**
     * Init: InitCount goes up by one before Initializing fires, so subscribers see the new
     * count and IsInitializing set; the flag is down again when Init returns.
     */
    method Init()
      requires Idle()
      modifies this
      ensures Counts() == Step(old(Counts()), Event.Init)
      ensures fired == old(fired) + [Observation(Event.Init, initCount, true)]
      ensures Idle()
    {
      isInitializing := true;
      initCount := Inc(initCount);
      fired := fired + [Observation(Event.Init, initCount, isInitializing)];
      isInitializing := false;
    }

    method Shutdown()
      requires Idle()
      modifies this
      ensures Counts() == Step(old(Counts()), Event.Shutdown)
      ensures fired == old(fired) + [Observation(Event.Shutdown, shutdownCount, true)]
      ensures Idle()
    {
      isShuttingDown := true;
      shutdownCount := Inc(shutdownCount);
      fired := fired + [Observation(Event.Shutdown, shutdownCount, isShuttingDown)];
      isShuttingDown := false;
    }

    method Load()
      requires Idle()
      modifies this
      ensures Counts() == Step(old(Counts()), Event.Load)
      ensures fired == old(fired) + [Observation(Event.Load, loadCount, true)]
      ensures Idle()
    {
      isLoading := true;
      loadCount := Inc(loadCount);
      fired := fired + [Observation(Event.Load, loadCount, isLoading)];
      isLoading := false;
    }

    method Unload()
      requires Idle()
      modifies this
      ensures Counts() == Step(old(Counts()), Event.Unload)
      ensures fired == old(fired) + [Observation(Event.Unload, unloadCount, true)]
      ensures Idle()
    {
      isUnloading := true;
      unloadCount := Inc(unloadCount);
      fired := fired + [Observation(Event.Unload, unloadCount, isUnloading)];
      isUnloading := false;
    }

    method Update()
      requires Idle()
      modifies this
      ensures Counts() == Step(old(Counts()), Event.Update)
      ensures fired == old(fired) + [Observation(Event.Update, updateCount, true)]
      ensures Idle()
    {
      isUpdating := true;
      updateCount := Inc(updateCount);
      fired := fired + [Observation(Event.Update, updateCount, isUpdating)];
      isUpdating := false;
    }
  }
}
