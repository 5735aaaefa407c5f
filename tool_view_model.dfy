/**
 * The second-generation view-model base class (ToolUI/ViewModelBase.cs): each lifecycle
 * operation increments its counter and then fires its notification. Unlike the first
 * generation it has no busy flags, and its counters have public setters.
 */
module ToolViewModel {
  import opened Lifecycle

  /** A fired notification, with the value of the operation's counter its subscribers read. */
  datatype Observation = Observation(event: Event, count: int32)

  class ViewModelBase {
    var initCount: int32
    var shutdownCount: int32
    var loadCount: int32
    var unloadCount: int32
    var updateCount: int32

    /** The notifications fired so far. */
    var fired: seq<Observation>

    function Counts(): Counters
      reads this
    {
      Counters(initCount, shutdownCount, loadCount, unloadCount, updateCount)
    }

    constructor ()
      ensures Counts() == Zero && fired == []
    {
      initCount, shutdownCount, loadCount, unloadCount, updateCount := 0, 0, 0, 0, 0;
      fired := [];
    }

    method Init()
      modifies this
      ensures Counts() == Step(old(Counts()), Event.Init)
      ensures fired == old(fired) + [Observation(Event.Init, initCount)]
    {
      initCount := Inc(initCount);
      fired := fired + [Observation(Event.Init, initCount)];
    }

    method Shutdown()
      modifies this
      ensures Counts() == Step(old(Counts()), Event.Shutdown)
      ensures fired == old(fired) + [Observation(Event.Shutdown, shutdownCount)]
    {
      shutdownCount := Inc(shutdownCount);
      fired := fired + [Observation(Event.Shutdown, shutdownCount)];
    }

    method Load()
      modifies this
      ensures Counts() == Step(old(Counts()), Event.Load)
      ensures fired == old(fired) + [Observation(Event.Load, loadCount)]
    {
      loadCount := Inc(loadCount);
      fired := fired + [Observation(Event.Load, loadCount)];
    }

    method Unload()
      modifies this
      ensures Counts() == Step(old(Counts()), Event.Unload)
      ensures fired == old(fired) + [Observation(Event.Unload, unloadCount)]
    {
      unloadCount := Inc(unloadCount);
      fired := fired + [Observation(Event.Unload, unloadCount)];
    }

    method Update()
      modifies this
      ensures Counts() == Step(old(Counts()), Event.Update)
      ensures fired == old(fired) + [Observation(Event.Update, updateCount)]
    {
      updateCount := Inc(updateCount);
      fired := fired + [Observation(Event.Update, updateCount)];
    }

    /**
     * The public counter setter of operation `e` (InitCount = v, ...): stores `v` as given,
     * fires nothing and leaves the other counters alone.
     */
    method SetCount(e: Event, v: int32)
      modifies this
      ensures Counts().Get(e) == v
      ensures forall o :: o != e ==> Counts().Get(o) == old(Counts()).Get(o)
      ensures fired == old(fired)
    {
      match e
      case Init => initCount := v;
      case Shutdown => shutdownCount := v;
      case Load => loadCount := v;
      case Unload => unloadCount := v;
      case Update => updateCount := v;
    }
  }
}
