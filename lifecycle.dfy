/**
 * The lifecycle vocabulary shared by both generations of the view-model base class:
 * the five operations (Init, Shutdown, Load, Unload, Update), the per-operation
 * counters as C# `int`s, and a log that records fired notifications in order.
 */
module Lifecycle {

  /** The five lifecycle operations; each fires the notification of the same name. */
  datatype Event = Init | Shutdown | Load | Unload | Update

  const MinInt32: int := -0x8000_0000
  const MaxInt32: int := 0x7fff_ffff

  /** A C# `int`. */
  newtype int32 = x: int | -0x8000_0000 <= x < 0x8000_0000

  /** C#'s unchecked `++` on an `int`: int.MaxValue wraps to int.MinValue. */
  function Inc(c: int32): int32 {
    if c as int == MaxInt32 then MinInt32 as int32 else c + 1
  }

  /** The five lifecycle counters of a view-model. */
  datatype Counters = Counters(init: int32, shutdown: int32, load: int32, unload: int32, update: int32) {
    /** The counter that operation `e` increments. */
    function Get(e: Event): int32 {
      match e
      case Init => init
      case Shutdown => shutdown
      case Load => load
      case Unload => unload
      case Update => update
    }
  }

  /** The counters of a freshly constructed view-model. */
  const Zero: Counters := Counters(0, 0, 0, 0, 0)

  /**
   * The effect of one lifecycle operation on the counters: its own counter goes up by
   * one (with C# wrap-around), the other four are untouched.
   */
  function Step(c: Counters, e: Event): (r: Counters)
    ensures r.Get(e) == Inc(c.Get(e))
    ensures forall o :: o != e ==> r.Get(o) == c.Get(o)
  {
    match e
    case Init => c.(init := Inc(c.init))
    case Shutdown => c.(shutdown := Inc(c.shutdown))
    case Load => c.(load := Inc(c.load))
    case Unload => c.(unload := Inc(c.unload))
    case Update => c.(update := Inc(c.update))
  }

  /** The counters after performing the operations `es` in order, starting from `c`. */
  function Run(c: Counters, es: seq<Event>): (r: Counters)
    ensures forall o :: Occurrences(es, o) == 0 ==> r.Get(o) == c.Get(o)
    decreases |es|
  {
    if es == [] then c else Run(Step(c, es[0]), es[1..])
  }

  /** How many times `e` occurs in `es`. */
  function Occurrences(es: seq<Event>, e: Event): nat {
    if es == [] then 0 else (if es[0] == e then 1 else 0) + Occurrences(es[1..], e)
  }

  /** `n` copies of `e`. */
  function Repeat(e: Event, n: nat): (es: seq<Event>)
    ensures |es| == n && forall i :: 0 <= i < n ==> es[i] == e
  {
    if n == 0 then [] else [e] + Repeat(e, n - 1)
  }

  /**
   * Counters count: as long as no counter overflows, each counter ends up raised by
   * exactly the number of times its operation was performed, whatever the order.
   */
  lemma {:induction false} RunCounts(c: Counters, es: seq<Event>, e: Event)
    requires c.Get(e) as int + Occurrences(es, e) <= MaxInt32
    ensures Run(c, es).Get(e) as int == c.Get(e) as int + Occurrences(es, e)
    decreases |es|
  {
    if es != [] {
      var c' := Step(c, es[0]);
      assert c'.Get(e) as int == c.Get(e) as int + (if es[0] == e then 1 else 0);
      RunCounts(c', es[1..], e);
    }
  }

  lemma {:induction false} OccurrencesOfRepeat(e: Event, n: nat, o: Event)
    ensures Occurrences(Repeat(e, n), o) == if o == e then n else 0
  {
    if n > 0 {
      assert Repeat(e, n)[1..] == Repeat(e, n - 1);
      OccurrencesOfRepeat(e, n - 1, o);
    }
  }

  /**
   * There is no repetition guard: `n` calls of the same operation on a fresh view-model
   * leave its counter at `n` and the other counters at 0.
   */
  lemma RepeatedOperation(e: Event, n: nat, o: Event)
    requires n <= MaxInt32
    ensures Run(Zero, Repeat(e, n)).Get(o) as int == if o == e then n else 0
  {
    OccurrencesOfRepeat(e, n, o);
    RunCounts(Zero, Repeat(e, n), o);
  }

  /** Below int.MaxValue an operation never lowers any counter. */
  lemma StepMonotone(c: Counters, e: Event, o: Event)
    requires c.Get(o) as int < MaxInt32
    ensures c.Get(o) <= Step(c, e).Get(o)
  {
  }

  /** One fired notification: which view-model fired it, and which notification. */
  datatype Notice = Notice(source: nat, event: Event)

  /**
   * The order in which lifecycle notifications are fired across a set of view-models.
   * Firing a notification appends it; nothing else changes the log.
   */
  class EventLog {
    var entries: seq<Notice>

    constructor ()
      ensures entries == []
    {
      entries := [];
    }

    method Fire(source: nat, e: Event)
      modifies this
      ensures entries == old(entries) + [Notice(source, e)]
    {
      entries := entries + [Notice(source, e)];
    }
  }
}
