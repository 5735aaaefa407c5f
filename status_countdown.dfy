/**
 * The status-text countdown shared by src/WindowViewModelBase.cs and ToolUI/WindowVM.cs,
 * as transitions on one value: the displayed text, the fallback text shown when a timed
 * status expires, whether the countdown timer is running, its duration and the stopwatch.
 * Both window classes state their methods in terms of these functions.
 */
module StatusCountdown {
  import opened Wrappers

  datatype Countdown = Countdown(
    text: Nullable<string>,      // StatusText (m_statusText)
    fallback: Nullable<string>,  // m_defaultStatusText
    enabled: bool,               // m_statusTimer.IsEnabled
    durationMs: int,             // m_timerDuration
    elapsedMs: nat)              // m_statusStopwatch.ElapsedMilliseconds

  /** A freshly constructed window view-model: no text, timer stopped, stopwatch at zero. */
  const Initial: Countdown := Countdown(Null, Null, false, 0, 0)

  /** `(int) (duration * 1000)` for a non-negative duration in seconds (truncation = floor). */
  function DurationMs(seconds: real): (ms: int)
    requires seconds >= 0.0
    ensures 0 <= ms && ms as real <= seconds * 1000.0 < ms as real + 1.0
  {
    (seconds * 1000.0).Floor
  }

  /** SetStatusText: shows `status`, makes it the fallback and stops any countdown. */
  function SetStatus(c: Countdown, status: Nullable<string>): (r: Countdown)
    ensures r.text == status && r.fallback == status && !r.enabled
  {
    c.(text := status, fallback := status, enabled := false)
  }

  /**
   * SetTimedStatusText: a negative duration throws before anything changes. Otherwise
   * `status` is shown, the fallback becomes `expired` (or stays as it was when `expired`
   * is null), and the countdown restarts from zero with the new duration. A countdown
   * already running is stopped and replaced, so at most one is ever pending.
   */
  function SetTimed(c: Countdown, status: Nullable<string>, duration: real, expired: Nullable<string>): (r: Result<Countdown>)
    ensures duration < 0.0 <==> r == Failure(ArgumentOutOfRange)
    ensures r.Success? ==>
      && r.value.text == status
      && r.value.fallback == (if expired.Null? then c.fallback else expired)
      && r.value.enabled
      && r.value.durationMs == DurationMs(duration)
      && r.value.elapsedMs == 0
  {
    if duration < 0.0 then Failure(ArgumentOutOfRange)
    else
      var fallback := if expired.Null? then c.fallback else expired;
      Success(Countdown(status, fallback, true, DurationMs(duration), 0))
  }

  /**
   * StatusTimer_Tick: once the stopwatch has reached the duration the timer stops and the
   * fallback is shown; before that nothing changes.
   */
  function Handler(c: Countdown): (r: Countdown)
    ensures c.elapsedMs < c.durationMs ==> r == c
    ensures c.elapsedMs >= c.durationMs ==> r == c.(text := c.fallback, enabled := false)
  {
    if c.elapsedMs >= c.durationMs then c.(enabled := false, text := c.fallback) else c
  }

  /** Running the handler twice is running it once (duplicate subscriptions are harmless). */
  lemma HandlerIdempotent(c: Countdown)
    ensures Handler(Handler(c)) == Handler(c)
  {
  }

  /**
   * One tick of the dispatcher timer, `ms` milliseconds after the previous one: the
   * stopwatch advances, and the handler runs only when the timer is running and the
   * handler is subscribed to it.
   */
  function TimerTick(c: Countdown, subscribed: bool, ms: nat): (r: Countdown)
    ensures r.elapsedMs == c.elapsedMs + ms && r.fallback == c.fallback && r.durationMs == c.durationMs
    ensures c.enabled && subscribed && c.elapsedMs + ms >= c.durationMs ==> r.text == c.fallback && !r.enabled
    ensures !(c.enabled && subscribed && c.elapsedMs + ms >= c.durationMs) ==> r.text == c.text && r.enabled == c.enabled
  {
    var later := c.(elapsedMs := c.elapsedMs + ms);
    if c.enabled && subscribed then Handler(later) else later
  }

  /** A sequence of ticks, each `ds[i]` milliseconds after the previous one. */
  function Ticks(c: Countdown, subscribed: bool, ds: seq<nat>): (r: Countdown)
    ensures r.fallback == c.fallback && r.durationMs == c.durationMs
    ensures r.text == c.text || (r.text == c.fallback && !r.enabled)
    ensures r.enabled ==> c.enabled
    decreases |ds|
  {
    if ds == [] then c else Ticks(TimerTick(c, subscribed, ds[0]), subscribed, ds[1..])
  }

  function Sum(ds: seq<nat>): nat {
    if ds == [] then 0 else ds[0] + Sum(ds[1..])
  }

  /** Ticks never change the text while the timer is stopped or the handler unsubscribed. */
  lemma {:induction false} IdleTicks(c: Countdown, subscribed: bool, ds: seq<nat>)
    requires !c.enabled || !subscribed
    ensures var r := Ticks(c, subscribed, ds);
      r.text == c.text && r.fallback == c.fallback && r.enabled == c.enabled
    decreases |ds|
  {
    if ds != [] {
      IdleTicks(TimerTick(c, subscribed, ds[0]), subscribed, ds[1..]);
    }
  }

  /**
   * The countdown contract: while the stopwatch stays below the duration the timed text
   * stays up; the first tick at or after the duration shows the fallback and stops the
   * timer, and later ticks change nothing.
   */
  lemma {:induction false} CountdownExpiry(c: Countdown, ds: seq<nat>)
    requires c.enabled
    ensures var r := Ticks(c, true, ds);
      && (c.elapsedMs + Sum(ds) < c.durationMs ==> r.text == c.text && r.enabled)
      && (ds != [] && c.elapsedMs + Sum(ds) >= c.durationMs ==> r.text == c.fallback && !r.enabled)
      && r.fallback == c.fallback
    decreases |ds|
  {
    if ds != [] {
      var c1 := TimerTick(c, true, ds[0]);
      assert Ticks(c, true, ds) == Ticks(c1, true, ds[1..]);
      assert Sum(ds) == ds[0] + Sum(ds[1..]);
      if c1.enabled {
        CountdownExpiry(c1, ds[1..]);
      } else {
        IdleTicks(c1, true, ds[1..]);
      }
    }
  }

  /**
   * SetStatusText("A") then SetStatusText("B"): "B" is shown and no countdown is pending,
   * so no later tick can change it.
   */
  lemma SetTwice(c: Countdown, a: Nullable<string>, b: Nullable<string>, subscribed: bool, ds: seq<nat>)
    ensures var r := SetStatus(SetStatus(c, a), b);
      && r.text == b && !r.enabled
      && Ticks(r, subscribed, ds).text == b
  {
    IdleTicks(SetStatus(SetStatus(c, a), b), subscribed, ds);
  }

  /**
   * A timed status without an expired text reverts to the text that was the fallback
   * before the call, once ticks have covered the duration.
   */
  lemma TimedRevertsToPrevious(c: Countdown, status: Nullable<string>, seconds: real, ds: seq<nat>)
    requires seconds >= 0.0
    requires ds != [] && Sum(ds) >= DurationMs(seconds)
    ensures SetTimed(c, status, seconds, Null).Success?
    ensures Ticks(SetTimed(c, status, seconds, Null).value, true, ds).text == c.fallback
  {
    CountdownExpiry(SetTimed(c, status, seconds, Null).value, ds);
  }

  /**
   * Restarting cancels the pending countdown: after a second SetTimedStatusText only the
   * second duration matters, even if the first one has long passed.
   */
  lemma RestartCancelsPending(c: Countdown, s1: Nullable<string>, d1: real, e1: Nullable<string>,
                              s2: Nullable<string>, d2: real, e2: Nullable<string>, ds: seq<nat>)
    requires d1 >= 0.0 && d2 >= 0.0
    requires Sum(ds) < DurationMs(d2)
    ensures SetTimed(c, s1, d1, e1).Success?
    ensures SetTimed(SetTimed(c, s1, d1, e1).value, s2, d2, e2).Success?
    ensures Ticks(SetTimed(SetTimed(c, s1, d1, e1).value, s2, d2, e2).value, true, ds).text == s2
  {
    CountdownExpiry(SetTimed(SetTimed(c, s1, d1, e1).value, s2, d2, e2).value, ds);
  }
}
