/**
 * The first-generation window view-model (src/WindowViewModelBase.cs): the lifecycle of
 * its ViewModelBase part, the status-text countdown driven by a dispatcher timer, and the
 * dialog, hide and close requests it raises for its window. Requests are recorded in the
 * order they are raised.
 */
module WindowViewModel {
  import opened Wrappers
  import opened Dialogs
  import opened Lifecycle
  import ViewModel
  import StatusCountdown
  import WindowVMBase

  class WindowViewModelBase {
    /** The ViewModelBase part of the object (counters, busy flags, notifications). */
    const base: ViewModel.ViewModelBase

    var title: Nullable<string>
    var statusText: Nullable<string>         // m_statusText
    var defaultStatusText: Nullable<string>  // m_defaultStatusText
    var timerEnabled: bool                   // m_statusTimer.IsEnabled
    var timerDuration: int                   // m_timerDuration
    var elapsedMs: nat                       // m_statusStopwatch.ElapsedMilliseconds
    /** How many times StatusTimer_Tick is on the timer's Tick event. */
    var tickHandlers: nat
    /** The requests raised so far, for the window to carry out. */
    var requests: seq<Request>

    /** The status-countdown part of the state. */
    function Status(): StatusCountdown.Countdown
      reads this
    {
      StatusCountdown.Countdown(statusText, defaultStatusText, timerEnabled, timerDuration, elapsedMs)
    }

    constructor ()
      ensures fresh(base) && base.Counts() == Zero && base.Idle() && base.fired == []
      ensures Status() == StatusCountdown.Initial && tickHandlers == 0 && requests == [] && title == Null
    {
      base := new ViewModel.ViewModelBase();
      title, statusText, defaultStatusText := Null, Null, Null;
      timerEnabled, timerDuration, elapsedMs := false, 0, 0;
      tickHandlers := 0;
      requests := [];
    }

    /** Init: ViewModelBase.Init, then StatusTimer_Tick is added to the timer's Tick event. */
    method Init()
      requires base.Idle()
      modifies this, base
      ensures base.Counts() == Step(old(base.Counts()), Event.Init)
      ensures base.fired == old(base.fired) + [ViewModel.Observation(Event.Init, base.initCount, true)]
      ensures base.Idle()
      ensures tickHandlers == old(tickHandlers) + 1
      ensures Status() == old(Status()) && requests == old(requests) && title == old(title)
    {
      base.Init();
      tickHandlers := tickHandlers + 1;
    }

    /** Shutdown: ViewModelBase.Shutdown, then one StatusTimer_Tick is removed (none if absent). */
    method Shutdown()
      requires base.Idle()
      modifies this, base
      ensures base.Counts() == Step(old(base.Counts()), Event.Shutdown)
      ensures base.fired == old(base.fired) + [ViewModel.Observation(Event.Shutdown, base.shutdownCount, true)]
      ensures base.Idle()
      ensures tickHandlers == if old(tickHandlers) > 0 then old(tickHandlers) - 1 else 0
      ensures Status() == old(Status()) && requests == old(requests) && title == old(title)
    {
      base.Shutdown();
      if tickHandlers > 0 {
        tickHandlers := tickHandlers - 1;
      }
    }

    /** SetStatusText: stops a running countdown and makes `status` both the text and the fallback. */
    method SetStatusText(status: Nullable<string>)
      modifies this
      ensures Status() == StatusCountdown.SetStatus(old(Status()), status)
      ensures tickHandlers == old(tickHandlers) && requests == old(requests) && title == old(title)
    {
      if timerEnabled {
        timerEnabled := false;
      }
      statusText := status;
      defaultStatusText := status;
    }

    /**
     * SetTimedStatusText: throws ArgumentOutOfRange on a negative duration and changes
     * nothing; otherwise shows `status` and restarts the countdown as StatusCountdown.SetTimed says.
     */
    method SetTimedStatusText(status: Nullable<string>, duration: real := 2.5, expiredStatus: Nullable<string> := Null)
      returns (outcome: Outcome)
      modifies this
      ensures outcome == Fail(ArgumentOutOfRange) <==> duration < 0.0
      ensures outcome.Pass? <==> duration >= 0.0
      ensures outcome.Fail? ==> Status() == old(Status())
      ensures outcome.Pass? ==> Status() == StatusCountdown.SetTimed(old(Status()), status, duration, expiredStatus).value
      ensures tickHandlers == old(tickHandlers) && requests == old(requests) && title == old(title)
    {
      if duration < 0.0 {
        return Fail(ArgumentOutOfRange);
      }
      var expired := expiredStatus;
      if expired.Null? {
        expired := defaultStatusText;
      }
      if timerEnabled {
        timerEnabled := false;
        statusText := expired;
      }
      defaultStatusText := expired;
      statusText := status;
      timerDuration := (duration * 1000.0).Floor;
      elapsedMs := 0;
      timerEnabled := true;
      outcome := Pass;
    }

    /** StatusTimer_Tick: once the stopwatch has reached the duration, stop the timer and show the fallback. */
    method StatusTimerTick()
      modifies this
      ensures Status() == StatusCountdown.Handler(old(Status()))
      ensures tickHandlers == old(tickHandlers) && requests == old(requests) && title == old(title)
    {
      if elapsedMs >= timerDuration {
        timerEnabled := false;
        statusText := defaultStatusText;
      }
    }

    /**
     * The dispatcher timer ticks `ms` milliseconds after its previous tick: the stopwatch
     * advances and, while the timer runs, every subscribed StatusTimer_Tick is invoked in turn.
     */
    method TimerTick(ms: nat)
      modifies this
      ensures Status() == StatusCountdown.TimerTick(old(Status()), old(tickHandlers) > 0, ms)
      ensures tickHandlers == old(tickHandlers) && requests == old(requests) && title == old(title)
    {
      elapsedMs := elapsedMs + ms;
      if timerEnabled {
        var later := Status();
        var i := 0;
        while i < tickHandlers
          invariant 0 <= i <= tickHandlers
          invariant Status() == if i == 0 then later else StatusCountdown.Handler(later)
          invariant tickHandlers == old(tickHandlers) && requests == old(requests) && title == old(title)
        {
          StatusCountdown.HandlerIdempotent(later);
          StatusTimerTick();
          i := i + 1;
        }
      }
    }

    method ShowInfo(text: string, title: string := "Information")
      modifies this
      ensures requests == old(requests) + [MessageBox(WindowVMBase.ShowInfo(text, title))]
      ensures Status() == old(Status()) && tickHandlers == old(tickHandlers) && this.title == old(this.title)
    {
      requests := requests + [MessageBox(WindowVMBase.ShowInfo(text, title))];
    }

    method ShowWarning(text: string, title: string := "Warning")
      modifies this
      ensures requests == old(requests) + [MessageBox(WindowVMBase.ShowWarning(text, title))]
      ensures Status() == old(Status()) && tickHandlers == old(tickHandlers) && this.title == old(this.title)
    {
      requests := requests + [MessageBox(WindowVMBase.ShowWarning(text, title))];
    }

    method ShowError(text: string, title: string := "Error")
      modifies this
      ensures requests == old(requests) + [MessageBox(WindowVMBase.ShowError(text, title))]
      ensures Status() == old(Status()) && tickHandlers == old(tickHandlers) && this.title == old(this.title)
    {
      requests := requests + [MessageBox(WindowVMBase.ShowError(text, title))];
    }

    method ShowException(e: ExceptionInfo, text: string := "An error has occurred.", title: string := "Error")
      modifies this
      ensures requests == old(requests) + [MessageBox(WindowVMBase.ShowException(e, text, title))]
      ensures Status() == old(Status()) && tickHandlers == old(tickHandlers) && this.title == old(this.title)
    {
      ShowError(WindowVMBase.ExceptionText(text, e), title);
    }

    method PromptOkCancel(text: string, title: string := "Confirm?", icon: MessageBoxImage := Question,
                          okAction: Nullable<ActionId> := Null, cancelAction: Nullable<ActionId> := Null)
      modifies this
      ensures requests == old(requests) + [MessageBox(WindowVMBase.PromptOkCancel(text, title, icon, okAction, cancelAction))]
      ensures Status() == old(Status()) && tickHandlers == old(tickHandlers) && this.title == old(this.title)
    {
      requests := requests + [MessageBox(WindowVMBase.PromptOkCancel(text, title, icon, okAction, cancelAction))];
    }

    method PromptYesNo(text: string, title: string := "Yes or No?", icon: MessageBoxImage := Question,
                       yesAction: Nullable<ActionId> := Null, noAction: Nullable<ActionId> := Null)
      modifies this
      ensures requests == old(requests) + [MessageBox(WindowVMBase.PromptYesNo(text, title, icon, yesAction, noAction))]
      ensures Status() == old(Status()) && tickHandlers == old(tickHandlers) && this.title == old(this.title)
    {
      requests := requests + [MessageBox(WindowVMBase.PromptYesNo(text, title, icon, yesAction, noAction))];
    }

    method PromptYesNoCancel(text: string, title: string := "Yes or No?", icon: MessageBoxImage := Question,
                             yesAction: Nullable<ActionId> := Null, noAction: Nullable<ActionId> := Null,
                             cancelAction: Nullable<ActionId> := Null)
      modifies this
      ensures requests == old(requests) + [MessageBox(WindowVMBase.PromptYesNoCancel(text, title, icon, yesAction, noAction, cancelAction))]
      ensures Status() == old(Status()) && tickHandlers == old(tickHandlers) && this.title == old(this.title)
    {
      requests := requests + [MessageBox(WindowVMBase.PromptYesNoCancel(text, title, icon, yesAction, noAction, cancelAction))];
    }

    /** ShowMessageBox: raises the caller's request unchanged. */
    method ShowMessageBox(box: MessageBoxRequest)
      modifies this
      ensures requests == old(requests) + [MessageBox(box)]
      ensures Status() == old(Status()) && tickHandlers == old(tickHandlers) && this.title == old(this.title)
    {
      requests := requests + [MessageBox(box)];
    }

    /** ShowFileDialog(type, callback): a file request with the filter "All Files|*.*". */
    method ShowFileDialog(dialogType: FileDialogType, callback: Nullable<FileCallbackId> := Null)
      modifies this
      ensures requests == old(requests) + [FileDialog(FileDialogRequest(dialogType, callback, Some("All Files|*.*")))]
      ensures Status() == old(Status()) && tickHandlers == old(tickHandlers) && this.title == old(this.title)
    {
      ShowFileDialogArgs(FileDialogRequest(dialogType, callback, Some("All Files|*.*")));
    }

    /** ShowFileDialog(e): raises the caller's request unchanged. */
    method ShowFileDialogArgs(e: FileDialogRequest)
      modifies this
      ensures requests == old(requests) + [FileDialog(e)]
      ensures Status() == old(Status()) && tickHandlers == old(tickHandlers) && this.title == old(this.title)
    {
      requests := requests + [FileDialog(e)];
    }

    /** ShowFolderDialog(callback): a folder request of type OpenFileDialog (the type is not used). */
    method ShowFolderDialog(callback: Nullable<FileCallbackId> := Null)
      modifies this
      ensures requests == old(requests) + [FolderDialog(FileDialogRequest(OpenFileDialog, callback, Null))]
      ensures Status() == old(Status()) && tickHandlers == old(tickHandlers) && this.title == old(this.title)
    {
      ShowFolderDialogArgs(FileDialogRequest(OpenFileDialog, callback, Null));
    }

    /** ShowFolderDialog(e): raises the caller's request unchanged. */
    method ShowFolderDialogArgs(e: FileDialogRequest)
      modifies this
      ensures requests == old(requests) + [FolderDialog(e)]
      ensures Status() == old(Status()) && tickHandlers == old(tickHandlers) && this.title == old(this.title)
    {
      requests := requests + [FolderDialog(e)];
    }

    method Hide()
      modifies this
      ensures requests == old(requests) + [Request.Hide]
      ensures Status() == old(Status()) && tickHandlers == old(tickHandlers) && this.title == old(this.title)
    {
      requests := requests + [Request.Hide];
    }

    /** Close(result): requests the window to close with `result` as its dialog result. */
    method Close(result: Nullable<bool> := Null)
      modifies this
      ensures requests == old(requests) + [Request.Close(result)]
      ensures Status() == old(Status()) && tickHandlers == old(tickHandlers) && this.title == old(this.title)
    {
      requests := requests + [Request.Close(result)];
    }

    method HideCommand()
      modifies this
      ensures requests == old(requests) + [Request.Hide]
      ensures Status() == old(Status()) && tickHandlers == old(tickHandlers) && this.title == old(this.title)
    {
      Hide();
    }

    /** CloseCommand: closes with no dialog result. */
    method CloseCommand()
      modifies this
      ensures requests == old(requests) + [Request.Close(Null)]
      ensures Status() == old(Status()) && tickHandlers == old(tickHandlers) && this.title == old(this.title)
    {
      Close(Null);
    }

    /** CloseWithResultCommand: closes with the command parameter, unchanged. */
    method CloseWithResultCommand(r: Nullable<bool>)
      modifies this
      ensures requests == old(requests) + [Request.Close(r)]
      ensures Status() == old(Status()) && tickHandlers == old(tickHandlers) && this.title == old(this.title)
    {
      Close(r);
    }

    /** ConfirmCommand: closes with true. */
    method ConfirmCommand()
      modifies this
      ensures requests == old(requests) + [Request.Close(Some(true))]
      ensures Status() == old(Status()) && tickHandlers == old(tickHandlers) && this.title == old(this.title)
    {
      Close(Some(true));
    }

    /** CancelCommand: closes with false. */
    method CancelCommand()
      modifies this
      ensures requests == old(requests) + [Request.Close(Some(false))]
      ensures Status() == old(Status()) && tickHandlers == old(tickHandlers) && this.title == old(this.title)
    {
      Close(Some(false));
    }
  }

  /**
   * Ticks reach the handler only between Init and Shutdown: a window that was never
   * initialised, or whose every Init has been matched by a Shutdown, keeps its status text
   * whatever the timer does. The client drives a fresh window through SetTimedStatusText
   * and `ticks` of the timer, with or without an Init first.
   */
  method TicksNeedInit(initFirst: bool, shutdownAfter: bool, status: string, ticks: seq<nat>)
    returns (shown: Nullable<string>)
    ensures !initFirst || shutdownAfter ==> shown == Some(status)
    ensures initFirst && !shutdownAfter && ticks != [] ==> shown == Null
  {
    var w := new WindowViewModelBase();
    if initFirst {
      w.Init();
    }
    var _ := w.SetTimedStatusText(Some(status), 0.0);
    if shutdownAfter {
      w.Shutdown();
    }
    ghost var start := w.Status();
    var i := 0;
    while i < |ticks|
      invariant 0 <= i <= |ticks|
      invariant w.tickHandlers == (if initFirst && !shutdownAfter then 1 else 0)
      invariant w.Status() == StatusCountdown.Ticks(start, w.tickHandlers > 0, ticks[..i])
      invariant w.base.Idle()
      modifies w
    {
      TicksStep(start, w.tickHandlers > 0, ticks, i);
      w.TimerTick(ticks[i]);
      i := i + 1;
    }
    assert ticks[..|ticks|] == ticks;
    if w.tickHandlers == 0 {
      StatusCountdown.IdleTicks(start, false, ticks);
    } else {
      StatusCountdown.CountdownExpiry(start, ticks);
    }
    shown := w.statusText;
  }

  /** Unfolding Ticks at the end: ticking `ds[..i+1]` is ticking `ds[..i]` and then `ds[i]`. */
  lemma {:induction false} TicksStep(c: StatusCountdown.Countdown, subscribed: bool, ds: seq<nat>, i: nat)
    requires i < |ds|
    ensures StatusCountdown.Ticks(c, subscribed, ds[..i + 1])
         == StatusCountdown.TimerTick(StatusCountdown.Ticks(c, subscribed, ds[..i]), subscribed, ds[i])
    decreases i
  {
    if i > 0 {
      assert ds[..i + 1][1..] == ds[1..][..i];
      assert ds[..i][1..] == ds[1..][..i - 1];
      TicksStep(StatusCountdown.TimerTick(c, subscribed, ds[0]), subscribed, ds[1..], i - 1);
    }
  }
}
