/**
 * The second-generation window view-model (ToolUI/WindowVM.cs): the lifecycle
 * notifications of its BaseVM part, the same status-text countdown as the first
 * generation, and the dialog, hide and close requests it raises for its window.
 * Lifecycle notifications go to an event log shared with other view-models, tagged with
 * this view-model's id, so that the order of notifications across objects can be stated.
 */
module WindowVM {
  import opened Wrappers
  import opened Dialogs
  import opened Lifecycle
  import StatusCountdown
  import WindowVMBase

  class WindowVM {
    /** Identifies this view-model's notifications in the log. */
    const id: nat
    /** Where the BaseVM events (Initializing, ShuttingDown, ...) are raised. */
    const log: EventLog

    var title: Nullable<string>
    var statusText: Nullable<string>         // m_statusText
    var defaultStatusText: Nullable<string>  // m_defaultStatusText
    var timerEnabled: bool                   // m_statusTimer.IsEnabled
    var timerDuration: int                   // m_timerDuration
    var elapsedMs: nat                       // m_statusStopwatch.ElapsedMilliseconds
    /** How many times StatusTimer_Tick is on the timer's Tick event. */
    var tickHandlers: nat
    /** The requests raised so far, for the window to carry out. */
    var requests: seq<Request>

    /** The status-countdown part of the state. */
    function Status(): StatusCountdown.Countdown
      reads this
    {
      StatusCountdown.Countdown(statusText, defaultStatusText, timerEnabled, timerDuration, elapsedMs)
    }

    constructor (id: nat, log: EventLog)
      ensures this.id == id && this.log == log
      ensures Status() == StatusCountdown.Initial && tickHandlers == 0 && requests == [] && title == Null
    {
      this.id, this.log := id, log;
      title, statusText, defaultStatusText := Null, Null, Null;
      timerEnabled, timerDuration, elapsedMs := false, 0, 0;
      tickHandlers := 0;
      requests := [];
    }

    /** Init: BaseVM.Init raises Initializing, then StatusTimer_Tick is added to the timer's Tick event. */
    method Init()
      modifies this, log
      ensures log.entries == old(log.entries) + [Notice(id, Event.Init)]
      ensures tickHandlers == old(tickHandlers) + 1
      ensures Status() == old(Status()) && requests == old(requests) && title == old(title)
    {
      log.Fire(id, Event.Init);
      tickHandlers := tickHandlers + 1;
    }

    /** Shutdown: BaseVM.Shutdown raises ShuttingDown, then one StatusTimer_Tick is removed (none if absent). */
    method Shutdown()
      modifies this, log
      ensures log.entries == old(log.entries) + [Notice(id, Event.Shutdown)]
      ensures tickHandlers == if old(tickHandlers) > 0 then old(tickHandlers) - 1 else 0
      ensures Status() == old(Status()) && requests == old(requests) && title == old(title)
    {
      log.Fire(id, Event.Shutdown);
      if tickHandlers > 0 {
        tickHandlers := tickHandlers - 1;
      }
    }

    /** BaseVM.Load: raises Loading and changes nothing else. */
    method Load()
      modifies log
      ensures log.entries == old(log.entries) + [Notice(id, Event.Load)]
    {
      log.Fire(id, Event.Load);
    }

    /** BaseVM.Unload: raises Unloading and changes nothing else. */
    method Unload()
      modifies log
      ensures log.entries == old(log.entries) + [Notice(id, Event.Unload)]
    {
      log.Fire(id, Event.Unload);
    }

    /** BaseVM.Update: raises Updating and changes nothing else. */
    method Update()
      modifies log
      ensures log.entries == old(log.entries) + [Notice(id, Event.Update)]
    {
      log.Fire(id, Event.Update);
    }

    /** SetStatusText: stops a running countdown and makes `status` both the text and the fallback. */
    method SetStatusText(status: Nullable<string>)
      modifies this
      ensures Status() == StatusCountdown.SetStatus(old(Status()), status)
      ensures tickHandlers == old(tickHandlers) && requests == old(requests) && title == old(title) && log.entries == old(log.entries)
    {
      if timerEnabled {
        timerEnabled := false;
      }
      statusText := status;
      defaultStatusText := status;
    }

    /**
     * SetTimedStatusText: throws ArgumentOutOfRange on a negative duration and changes
     * nothing; otherwise shows `status` and restarts the countdown as StatusCountdown.SetTimed says.
     */
    method SetTimedStatusText(status: Nullable<string>, duration: real := 2.5, expiredStatus: Nullable<string> := Null)
      returns (outcome: Outcome)
      modifies this
      ensures outcome == Fail(ArgumentOutOfRange) <==> duration < 0.0
      ensures outcome.Pass? <==> duration >= 0.0
      ensures outcome.Fail? ==> Status() == old(Status())
      ensures outcome.Pass? ==> Status() == StatusCountdown.SetTimed(old(Status()), status, duration, expiredStatus).value
      ensures tickHandlers == old(tickHandlers) && requests == old(requests) && title == old(title) && log.entries == old(log.entries)
    {
      if duration < 0.0 {
        return Fail(ArgumentOutOfRange);
      }
      var expired := expiredStatus;
      if expired.Null? {
        expired := defaultStatusText;
      }
      if timerEnabled {
        timerEnabled := false;
        statusText := expired;
      }
      defaultStatusText := expired;
      statusText := status;
      timerDuration := (duration * 1000.0).Floor;
      elapsedMs := 0;
      timerEnabled := true;
      outcome := Pass;
    }

    /** StatusTimer_Tick: once the stopwatch has reached the duration, stop the timer and show the fallback. */
    method StatusTimerTick()
      modifies this
      ensures Status() == StatusCountdown.Handler(old(Status()))
      ensures tickHandlers == old(tickHandlers) && requests == old(requests) && title == old(title) && log.entries == old(log.entries)
    {
      if elapsedMs >= timerDuration {
        timerEnabled := false;
        statusText := defaultStatusText;
      }
    }

    /**
     * The dispatcher timer ticks `ms` milliseconds after its previous tick: the stopwatch
     * advances and, while the timer runs, every subscribed StatusTimer_Tick is invoked in turn.
     */
    method TimerTick(ms: nat)
      modifies this
      ensures Status() == StatusCountdown.TimerTick(old(Status()), old(tickHandlers) > 0, ms)
      ensures tickHandlers == old(tickHandlers) && requests == old(requests) && title == old(title) && log.entries == old(log.entries)
    {
      elapsedMs := elapsedMs + ms;
      if timerEnabled {
        var later := Status();
        var i := 0;
        while i < tickHandlers
          invariant 0 <= i <= tickHandlers
          invariant Status() == if i == 0 then later else StatusCountdown.Handler(later)
          invariant tickHandlers == old(tickHandlers) && requests == old(requests) && title == old(title) && log.entries == old(log.entries)
        {
          StatusCountdown.HandlerIdempotent(later);
          StatusTimerTick();
          i := i + 1;
        }
      }
    }

    method ShowInfo(text: string, title: string := "Information")
      modifies this
      ensures requests == old(requests) + [MessageBox(WindowVMBase.ShowInfo(text, title))]
      ensures Status() == old(Status()) && tickHandlers == old(tickHandlers) && log.entries == old(log.entries)
      ensures this.title == old(this.title)
    {
      requests := requests + [MessageBox(WindowVMBase.ShowInfo(text, title))];
    }

    method ShowWarning(text: string, title: string := "Warning")
      modifies this
      ensures requests == old(requests) + [MessageBox(WindowVMBase.ShowWarning(text, title))]
      ensures Status() == old(Status()) && tickHandlers == old(tickHandlers) && log.entries == old(log.entries)
      ensures this.title == old(this.title)
    {
      requests := requests + [MessageBox(WindowVMBase.ShowWarning(text, title))];
    }

    method ShowError(text: string, title: string := "Error")
      modifies this
      ensures requests == old(requests) + [MessageBox(WindowVMBase.ShowError(text, title))]
      ensures Status() == old(Status()) && tickHandlers == old(tickHandlers) && log.entries == old(log.entries)
      ensures this.title == old(this.title)
    {
      requests := requests + [MessageBox(WindowVMBase.ShowError(text, title))];
    }

    method ShowException(e: ExceptionInfo, text: string := "An error has occurred.", title: string := "Error")
      modifies this
      ensures requests == old(requests) + [MessageBox(WindowVMBase.ShowException(e, text, title))]
      ensures Status() == old(Status()) && tickHandlers == old(tickHandlers) && log.entries == old(log.entries)
      ensures this.title == old(this.title)
    {
      ShowError(WindowVMBase.ExceptionText(text, e), title);
    }

    method PromptOkCancel(text: string, title: string := "Confirm?", icon: MessageBoxImage := Question,
                          okAction: Nullable<ActionId> := Null, cancelAction: Nullable<ActionId> := Null)
      modifies this
      ensures requests == old(requests) + [MessageBox(WindowVMBase.PromptOkCancel(text, title, icon, okAction, cancelAction))]
      ensures Status() == old(Status()) && tickHandlers == old(tickHandlers) && log.entries == old(log.entries)
      ensures this.title == old(this.title)
    {
      requests := requests + [MessageBox(WindowVMBase.PromptOkCancel(text, title, icon, okAction, cancelAction))];
    }

    method PromptYesNo(text: string, title: string := "Yes or No?", icon: MessageBoxImage := Question,
                       yesAction: Nullable<ActionId> := Null, noAction: Nullable<ActionId> := Null)
      modifies this
      ensures requests == old(requests) + [MessageBox(WindowVMBase.PromptYesNo(text, title, icon, yesAction, noAction))]
      ensures Status() == old(Status()) && tickHandlers == old(tickHandlers) && log.entries == old(log.entries)
      ensures this.title == old(this.title)
    {
      requests := requests + [MessageBox(WindowVMBase.PromptYesNo(text, title, icon, yesAction, noAction))];
    }

    method PromptYesNoCancel(text: string, title: string := "Yes or No?", icon: MessageBoxImage := Question,
                             yesAction: Nullable<ActionId> := Null, noAction: Nullable<ActionId> := Null,
                             cancelAction: Nullable<ActionId> := Null)
      modifies this
      ensures requests == old(requests) + [MessageBox(WindowVMBase.PromptYesNoCancel(text, title, icon, yesAction, noAction, cancelAction))]
      ensures Status() == old(Status()) && tickHandlers == old(tickHandlers) && log.entries == old(log.entries)
      ensures this.title == old(this.title)
    {
      requests := requests + [MessageBox(WindowVMBase.PromptYesNoCancel(text, title, icon, yesAction, noAction, cancelAction))];
    }

    /** ShowMessageBox: raises the caller's request unchanged. */
    method ShowMessageBox(box: MessageBoxRequest)
      modifies this
      ensures requests == old(requests) + [MessageBox(box)]
      ensures Status() == old(Status()) && tickHandlers == old(tickHandlers) && log.entries == old(log.entries)
      ensures this.title == old(this.title)
    {
      requests := requests + [MessageBox(box)];
    }

    /** ShowFileDialog(type, callback): a file request with the filter "All Files|*.*". */
    method ShowFileDialog(dialogType: FileDialogType, callback: Nullable<FileCallbackId> := Null)
      modifies this
      ensures requests == old(requests) + [FileDialog(FileDialogRequest(dialogType, callback, Some("All Files|*.*")))]
      ensures Status() == old(Status()) && tickHandlers == old(tickHandlers) && log.entries == old(log.entries)
      ensures this.title == old(this.title)
    {
      ShowFileDialogArgs(FileDialogRequest(dialogType, callback, Some("All Files|*.*")));
    }

    /** ShowFileDialog(e): raises the caller's request unchanged. */
    method ShowFileDialogArgs(e: FileDialogRequest)
      modifies this
      ensures requests == old(requests) + [FileDialog(e)]
      ensures Status() == old(Status()) && tickHandlers == old(tickHandlers) && log.entries == old(log.entries)
      ensures this.title == old(this.title)
    {
      requests := requests + [FileDialog(e)];
    }

    /** ShowFolderDialog(callback): a folder request of type OpenFileDialog (the type is not used). */
    method ShowFolderDialog(callback: Nullable<FileCallbackId> := Null)
      modifies this
      ensures requests == old(requests) + [FolderDialog(FileDialogRequest(OpenFileDialog, callback, Null))]
      ensures Status() == old(Status()) && tickHandlers == old(tickHandlers) && log.entries == old(log.entries)
      ensures this.title == old(this.title)
    {
      ShowFolderDialogArgs(FileDialogRequest(OpenFileDialog, callback, Null));
    }

    /** ShowFolderDialog(e): raises the caller's request unchanged. */
    method ShowFolderDialogArgs(e: FileDialogRequest)
      modifies this
      ensures requests == old(requests) + [FolderDialog(e)]
      ensures Status() == old(Status()) && tickHandlers == old(tickHandlers) && log.entries == old(log.entries)
      ensures this.title == old(this.title)
    {
      requests := requests + [FolderDialog(e)];
    }

    /** HideCommand: raises HideRequest. */
    method HideCommand()
      modifies this
      ensures requests == old(requests) + [Request.Hide]
      ensures Status() == old(Status()) && tickHandlers == old(tickHandlers) && log.entries == old(log.entries)
      ensures this.title == old(this.title)
    {
      requests := requests + [Request.Hide];
    }

    /** CloseCommand: raises CloseRequest, which carries no dialog result. */
    method CloseCommand()
      modifies this
      ensures requests == old(requests) + [Request.Close(Null)]
      ensures Status() == old(Status()) && tickHandlers == old(tickHandlers) && log.entries == old(log.entries)
      ensures this.title == old(this.title)
    {
      requests := requests + [Request.Close(Null)];
    }
  }
}
