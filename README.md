# ToolUI in Dafny

A model of the view-model core of ToolUI, a small WPF helper library built on the
model–view–view-model pattern. The library exists in two generations: the first under
`src/` and the second under `ToolUI/`. A demo application under `test/` uses both. The
model covers the following.

- **Lifecycle.** Every view-model has five lifecycle operations: Init, Shutdown, Load,
  Unload and Update. Each one counts its calls in a C# `int` and raises the notification
  of the same name. The first generation also raises an "is busy" flag around the
  notification (`ViewModel`); the second does not (`ToolViewModel`).
- **Window view-models and their requests.** Window view-models (`WindowViewModel`,
  `WindowVM`, `WindowVMBase`) raise requests for their window to carry out: message
  boxes, prompts with callbacks, file and folder dialogs, hide and close.
- **Status text.** A status text can be shown for a limited time and then revert
  (`StatusCountdown`). The pure countdown is proved once. Both window classes state
  their new state through it.
- **Message box.** The extended message box view-model (`MessageBox`) covers its button
  table, its space-bar shortcut, button presses and the default result on dismissal.
- **From prompt to callback.** `PromptFlow` carries a prompt from the view-model,
  through the view, to the callback the caller gave.
- **User controls.** The user-control bases subscribe to their view-model's
  notifications and forward them to overridable hooks (`UserControl`,
  `ToolUserControl`).
- **Demo application.** The demo application's main window and tab pages (`DemoApp`)
  share an event log, so the order of notifications across objects can be stated.
- **Value converters.** The converters are `NotConverter`, `InvertBooleanConverter`,
  `NullConverter`, `IsNullConverter`, `EnumFlagConverter`, `LogicalConverters`,
  `VectorConverter` and `ConverterGroup`.

State that the library updates in place is modelled by classes. Examples are the
view-models, the message box, the user controls and the flag converter's remembered
target. Their methods state their whole new state, often through a pure function of the
old state. Loops in the source (the logical fold, the timer ticks driven by a client)
are methods with loop invariants. Converters that only compute are functions.

Shared vocabulary:

- `Wrappers`: nullable values, results, and the exceptions the source throws.
- `Lifecycle`: events, `int` counters with wrap-around, and the shared event log.
- `Dialogs`: message-box enums, requests, and prompt callbacks.
- `Values`: the boxed values a converter sees.

## Model

| member | source | states |
|---|---|---|
| Lifecycle.Step | src/ViewModelBase.cs:162-234 | each operation increments its own counter with C# `int` wrap-around and leaves the other four alone |
| Lifecycle.Repeat | src/ViewModelBase.cs:162-234 | n calls of one operation: a sequence of n copies of it |
| Lifecycle.Run | src/ViewModelBase.cs:162-234 | a sequence of operations leaves the counter of every operation not in it unchanged |
| Lifecycle.RunCounts | src/ViewModelBase.cs:162-234 | after any sequence of operations, below int.MaxValue, each counter equals its start value plus the number of calls of its operation |
| Lifecycle.OccurrencesOfRepeat | src/ViewModelBase.cs:162-234 | n calls of one operation contain n of that operation and none of any other |
| Lifecycle.RepeatedOperation | src/ViewModelBase.cs:162-234 | from a fresh view-model, n calls of one operation set its counter to n and leave the others at zero |
| Lifecycle.StepMonotone | src/ViewModelBase.cs:162-234 | below int.MaxValue no operation lowers any counter |
| Lifecycle.EventLog.constructor | test/MainVM.cs:57-112 | the shared log of fired notifications starts empty |
| Lifecycle.EventLog.Fire | ToolUI/BaseVM.cs:23-64 | firing a notification appends exactly that notification, with its source, to the log |
| ViewModel.ViewModelBase.constructor | src/ViewModelBase.cs:15-160 | a new view-model has all counters zero, no busy flag and nothing fired |
| ViewModel.ViewModelBase.Init | src/ViewModelBase.cs:162-170 | Init steps its counter, fires Initializing once while the busy flag is up, and leaves the flag down |
| ViewModel.ViewModelBase.Shutdown | src/ViewModelBase.cs:178-186 | Shutdown steps its counter, fires ShuttingDown once while busy, and leaves the flag down |
| ViewModel.ViewModelBase.Load | src/ViewModelBase.cs:194-202 | Load steps its counter, fires Loading once while busy, and leaves the flag down |
| ViewModel.ViewModelBase.Unload | src/ViewModelBase.cs:210-218 | Unload steps its counter, fires Unloading once while busy, and leaves the flag down |
| ViewModel.ViewModelBase.Update | src/ViewModelBase.cs:226-234 | Update steps its counter, fires Updating once while busy, and leaves the flag down |
| ToolViewModel.ViewModelBase.constructor | ToolUI/ViewModelBase.cs:23-51 | a new view-model has all counters zero and nothing fired |
| ToolViewModel.ViewModelBase.Init | ToolUI/ViewModelBase.cs:59-63 | Init steps its counter and fires Initializing with the counter value it has then |
| ToolViewModel.ViewModelBase.Shutdown | ToolUI/ViewModelBase.cs:71-75 | Shutdown steps its counter and fires ShuttingDown |
| ToolViewModel.ViewModelBase.Load | ToolUI/ViewModelBase.cs:80-84 | Load steps its counter and fires Loading |
| ToolViewModel.ViewModelBase.Unload | ToolUI/ViewModelBase.cs:89-93 | Unload steps its counter and fires Unloading |
| ToolViewModel.ViewModelBase.Update | ToolUI/ViewModelBase.cs:101-105 | Update steps its counter and fires Updating |
| ToolViewModel.ViewModelBase.SetCount | ToolUI/ViewModelBase.cs:23-51 | a counter's setter changes that counter only and fires nothing |
| StatusCountdown.DurationMs | src/WindowViewModelBase.cs:190 | the `(int)` truncation of duration×1000 is the whole number of milliseconds not above it |
| StatusCountdown.SetStatus | src/WindowViewModelBase.cs:150-159 | SetStatusText shows the text, makes it the fallback and stops any countdown |
| StatusCountdown.SetTimed | src/WindowViewModelBase.cs:175-196 | a negative duration throws ArgumentOutOfRange; otherwise the text is shown, the fallback is the expired text (or the old fallback when null), and a countdown of DurationMs starts from zero |
| StatusCountdown.Handler | src/WindowViewModelBase.cs:198-205 | the tick handler leaves everything alone before the duration and, at or after it, stops the timer and shows the fallback |
| StatusCountdown.TimerTick | src/WindowViewModelBase.cs:198-205 | a tick advances the stopwatch; the text reverts to the fallback and the timer stops exactly when the timer runs, the handler is subscribed and the duration is reached; otherwise text and timer stay |
| StatusCountdown.Ticks | src/WindowViewModelBase.cs:198-205 | after any ticks the text is the original or the fallback with the timer stopped; a stopped timer never restarts; the fallback and duration stay |
| StatusCountdown.HandlerIdempotent | src/WindowViewModelBase.cs:198-205 | running the handler twice on a tick is the same as running it once |
| StatusCountdown.IdleTicks | src/WindowViewModelBase.cs:132-142 | with the timer stopped or the handler unsubscribed, no sequence of ticks changes the state |
| StatusCountdown.CountdownExpiry | src/WindowViewModelBase.cs:175-205 | a timed text stays up while the elapsed time is below the duration; from the first tick at or past it the fallback is shown and the timer is stopped |
| StatusCountdown.SetTwice | src/WindowViewModelBase.cs:150-159 | after two SetStatusText calls the second text is shown and no tick can change it |
| StatusCountdown.TimedRevertsToPrevious | src/WindowViewModelBase.cs:175-205 | a timed text with no expired text reverts to the previous fallback (the last text given to SetStatusText) once ticks covering its duration have arrived |
| StatusCountdown.RestartCancelsPending | src/WindowViewModelBase.cs:181-196 | a second timed text cancels the first countdown: the second text stays up until its own duration |
| Dialogs.Invoke | src/WindowViewModelBase.cs:255-345 | a prompt callback runs the action for the result when its switch has a case for it, and nothing otherwise |
| MessageBox.NewButtonInfo | ToolUI/MessageBoxExVM.cs:256-262 | a button is visible exactly when its caption is non-empty; caption and flags are stored |
| MessageBox.ButtonConfigMap | ToolUI/MessageBoxExVM.cs:197-204 | the table row of a button set: slot 3 is always shown and carries the cancel flag; slot 1 is shown only for Yes/No/Cancel |
| MessageBox.ButtonConfigRows | ToolUI/MessageBoxExVM.cs:197-204 | every row: a slot is shown exactly when it has a caption; exactly one slot is default; the cancel flag is on slot 3 only; 1/2/2/3 slots are shown (in the OK-only row the OK button is both default and cancel) |
| MessageBox.PressEffect | ToolUI/MessageBoxExVM.cs:174-195 | a press sets the result named by the caption and closes with the button's default flag; an unknown caption leaves the result unset |
| MessageBox.PressShownSlot | ToolUI/MessageBoxExVM.cs:174-204 | pressing any shown slot of any button set gives a real result whose caption is the slot's |
| MessageBox.SpaceBarSlot | ToolUI/MessageBoxExVM.cs:225-242 | the space bar picks the first default slot from the left, or none when no slot is default |
| MessageBox.SpaceBarOnRow | ToolUI/MessageBoxExVM.cs:197-242 | on every button set the space bar presses OK or Yes |
| MessageBox.ShutdownResult | ToolUI/MessageBoxExVM.cs:106-120 | a box closed without a press answers OK for OK-only, No for Yes/No and Cancel otherwise; a pressed result is kept |
| MessageBox.DismissIsCancelSlot | ToolUI/MessageBoxExVM.cs:106-120 | the dismissal result is always the caption of the set's third slot |
| MessageBox.IconVisible | ToolUI/MessageBoxExVM.cs:147-172 | the icon is shown exactly for Error, Question, Warning and Information |
| MessageBox.MessageBoxExVM.constructor | ToolUI/MessageBoxExVM.cs:99-104 | a new box has three blank slots, zero enums and no close request |
| MessageBox.MessageBoxExVM.SetButtons | ToolUI/MessageBoxExVM.cs:35-44 | the Buttons setter stores the set and installs its table row, nothing else |
| MessageBox.MessageBoxExVM.SetIcon | ToolUI/MessageBoxExVM.cs:46-55 | the Icon setter stores the image and sets icon visibility, nothing else |
| MessageBox.MessageBoxExVM.ButtonExec | ToolUI/MessageBoxExVM.cs:174-195 | a press sets the result and requests one close with the press's dialog result |
| MessageBox.MessageBoxExVM.CanExecuteButton | ToolUI/MessageBoxExVM.cs:207-223 | ButtonNCommand is enabled exactly when slot N is shown: with a set installed, exactly when the slot has a caption, and always for slot 3 |
| MessageBox.MessageBoxExVM.ButtonCommand | ToolUI/MessageBoxExVM.cs:207-223 | ButtonNCommand presses slot N as configured |
| MessageBox.MessageBoxExVM.SpaceBarCommand | ToolUI/MessageBoxExVM.cs:225-242 | the space bar presses the first default slot, or does nothing |
| MessageBox.MessageBoxExVM.Shutdown | ToolUI/MessageBoxExVM.cs:106-120 | Shutdown fills in the dismissal result when no button set one |
| WindowVMBase.ShowInfo | ToolUI/ViewModels/WindowVMBase.cs:29-32 | an Information box (icon shown) with the given text and title, the default buttons and no callback |
| WindowVMBase.ShowWarning | ToolUI/ViewModels/WindowVMBase.cs:34-37 | a Warning box (icon shown) with the given text and title, the default buttons and no callback |
| WindowVMBase.ShowError | ToolUI/ViewModels/WindowVMBase.cs:39-42 | an Error box (icon shown) with the given text and title, the default buttons and no callback |
| WindowVMBase.NotificationRequests | ToolUI/ViewModels/WindowVMBase.cs:29-42 | ShowInfo, ShowWarning and ShowError request a box with the text, the default buttons (none given), their own default title and icon, and no callback |
| WindowVMBase.ExceptionText | ToolUI/ViewModels/WindowVMBase.cs:44-47 | the exception text is the caller's text, a blank line, then the exception's type name, ": " and its message |
| WindowVMBase.ShowException | ToolUI/ViewModels/WindowVMBase.cs:44-47 | an Error box with the given title, the default buttons and no callback, whose text is ExceptionText |
| WindowVMBase.ExceptionTextInjective | ToolUI/ViewModels/WindowVMBase.cs:44-47 | for type names without a colon (as .NET type names are), two exceptions with the same text are the same exception |
| WindowVMBase.ExceptionRequest | ToolUI/ViewModels/WindowVMBase.cs:44-47 | by default ShowException requests an Error box titled "Error", with the default buttons and no callback, whose text is "An error has occurred.", a blank line, then the type name and message |
| WindowVMBase.PromptOkCancel | ToolUI/ViewModels/WindowVMBase.cs:49-71 | an OK/Cancel box with the given text, title and icon whose callback runs the OK action on OK, the cancel action on Cancel and nothing otherwise |
| WindowVMBase.PromptYesNo | ToolUI/ViewModels/WindowVMBase.cs:73-95 | a Yes/No box with the given text, title and icon whose callback runs the yes action on Yes, the no action on No and nothing otherwise |
| WindowVMBase.PromptYesNoCancel | ToolUI/ViewModels/WindowVMBase.cs:97-122 | a Yes/No/Cancel box with the given text, title and icon whose callback runs the action matching Yes, No or Cancel and nothing on any other result |
| WindowVMBase.ShowFileDialog | ToolUI/ViewModels/WindowVMBase.cs:129-132 | a file dialog request with the given type and callback and no filter |
| WindowVMBase.ShowFolderDialog | ToolUI/ViewModels/WindowVMBase.cs:139-142 | a folder dialog request with the given type and callback and no filter |
| WindowVMBase.OkCancelDispatch | ToolUI/ViewModels/WindowVMBase.cs:49-71 | the OK/Cancel prompt's callback runs the OK action on OK, the cancel action on Cancel, nothing otherwise |
| WindowVMBase.YesNoDispatch | ToolUI/ViewModels/WindowVMBase.cs:73-95 | the Yes/No prompt's callback runs the yes action on Yes, the no action on No, nothing otherwise |
| WindowVMBase.YesNoCancelDispatch | ToolUI/ViewModels/WindowVMBase.cs:97-122 | the three-way prompt's callback runs the action matching Yes, No or Cancel |
| WindowVMBase.PromptDefaults | ToolUI/ViewModels/WindowVMBase.cs:49-122 | default titles are "Confirm?" and "Yes or No?", the default icon is Question, and the actions default to none |
| WindowVMBase.DialogRequestsForward | ToolUI/ViewModels/WindowVMBase.cs:129-147 | file and folder dialog requests carry the given type and callback and no filter |
| WindowViewModel.WindowViewModelBase.constructor | src/WindowViewModelBase.cs:105-109 | a new window has no status text, a stopped timer, no tick subscription and no requests |
| WindowViewModel.WindowViewModelBase.Init | src/WindowViewModelBase.cs:132-136 | Init runs the base Init and subscribes the tick handler once more |
| WindowViewModel.WindowViewModelBase.Shutdown | src/WindowViewModelBase.cs:138-142 | Shutdown runs the base Shutdown and removes one tick subscription, if any |
| WindowViewModel.WindowViewModelBase.SetStatusText | src/WindowViewModelBase.cs:150-159 | the new status state is StatusCountdown.SetStatus of the old one; nothing else changes |
| WindowViewModel.WindowViewModelBase.SetTimedStatusText | src/WindowViewModelBase.cs:175-196 | a negative duration throws and changes nothing; otherwise the new state is StatusCountdown.SetTimed of the old one |
| WindowViewModel.WindowViewModelBase.StatusTimerTick | src/WindowViewModelBase.cs:198-205 | the tick handler's new state is StatusCountdown.Handler of the old one |
| WindowViewModel.WindowViewModelBase.TimerTick | src/WindowViewModelBase.cs:198-205 | a timer tick runs the handler once per subscription; the result is the handler's result when subscribed and no change otherwise |
| WindowViewModel.WindowViewModelBase.ShowInfo | src/WindowViewModelBase.cs:212-215 | appends an information-box request and changes nothing else |
| WindowViewModel.WindowViewModelBase.ShowWarning | src/WindowViewModelBase.cs:222-225 | appends a warning-box request and changes nothing else |
| WindowViewModel.WindowViewModelBase.ShowError | src/WindowViewModelBase.cs:232-235 | appends an error-box request and changes nothing else |
| WindowViewModel.WindowViewModelBase.ShowException | src/WindowViewModelBase.cs:242-245 | appends the exception-box request and changes nothing else |
| WindowViewModel.WindowViewModelBase.PromptOkCancel | src/WindowViewModelBase.cs:255-277 | appends the OK/Cancel prompt with its dispatching callback |
| WindowViewModel.WindowViewModelBase.PromptYesNo | src/WindowViewModelBase.cs:287-309 | appends the Yes/No prompt with its dispatching callback |
| WindowViewModel.WindowViewModelBase.PromptYesNoCancel | src/WindowViewModelBase.cs:320-345 | appends the Yes/No/Cancel prompt with its dispatching callback |
| WindowViewModel.WindowViewModelBase.ShowMessageBox | src/WindowViewModelBase.cs:351-354 | forwards the caller's message-box request unchanged |
| WindowViewModel.WindowViewModelBase.ShowFileDialog | src/WindowViewModelBase.cs:361-366 | appends a file-dialog request of the given type and callback |
| WindowViewModel.WindowViewModelBase.ShowFileDialogArgs | src/WindowViewModelBase.cs:373-376 | forwards the caller's file-dialog request unchanged |
| WindowViewModel.WindowViewModelBase.ShowFolderDialog | src/WindowViewModelBase.cs:382-385 | appends a folder-dialog request with the callback |
| WindowViewModel.WindowViewModelBase.ShowFolderDialogArgs | src/WindowViewModelBase.cs:392-395 | forwards the caller's folder-dialog request unchanged |
| WindowViewModel.WindowViewModelBase.Hide | src/WindowViewModelBase.cs:400-403 | appends one hide request |
| WindowViewModel.WindowViewModelBase.Close | src/WindowViewModelBase.cs:409-412 | appends one close request carrying the dialog result |
| WindowViewModel.WindowViewModelBase.HideCommand | src/WindowViewModelBase.cs:417 | the hide command requests a hide |
| WindowViewModel.WindowViewModelBase.CloseCommand | src/WindowViewModelBase.cs:422 | the close command requests a close with no result |
| WindowViewModel.WindowViewModelBase.CloseWithResultCommand | src/WindowViewModelBase.cs:427 | requests a close with the command parameter as the result |
| WindowViewModel.WindowViewModelBase.ConfirmCommand | src/WindowViewModelBase.cs:432 | requests a close with result true |
| WindowViewModel.WindowViewModelBase.CancelCommand | src/WindowViewModelBase.cs:437 | requests a close with result false |
| WindowViewModel.TicksNeedInit | src/WindowViewModelBase.cs:132-205 | timer ticks change the status text only between Init and Shutdown: without Init, or after Shutdown, the timed text stays; after Init a zero-length timed text gives way to the (null) fallback at the first tick |
| WindowViewModel.TicksStep | src/WindowViewModelBase.cs:198-205 | ticking a prefix and then one more tick is ticking the longer prefix |
| WindowVM.WindowVM.constructor | ToolUI/WindowVM.cs:56-60 | a new window has no status text, a stopped timer, no tick subscription and no requests |
| WindowVM.WindowVM.Init | ToolUI/WindowVM.cs:87-91 | Init fires Initializing and subscribes the tick handler once more |
| WindowVM.WindowVM.Shutdown | ToolUI/WindowVM.cs:93-97 | Shutdown fires ShuttingDown and removes one tick subscription, if any |
| WindowVM.WindowVM.Load | ToolUI/BaseVM.cs:42-45 | Load fires Loading and changes nothing else |
| WindowVM.WindowVM.Unload | ToolUI/BaseVM.cs:50-53 | Unload fires Unloading and changes nothing else |
| WindowVM.WindowVM.Update | ToolUI/BaseVM.cs:61-64 | Update fires Updating and changes nothing else |
| WindowVM.WindowVM.SetStatusText | ToolUI/WindowVM.cs:107-116 | the new status state is StatusCountdown.SetStatus of the old one |
| WindowVM.WindowVM.SetTimedStatusText | ToolUI/WindowVM.cs:132-153 | a negative duration throws and changes nothing; otherwise the new state is StatusCountdown.SetTimed of the old one |
| WindowVM.WindowVM.StatusTimerTick | ToolUI/WindowVM.cs:155-162 | the tick handler's new state is StatusCountdown.Handler of the old one |
| WindowVM.WindowVM.TimerTick | ToolUI/WindowVM.cs:155-162 | a timer tick runs the handler once per subscription |
| WindowVM.WindowVM.ShowInfo | ToolUI/WindowVM.cs:166-169 | appends the information-box request built by WindowVMBase.ShowInfo |
| WindowVM.WindowVM.ShowWarning | ToolUI/WindowVM.cs:171-174 | appends the warning-box request |
| WindowVM.WindowVM.ShowError | ToolUI/WindowVM.cs:176-179 | appends the error-box request |
| WindowVM.WindowVM.ShowException | ToolUI/WindowVM.cs:181-184 | appends the exception-box request |
| WindowVM.WindowVM.PromptOkCancel | ToolUI/WindowVM.cs:186-209 | appends the OK/Cancel prompt |
| WindowVM.WindowVM.PromptYesNo | ToolUI/WindowVM.cs:210-233 | appends the Yes/No prompt |
| WindowVM.WindowVM.PromptYesNoCancel | ToolUI/WindowVM.cs:234-259 | appends the Yes/No/Cancel prompt |
| WindowVM.WindowVM.ShowMessageBox | ToolUI/WindowVM.cs:261-264 | forwards the caller's request unchanged |
| WindowVM.WindowVM.ShowFileDialog | ToolUI/WindowVM.cs:266-272 | appends a file-dialog request with the "All Files" filter |
| WindowVM.WindowVM.ShowFileDialogArgs | ToolUI/WindowVM.cs:274-277 | forwards the caller's file-dialog request unchanged |
| WindowVM.WindowVM.ShowFolderDialog | ToolUI/WindowVM.cs:279-283 | appends a folder-dialog request with the callback and no filter |
| WindowVM.WindowVM.ShowFolderDialogArgs | ToolUI/WindowVM.cs:285-288 | forwards the caller's folder-dialog request unchanged |
| WindowVM.WindowVM.HideCommand | ToolUI/WindowVM.cs:292-295 | the hide command requests a hide |
| WindowVM.WindowVM.CloseCommand | ToolUI/WindowVM.cs:297-300 | the close command requests a close with no result |
| PromptFlow.BoxResult | ToolUI/MessageBoxExVM.cs:106-242 | the result a box ends with, pressed or dismissed, is never None |
| PromptFlow.ShowMessageBox | ToolUI/Views/WindowBase.cs:73-83 | the view shows the request's buttons and passes the box's result to the request's callback |
| PromptFlow.OkCancelAlwaysAnswered | ToolUI/Views/WindowBase.cs:73-83 | whatever the user does, the OK/Cancel prompt's callback has a case for the result |
| PromptFlow.YesNoAlwaysAnswered | ToolUI/Views/WindowBase.cs:73-83 | whatever the user does, the Yes/No prompt's callback has a case for the result |
| PromptFlow.YesNoCancelAlwaysAnswered | ToolUI/Views/WindowBase.cs:73-83 | whatever the user does, the Yes/No/Cancel prompt's callback has a case for the result |
| PromptFlow.OkCancelAnswers | ToolUI/ViewModels/WindowVMBase.cs:49-71 | clicking OK or pressing the space bar runs the OK action; any other click or closing the box runs the cancel action |
| PromptFlow.YesNoAnswers | ToolUI/ViewModels/WindowVMBase.cs:73-95 | clicking Yes or pressing the space bar runs the yes action; any other click or closing the box runs the no action |
| PromptFlow.YesNoCancelAnswers | ToolUI/ViewModels/WindowVMBase.cs:97-122 | clicking Yes or pressing the space bar runs the yes action, clicking No runs the no action, and anything else runs the cancel action |
| UserControl.UserControlBase.constructor | src/UserControlBase.cs:14-25 | a new control has no view-model, no subscriptions and no hooks run |
| UserControl.UserControlBase.SetViewModel | src/UserControlBase.cs:19-25 | setting the view-model changes nothing else |
| UserControl.UserControlBase.InitializeHandlers | src/UserControlBase.cs:27-36 | with a view-model, adds the five forwarders; without one, throws NullReference |
| UserControl.UserControlBase.ShutdownHandlers | src/UserControlBase.cs:38-49 | with a view-model, removes the five forwarders and the lazy initializer; without one, throws NullReference |
| UserControl.UserControlBase.OnInitialized | src/UserControlBase.cs:51-67 | with a view-model the forwarders are subscribed at once; without one, initialization is deferred; the lazy initializer is hooked to Loaded either way |
| UserControl.UserControlBase.Loaded | src/UserControlBase.cs:69-79 | a deferred control subscribes on its first Loaded, then runs the Init and Load hooks |
| UserControl.UserControlBase.Deliver | src/UserControlBase.cs:81-85 | a notification runs its hook only while subscribed; ShuttingDown also unsubscribes everything |
| UserControl.ForwardersCount | src/UserControlBase.cs:27-36 | the forwarders are one handler per notification |
| UserControl.AddForwarders | src/UserControlBase.cs:27-36 | subscribing once keeps each handler subscribed at most once |
| UserControl.AllRemoved | src/UserControlBase.cs:38-49 | unsubscribing removes every handler that was added |
| UserControl.DeferredLifecycle | src/UserControlBase.cs:51-85 | a control whose view-model arrives late runs Init and Load on its first Loaded, forwards later notifications, and nothing after Shutdown |
| ToolUserControl.ForwardersCount | ToolUI/UserControlBase.cs:55-63 | each notification has one forwarder |
| ToolUserControl.UserControlBase.constructor | ToolUI/UserControlBase.cs:55-63 | a new control has no view-model, no subscriptions and no hooks run |
| ToolUserControl.UserControlBase.SetViewModel | ToolUI/UserControlBase.cs:55-63 | setting the view-model changes nothing else |
| ToolUserControl.UserControlBase.OnInitialized | ToolUI/UserControlBase.cs:55-63 | subscribes the five forwarders; without a view-model, throws NullReference |
| ToolUserControl.UserControlBase.Deliver | ToolUI/UserControlBase.cs:67-95 | a subscribed notification runs its hook; ShuttingDown also unsubscribes all five |
| ToolUserControl.ForwardUntilShutdown | ToolUI/UserControlBase.cs:55-95 | every notification up to and including Shutdown reaches its hook, and nothing after it |
| DemoApp.EdgeNotices | test/TabPageVM.cs:29-43 | a tab page fires Load when it becomes visible, Unload when it is hidden, and nothing when visibility does not change |
| DemoApp.TabPageVM.constructor | test/MainVM.cs:48-55 | a tab is made with its title, hidden and with no main window |
| DemoApp.TabPageVM.Init | test/TabPageVM.cs:5 | the page's Init fires Init into the log |
| DemoApp.TabPageVM.Shutdown | test/TabPageVM.cs:5 | the page's Shutdown fires Shutdown into the log |
| DemoApp.TabPageVM.Load | test/TabPageVM.cs:5 | the page's Load fires Load into the log |
| DemoApp.TabPageVM.Unload | test/TabPageVM.cs:5 | the page's Unload fires Unload into the log |
| DemoApp.TabPageVM.Update | test/TabPageVM.cs:5 | the page's Update fires Update into the log |
| DemoApp.TabPageVM.SetTitle | test/TabPageVM.cs:11-15 | the Title setter changes the title only |
| DemoApp.TabPageVM.SetMainWindow | test/TabPageVM.cs:17-21 | the MainWindow setter changes the owner only |
| DemoApp.TabPageVM.SetIsVisible | test/TabPageVM.cs:23-43 | the IsVisible setter stores the flag and fires the edge's Load or Unload |
| DemoApp.FirstVisibleIndex | test/MainVM.cs:96-103 | the selected tab is the first visible one, or -1 when none is |
| DemoApp.SelectedTabOfSet | test/MainVM.cs:96-112 | tab set 0 selects the first tab, tab set 1 the third, any other none |
| DemoApp.MainVM.constructor | test/MainVM.cs:48-55 | the main window makes the Vectors, Status Text and Extras tabs, hidden, each pointing back to it |
| DemoApp.MainVM.InitAllTabs | test/MainVM.cs:80-86 | Init is fired on the three tabs in order; the status-text page's Init (test/StatusTextVM.cs:36-42) leaves the window's status as SetStatusText("Ready.") of the old one, with ticks, requests and title unchanged |
| DemoApp.MainVM.ShutdownAllTabs | test/MainVM.cs:88-94 | Shutdown is fired on the three tabs in order |
| DemoApp.MainVM.UpdateActiveTab | test/MainVM.cs:96-103 | Update is fired on the selected tab only, and on none when no tab is visible |
| DemoApp.MainVM.SwitchTabSets | test/MainVM.cs:105-112 | the visible tabs become those of the tab set and the selection moves to the first of them |
| DemoApp.MainVM.Init | test/MainVM.cs:57-63 | the window's Init fires first, then every tab's Init, and the window is marked initialized; afterwards "Ready." is shown with no countdown pending, and the window's requests and title are unchanged |
| DemoApp.MainVM.Shutdown | test/MainVM.cs:65-70 | the window's Shutdown fires first, then every tab's Shutdown |
| DemoApp.MainVM.Load | test/MainVM.cs:72-78 | the window's Load fires, then the tab set is shown and its first tab selected |
| DemoApp.StartUp | test/MainVM.cs:48-112 | constructing, initializing and loading the demo gives the full notification order and the selected tab for the tab set |
| NotConverter.Convert | src/Converters/NotConverter.cs:18-26 | a bool is negated; anything else gives DefaultValue |
| NotConverter.ConvertBack | src/Converters/NotConverter.cs:28-36 | a bool is negated when the target type is bool; otherwise InvalidOperation is thrown |
| NotConverter.RoundTrip | src/Converters/NotConverter.cs:18-36 | ConvertBack undoes Convert, and Convert undoes ConvertBack, on bools |
| InvertBooleanConverter.Convert | ToolUI/Converters/InvertBooleanConverter.cs:18-26 | a bool is negated; anything else gives DefaultValue |
| InvertBooleanConverter.ConvertBack | ToolUI/Converters/InvertBooleanConverter.cs:28-31 | always throws NotSupported |
| InvertBooleanConverter.Involution | ToolUI/Converters/InvertBooleanConverter.cs:18-26 | converting twice gives the bool back |
| NullConverter.Convert | src/Converters/NullConverter.cs:19-24 | true exactly for null, or for non-null when inverted |
| NullConverter.ConvertBack | src/Converters/NullConverter.cs:26-29 | always throws NotSupported |
| NullConverter.ToggleInvert | src/Converters/NullConverter.cs:19-24 | toggling Invert negates every answer |
| IsNullConverter.Convert | ToolUI/Converters/IsNullConverter.cs:22-29 | true exactly for null, or for non-null when inverted |
| IsNullConverter.ConvertBack | ToolUI/Converters/IsNullConverter.cs:31-34 | always throws NotSupported |
| EnumFlagConverter.SetFlag | src/Converters/EnumFlagConverter.cs:34 | setting a flag sets all its bits and keeps every other bit |
| EnumFlagConverter.ClearFlag | src/Converters/EnumFlagConverter.cs:34 | clearing a flag clears all its bits and keeps every other bit |
| EnumFlagConverter.FlagApplyTest | src/Converters/EnumFlagConverter.cs:17-42 | after writing true the flag tests set; after writing false it tests set only when it has no bits |
| EnumFlagConverter.FlagApplyNoChange | src/Converters/EnumFlagConverter.cs:34 | writing a flag's current state leaves the value unchanged |
| EnumFlagConverter.FlagApplyIdempotent | src/Converters/EnumFlagConverter.cs:34 | writing the same flag state twice is writing it once |
| EnumFlagConverter.FlagCleared | src/Converters/EnumFlagConverter.cs:34 | clearing a flag that is partly set changes the value |
| EnumFlagConverter.EnumFlagConverter.constructor | src/Converters/EnumFlagConverter.cs:15 | a new converter has no target |
| EnumFlagConverter.EnumFlagConverter.Convert | src/Converters/EnumFlagConverter.cs:17-27 | an enum value with an enum parameter becomes the target, and the answer is whether the flag is set (Argument when the enum types differ); anything else gives UnsetValue and keeps the target |
| EnumFlagConverter.EnumFlagConverter.ConvertBack | src/Converters/EnumFlagConverter.cs:28-43 | a bool sets or clears the flag in the target, read as the target enum type; no target throws NullReference, a non-enum target type Argument, and anything else NotSupported |
| EnumFlagConverter.WriteBackRead | src/Converters/EnumFlagConverter.cs:17-43 | writing back a flag's tested state restores the value exactly when the flag is wholly set or wholly clear |
| EnumFlagConverter.RoundTrip | src/Converters/EnumFlagConverter.cs:17-43 | Convert then ConvertBack on a fresh converter gives an enum of the same type, equal to the input exactly when the flag is wholly set or wholly clear |
| LogicalConverters.CountTrue | src/Converters/LogicalConverters.cs:26-32 | the number of true values is at most the number of values; it is zero exactly when no value is true, and the full count exactly when all are |
| LogicalConverters.DoConversion | src/Converters/LogicalConverters.cs:40-61 | no values throws IndexOutOfRange; otherwise the fold is true iff all values are true (And), some value is (Or), or an odd number are (Xor) |
| LogicalConverters.SingleValue | src/Converters/LogicalConverters.cs:40-61 | a single value is returned as it is, whatever the operation |
| LogicalConverters.CastBools | src/Converters/LogicalConverters.cs:12 | the cast succeeds exactly when every value is a bool and keeps them in order; otherwise the first value that is not a bool decides the error: NullReference for a null, InvalidCast for anything else |
| LogicalConverters.ChangeType | src/Converters/LogicalConverters.cs:13 | to bool or object a bool stays a bool; to string it is "True" or "False"; to a numeric type it is 1 or 0; it throws InvalidCast exactly for the remaining targets (enums and other types) |
| LogicalConverters.ConvertWith | src/Converters/LogicalConverters.cs:10-32 | a failed cast passes its error on; no values throws IndexOutOfRange; otherwise the meaning of the operation is converted to the target type |
| LogicalConverters.AndConvert | src/Converters/LogicalConverters.cs:10-14 | for bools: whether all are true, converted to the target type; empty input and bad casts throw |
| LogicalConverters.OrConvert | src/Converters/LogicalConverters.cs:19-23 | for bools: whether some value is true, converted to the target type; empty input and bad casts throw |
| LogicalConverters.XorConvert | src/Converters/LogicalConverters.cs:28-32 | for bools: whether an odd number are true, converted to the target type; empty input and bad casts throw |
| LogicalConverters.ConvertBack | src/Converters/LogicalConverters.cs:38 | always throws NotImplemented |
| VectorConverter.Flush | src/Converters/VectorConverter.cs:33 | a pending token is emitted only when non-empty |
| VectorConverter.TokensFrom | src/Converters/VectorConverter.cs:33 | splitting with RemoveEmptyEntries gives only non-empty tokens without separators |
| VectorConverter.Tokens | src/Converters/VectorConverter.cs:33 | splitting with RemoveEmptyEntries gives only non-empty tokens without separators |
| VectorConverter.JoinPair | src/Converters/VectorConverter.cs:18 | two components are joined by ", " |
| VectorConverter.JoinTriple | src/Converters/VectorConverter.cs:23 | three components are joined by ", " |
| VectorConverter.Convert | src/Converters/VectorConverter.cs:14-27 | a Vector2 or Vector3 becomes its formatted components joined by ", "; anything else gives UnsetValue |
| VectorConverter.ConvertBack | src/Converters/VectorConverter.cs:29-52 | 2 or 3 tokens whose first two parse give a Vector3 when a third parses, else a Vector2; anything else gives UnsetValue |
| VectorConverter.ReadRun | src/Converters/VectorConverter.cs:33 | the splitter reads a run without separators into the current token |
| VectorConverter.ReadSeparator | src/Converters/VectorConverter.cs:33 | the ", " between components closes one token and opens none |
| VectorConverter.TokensOfJoin | src/Converters/VectorConverter.cs:18-33 | splitting the joined text gives back exactly the components |
| VectorConverter.RoundTrip | src/Converters/VectorConverter.cs:14-52 | when each of v's own components formats to a clean token that parses back, ConvertBack(Convert(v)) is v with each component replaced by the parse of its formatted text |
| VectorConverter.BadThirdComponent | src/Converters/VectorConverter.cs:36-47 | a third component that fails to parse is dropped and the text reads as a Vector2 |
| ConverterGroup.Convert | src/Converters/ConverterGroup.cs:14-17 | an empty group returns the value unchanged |
| ConverterGroup.Single | src/Converters/ConverterGroup.cs:14-17 | a group of one converter behaves as that converter |
| ConverterGroup.Append | src/Converters/ConverterGroup.cs:14-17 | the group a+b is b run on the result of a, and a failure in a skips b |
| ConverterGroup.Order | src/Converters/ConverterGroup.cs:14-17 | members run in list order, the first one first |
| ConverterGroup.ConvertBack | src/Converters/ConverterGroup.cs:19-22 | always throws NotSupported |

## Left out

- Drawing: Win32 icon handles, the system icon bitmaps and sounds of the message box
  (ToolUI/MessageBoxExVM.cs:122-137, 158-163, 266-316). These are calls into native
  code. Only the icon's visibility is modelled.
- Timing: DispatcherTimer and Stopwatch are replaced by ticks that each carry the
  milliseconds elapsed since the previous one. Wall-clock timing is left out, and so is
  the 1 ms interval.
- Durations: NaN and infinite durations are left out. Durations are non-negative reals.
- StatusCountdown.DurationMs: does not model the overflow of the `(int)` cast when
  duration×1000 exceeds int.MaxValue. In unchecked C# on x86/x64 before .NET 9 the cast
  gives int.MinValue, so such a countdown would expire at the first tick; .NET 9 and later
  saturate at int.MaxValue. Durations that long (about 25 days) are outside any
  status-text use.
- Lifecycle.StepMonotone: holds only below int.MaxValue, because at int.MaxValue the C#
  `++` wraps to int.MinValue. The wrap itself is modelled by Lifecycle.Inc.
- Lifecycle.RunCounts: assumes no counter passes int.MaxValue during the run, for the
  same reason.
- Prompt default buttons: the buttons a MessageBoxEventArgs holds when the caller sets
  none come from a class that is not part of this model. They are a parameter of
  PromptFlow.ShowMessageBox.
- Converters, float handling: number formatting ("0.###" in the current culture) and
  float.TryParse are parameters of the vector converter. Floats are their 32-bit
  patterns.
- VectorConverter.RoundTrip: holds only when the texts of v's components have no ',' or ' '. It
  fails in cultures whose decimal separator is a comma, because the splitter then cuts a
  component in two.
- LogicalConverters.ChangeType: numeric targets are one `NumberType` whose value is the
  whole number 1 or 0, so the width and representation of the numeric type (Int32,
  Double, Decimal, …) are not distinguished. Char, DateTime, enum, Nullable and other
  targets are modelled as InvalidCast.
- EnumFlagConverter: enums with a non-`int` underlying type are left out. The flag
  converter keeps the target as its 32 bits.
- Left-out converters and extensions: ArithmeticConverters, ZeroConverter,
  TypeExtensions, the coordinate-picker controls, and the views beyond the message-box
  request handler. They are not part of this model.
- Window notifications: Activated, Deactivated and ContentRendered are empty virtual
  hooks. They are left out.
- WindowVMBase: its Init and Shutdown are no-ops, and its Title property is a plain
  field; both are left out.
- Dialog base: the DialogVM base Shutdown is not part of this model.
- One view-model: replacing a control's view-model after initialization is not
  modelled. Each control has one view-model object, present or absent.
- Re-entrancy: subscribers that call back into the view-model while it raises a
  notification are not modelled. Hooks are recorded, not run.
- Demo application, left out:
  - the MainVM Tabs setter;
  - the message-box and dialog demo commands;
  - the Bogus sample data;
  - the rest of StatusTextVM: its StatusDuration and TimedStatus properties and its two
    commands. Only its Init override, which shows "Ready." in the main window, is modelled.
- UserControlVM: the base class of the demo tab pages is not part of this model. Its
  five lifecycle operations are modelled as firing their notification into the shared
  log.
- Framework plumbing: RelayCommand and OnPropertyChanged are left out. Commands are
  modelled as the methods they execute. Property-change notifications carry no state.
- Debug.Assert in src/UserControlBase.cs is not modelled. A missing view-model makes the
  subscription throw NullReference, which is what a release build does.
- Fallback text: while a countdown is running, SetTimedStatusText writes the expired text
  to the field behind the status text (src/WindowViewModelBase.cs:185). Line 189
  overwrites it straight away, so the write is never visible and the model omits it.
- Window requests: the source raises each request with `?.Invoke`, so a request with no
  listening window does nothing. The model's `requests` trace records every request as
  raised, whether or not a window listens.
