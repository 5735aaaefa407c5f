/**
 * A message-box request carried out end to end, as the window view does it
 * (ToolUI/Views/WindowBase.cs:73-83): a new message box is given the request's buttons and
 * icon, the user answers it (or closes it), the box shuts down, and the request's
 * callback is run with the box's result. Together with the prompt constructors this
 * says which of the caller's actions a prompt ends up running.
 */
module PromptFlow {
  import opened Wrappers
  import opened Dialogs
  import opened MessageBox
  import WindowVMBase

  /** What the user does with the box: click slot 1..3, press the space bar, or close the window. */
  datatype UserChoice = Click(slot: nat) | SpaceBar | CloseBox

  /** The buttons a request ends up with: its own, or the request type's default when it left them unset. */
  function ButtonsOf(req: MessageBoxRequest, defaultButtons: MessageBoxButton): MessageBoxButton {
    req.buttons.GetOr(defaultButtons)
  }

  /**
   * The result a box with button set `b` reports: a click on a shown slot or a space bar
   * press with a default slot presses that slot; anything else presses nothing; then
   * Shutdown fills in the default when the result is still None.
   */
  function BoxResult(b: MessageBoxButton, choice: UserChoice): (r: MessageBoxResult)
    ensures r != None
  {
    var slots := ButtonConfigMap(b);
    var pressed :=
      match choice
      case Click(k) => if 1 <= k <= 3 && slots.Slot(k).isVisible then PressEffect(slots.Slot(k)).result else None
      case SpaceBar => if SpaceBarSlot(slots) != 0 then PressEffect(slots.Slot(SpaceBarSlot(slots))).result else None
      case CloseBox => None;
    ShutdownResult(b, pressed)
  }

  /**
   * Shows the box for `req` and answers it with `choice`. Returns the box's result and
   * the action the request's callback runs with it (Null when there is no callback or it
   * runs nothing).
   */
  method ShowMessageBox(req: MessageBoxRequest, defaultButtons: MessageBoxButton, choice: UserChoice)
    returns (result: MessageBoxResult, invoked: Nullable<ActionId>)
    ensures result == BoxResult(ButtonsOf(req, defaultButtons), choice)
    ensures invoked == (if req.callback.Some? then Invoke(req.callback.value, result) else Null)
  {
    var vm := new MessageBoxExVM();
    vm.SetButtons(ButtonsOf(req, defaultButtons));
    vm.SetIcon(req.icon);
    match choice {
      case Click(k) =>
        if 1 <= k <= 3 && vm.CanExecuteButton(k) {
          vm.ButtonCommand(k);
        }
      case SpaceBar =>
        vm.SpaceBarCommand();
      case CloseBox =>
    }
    vm.Shutdown();
    result := vm.result;
    invoked := if req.callback.Some? then Invoke(req.callback.value, result) else Null;
  }

  /**
   * Whatever the user does, a prompt's callback has a case for the result, so a prompt
   * always runs exactly one of the caller's action slots (which may hold null). One lemma
   * per prompt kind.
   */
  lemma OkCancelAlwaysAnswered(text: string, choice: UserChoice, a: Nullable<ActionId>, b: Nullable<ActionId>)
    ensures var box := WindowVMBase.PromptOkCancel(text, "Confirm?", Question, a, b);
      BoxResult(box.buttons.value, choice) in Cases(box.callback.value)
  {
  }

  lemma YesNoAlwaysAnswered(text: string, choice: UserChoice, a: Nullable<ActionId>, b: Nullable<ActionId>)
    ensures var box := WindowVMBase.PromptYesNo(text, "Yes or No?", Question, a, b);
      BoxResult(box.buttons.value, choice) in Cases(box.callback.value)
  {
  }

  lemma YesNoCancelAlwaysAnswered(text: string, choice: UserChoice, a: Nullable<ActionId>, b: Nullable<ActionId>, c: Nullable<ActionId>)
    ensures var box := WindowVMBase.PromptYesNoCancel(text, "Yes or No?", Question, a, b, c);
      BoxResult(box.buttons.value, choice) in Cases(box.callback.value)
  {
  }

  /**
   * An OK/Cancel prompt: OK (slot 2) and the space bar run okAction; Cancel (slot 3) and
   * closing the box run cancelAction.
   */
  lemma OkCancelAnswers(text: string, ok: Nullable<ActionId>, cancel: Nullable<ActionId>, choice: UserChoice)
    ensures var box := WindowVMBase.PromptOkCancel(text, okAction := ok, cancelAction := cancel);
      Invoke(box.callback.value, BoxResult(OKCancel, choice))
        == if choice == Click(2) || choice == SpaceBar then ok else cancel
  {
  }

  /** A Yes/No prompt: Yes (slot 2) and the space bar run yesAction; No and closing the box run noAction. */
  lemma YesNoAnswers(text: string, yes: Nullable<ActionId>, no: Nullable<ActionId>, choice: UserChoice)
    ensures var box := WindowVMBase.PromptYesNo(text, yesAction := yes, noAction := no);
      Invoke(box.callback.value, BoxResult(YesNo, choice))
        == if choice == Click(2) || choice == SpaceBar then yes else no
  {
  }

  /**
   * A Yes/No/Cancel prompt: Yes (slot 1) and the space bar run yesAction, No (slot 2) runs
   * noAction, and Cancel or closing the box runs cancelAction.
   */
  lemma YesNoCancelAnswers(text: string, yes: Nullable<ActionId>, no: Nullable<ActionId>, cancel: Nullable<ActionId>, choice: UserChoice)
    ensures var box := WindowVMBase.PromptYesNoCancel(text, yesAction := yes, noAction := no, cancelAction := cancel);
      Invoke(box.callback.value, BoxResult(YesNoCancel, choice))
        == if choice == Click(1) || choice == SpaceBar then yes else if choice == Click(2) then no else cancel
  {
  }
}
