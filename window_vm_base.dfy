/**
 * The dialog requests a window view-model builds (ToolUI/ViewModels/WindowVMBase.cs): the
 * notification boxes, the exception box, the three prompts with their result switches,
 * and the file and folder requests. The same constructions appear verbatim in
 * src/WindowViewModelBase.cs and ToolUI/WindowVM.cs, whose models raise these values.
 */
module WindowVMBase {
  import opened Wrappers
  import opened Dialogs
  import MessageBox

  /** ShowInfo: an Information box with the given text and title, default buttons and no callback. */
  function ShowInfo(text: string, title: string := "Information"): (r: MessageBoxRequest)
    ensures r.text == text && r.title == title && r.icon == Information && MessageBox.IconVisible(r.icon)
    ensures r.buttons.Null? && r.callback.Null?
  {
    MessageBoxRequest(text, title, Information, Null, Null)
  }

  /** ShowWarning: a Warning box with the given text and title, default buttons and no callback. */
  function ShowWarning(text: string, title: string := "Warning"): (r: MessageBoxRequest)
    ensures r.text == text && r.title == title && r.icon == Warning && MessageBox.IconVisible(r.icon)
    ensures r.buttons.Null? && r.callback.Null?
  {
    MessageBoxRequest(text, title, Warning, Null, Null)
  }

  /** ShowError: an Error box with the given text and title, default buttons and no callback. */
  function ShowError(text: string, title: string := "Error"): (r: MessageBoxRequest)
    ensures r.text == text && r.title == title && r.icon == Error && MessageBox.IconVisible(r.icon)
    ensures r.buttons.Null? && r.callback.Null?
  {
    MessageBoxRequest(text, title, Error, Null, Null)
  }

  /**
   * The three notification boxes carry their text unchanged, have the default title
   * named after their icon, show that icon, keep the default buttons and expect no answer.
   */
  lemma NotificationRequests(text: string)
    ensures var info, warning, error := ShowInfo(text), ShowWarning(text), ShowError(text);
      && info.title == "Information" && info.icon == Information
      && warning.title == "Warning" && warning.icon == Warning
      && error.title == "Error" && error.icon == Error
      && (forall r :: r in {info, warning, error} ==>
            r.text == text && MessageBox.IconVisible(r.icon) && r.buttons.Null? && r.callback.Null?)
  {
  }

  /** The text of an exception box: the caller's text, a blank line, then "TypeName: message". */
  function ExceptionText(text: string, e: ExceptionInfo): (s: string)
    ensures |s| == |text| + 2 + |e.typeName| + 2 + |e.message|
    ensures s[..|text|] == text
    ensures s[|text|..|text| + 2] == "\n\n"
    ensures s[|text| + 2..] == e.typeName + ": " + e.message
  {
    var tail := e.typeName + ": " + e.message;
    assert (text + "\n\n" + tail)[|text| + 2..] == tail;
    text + "\n\n" + tail
  }

  /** ShowException: an error box whose text is ExceptionText. */
  function ShowException(e: ExceptionInfo, text: string := "An error has occurred.", title: string := "Error"): (r: MessageBoxRequest)
    ensures r.icon == Error && r.title == title && r.buttons.Null? && r.callback.Null?
    ensures r.text == ExceptionText(text, e)
  {
    ShowError(ExceptionText(text, e), title)
  }

  /** A type name, like every .NET type name, holds no colon. */
  predicate NoColon(s: string) {
    forall i :: 0 <= i < |s| ==> s[i] != ':'
  }

  /** Two exceptions whose type names hold no colon give the same text only when they are equal. */
  lemma ExceptionTextInjective(text: string, e: ExceptionInfo, e': ExceptionInfo)
    requires NoColon(e.typeName) && NoColon(e'.typeName)
    requires ExceptionText(text, e) == ExceptionText(text, e')
    ensures e == e'
  {
    var t, t' := e.typeName + ": " + e.message, e'.typeName + ": " + e'.message;
    assert t == ExceptionText(text, e)[|text| + 2..] == t';
    // each text has its first colon right after the type name
    assert t[|e.typeName|] == ':' && t'[|e'.typeName|] == ':';
    assert forall k :: 0 <= k < |e.typeName| ==> t[k] == e.typeName[k];
    assert forall k :: 0 <= k < |e'.typeName| ==> t'[k] == e'.typeName[k];
    assert |e.typeName| == |e'.typeName|;
    assert e.typeName == t[..|e.typeName|] == t'[..|e'.typeName|] == e'.typeName;
    assert e.message == t[|e.typeName| + 2..] == t'[|e'.typeName| + 2..] == e'.message;
  }

  /**
   * An exception box is an Error box titled "Error" by default; its text starts with the
   * caller's text (by default "An error has occurred.") and ends with the exception's
   * type name and message.
   */
  lemma ExceptionRequest(e: ExceptionInfo)
    ensures var r := ShowException(e);
      && r.icon == Error && r.title == "Error" && r.callback.Null?
      && r.text[..22] == "An error has occurred." && r.text[22..24] == "\n\n"
      && r.text[24..] == e.typeName + ": " + e.message
  {
  }

  /** PromptOkCancel: an OK/Cancel box whose callback switches on OK and Cancel. */
  function PromptOkCancel(text: string, title: string := "Confirm?", icon: MessageBoxImage := Question,
                          okAction: Nullable<ActionId> := Null, cancelAction: Nullable<ActionId> := Null): (r: MessageBoxRequest)
    ensures r.text == text && r.title == title && r.icon == icon && r.buttons == Some(OKCancel) && r.callback.Some?
    ensures forall res :: Invoke(r.callback.value, res) == (if res == OK then okAction else if res == Cancel then cancelAction else Null)
  {
    MessageBoxRequest(text, title, icon, Some(OKCancel), Some(OkCancelCallback(okAction, cancelAction)))
  }

  function PromptYesNo(text: string, title: string := "Yes or No?", icon: MessageBoxImage := Question,
                       yesAction: Nullable<ActionId> := Null, noAction: Nullable<ActionId> := Null): (r: MessageBoxRequest)
    ensures r.text == text && r.title == title && r.icon == icon && r.buttons == Some(YesNo) && r.callback.Some?
    ensures forall res :: Invoke(r.callback.value, res) == (if res == Yes then yesAction else if res == No then noAction else Null)
  {
    MessageBoxRequest(text, title, icon, Some(YesNo), Some(YesNoCallback(yesAction, noAction)))
  }

  function PromptYesNoCancel(text: string, title: string := "Yes or No?", icon: MessageBoxImage := Question,
                             yesAction: Nullable<ActionId> := Null, noAction: Nullable<ActionId> := Null,
                             cancelAction: Nullable<ActionId> := Null): (r: MessageBoxRequest)
    ensures r.text == text && r.title == title && r.icon == icon && r.buttons == Some(YesNoCancel) && r.callback.Some?
    ensures forall res :: (Invoke(r.callback.value, res)
      == (if res == Yes then yesAction else if res == No then noAction else if res == Cancel then cancelAction else Null))
  {
    MessageBoxRequest(text, title, icon, Some(YesNoCancel), Some(YesNoCancelCallback(yesAction, noAction, cancelAction)))
  }

  /** The OK/Cancel prompt runs okAction on OK, cancelAction on Cancel, and nothing on any other result. */
  lemma OkCancelDispatch(text: string, title: string, icon: MessageBoxImage, ok: Nullable<ActionId>, cancel: Nullable<ActionId>, r: MessageBoxResult)
    ensures var box := PromptOkCancel(text, title, icon, ok, cancel);
      && box.buttons == Some(OKCancel) && box.callback.Some?
      && Invoke(box.callback.value, r) == (if r == OK then ok else if r == Cancel then cancel else Null)
  {
  }

  /** The Yes/No prompt runs yesAction on Yes, noAction on No, and nothing on any other result. */
  lemma YesNoDispatch(text: string, title: string, icon: MessageBoxImage, yes: Nullable<ActionId>, no: Nullable<ActionId>, r: MessageBoxResult)
    ensures var box := PromptYesNo(text, title, icon, yes, no);
      && box.buttons == Some(YesNo) && box.callback.Some?
      && Invoke(box.callback.value, r) == (if r == Yes then yes else if r == No then no else Null)
  {
  }

  /** The Yes/No/Cancel prompt runs exactly the action matching the result, and nothing on None or OK. */
  lemma YesNoCancelDispatch(text: string, title: string, icon: MessageBoxImage, yes: Nullable<ActionId>, no: Nullable<ActionId>,
                            cancel: Nullable<ActionId>, r: MessageBoxResult)
    ensures var box := PromptYesNoCancel(text, title, icon, yes, no, cancel);
      && box.buttons == Some(YesNoCancel) && box.callback.Some?
      && Invoke(box.callback.value, r) == (if r == Yes then yes else if r == No then no else if r == Cancel then cancel else Null)
  {
  }

  /** The default titles of the prompts. */
  lemma PromptDefaults(text: string)
    ensures PromptOkCancel(text).title == "Confirm?" && PromptOkCancel(text).icon == Question
    ensures PromptYesNo(text).title == "Yes or No?" && PromptYesNo(text).icon == Question
    ensures PromptYesNoCancel(text).title == "Yes or No?" && PromptYesNoCancel(text).icon == Question
    ensures PromptOkCancel(text).callback == Some(OkCancelCallback(Null, Null))
  {
  }

  /** ShowFileDialog(type, callback): a request with that type and callback and the default filter. */
  function ShowFileDialog(dialogType: FileDialogType, callback: Nullable<FileCallbackId> := Null): (r: FileDialogRequest)
    ensures r.dialogType == dialogType && r.callback == callback && r.filter.Null?
  {
    FileDialogRequest(dialogType, callback, Null)
  }

  /** ShowFolderDialog(type, callback). */
  function ShowFolderDialog(dialogType: FileDialogType, callback: Nullable<FileCallbackId> := Null): (r: FileDialogRequest)
    ensures r.dialogType == dialogType && r.callback == callback && r.filter.Null?
  {
    FileDialogRequest(dialogType, callback, Null)
  }

  /** File and folder requests pass type and callback through unchanged and set no filter. */
  lemma DialogRequestsForward(t: FileDialogType, cb: Nullable<FileCallbackId>)
    ensures ShowFileDialog(t, cb).dialogType == t && ShowFileDialog(t, cb).callback == cb
    ensures ShowFolderDialog(t, cb).dialogType == t && ShowFolderDialog(t, cb).callback == cb
    ensures ShowFileDialog(t, cb).filter.Null? && ShowFolderDialog(t, cb).filter.Null?
    ensures ShowFileDialog(t).callback.Null?
  {
  }
}
