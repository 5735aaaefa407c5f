/**
 * The vocabulary of dialog requests a window view-model raises for its view: message-box
 * button sets, icons and results, the prompt callbacks that turn a result into one of
 * the caller's actions, and the requests themselves.
 */
module Dialogs {
  import opened Wrappers

  /** System.Windows.MessageBoxButton. */
  datatype MessageBoxButton = OKOnly | OKCancel | YesNo | YesNoCancel

  /** System.Windows.MessageBoxImage (Hand and Stop are Error, Exclamation is Warning, Asterisk is Information). */
  datatype MessageBoxImage = NoImage | Error | Question | Warning | Information

  /** System.Windows.MessageBoxResult. */
  datatype MessageBoxResult = None | OK | Cancel | Yes | No

  /** A caller-supplied `Action` delegate, by identity. */
  type ActionId = nat

  /**
   * The callback a Prompt* call attaches to its request: it holds the caller's (possibly
   * null) actions and switches on the result the view hands back.
   */
  datatype PromptCallback =
    | OkCancelCallback(ok: Nullable<ActionId>, cancel: Nullable<ActionId>)
    | YesNoCallback(yes: Nullable<ActionId>, no: Nullable<ActionId>)
    | YesNoCancelCallback(yes: Nullable<ActionId>, no: Nullable<ActionId>, cancel: Nullable<ActionId>)

  /** The results a callback's switch has a case for, each with the action of the same name. */
  function Cases(cb: PromptCallback): map<MessageBoxResult, Nullable<ActionId>> {
    match cb
    case OkCancelCallback(ok, cancel) => map[OK := ok, Cancel := cancel]
    case YesNoCallback(yes, no) => map[Yes := yes, No := no]
    case YesNoCancelCallback(yes, no, cancel) => map[Yes := yes, No := no, Cancel := cancel]
  }

  /**
   * Running a prompt callback with result `r`: the action it invokes, or Null when it
   * invokes none (no case for `r`, or the matching action is null).
   */
  function Invoke(cb: PromptCallback, r: MessageBoxResult): (invoked: Nullable<ActionId>)
    ensures r in Cases(cb) ==> invoked == Cases(cb)[r]
    ensures r !in Cases(cb) ==> invoked == Null
  {
    match cb
    case OkCancelCallback(ok, cancel) =>
      if r == OK then ok else if r == Cancel then cancel else Null
    case YesNoCallback(yes, no) =>
      if r == Yes then yes else if r == No then no else Null
    case YesNoCancelCallback(yes, no, cancel) =>
      if r == Yes then yes else if r == No then no else if r == Cancel then cancel else Null
  }

  /** A MessageBoxEventArgs: what the view is asked to show, and whom to tell the result. */
  datatype MessageBoxRequest = MessageBoxRequest(
    text: string,
    title: string,
    icon: MessageBoxImage,
    buttons: Nullable<MessageBoxButton>,  // Null: left at the MessageBoxEventArgs default
    callback: Nullable<PromptCallback>)

  /** WpfEssentials' FileDialogType. */
  datatype FileDialogType = OpenFileDialog | SaveFileDialog

  /** A caller-supplied `Action<bool?, FileDialogEventArgs>` delegate, by identity. */
  type FileCallbackId = nat

  /** A FileDialogEventArgs as the view-model builds it. */
  datatype FileDialogRequest = FileDialogRequest(
    dialogType: FileDialogType,
    callback: Nullable<FileCallbackId>,
    filter: Nullable<string>)  // Null: left at the FileDialogEventArgs default

  /** An exception as ShowException reads it: its type's short name and its message. */
  datatype ExceptionInfo = ExceptionInfo(typeName: string, message: string)

  /** A request a window view-model fires for its view to carry out. */
  datatype Request =
    | MessageBox(box: MessageBoxRequest)
    | FileDialog(file: FileDialogRequest)
    | FolderDialog(folder: FileDialogRequest)
    | Hide
    | Close(result: Nullable<bool>)  // Null: no dialog result (or no payload at all)
}
