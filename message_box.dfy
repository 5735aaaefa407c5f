/**
 * The extended message box's view-model (ToolUI/MessageBoxExVM.cs): a fixed table from
 * button set to three button slots, the rule for what pressing a slot does, the
 * space-bar rule, and the default result filled in when the box shuts down.
 */
module MessageBox {
  import opened Wrappers
  import opened Dialogs

  const OKText: string := "OK"
  const CancelText: string := "Cancel"
  const YesText: string := "Yes"
  const NoText: string := "No"

  /** One button slot: its caption and its flags. */
  datatype ButtonInfo = ButtonInfo(text: Nullable<string>, isVisible: bool, isDefault: bool, isCancel: bool)

  /** `new ButtonInfo()`: null caption, every flag false. */
  const BlankButton: ButtonInfo := ButtonInfo(Null, false, false, false)

  /** string.IsNullOrEmpty. */
  predicate IsNullOrEmpty(s: Nullable<string>) {
    s.Null? || s.value == ""
  }

  /** `new ButtonInfo(text, isDefault, isCancel)`: a button is shown exactly when it has a caption. */
  function NewButtonInfo(text: string, isDefault: bool, isCancel: bool): (info: ButtonInfo)
    ensures info.isVisible <==> text != ""
    ensures info.text == Some(text) && info.isDefault == isDefault && info.isCancel == isCancel
  {
    ButtonInfo(Some(text), !IsNullOrEmpty(Some(text)), isDefault, isCancel)
  }

  /** The three slots, left to right. */
  datatype Slots = Slots(button1: ButtonInfo, button2: ButtonInfo, button3: ButtonInfo) {
    function Slot(k: nat): ButtonInfo
      requires 1 <= k <= 3
    {
      if k == 1 then button1 else if k == 2 then button2 else button3
    }

    /** How many of the three slots are shown. */
    function VisibleCount(): nat {
      (if button1.isVisible then 1 else 0) + (if button2.isVisible then 1 else 0) + (if button3.isVisible then 1 else 0)
    }
  }

  /** ButtonConfigMap: the slot configuration of each button set. */
  function ButtonConfigMap(b: MessageBoxButton): (s: Slots)
    ensures s.button3.isVisible && s.button3.isCancel
    ensures s.button1.isVisible <==> b == YesNoCancel
  {
    var blank := NewButtonInfo("", false, false);
    match b
    case OKOnly => Slots(blank, blank, NewButtonInfo(OKText, true, true))
    case OKCancel => Slots(blank, NewButtonInfo(OKText, true, false), NewButtonInfo(CancelText, false, true))
    case YesNo => Slots(blank, NewButtonInfo(YesText, true, false), NewButtonInfo(NoText, false, true))
    case YesNoCancel => Slots(NewButtonInfo(YesText, true, false), NewButtonInfo(NoText, false, false), NewButtonInfo(CancelText, false, true))
  }

  /**
   * Every row of the table: exactly one default slot and exactly one cancel slot, the
   * cancel slot is always slot 3, and 1/2/2/3 slots are shown for OK, OKCancel, YesNo and
   * YesNoCancel.
   */
  lemma ButtonConfigRows(b: MessageBoxButton)
    ensures var s := ButtonConfigMap(b);
      && (forall k :: 1 <= k <= 3 ==> (s.Slot(k).isVisible <==> !IsNullOrEmpty(s.Slot(k).text)))
      && (exists k :: 1 <= k <= 3 && s.Slot(k).isDefault && forall j :: 1 <= j <= 3 && j != k ==> !s.Slot(j).isDefault)
      && s.button3.isCancel && !s.button1.isCancel && !s.button2.isCancel
      && s.VisibleCount() == (match b case OKOnly => 1 case OKCancel => 2 case YesNo => 2 case YesNoCancel => 3)
  {
    var s := ButtonConfigMap(b);
    var d := if b == YesNoCancel then 1 else if b == OKOnly then 3 else 2;
    assert s.Slot(d).isDefault && forall j :: 1 <= j <= 3 && j != d ==> !s.Slot(j).isDefault;
  }

  /** The caption of the button that produces result `r`. */
  function Caption(r: MessageBoxResult): string {
    match r
    case None => ""
    case OK => OKText
    case Cancel => CancelText
    case Yes => YesText
    case No => NoText
  }

  /** What pressing a button does: the Result it sets and the dialog result it closes with. */
  datatype ButtonPress = ButtonPress(result: MessageBoxResult, closeWith: bool)

  /**
   * ButtonExec: a default button sets OK or Yes by its caption and closes with true; any
   * other button sets Cancel or No by its caption and closes with false; a caption that
   * does not fit the button's role gives None.
   */
  function PressEffect(info: ButtonInfo): (p: ButtonPress)
    ensures p.closeWith == info.isDefault
    ensures p.result != None ==> info.text == Some(Caption(p.result))
    ensures info.isDefault ==> p.result in {None, OK, Yes}
    ensures !info.isDefault ==> p.result in {None, Cancel, No}
    ensures (info.text == Some(OKText) || info.text == Some(YesText) || info.text == Some(CancelText) || info.text == Some(NoText))
            && (info.isDefault <==> (info.text == Some(OKText) || info.text == Some(YesText)))
            ==> p.result != None
  {
    if info.isDefault then
      ButtonPress(if info.text == Some(OKText) then OK else if info.text == Some(YesText) then Yes else None, true)
    else
      ButtonPress(if info.text == Some(CancelText) then Cancel else if info.text == Some(NoText) then No else None, false)
  }

  /**
   * Pressing any shown slot of any table row never leaves the result at None: the
   * default slot gives OK or Yes and closes with true, the others give Cancel or No and
   * close with false, and the result is the one named on the button.
   */
  lemma PressShownSlot(b: MessageBoxButton, k: nat)
    requires 1 <= k <= 3 && ButtonConfigMap(b).Slot(k).isVisible
    ensures var info := ButtonConfigMap(b).Slot(k);
      var p := PressEffect(info);
      && p.result != None
      && Some(Caption(p.result)) == info.text
      && (info.isDefault ==> p.result in {OK, Yes} && p.closeWith)
      && (!info.isDefault ==> p.result in {Cancel, No} && !p.closeWith)
  {
  }

  /** SpaceBarCommand: the first default slot in the order 1, 2, 3, or 0 when none is default. */
  function SpaceBarSlot(s: Slots): (k: nat)
    ensures k <= 3
    ensures k != 0 ==> s.Slot(k).isDefault && forall j :: 1 <= j < k ==> !s.Slot(j).isDefault
    ensures k == 0 ==> forall j :: 1 <= j <= 3 ==> !s.Slot(j).isDefault
  {
    if s.button1.isDefault then 1 else if s.button2.isDefault then 2 else if s.button3.isDefault then 3 else 0
  }

  /** The space bar on a table row presses its default slot: OK for OK/OKCancel, Yes for YesNo/YesNoCancel. */
  lemma SpaceBarOnRow(b: MessageBoxButton)
    ensures var s := ButtonConfigMap(b);
      var k := SpaceBarSlot(s);
      && k != 0 && s.Slot(k).isVisible
      && PressEffect(s.Slot(k)) == ButtonPress(if b in {OKOnly, OKCancel} then OK else Yes, true)
  {
  }

  /**
   * Shutdown: a result still None becomes OK for an OK box, No for a YesNo box and Cancel
   * for the others; a result already set is kept.
   */
  function ShutdownResult(buttons: MessageBoxButton, result: MessageBoxResult): (r: MessageBoxResult)
    ensures result != None ==> r == result
    ensures r != None
    ensures result == None ==> r == (if buttons == OKOnly then OK else if buttons == YesNo then No else Cancel)
  {
    if result == None then
      match buttons
      case OKOnly => OK
      case YesNo => No
      case _ => Cancel
    else result
  }

  /** The result a box left without a press defaults to is always the caption of its cancel slot. */
  lemma DismissIsCancelSlot(b: MessageBoxButton)
    ensures Some(Caption(ShutdownResult(b, None))) == ButtonConfigMap(b).button3.text
  {
  }

  /** The icon-visibility part of SetIcon: an icon is shown exactly for Error, Question, Warning and Information. */
  function IconVisible(image: MessageBoxImage): (visible: bool)
    ensures visible <==> image in {Error, Question, Warning, Information}
  {
    match image
    case Error => true
    case Question => true
    case Warning => true
    case Information => true
    case _ => false
  }

  class MessageBoxExVM {
    var buttons: MessageBoxButton
    var icon: MessageBoxImage
    var result: MessageBoxResult
    var isIconVisible: bool
    var button1Info: ButtonInfo
    var button2Info: ButtonInfo
    var button3Info: ButtonInfo
    /** The dialog results of the close requests fired so far (DialogVM.Close). */
    var closeRequests: seq<bool>

    function Config(): Slots
      reads this
    {
      Slots(button1Info, button2Info, button3Info)
    }

    /** A new box: three blank slots, every enum at its zero value, nothing requested. */
    constructor ()
      ensures Config() == Slots(BlankButton, BlankButton, BlankButton)
      ensures buttons == OKOnly && icon == NoImage && result == None && !isIconVisible
      ensures closeRequests == []
    {
      button1Info, button2Info, button3Info := BlankButton, BlankButton, BlankButton;
      buttons, icon, result, isIconVisible := OKOnly, NoImage, None, false;
      closeRequests := [];
    }

    /** The Buttons setter: stores the set and replaces all three slots with its table row. */
    method SetButtons(b: MessageBoxButton)
      modifies this
      ensures buttons == b && Config() == ButtonConfigMap(b)
      ensures icon == old(icon) && result == old(result) && isIconVisible == old(isIconVisible)
      ensures closeRequests == old(closeRequests)
    {
      buttons := b;
      var config := ButtonConfigMap(b);
      button1Info := config.button1;
      button2Info := config.button2;
      button3Info := config.button3;
    }

    /** The Icon setter: stores the image and shows the icon exactly for the four stock images. */
    method SetIcon(image: MessageBoxImage)
      modifies this
      ensures icon == image && isIconVisible == IconVisible(image)
      ensures buttons == old(buttons) && Config() == old(Config()) && result == old(result)
      ensures closeRequests == old(closeRequests)
    {
      icon := image;
      if image == Error || image == Question || image == Warning || image == Information {
        isIconVisible := true;
      } else {
        isIconVisible := false;
      }
    }

    /** ButtonExec: sets Result from the pressed button and requests the dialog to close. */
    method ButtonExec(info: ButtonInfo)
      modifies this
      ensures result == PressEffect(info).result
      ensures closeRequests == old(closeRequests) + [PressEffect(info).closeWith]
      ensures buttons == old(buttons) && icon == old(icon) && Config() == old(Config())
      ensures isIconVisible == old(isIconVisible)
    {
      if info.isDefault {
        result := if info.text == Some(OKText) then OK else if info.text == Some(YesText) then Yes else None;
        closeRequests := closeRequests + [true];
        return;
      }
      result := if info.text == Some(CancelText) then Cancel else if info.text == Some(NoText) then No else None;
      closeRequests := closeRequests + [false];
    }

    /**
     * CanExecute of Button1Command..Button3Command: a slot's command is enabled exactly when
     * it is shown, so, once a button set is installed, exactly when the slot has a caption;
     * the third command is then always enabled.
     */
    predicate CanExecuteButton(k: nat): (enabled: bool)
      requires 1 <= k <= 3
      reads this
      ensures Config() == ButtonConfigMap(buttons) ==> (enabled <==> !IsNullOrEmpty(Config().Slot(k).text))
      ensures Config() == ButtonConfigMap(buttons) && k == 3 ==> enabled
    {
      ButtonConfigRows(buttons);
      Config().Slot(k).isVisible
    }

    /** Execute of Button1Command..Button3Command: presses slot `k`. */
    method ButtonCommand(k: nat)
      requires 1 <= k <= 3
      modifies this
      ensures result == PressEffect(old(Config()).Slot(k)).result
      ensures closeRequests == old(closeRequests) + [PressEffect(old(Config()).Slot(k)).closeWith]
      ensures buttons == old(buttons) && icon == old(icon) && Config() == old(Config())
      ensures isIconVisible == old(isIconVisible)
    {
      if k == 1 {
        ButtonExec(button1Info);
      } else if k == 2 {
        ButtonExec(button2Info);
      } else {
        ButtonExec(button3Info);
      }
    }

    /** SpaceBarCommand: presses the first default slot, and does nothing when no slot is default. */
    method SpaceBarCommand()
      modifies this
      ensures var k := SpaceBarSlot(old(Config()));
        && (k != 0 ==> result == PressEffect(old(Config()).Slot(k)).result
                       && closeRequests == old(closeRequests) + [PressEffect(old(Config()).Slot(k)).closeWith])
        && (k == 0 ==> result == old(result) && closeRequests == old(closeRequests))
      ensures buttons == old(buttons) && icon == old(icon) && Config() == old(Config())
      ensures isIconVisible == old(isIconVisible)
    {
      if button1Info.isDefault {
        ButtonExec(button1Info);
      } else if button2Info.isDefault {
        ButtonExec(button2Info);
      } else if button3Info.isDefault {
        ButtonExec(button3Info);
      }
    }

    /** Shutdown: fills in the default result for the button set when no button set one. */
    method Shutdown()
      modifies this
      ensures result == ShutdownResult(buttons, old(result))
      ensures buttons == old(buttons) && icon == old(icon) && Config() == old(Config())
      ensures isIconVisible == old(isIconVisible) && closeRequests == old(closeRequests)
    {
      if result == None {
        result := match buttons
          case OKOnly => OK
          case YesNo => No
          case _ => Cancel;
      }
    }
  }
}
