/** The message box flyout: which buttons and which icon a message box shows, which
    button becomes the default one, what a button click yields, and the result the
    modal call returns. The flyout behaviour it inherits is the composed `flyout`. */
module MessageBoxes {
  import opened Framework
  import opened Flyouts

  /** System.Windows.MessageBoxButton; any other numeric value is ButtonsOther. */
  datatype MessageBoxButton = ButtonsOK | ButtonsOKCancel | ButtonsYesNoCancel | ButtonsYesNo | ButtonsOther(code: int)

  /** System.Windows.MessageBoxImage by value: Hand and Stop are Error, Exclamation is
      Warning, Asterisk is Information. */
  datatype MessageBoxImage = ImageNone | ImageError | ImageQuestion | ImageWarning | ImageInformation | ImageOther(code: int)

  datatype MessageBoxResult = ResultNone | ResultOK | ResultCancel | ResultYes | ResultNo

  /** The four button parts and the four icon parts of the template. */
  datatype ButtonId = OKBtn | YesBtn | NoBtn | CancelBtn
  datatype IconId = WarningIcon | InfoIcon | ErrorIcon | QuestionIcon

  /** The buttons a button kind shows. */
  function VisibleButtons(kind: MessageBoxButton): set<ButtonId>
  {
    match kind
    case ButtonsYesNo => {YesBtn, NoBtn}
    case ButtonsYesNoCancel => {YesBtn, NoBtn, CancelBtn}
    case ButtonsOKCancel => {OKBtn, CancelBtn}
    case _ => {OKBtn}
  }

  /** Every kind shows some button; Yes and No come together and exclude OK; Cancel
      shows exactly for the two kinds that name it. */
  lemma VisibleButtonsShape(kind: MessageBoxButton)
    ensures VisibleButtons(kind) != {}
    ensures YesBtn in VisibleButtons(kind) <==> NoBtn in VisibleButtons(kind)
    ensures OKBtn in VisibleButtons(kind) <==> YesBtn !in VisibleButtons(kind)
    ensures CancelBtn in VisibleButtons(kind) <==> kind in {ButtonsOKCancel, ButtonsYesNoCancel}
  {
  }

  /** The one icon an image value shows, if any. */
  function ShownIcon(image: MessageBoxImage): Option<IconId>
  {
    match image
    case ImageError => Some(ErrorIcon)
    case ImageQuestion => Some(QuestionIcon)
    case ImageWarning => Some(WarningIcon)
    case ImageInformation => Some(InfoIcon)
    case _ => None
  }

  /** Exactly the four named images show an icon, and different images show different icons. */
  lemma ShownIconInjective(a: MessageBoxImage, b: MessageBoxImage)
    ensures ShownIcon(a).Some? <==> a in {ImageError, ImageQuestion, ImageWarning, ImageInformation}
    ensures ShownIcon(a).Some? && ShownIcon(a) == ShownIcon(b) ==> a == b
  {
  }

  /** The first button in panel order that is visible. */
  function FirstVisible(order: seq<ButtonId>, visible: set<ButtonId>): (r: Option<ButtonId>)
    ensures r.Some? ==> r.value in order && r.value in visible
    ensures r.None? <==> forall i :: 0 <= i < |order| ==> order[i] !in visible
    decreases |order|
  {
    if order == [] then None
    else if order[0] in visible then Some(order[0])
    else FirstVisible(order[1..], visible)
  }

  /** A visible button at index i with none visible before it is the first visible one. */
  lemma {:induction false} FirstVisibleAt(order: seq<ButtonId>, visible: set<ButtonId>, i: nat)
    requires i < |order| && order[i] in visible
    requires forall j :: 0 <= j < i ==> order[j] !in visible
    ensures FirstVisible(order, visible) == Some(order[i])
    decreases i
  {
    if i > 0 {
      FirstVisibleAt(order[1..], visible, i - 1);
    }
  }

  /** The button a default result names, for the three results OnFocus looks at. */
  function DefaultButton(defaultResult: MessageBoxResult): Option<ButtonId>
  {
    match defaultResult
    case ResultNo => Some(NoBtn)
    case ResultYes => Some(YesBtn)
    case ResultCancel => Some(CancelBtn)
    case _ => None
  }

  /** The button OnFocus makes the default: the default result's button when it is
      visible, otherwise the first visible button in panel order. */
  function FocusTarget(defaultResult: MessageBoxResult, visible: set<ButtonId>, order: seq<ButtonId>): Option<ButtonId>
  {
    var d := DefaultButton(defaultResult);
    if d.Some? && d.value in visible then d else FirstVisible(order, visible)
  }

  /** The focused button is always a visible one; the default result's button wins
      when visible; and once the panel holds every button, some button always gets
      the focus whatever the options. */
  lemma FocusTargetChoice(defaultResult: MessageBoxResult, kind: MessageBoxButton, order: seq<ButtonId>)
    ensures var r := FocusTarget(defaultResult, VisibleButtons(kind), order);
      && (r.Some? ==> r.value in VisibleButtons(kind))
      && (DefaultButton(defaultResult).Some? && DefaultButton(defaultResult).value in VisibleButtons(kind) ==>
            r == DefaultButton(defaultResult))
      && ((forall b: ButtonId :: b in order) ==> r.Some?)
  {
    var v := VisibleButtons(kind);
    VisibleButtonsShape(kind);
    if forall b: ButtonId :: b in order {
      var b :| b in v;
      assert b in order;
      var i :| 0 <= i < |order| && order[i] == b;
      assert order[i] in v;
    }
  }

  /** The buttons that carry IsDefault after a show (ApplyOptions, then OnFocus),
      given those that carried it before. ApplyOptions as written clears the flag of
      OK, Yes and No but not of Cancel (clearsCancel false); clearing all four is the
      evident intent (clearsCancel true). */
  function DefaultsAfterShow(defaults: set<ButtonId>, kind: MessageBoxButton, defaultResult: MessageBoxResult,
                             order: seq<ButtonId>, clearsCancel: bool): set<ButtonId>
  {
    var kept := if clearsCancel then {} else defaults * {CancelBtn};
    var t := FocusTarget(defaultResult, VisibleButtons(kind), order);
    kept + (if t.Some? then {t.value} else {})
  }

  /** As written, a show with Cancel as the default result followed by an OK/Cancel
      show with OK as the default result leaves two default buttons, both visible,
      when the panel lists OK first. */
  lemma StaleCancelDefault()
    ensures var order := [OKBtn, CancelBtn];
      var first := DefaultsAfterShow({}, ButtonsYesNoCancel, ResultCancel, order, false);
      && first == {CancelBtn}
      && DefaultsAfterShow(first, ButtonsOKCancel, ResultOK, order, false) == {OKBtn, CancelBtn}
      && {OKBtn, CancelBtn} <= VisibleButtons(ButtonsOKCancel)
  {
    var order := [OKBtn, CancelBtn];
    assert FirstVisible(order, VisibleButtons(ButtonsOKCancel)) == Some(OKBtn);
  }

  /** With every flag cleared, a show leaves at most one default button, whatever
      came before, and exactly one, a visible one, once the panel lists every button. */
  lemma ShowLeavesOneDefault(defaults: set<ButtonId>, kind: MessageBoxButton, defaultResult: MessageBoxResult,
                             order: seq<ButtonId>)
    ensures var d := DefaultsAfterShow(defaults, kind, defaultResult, order, true);
      && |d| <= 1 && d <= VisibleButtons(kind)
      && ((forall b: ButtonId :: b in order) ==> |d| == 1)
  {
    FocusTargetChoice(defaultResult, kind, order);
  }

  /** The result a button stands for. */
  function ResultOf(b: ButtonId): MessageBoxResult
  {
    match b
    case OKBtn => ResultOK
    case YesBtn => ResultYes
    case NoBtn => ResultNo
    case CancelBtn => ResultCancel
  }

  /** What a click closes the message box with: the message-box result and the
      flyout's DialogResult. */
  datatype Closing = Closing(result: MessageBoxResult, dialogResult: bool)

  /** A click on Yes, No or OK closes only when OnClosing allows its result; Cancel
      never asks. */
  function ClickOutcome(b: ButtonId, allowed: bool): Option<Closing>
  {
    match b
    case CancelBtn => Some(Closing(ResultCancel, false))
    case YesBtn => if allowed then Some(Closing(ResultYes, true)) else None
    case NoBtn => if allowed then Some(Closing(ResultNo, false)) else None
    case OKBtn => if allowed then Some(Closing(ResultOK, true)) else None
  }

  /** A click closes with the button's own result; the flyout's DialogResult is true
      exactly for OK and Yes; only Cancel closes whatever OnClosing answers. */
  lemma ClickOutcomeMeaning(b: ButtonId, allowed: bool)
    ensures ClickOutcome(b, allowed).Some? <==> allowed || b == CancelBtn
    ensures ClickOutcome(b, allowed).Some? ==>
      && ClickOutcome(b, allowed).value.result == ResultOf(b)
      && (ClickOutcome(b, allowed).value.dialogResult <==> ResultOf(b) in {ResultOK, ResultYes})
  {
  }

  /** The base OnClosing: every result may close the message box. */
  function BaseOnClosing(result: MessageBoxResult): (allowed: bool)
    ensures allowed
  {
    true
  }

  /** What reaches the message box while its modal loop pumps: a click on one of its
      buttons, a key, or the start of shutdown. */
  datatype MessageBoxInput = Clicked(button: ButtonId) | Pressed(key: Key) | ShutdownBegan

  datatype BoxState = BoxState(isOpen: bool, dialogResult: Option<bool>, result: MessageBoxResult)

  /** One input as an attached message box handles it. */
  function BoxStep(s: BoxState, input: MessageBoxInput, closeOnEscapeKey: bool,
                   onClosing: MessageBoxResult -> bool): BoxState
  {
    match input
    case Clicked(b) =>
      var c := ClickOutcome(b, b == CancelBtn || onClosing(ResultOf(b)));
      if c.None? then s else BoxState(false, Some(c.value.dialogResult), c.value.result)
    case Pressed(k) => if closeOnEscapeKey && k == Escape then BoxState(false, Some(false), s.result) else s
    case ShutdownBegan => s
  }

  /** The modal loop over the message box's inputs. */
  function BoxPump(s: BoxState, inputs: seq<MessageBoxInput>, closeOnEscapeKey: bool,
                   onClosing: MessageBoxResult -> bool): BoxState
    decreases |inputs|
  {
    if !s.isOpen || inputs == [] || inputs[0].ShutdownBegan? then s
    else BoxPump(BoxStep(s, inputs[0], closeOnEscapeKey, onClosing), inputs[1..], closeOnEscapeKey, onClosing)
  }

  /** Bounds on the result ShowDialogModal returns: it is the stored result or some
      button's; a box still open is unchanged; DialogResult true comes only from OK or
      Yes; and a newly stored Cancel comes with DialogResult false. Which input decides
      the result is ModalBoxClosingInput. */
  lemma {:induction false} ModalBoxResult(s: BoxState, inputs: seq<MessageBoxInput>, closeOnEscapeKey: bool,
                                          onClosing: MessageBoxResult -> bool)
    requires s.isOpen
    ensures var f := BoxPump(s, inputs, closeOnEscapeKey, onClosing);
      && (f.result == s.result || exists b :: ClickOutcome(b, true).Some? && f.result == ResultOf(b))
      && (f.isOpen ==> f == s)
      && (!f.isOpen && f.dialogResult == Some(true) ==> f.result in {ResultOK, ResultYes})
      && (f.result == ResultCancel && s.result != ResultCancel ==> f.dialogResult == Some(false))
    decreases |inputs|
  {
    if inputs == [] || inputs[0].ShutdownBegan? {
    } else {
      var s1 := BoxStep(s, inputs[0], closeOnEscapeKey, onClosing);
      if s1.isOpen {
        assert s1 == s;
        ModalBoxResult(s1, inputs[1..], closeOnEscapeKey, onClosing);
      } else {
        assert BoxPump(s, inputs, closeOnEscapeKey, onClosing) == s1;
        if inputs[0].Clicked? {
          var b := inputs[0].button;
          ClickOutcomeMeaning(b, true);
          ClickOutcomeMeaning(b, b == CancelBtn || onClosing(ResultOf(b)));
          assert ClickOutcome(b, true).Some? && s1.result == ResultOf(b);
        }
      }
    }
  }

  /** Whether an input closes an open, attached message box: a click that OnClosing
      allows (Cancel never asks), or Escape while CloseOnEscapeKey is on. */
  predicate BoxCloses(input: MessageBoxInput, closeOnEscapeKey: bool, onClosing: MessageBoxResult -> bool)
  {
    match input
    case Clicked(b) => b == CancelBtn || onClosing(ResultOf(b))
    case Pressed(k) => closeOnEscapeKey && k == Escape
    case ShutdownBegan => false
  }

  /** The index of the first closing input, provided no shutdown comes before it. */
  function FirstBoxClosing(inputs: seq<MessageBoxInput>, closeOnEscapeKey: bool,
                           onClosing: MessageBoxResult -> bool): (k: Option<nat>)
    ensures k.Some? ==> k.value < |inputs| && BoxCloses(inputs[k.value], closeOnEscapeKey, onClosing)
    ensures k.Some? ==> forall j :: 0 <= j < k.value ==>
      !BoxCloses(inputs[j], closeOnEscapeKey, onClosing) && !inputs[j].ShutdownBegan?
    decreases |inputs|
  {
    if inputs == [] || inputs[0].ShutdownBegan? then None
    else if BoxCloses(inputs[0], closeOnEscapeKey, onClosing) then Some(0)
    else match FirstBoxClosing(inputs[1..], closeOnEscapeKey, onClosing)
      case None => None
      case Some(k) => Some(k + 1)
  }

  /** The result ShowDialogModal returns is decided by the first closing input before
      any shutdown: a click leaves its button's result, with DialogResult true exactly
      for OK and Yes; Escape leaves the result that was already stored, which is the
      previous show's (or None), because the stored result is never reset when a
      message box is shown. With no such input the box stays open and unchanged. */
  lemma {:induction false} ModalBoxClosingInput(s: BoxState, inputs: seq<MessageBoxInput>, closeOnEscapeKey: bool,
                                                onClosing: MessageBoxResult -> bool)
    requires s.isOpen
    ensures var f := BoxPump(s, inputs, closeOnEscapeKey, onClosing);
      match FirstBoxClosing(inputs, closeOnEscapeKey, onClosing)
      case Some(k) =>
        && !f.isOpen
        && (inputs[k].Clicked? ==>
              && f.result == ResultOf(inputs[k].button)
              && f.dialogResult == Some(ResultOf(inputs[k].button) in {ResultOK, ResultYes}))
        && (inputs[k].Pressed? ==> f == BoxState(false, Some(false), s.result))
      case None => f == s
    decreases |inputs|
  {
    if inputs == [] || inputs[0].ShutdownBegan? {
    } else if BoxCloses(inputs[0], closeOnEscapeKey, onClosing) {
      assert BoxPump(s, inputs, closeOnEscapeKey, onClosing) == BoxStep(s, inputs[0], closeOnEscapeKey, onClosing);
    } else {
      assert BoxStep(s, inputs[0], closeOnEscapeKey, onClosing) == s;
      ModalBoxClosingInput(s, inputs[1..], closeOnEscapeKey, onClosing);
    }
  }

  /** A template button part. A new button is visible and not the default. */
  class Button {
    const id: ButtonId
    var visibility: Visibility
    var isDefault: bool

    constructor (id: ButtonId)
      ensures this.id == id && visibility == Visible && !isDefault
    {
      this.id := id;
      visibility := Visible;
      isDefault := false;
    }
  }

  /** A template icon part. */
  class IconPart {
    const id: IconId
    var visibility: Visibility

    constructor (id: IconId)
      ensures this.id == id && visibility == Visible
    {
      this.id := id;
      visibility := Visible;
    }
  }

  class MessageBoxFlyout {
    const flyout: Flyout
    const btnOK: Button
    const btnYes: Button
    const btnNo: Button
    const btnCancel: Button
    const iconWarning: IconPart
    const iconInfo: IconPart
    const iconError: IconPart
    const iconQuest: IconPart
    /** The children of the button panel, in template order. */
    const panel: seq<Button>
    var titleText: string
    var title: string
    var button: MessageBoxButton
    var icon: MessageBoxImage
    var defResult: MessageBoxResult
    var result: MessageBoxResult
    var templated: bool
    /** The element that last received keyboard focus from this message box. */
    var focused: Button?

    /** Each part is the one its name says, and the panel holds only the four buttons. */
    predicate Valid()
    {
      && btnOK.id == OKBtn && btnYes.id == YesBtn && btnNo.id == NoBtn && btnCancel.id == CancelBtn
      && iconWarning.id == WarningIcon && iconInfo.id == InfoIcon
      && iconError.id == ErrorIcon && iconQuest.id == QuestionIcon
      && forall i :: 0 <= i < |panel| ==> panel[i] in Buttons()
    }

    function Buttons(): set<Button>
    {
      {btnOK, btnYes, btnNo, btnCancel}
    }

    function Icons(): set<IconPart>
    {
      {iconWarning, iconInfo, iconError, iconQuest}
    }

    function ButtonOf(b: ButtonId): (r: Button)
      requires Valid()
      ensures r in Buttons() && r.id == b
    {
      match b
      case OKBtn => btnOK
      case YesBtn => btnYes
      case NoBtn => btnNo
      case CancelBtn => btnCancel
    }

    /** The ids of the visible buttons. */
    function VisibleIds(): set<ButtonId>
      reads Buttons()
    {
      (if btnOK.visibility == Visible then {OKBtn} else {})
      + (if btnYes.visibility == Visible then {YesBtn} else {})
      + (if btnNo.visibility == Visible then {NoBtn} else {})
      + (if btnCancel.visibility == Visible then {CancelBtn} else {})
    }

    /** The ids of the buttons that carry the default flag. */
    function DefaultIds(): set<ButtonId>
      reads Buttons()
    {
      (if btnOK.isDefault then {OKBtn} else {})
      + (if btnYes.isDefault then {YesBtn} else {})
      + (if btnNo.isDefault then {NoBtn} else {})
      + (if btnCancel.isDefault then {CancelBtn} else {})
    }

    /** The panel order as button ids. */
    function PanelIds(): (ids: seq<ButtonId>)
      ensures |ids| == |panel| && forall i :: 0 <= i < |panel| ==> ids[i] == panel[i].id
    {
      seq(|panel|, i requires 0 <= i < |panel| => panel[i].id)
    }

    /** A message box before its template is applied: the parts exist but nothing
        is hooked up, and no result has been stored. */
    constructor (panelOrder: seq<ButtonId>)
      ensures Valid() && fresh(flyout) && fresh(Buttons()) && fresh(Icons())
      ensures PanelIds() == panelOrder
      ensures !templated && result == ResultNone && focused == null
      ensures !flyout.isOpen && flyout.container == null && flyout.closeOnEscapeKey
    {
      flyout := new Flyout();
      var ok := new Button(OKBtn);
      var yes := new Button(YesBtn);
      var no := new Button(NoBtn);
      var cancel := new Button(CancelBtn);
      btnOK, btnYes, btnNo, btnCancel := ok, yes, no, cancel;
      iconWarning := new IconPart(WarningIcon);
      iconInfo := new IconPart(InfoIcon);
      iconError := new IconPart(ErrorIcon);
      iconQuest := new IconPart(QuestionIcon);
      panel := seq(|panelOrder|, i requires 0 <= i < |panelOrder| =>
        match panelOrder[i]
        case OKBtn => ok
        case YesBtn => yes
        case NoBtn => no
        case CancelBtn => cancel);
      titleText, title := "", "";
      button, icon := ButtonsOK, ImageNone;
      defResult, result := ResultNone, ResultNone;
      templated := false;
      focused := null;
    }

    /** The icons show exactly the one icon `shown` names. */
    predicate IconsShow(shown: Option<IconId>)
      reads Icons()
    {
      && (iconWarning.visibility == Visible <==> shown == Some(WarningIcon))
      && (iconInfo.visibility == Visible <==> shown == Some(InfoIcon))
      && (iconError.visibility == Visible <==> shown == Some(ErrorIcon))
      && (iconQuest.visibility == Visible <==> shown == Some(QuestionIcon))
    }

    /** ApplyOptions: once templated, the title is shown, exactly the chosen icon and
        the kind's buttons are visible, and OK, Yes and No lose their default flag;
        Cancel keeps whatever flag it had (see DefaultsAfterShow). Before templating it
        does nothing. */
    method ApplyOptions()
      requires Valid()
      modifies Buttons(), Icons(), this`titleText
      ensures !templated ==> unchanged(Buttons()) && unchanged(Icons()) && titleText == old(titleText)
      ensures templated ==>
        && titleText == title
        && IconsShow(ShownIcon(icon))
        && VisibleIds() == VisibleButtons(button)
        && !btnOK.isDefault && !btnYes.isDefault && !btnNo.isDefault
        && btnCancel.isDefault == old(btnCancel.isDefault)
    {
      if templated {
        titleText := title;
        ShowIcon();
        ShowButtons();
      }
    }

    /** ApplyOptions with the evidently intended clearing of all four default flags. */
    method ApplyOptionsCorrected()
      requires Valid()
      modifies Buttons(), Icons(), this`titleText
      ensures !templated ==> unchanged(Buttons()) && unchanged(Icons()) && titleText == old(titleText)
      ensures templated ==>
        && titleText == title
        && IconsShow(ShownIcon(icon))
        && VisibleIds() == VisibleButtons(button)
        && !btnOK.isDefault && !btnYes.isDefault && !btnNo.isDefault && !btnCancel.isDefault
    {
      ApplyOptions();
      if templated {
        btnCancel.isDefault := false;
      }
    }

    /** The icon half of ApplyOptions: every icon collapsed, then the image's one shown. */
    method ShowIcon()
      requires Valid()
      modifies Icons()
      ensures IconsShow(ShownIcon(icon))
    {
      iconWarning.visibility := Collapsed;
      iconInfo.visibility := Collapsed;
      iconError.visibility := Collapsed;
      iconQuest.visibility := Collapsed;
      match icon {
        case ImageError => iconError.visibility := Visible;
        case ImageQuestion => iconQuest.visibility := Visible;
        case ImageWarning => iconWarning.visibility := Visible;
        case ImageInformation => iconInfo.visibility := Visible;
        case _ =>
      }
    }

    /** The button half of ApplyOptions: every button collapsed, OK, Yes and No
        cleared of their default flag, then the kind's buttons shown. */
    method ShowButtons()
      requires Valid()
      modifies Buttons()
      ensures VisibleIds() == VisibleButtons(button)
      ensures !btnOK.isDefault && !btnYes.isDefault && !btnNo.isDefault
      ensures btnCancel.isDefault == old(btnCancel.isDefault)
    {
      btnCancel.visibility := Collapsed;
      btnOK.visibility := Collapsed;
      btnOK.isDefault := false;
      btnYes.visibility := Collapsed;
      btnYes.isDefault := false;
      btnNo.visibility := Collapsed;
      btnNo.isDefault := false;
      match button {
        case ButtonsYesNo =>
          btnYes.visibility := Visible;
          btnNo.visibility := Visible;
        case ButtonsYesNoCancel =>
          btnYes.visibility := Visible;
          btnNo.visibility := Visible;
          btnCancel.visibility := Visible;
        case ButtonsOKCancel =>
          btnCancel.visibility := Visible;
          btnOK.visibility := Visible;
        case _ =>
          btnOK.visibility := Visible;
      }
    }

    /** OnApplyTemplate: the first time, hooks the parts up and applies the options. */
    method OnApplyTemplate()
      requires Valid()
      modifies Buttons(), Icons(), this`titleText, this`templated
      ensures templated
      ensures old(templated) ==> unchanged(Buttons()) && unchanged(Icons()) && titleText == old(titleText)
      ensures !old(templated) ==>
        && titleText == title && IconsShow(ShownIcon(icon)) && VisibleIds() == VisibleButtons(button)
    {
      if !templated {
        templated := true;
        ApplyOptions();
      }
    }

    /** OnFocus: once templated, makes FocusTarget's button the default and focuses
        it, touching no other button; when no button qualifies it does nothing. */
    method OnFocus()
      requires Valid()
      modifies btnOK`isDefault, btnYes`isDefault, btnNo`isDefault, btnCancel`isDefault, this`focused
      ensures !templated ==> unchanged(Buttons()) && focused == old(focused)
      ensures templated ==>
        match FocusTarget(defResult, old(VisibleIds()), PanelIds())
        case None => unchanged(Buttons()) && focused == old(focused)
        case Some(t) =>
          && focused == ButtonOf(t) && ButtonOf(t).isDefault
          && forall b :: b in Buttons() && b != ButtonOf(t) ==> b.isDefault == old(b.isDefault)
    {
      if !templated {
        return;
      }
      ghost var visible := VisibleIds();
      var d := DefaultButton(defResult);
      if d.Some? && ButtonOf(d.value).visibility == Visible {
        assert FocusTarget(defResult, visible, PanelIds()) == d;
        MakeDefault(ButtonOf(d.value));
        return;
      }
      assert FocusTarget(defResult, visible, PanelIds()) == FirstVisible(PanelIds(), visible);
      var k := FindFirstVisible();
      if k.Some? {
        var c := panel[k.value];
        assert c == ButtonOf(c.id);
        MakeDefault(c);
      }
    }

    /** Makes one button the default and gives it the focus. */
    method MakeDefault(t: Button)
      requires t in Buttons()
      modifies t`isDefault, this`focused
      ensures t.isDefault && focused == t
    {
      t.isDefault := true;
      focused := t;
    }

    /** A show as the templated message box sees it: ApplyOptions, then the OnFocus
        the opened flyout receives. The buttons left default are DefaultsAfterShow's,
        Cancel's stale flag included. */
    method ApplyAndFocus()
      requires Valid() && templated
      modifies Buttons(), Icons(), this`titleText, this`focused
      ensures DefaultIds() == DefaultsAfterShow(old(DefaultIds()), button, defResult, PanelIds(), false)
    {
      ghost var before := DefaultIds();
      ApplyOptions();
      assert DefaultIds() == before * {CancelBtn};
      OnFocus();
    }

    /** The same show with ApplyOptionsCorrected: by ShowLeavesOneDefault, at most one
        button is left default, and it is a visible one. */
    method ApplyAndFocusCorrected()
      requires Valid() && templated
      modifies Buttons(), Icons(), this`titleText, this`focused
      ensures DefaultIds() == DefaultsAfterShow(old(DefaultIds()), button, defResult, PanelIds(), true)
    {
      ApplyOptionsCorrected();
      OnFocus();
    }

    /** The loop of OnFocus over the panel's children: the index of the first visible
        button, which is the one FirstVisible names. */
    method FindFirstVisible() returns (k: Option<nat>)
      requires Valid()
      ensures k.Some? ==> k.value < |panel| && FirstVisible(PanelIds(), VisibleIds()) == Some(panel[k.value].id)
      ensures k.None? ==> FirstVisible(PanelIds(), VisibleIds()).None?
    {
      var ids := PanelIds();
      var i := 0;
      while i < |panel|
        invariant 0 <= i <= |panel|
        invariant forall j :: 0 <= j < i ==> ids[j] !in VisibleIds()
        decreases |panel| - i
      {
        if panel[i].visibility == Visible {
          assert ids[i] in VisibleIds();
          FirstVisibleAt(ids, VisibleIds(), i);
          return Some(i);
        }
        i := i + 1;
      }
      return None;
    }

    /** The four click handlers: a click that closes stores its result and sets the
        flyout's DialogResult; one OnClosing refuses changes nothing. */
    method Click(b: ButtonId, onClosing: MessageBoxResult -> bool)
      modifies this`result, flyout`dialogResult, flyout`isOpen
      ensures match ClickOutcome(b, b == CancelBtn || onClosing(ResultOf(b)))
        case None => result == old(result) && flyout.State() == old(flyout.State())
        case Some(c) =>
          && result == c.result
          && flyout.State() == AfterResultSet(old(flyout.State()), Some(c.dialogResult), flyout.container != null)
    {
      match b {
        case YesBtn =>
          if onClosing(ResultYes) {
            result := ResultYes;
            flyout.SetDialogResult(Some(true));
          }
        case NoBtn =>
          if onClosing(ResultNo) {
            result := ResultNo;
            flyout.SetDialogResult(Some(false));
          }
        case CancelBtn =>
          result := ResultCancel;
          flyout.SetDialogResult(Some(false));
        case OKBtn =>
          if onClosing(ResultOK) {
            result := ResultOK;
            flyout.SetDialogResult(Some(true));
          }
      }
    }

    function BoxNow(): BoxState
      reads this, flyout
    {
      BoxState(flyout.isOpen, flyout.dialogResult, result)
    }

    /** Once templated, the message box shows exactly the icon of `image` and the
        buttons of `kind`. */
    predicate Shows(kind: MessageBoxButton, image: MessageBoxImage)
      reads Buttons(), Icons()
    {
      IconsShow(ShownIcon(image)) && VisibleIds() == VisibleButtons(kind)
    }

    /** The first half of ShowDialogModal: store the options and apply them. */
    method SetOptions(caption: string, kind: MessageBoxButton, image: MessageBoxImage,
                      defaultResult: MessageBoxResult)
      requires Valid()
      modifies this`title, this`button, this`icon, this`defResult, this`titleText, Buttons(), Icons()
      ensures title == caption && button == kind && icon == image && defResult == defaultResult
      ensures templated ==> Shows(kind, image) && titleText == caption
    {
      title, button, icon, defResult := caption, kind, image, defaultResult;
      ApplyOptions();
    }

    /** ShowDialogModal(owner, caption, button, icon, defaultResult): stores the
        options, applies them, shows the flyout modally in the owner's container and
        returns the stored result. */
    method ShowDialogModal(c: FlyoutContainer?, caption: string, kind: MessageBoxButton,
                           image: MessageBoxImage, defaultResult: MessageBoxResult,
                           inputs: seq<MessageBoxInput>, onClosing: MessageBoxResult -> bool)
      returns (o: Outcome<Exception>, r: MessageBoxResult)
      requires Valid()
      modifies this`title, this`button, this`icon, this`defResult, this`result, this`titleText
      modifies Buttons(), Icons(), flyout`container, flyout`isOpen, flyout`dialogResult
      ensures title == caption && button == kind && icon == image && defResult == defaultResult
      ensures templated ==> Shows(kind, image)
      ensures c == null ==> o == Fail(ArgumentNull) && result == old(result)
      ensures c != null ==>
        && o.Pass? && flyout.container == c
        && BoxNow() == BoxPump(BoxState(true, None, old(result)), inputs, flyout.closeOnEscapeKey, onClosing)
      ensures r == result
    {
      SetOptions(caption, kind, image, defaultResult);
      o := flyout.ShowDialog(c);
      if o.Pass? {
        assert BoxNow() == BoxState(true, None, old(result));
        PumpInputs(inputs, onClosing);
      }
      r := result;
    }

    /** The modal loop of ShowDialogModal: pump while the flyout is open and the
        application is not shutting down, handling clicks and keys. */
    method PumpInputs(inputs: seq<MessageBoxInput>, onClosing: MessageBoxResult -> bool)
      requires flyout.container != null
      modifies this`result, flyout`dialogResult, flyout`isOpen
      ensures BoxNow() == BoxPump(old(BoxNow()), inputs, flyout.closeOnEscapeKey, onClosing)
    {
      var i := 0;
      while flyout.isOpen && i < |inputs| && !inputs[i].ShutdownBegan?
        invariant 0 <= i <= |inputs|
        invariant BoxPump(BoxNow(), inputs[i..], flyout.closeOnEscapeKey, onClosing)
               == BoxPump(old(BoxNow()), inputs, flyout.closeOnEscapeKey, onClosing)
        decreases |inputs| - i
      {
        match inputs[i] {
          case Clicked(b) =>
            Click(b, onClosing);
          case Pressed(k) =>
            var _ := flyout.OnKeyDown(Some(k));
        }
        assert inputs[i..][1..] == inputs[i + 1..];
        i := i + 1;
      }
    }
  }
}
