/** The flyout's open/close state machine: a tri-state dialog result, an open flag
    and the container it is shown in. The container itself (its Show and Close)
    belongs to the framework; showing a flyout attaches it to the container. */
module Flyouts {
  import opened Framework

  /** The host a flyout is shown in; its own behaviour is not modelled. */
  class FlyoutContainer {
    constructor () {}
  }

  /** What the dispatcher runs while the modal loop pumps messages: a key reaching
      the flyout, code in the flyout's content setting DialogResult, or the start of
      the application's shutdown, which the loop checks before each pump. */
  datatype Pumped = KeyPressed(key: Key) | ResultSet(value: Option<bool>) | ShutdownStarted

  /** The part of a flyout the modal loop observes. */
  datatype ModalState = ModalState(isOpen: bool, dialogResult: Option<bool>)

  /** The DialogResult setter: the value is always stored, and the flyout closes only
      when it is attached to a container. */
  function AfterResultSet(s: ModalState, value: Option<bool>, attached: bool): ModalState
  {
    ModalState(if attached then false else s.isOpen, value)
  }

  /** One pumped input, as the flyout handles it. */
  function Step(s: ModalState, p: Pumped, attached: bool, closeOnEscapeKey: bool): ModalState
  {
    match p
    case KeyPressed(k) => if closeOnEscapeKey && k == Escape then AfterResultSet(s, Some(false), attached) else s
    case ResultSet(v) => AfterResultSet(s, v, attached)
    case ShutdownStarted => s
  }

  /** The modal loop: pump while the flyout is open, stopping at shutdown. Inputs
      that are not there yet leave the flyout as it is. */
  function Pump(s: ModalState, inputs: seq<Pumped>, attached: bool, closeOnEscapeKey: bool): ModalState
    decreases |inputs|
  {
    if !s.isOpen || inputs == [] || inputs[0].ShutdownStarted? then s
    else Pump(Step(s, inputs[0], attached, closeOnEscapeKey), inputs[1..], attached, closeOnEscapeKey)
  }

  /** Whether an input closes an attached flyout, and the result it leaves. */
  predicate Closes(p: Pumped, closeOnEscapeKey: bool)
  {
    p.ResultSet? || (p.KeyPressed? && closeOnEscapeKey && p.key == Escape)
  }

  function ClosingValue(p: Pumped): Option<bool>
  {
    if p.ResultSet? then p.value else Some(false)
  }

  /** The index of the first closing input, provided no shutdown comes before it. */
  function FirstClosing(inputs: seq<Pumped>, closeOnEscapeKey: bool): (k: Option<nat>)
    ensures k.Some? ==> k.value < |inputs| && Closes(inputs[k.value], closeOnEscapeKey)
    ensures k.Some? ==> forall j :: 0 <= j < k.value ==>
      !Closes(inputs[j], closeOnEscapeKey) && !inputs[j].ShutdownStarted?
    decreases |inputs|
  {
    if inputs == [] || inputs[0].ShutdownStarted? then None
    else if Closes(inputs[0], closeOnEscapeKey) then Some(0)
    else match FirstClosing(inputs[1..], closeOnEscapeKey)
      case None => None
      case Some(k) => Some(k + 1)
  }

  /** ShowDialogModal returns the DialogResult current when the open flag goes false:
      an attached flyout that was opened with no result closes exactly at the first
      closing input before any shutdown, with the value that input set; without one
      it stays open and the result stays unset. */
  lemma {:induction false} ModalResultIsClosingValue(inputs: seq<Pumped>, closeOnEscapeKey: bool)
    ensures var s := Pump(ModalState(true, None), inputs, true, closeOnEscapeKey);
      match FirstClosing(inputs, closeOnEscapeKey)
      case Some(k) => !s.isOpen && s.dialogResult == ClosingValue(inputs[k])
      case None => s == ModalState(true, None)
    decreases |inputs|
  {
    if inputs == [] || inputs[0].ShutdownStarted? {
    } else if Closes(inputs[0], closeOnEscapeKey) {
      var s1 := Step(ModalState(true, None), inputs[0], true, closeOnEscapeKey);
      assert !s1.isOpen;
    } else {
      assert Step(ModalState(true, None), inputs[0], true, closeOnEscapeKey) == ModalState(true, None);
      ModalResultIsClosingValue(inputs[1..], closeOnEscapeKey);
    }
  }

  /** A flyout that is not attached to a container never closes through the
      DialogResult setter; it keeps the last value set. */
  lemma {:induction false} DetachedNeverCloses(s: ModalState, inputs: seq<Pumped>, closeOnEscapeKey: bool)
    requires s.isOpen
    ensures Pump(s, inputs, false, closeOnEscapeKey).isOpen
    decreases |inputs|
  {
    if inputs == [] || inputs[0].ShutdownStarted? {
    } else {
      DetachedNeverCloses(Step(s, inputs[0], false, closeOnEscapeKey), inputs[1..], closeOnEscapeKey);
    }
  }

  class Flyout {
    /** Set by the container that hosts the flyout. */
    var container: FlyoutContainer?
    var dialogResult: Option<bool>
    var isOpen: bool
    var closeOnEscapeKey: bool
    var closeOnContainerClick: bool
    var disableTarget: bool

    /** A new flyout: not shown, no result, and all three options on. */
    constructor ()
      ensures container == null && dialogResult.None? && !isOpen
      ensures closeOnEscapeKey && closeOnContainerClick && disableTarget
    {
      container := null;
      dialogResult := None;
      isOpen := false;
      closeOnEscapeKey, closeOnContainerClick, disableTarget := true, true, true;
    }

    function State(): ModalState
      reads this
    {
      ModalState(isOpen, dialogResult)
    }

    /** The internal Container setter the hosting container uses. */
    method SetContainer(c: FlyoutContainer?)
      modifies this`container
      ensures container == c
    {
      container := c;
    }

    /** The DialogResult setter. OnClosed is empty in the flyouts modelled here. */
    method SetDialogResult(value: Option<bool>)
      modifies this`dialogResult, this`isOpen
      ensures State() == AfterResultSet(old(State()), value, container != null)
    {
      dialogResult := value;
      if container != null {
        isOpen := false;
      }
    }

    /** OnKeyDown: Escape, with CloseOnEscapeKey on, is handled and sets the result to
        false; every other key, or a null event, changes nothing. */
    method OnKeyDown(e: Option<Key>) returns (handled: bool)
      modifies this`dialogResult, this`isOpen
      ensures handled <==> e.Some? && closeOnEscapeKey && e.value == Escape
      ensures handled ==> State() == AfterResultSet(old(State()), Some(false), container != null)
      ensures !handled ==> State() == old(State())
    {
      handled := false;
      if e.Some? && closeOnEscapeKey && e.value == Escape {
        handled := true;
        SetDialogResult(Some(false));
      }
    }

    /** ShowDialog(FlyoutContainer): a null container is an ArgumentNullException;
        otherwise the flyout is attached, open, and has no result yet. */
    method ShowDialog(c: FlyoutContainer?) returns (o: Outcome<Exception>)
      modifies this`container, this`isOpen, this`dialogResult
      ensures c == null ==> o == Fail(ArgumentNull) && unchanged(this)
      ensures c != null ==> o.Pass? && container == c && State() == ModalState(true, None)
    {
      if c == null {
        return Fail(ArgumentNull);
      }
      container := c;
      isOpen := true;
      dialogResult := None;
      o := Pass;
    }

    /** ShowDialogModal(FlyoutContainer): show, then pump the given inputs while the
        flyout is open and the application is not shutting down, and return the
        result. */
    method ShowDialogModal(c: FlyoutContainer?, inputs: seq<Pumped>)
      returns (o: Outcome<Exception>, r: Option<bool>)
      modifies this`container, this`isOpen, this`dialogResult
      ensures c == null ==> o == Fail(ArgumentNull) && unchanged(this)
      ensures c != null ==>
        && o.Pass? && container == c
        && State() == Pump(ModalState(true, None), inputs, true, closeOnEscapeKey)
        && r == dialogResult
    {
      o := ShowDialog(c);
      if o.Fail? {
        return o, dialogResult;
      }
      var i := 0;
      while isOpen && i < |inputs| && !inputs[i].ShutdownStarted?
        invariant 0 <= i <= |inputs| && container == c
        invariant Pump(State(), inputs[i..], true, closeOnEscapeKey)
               == Pump(ModalState(true, None), inputs, true, closeOnEscapeKey)
        decreases |inputs| - i
      {
        match inputs[i] {
          case KeyPressed(k) =>
            var _ := OnKeyDown(Some(k));
          case ResultSet(v) =>
            SetDialogResult(v);
        }
        assert inputs[i..][1..] == inputs[i + 1..];
        i := i + 1;
      }
      r := dialogResult;
    }
  }
}
