/**
 * The children a prompt holds: one tagged reference per control kind, what each
 * child looks like from the prompt's side, and the effect on it of the prompt's
 * show and hide, which call `changedPromptVisible` and then `show`/`hide` on every child.
 */
module PromptComponents {
  import opened Values
  import opened SystemInputActions
  import PromptCloseIcon
  import PromptText
  import PromptIcon
  import PromptButton
  import PromptCheckbox
  import PromptSwitch
  import PromptInput

  datatype Component =
    | CloseIconC(closeIcon: PromptCloseIcon.PromptCloseIcon)
    | TextC(text: PromptText.PromptText)
    | IconC(icon: PromptIcon.PromptIcon)
    | ButtonC(button: PromptButton.PromptButton)
    | CheckboxC(checkbox: PromptCheckbox.PromptCheckbox)
    | SwitchC(toggle: PromptSwitch.PromptSwitch)
    | InputC(input: PromptInput.PromptInput)

  /** The objects a child consists of: the control and its base objects. */
  ghost function Footprint(c: Component): set<object>
  {
    match c
    case CloseIconC(x) => x.Repr()
    case TextC(x) => x.Repr()
    case IconC(x) => x.Repr()
    case ButtonC(x) => x.Repr()
    case CheckboxC(x) => x.Repr()
    case SwitchC(x) => x.Repr()
    case InputC(x) => x.Repr()
  }

  /** The mutable state of a child beyond its two visibility flags. */
  datatype ControlState =
    | Stateless
    | ButtonControl(disabled: bool, action: Option<InputAction>, registrations: Registrations)
    | CheckboxControl(checked: bool)
    | SwitchControl(switchState: PromptSwitch.SwitchState)
    | InputControl(inputState: PromptInput.InputState)

  /**
   * A child as the prompt sees it: its own flag, the prompt flag it keeps
   * (none for the close icon, which keeps none) and the rest of its state.
   */
  datatype ChildView = ChildView(visible: bool, promptVisible: Option<bool>, control: ControlState)

  ghost function View(c: Component): ChildView
    reads Footprint(c)
  {
    match c
    case CloseIconC(x) => ChildView(x.ui.visible, None, Stateless)
    case TextC(x) => ChildView(x.base.ui.visible, Some(x.base.promptVisible), Stateless)
    case IconC(x) => ChildView(x.base.ui.visible, Some(x.base.promptVisible), Stateless)
    case ButtonC(x) =>
      ChildView(x.base.ui.visible, Some(x.base.promptVisible),
                ButtonControl(x.disabled, PromptButton.ActionFor(x.style), x.registrations))
    case CheckboxC(x) =>
      ChildView(x.base.ui.visible, Some(x.base.promptVisible), CheckboxControl(x.checked))
    case SwitchC(x) =>
      ChildView(x.base.ui.visible, Some(x.base.promptVisible), SwitchControl(x.State()))
    case InputC(x) =>
      ChildView(x.base.ui.visible, Some(x.base.promptVisible), InputControl(x.State()))
  }

  /** Whether a child is drawn: its own flag, and the prompt flag where it keeps one. */
  predicate ChildDisplayed(v: ChildView)
  {
    v.visible && v.promptVisible != Some(false)
  }

  function LiveRegistrations(v: ChildView): nat
  {
    if v.control.ButtonControl? then Live(v.control.registrations) else 0
  }

  /**
   * `changedPromptVisible(visible)` on a child: a prompt control records the flag, and
   * a button then registers (on true) or removes (on false) its input action.
   * The close icon has no such method and is left as it is.
   */
  function NotifyView(v: ChildView, visible: bool): (w: ChildView)
    ensures w.visible == v.visible
    ensures w.promptVisible == if v.promptVisible.None? then None else Some(visible)
    ensures !v.control.ButtonControl? ==> w.control == v.control
    ensures v.control.ButtonControl? ==> w.control.ButtonControl? && w.control.disabled == v.control.disabled
    ensures v.control.ButtonControl? && v.promptVisible.Some? && visible ==>
      LiveRegistrations(w) == LiveRegistrations(v) + (if v.visible && v.control.action.Some? then 1 else 0)
    ensures v.control.ButtonControl? && v.promptVisible.Some? && !visible ==>
      !w.control.registrations.storedLive
  {
    if v.promptVisible.None? then v
    else
      var control := match v.control
        case ButtonControl(d, a, r) =>
          ButtonControl(d, a, if visible then PromptButton.CreateSystemInputAction(r, v.visible, true, a)
                              else PromptButton.ClearSystemInputAction(r))
        case other => other;
      ChildView(v.visible, Some(visible), control)
  }

  /** `show()` on a child: sets its own flag, and a button tries to register its action. */
  function ShowView(v: ChildView): (w: ChildView)
    ensures w.visible && w.promptVisible == v.promptVisible
    ensures !v.control.ButtonControl? ==> w.control == v.control
    ensures v.control.ButtonControl? ==> w.control.ButtonControl? && w.control.disabled == v.control.disabled
    ensures v.control.ButtonControl? ==>
      LiveRegistrations(w) == LiveRegistrations(v) +
        (if v.promptVisible == Some(true) && v.control.action.Some? then 1 else 0)
  {
    var control := match v.control
      case ButtonControl(d, a, r) =>
        ButtonControl(d, a, PromptButton.CreateSystemInputAction(r, true, v.promptVisible == Some(true), a))
      case other => other;
    ChildView(true, v.promptVisible, control)
  }

  /** `hide()` on a child: clears its own flag, and a button removes its stored registration. */
  function HideView(v: ChildView): (w: ChildView)
    ensures !w.visible && w.promptVisible == v.promptVisible
    ensures !v.control.ButtonControl? ==> w.control == v.control
    ensures v.control.ButtonControl? ==> w.control.ButtonControl? && !w.control.registrations.storedLive
    ensures v.control.ButtonControl? ==>
      LiveRegistrations(w) == if v.control.registrations.storedLive then LiveRegistrations(v) - 1 else LiveRegistrations(v)
  {
    var control := match v.control
      case ButtonControl(d, a, r) => ButtonControl(d, a, PromptButton.ClearSystemInputAction(r))
      case other => other;
    ChildView(false, v.promptVisible, control)
  }

  /** What the prompt's `show` does to one child. */
  function ShownByPrompt(v: ChildView): (w: ChildView)
    ensures w.visible && w.promptVisible == if v.promptVisible.None? then None else Some(true)
    ensures v.control.ButtonControl? && v.promptVisible.Some? && v.control.action.Some? ==>
      LiveRegistrations(w) == LiveRegistrations(v) + (if v.visible then 2 else 1)
  {
    ShowView(NotifyView(v, true))
  }

  /** What the prompt's `hide` does to one child. */
  function HiddenByPrompt(v: ChildView): (w: ChildView)
    ensures !w.visible && w.promptVisible == if v.promptVisible.None? then None else Some(false)
    ensures v.control.ButtonControl? ==>
      LiveRegistrations(w) == if v.control.registrations.storedLive then LiveRegistrations(v) - 1 else LiveRegistrations(v)
  {
    HideView(NotifyView(v, false))
  }

  /**
   * After the prompt is shown every child is drawn, including one that was hidden
   * on its own; its prompt flag is set, and nothing but the flags and a button's
   * registrations changes.
   */
  lemma ShownByPromptDisplays(v: ChildView)
    ensures ChildDisplayed(ShownByPrompt(v))
    ensures ShownByPrompt(v).visible
    ensures ShownByPrompt(v).promptVisible == if v.promptVisible.None? then None else Some(true)
    ensures !v.control.ButtonControl? ==> ShownByPrompt(v).control == v.control
    ensures v.control.ButtonControl? ==>
      ShownByPrompt(v).control.disabled == v.control.disabled && ShownByPrompt(v).control.action == v.control.action
  {
  }

  /** After the prompt is hidden no child is drawn, and no button keeps its stored registration. */
  lemma HiddenByPromptHides(v: ChildView)
    ensures !ChildDisplayed(HiddenByPrompt(v))
    ensures !v.control.ButtonControl? ==> HiddenByPrompt(v).control == v.control
    ensures v.control.ButtonControl? ==> !HiddenByPrompt(v).control.registrations.storedLive
  {
  }

  /**
   * The usual cycle: a button hidden together with its prompt gains exactly one
   * registration when the prompt is shown, and loses it again when the prompt is hidden.
   */
  lemma ShowHideCycleBalanced(v: ChildView)
    requires v.control.ButtonControl? && v.control.action.Some? && !v.control.registrations.storedLive
    requires !v.visible && v.promptVisible.Some?
    ensures LiveRegistrations(ShownByPrompt(v)) == LiveRegistrations(v) + 1
    ensures ShownByPrompt(v).control.registrations.orphaned == v.control.registrations.orphaned
    ensures LiveRegistrations(HiddenByPrompt(ShownByPrompt(v))) == LiveRegistrations(v)
  {
  }

  /**
   * A button that is already visible when its prompt is shown (the prompt was
   * visible, or the button was shown on its own) registers twice, once from
   * `changedPromptVisible(true)` and once from `show()`; the first reference is
   * overwritten, so hiding the prompt leaves one registration live on a hidden button.
   */
  lemma ShowOnVisibleButtonLeaks(v: ChildView)
    requires v.control.ButtonControl? && v.control.action.Some?
    requires v.visible && v.promptVisible.Some?
    ensures LiveRegistrations(ShownByPrompt(v)) == LiveRegistrations(v) + 2
    ensures ShownByPrompt(v).control.registrations.orphaned >= 1
    ensures !ChildDisplayed(HiddenByPrompt(ShownByPrompt(v)))
    ensures LiveRegistrations(HiddenByPrompt(ShownByPrompt(v))) == LiveRegistrations(v) + 1
  {
  }

  /** Whether a child's class defines `changedPromptVisible`; the close icon's class does not. */
  predicate HasChangedPromptVisible(c: Component)
  {
    !c.CloseIconC?
  }

  /**
   * As written, the prompt's `show` and `hide` call `changedPromptVisible` on every child
   * in order, so the call throws a TypeError at the first child whose class lacks the
   * method. This is that child's index, if there is one.
   */
  function FirstMissingNotify(cs: seq<Component>): (r: Option<nat>)
    ensures r.None? <==> forall k :: 0 <= k < |cs| ==> HasChangedPromptVisible(cs[k])
    ensures r.Some? ==> r.value < |cs| && !HasChangedPromptVisible(cs[r.value])
    ensures r.Some? ==> forall k :: 0 <= k < r.value ==> HasChangedPromptVisible(cs[k])
  {
    if cs == [] then None
    else if !HasChangedPromptVisible(cs[0]) then Some(0)
    else match FirstMissingNotify(cs[1..])
      case None => None
      case Some(i) => Some(i + 1)
  }

  /** Every prompt's first child is its close icon, so as written show and hide reach no child. */
  lemma ShowAsWrittenThrowsAtCloseIcon(cs: seq<Component>)
    requires |cs| > 0 && cs[0].CloseIconC?
    ensures FirstMissingNotify(cs) == Some(0)
  {
  }

  /** `changedPromptVisible(visible)` on one child; a close icon is skipped. */
  method Notify(c: Component, visible: bool)
    modifies Footprint(c)
    ensures View(c) == NotifyView(old(View(c)), visible)
  {
    match c
    case CloseIconC(x) =>
    case TextC(x) => x.base.ChangedPromptVisible(visible);
    case IconC(x) => x.base.ChangedPromptVisible(visible);
    case ButtonC(x) => x.ChangedPromptVisible(visible);
    case CheckboxC(x) => x.base.ChangedPromptVisible(visible);
    case SwitchC(x) => x.base.ChangedPromptVisible(visible);
    case InputC(x) => x.base.ChangedPromptVisible(visible);
  }

  /** `show()` on one child. */
  method Show(c: Component)
    modifies Footprint(c)
    ensures View(c) == ShowView(old(View(c)))
  {
    match c
    case CloseIconC(x) => x.ui.Show();
    case TextC(x) => x.base.ui.Show();
    case IconC(x) => x.base.ui.Show();
    case ButtonC(x) => x.Show();
    case CheckboxC(x) => x.base.ui.Show();
    case SwitchC(x) => x.base.ui.Show();
    case InputC(x) => x.base.ui.Show();
  }

  /** `hide()` on one child. */
  method Hide(c: Component)
    modifies Footprint(c)
    ensures View(c) == HideView(old(View(c)))
  {
    match c
    case CloseIconC(x) => x.ui.Hide();
    case TextC(x) => x.base.ui.Hide();
    case IconC(x) => x.base.ui.Hide();
    case ButtonC(x) => x.Hide();
    case CheckboxC(x) => x.base.ui.Hide();
    case SwitchC(x) => x.base.ui.Hide();
    case InputC(x) => x.base.ui.Hide();
  }
}
