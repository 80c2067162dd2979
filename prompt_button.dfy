/**
 * A button inside a prompt. The E and F styles also bind the primary or
 * secondary input action, so that pressing the key clicks the button while the
 * button and its prompt are shown.
 */
module PromptButton {
  import opened Values
  import opened UIObject
  import opened InPromptUIObject
  import opened PromptGeometry
  import opened SystemInputActions

  datatype PromptButtonStyle =
    | E | F | DARK | RED
    | ROUNDBLACK | ROUNDWHITE | ROUNDSILVER | ROUNDGOLD
    | SQUAREBLACK | SQUAREWHITE | SQUARESILVER | SQUAREGOLD

  const DefaultStyle := ROUNDSILVER
  const Width: real := 174.0
  const Height: real := 46.0

  /** The input action a style binds: E the primary one, F the secondary one, the rest none. */
  function ActionFor(style: PromptButtonStyle): (a: Option<InputAction>)
    ensures a.Some? <==> style == E || style == F
    ensures a == Some(IA_PRIMARY) <==> style == E
  {
    if style == E then Some(IA_PRIMARY)
    else if style == F then Some(IA_SECONDARY)
    else None
  }

  /** Margin the label keeps on its left, leaving room for the key glyph of E and F buttons. */
  function LabelXOffset(style: PromptButtonStyle): (offset: real)
    ensures offset == 25.0 <==> ActionFor(style).Some?
    ensures offset == 0.0 || offset == 25.0
  {
    if style == E || style == F then 25.0 else 0.0
  }

  /** Horizontal position of the key glyph for a label `textLen` characters long: moves left with the text, never past -65. */
  function ButtonIconPos(textLen: nat): (pos: real)
    ensures -65.0 <= pos <= -20.0
    ensures pos >= -20.0 - 4.0 * textLen as real
    ensures pos == -65.0 || pos == -20.0 - 4.0 * textLen as real
  {
    var p := -20.0 - textLen as real * 4.0;
    if p > -65.0 then p else -65.0
  }

  /** Label colour: gray while disabled, otherwise black on the two white styles and white on every other. */
  function LabelColor(style: PromptButtonStyle, disabled: bool): (c: Color)
    ensures c == Gray <==> disabled
    ensures c == Black <==> !disabled && (style == ROUNDWHITE || style == SQUAREWHITE)
    ensures c == White <==> !disabled && style != ROUNDWHITE && style != SQUAREWHITE
  {
    var labelColor := if style == ROUNDWHITE || style == SQUAREWHITE then Black else White;
    if disabled then Gray else labelColor
  }

  /** The key glyph is drawn only on an enabled E or F button. */
  function GlyphShown(style: PromptButtonStyle, disabled: bool): (shown: bool)
    ensures shown <==> !disabled && ActionFor(style).Some?
  {
    !(disabled || (style != E && style != F))
  }

  /**
   * `_createSystemInputAction`: registers `action` when the button and its prompt are
   * both visible and the style has an action (`ActionFor`); otherwise changes nothing.
   */
  function CreateSystemInputAction(r: Registrations, visible: bool, promptVisible: bool,
                                   action: Option<InputAction>): (r': Registrations)
    ensures Live(r') == Live(r) + (if visible && promptVisible && action.Some? then 1 else 0)
    ensures visible && promptVisible && action.Some? ==> r'.storedLive && r'.stored == action
    ensures !(visible && promptVisible && action.Some?) ==> r' == r
  {
    if !visible || !promptVisible || action.None? then r
    else Add(r, action.value)
  }

  /**
   * `_createSystemInputAction` as written: its guard reads `_promptVisible`, a field no
   * class declares. The read yields `undefined`, which is falsy, so the method returns
   * before it registers anything, whatever the button's and the prompt's state.
   */
  function CreateSystemInputActionAsWritten(r: Registrations, visible: bool,
                                            action: Option<InputAction>): (r': Registrations)
    ensures r' == r
  {
    var undeclaredField: Option<bool> := None;
    match action
    case None => r
    case Some(a) => if !visible || undeclaredField != Some(true) then r else Add(r, a)
  }

  /**
   * An E or F button that is visible in a visible prompt: as written no registration is
   * added, while the guard reading the declared prompt flag adds exactly one.
   */
  lemma AsWrittenNeverBinds(r: Registrations, style: PromptButtonStyle)
    requires style == E || style == F
    ensures Live(CreateSystemInputActionAsWritten(r, true, ActionFor(style))) == Live(r)
    ensures Live(CreateSystemInputAction(r, true, true, ActionFor(style))) == Live(r) + 1
  {
  }

  /** `_clearSystemInputAction`: removes the stored registration, if it is still added. */
  function ClearSystemInputAction(r: Registrations): (r': Registrations)
    ensures Live(r') == if r.storedLive then Live(r) - 1 else Live(r)
    ensures !r'.storedLive && r'.stored == r.stored && r'.orphaned == r.orphaned
  {
    RemoveStored(r)
  }

  datatype PromptButtonConfig = PromptButtonConfig(
    startHidden: Option<bool>,
    text: Option<string>,
    xPosition: Option<real>,
    yPosition: Option<real>,
    onMouseDown: Option<Callback>,
    style: Option<PromptButtonStyle>,
    promptVisible: Option<bool>,
    promptWidth: real,
    promptHeight: real)

  class PromptButton {
    const base: InPromptUIObject
    const style: PromptButtonStyle
    const text: string
    const placement: Placement
    const onMouseDown: Callback
    var disabled: bool
    var registrations: Registrations

    ghost function Repr(): set<object>
    {
      {this, base, base.ui}
    }

    /**
     * The state the constructor leaves for `config`. Only `startHidden` and
     * `promptVisible` reach the base; the prompt size is used for the placement alone.
     */
    ghost predicate Initial(config: PromptButtonConfig)
      reads this, base, base.ui
    {
      var startHidden := OrDefault(config.startHidden, false);
      var promptVisible := OrDefault(config.promptVisible, false);
      && base.ui.visible == ControlInitialVisible(startHidden, promptVisible)
      && base.promptVisible == promptVisible
      && base.promptWidth == None && base.promptHeight == None && base.darkTheme == None
      && style == OrDefault(config.style, DefaultStyle)
      && text == OrDefault(config.text, "")
      && placement == CentredPlacement(config.promptWidth, config.promptHeight, Width, Height,
                                       OrDefault(config.xPosition, 0.0), OrDefault(config.yPosition, 0.0))
      && onMouseDown == OrDefault(config.onMouseDown, Noop)
      && !disabled
      && registrations == CreateSystemInputAction(NoRegistrations, base.ui.visible, base.promptVisible, ActionFor(style))
    }

    constructor (config: PromptButtonConfig)
      ensures fresh(base) && fresh(base.ui)
      ensures Initial(config)
    {
      var startHidden := OrDefault(config.startHidden, false);
      var promptVisible := OrDefault(config.promptVisible, false);
      base := new InPromptUIObject(Some(startHidden || !promptVisible), promptVisible, None, None, None);
      style := OrDefault(config.style, DefaultStyle);
      text := OrDefault(config.text, "");
      placement := CentredPlacement(config.promptWidth, config.promptHeight, Width, Height,
                                    OrDefault(config.xPosition, 0.0), OrDefault(config.yPosition, 0.0));
      onMouseDown := OrDefault(config.onMouseDown, Noop);
      disabled := false;
      registrations := NoRegistrations;
      new;
      CreateAction();
    }

    /** Whether the button is drawn (`display: 'flex'`). */
    function Display(): (shown: bool)
      reads base, base.ui
      ensures shown <==> base.ui.visible && base.promptVisible
    {
      Displayed(base.ui.visible, base.promptVisible)
    }

    method ChangedPromptVisible(visible: bool)
      modifies this, base
      ensures base.promptVisible == visible && disabled == old(disabled)
      ensures registrations == if visible
        then CreateSystemInputAction(old(registrations), base.ui.visible, true, ActionFor(style))
        else ClearSystemInputAction(old(registrations))
    {
      base.ChangedPromptVisible(visible);
      if visible {
        CreateAction();
      } else {
        ClearAction();
      }
    }

    method Show()
      modifies this, base.ui
      ensures base.ui.visible && disabled == old(disabled)
      ensures registrations == CreateSystemInputAction(old(registrations), true, base.promptVisible, ActionFor(style))
    {
      base.ui.Show();
      CreateAction();
    }

    method Hide()
      modifies this, base.ui
      ensures !base.ui.visible && disabled == old(disabled)
      ensures registrations == ClearSystemInputAction(old(registrations))
    {
      base.ui.Hide();
      ClearAction();
    }

    /** Disables the button; its bindings stay as they are. */
    method GrayOut()
      modifies this
      ensures disabled && registrations == old(registrations)
    {
      disabled := true;
    }

    method Enable()
      modifies this
      ensures !disabled && registrations == old(registrations)
    {
      disabled := false;
    }

    /** `_click`: the callback it runs, if any; a disabled button runs none. */
    method Click() returns (fired: Option<Callback>)
      ensures fired.Some? <==> !disabled
      ensures fired.Some? ==> fired.value == onMouseDown
    {
      if disabled {
        return None;
      }
      fired := Some(onMouseDown);
    }

    method CreateAction()
      modifies this
      ensures disabled == old(disabled)
      ensures registrations == CreateSystemInputAction(old(registrations), base.ui.visible, base.promptVisible, ActionFor(style))
    {
      var action := ActionFor(style);
      if !base.ui.visible || !base.promptVisible || action.None? {
        return;
      }
      registrations := Add(registrations, action.value);
    }

    method ClearAction()
      modifies this
      ensures disabled == old(disabled)
      ensures registrations == ClearSystemInputAction(old(registrations))
    {
      registrations := RemoveStored(registrations);
    }
  }
}
