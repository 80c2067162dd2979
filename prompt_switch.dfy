/**
 * A switch inside a prompt. Its configuration fields are public and are read
 * again on every render, which also caches the computed offsets.
 */
module PromptSwitch {
  import opened Values
  import opened UIObject
  import opened InPromptUIObject
  import opened PromptGeometry
  import opened Checkable

  datatype PromptSwitchStyle = ROUNDGREEN | ROUNDRED | SQUAREGREEN | SQUARERED

  /** The atlas image of the switch: its own style when on, a round or square off image otherwise. */
  datatype SwitchImage = StyleImage(style: PromptSwitchStyle) | roundOff | squareOff

  predicate IsRound(style: PromptSwitchStyle)
  {
    style == ROUNDGREEN || style == ROUNDRED
  }

  /** `_getImageStyle`: on shows the style itself; off keeps only its shape. */
  function ImageStyle(style: PromptSwitchStyle, checked: bool): (img: SwitchImage)
    ensures img.StyleImage? <==> checked
    ensures checked ==> img.style == style
    ensures !checked ==> (img == roundOff <==> IsRound(style))
  {
    if checked then StyleImage(style)
    else if IsRound(style) then roundOff
    else squareOff
  }

  /**
   * The label colour as the render computes it, `labelElement.color || darkTheme ? White : Black`:
   * the conditional binds loosest, so any colour already set on the label yields white.
   */
  function LabelColor(presetColor: Option<Color>, darkTheme: bool): (c: Color)
    ensures c == White <==> presetColor.Some? || darkTheme
    ensures c == Black <==> presetColor.None? && !darkTheme
  {
    if presetColor.Some? || darkTheme then White else Black
  }

  /** A preset colour never reaches the screen: a yellow label on a light prompt renders white. */
  lemma PresetColorIgnored()
    ensures LabelColor(Some(OtherColor(0)), false) == White
  {
  }

  const RowHeight: real := 32.0

  datatype PromptSwitchConfig = PromptSwitchConfig(
    startHidden: Option<bool>,
    text: Option<string>,
    xPosition: Option<real>,
    yPosition: Option<real>,
    onCheck: Option<Callback>,
    onUncheck: Option<Callback>,
    startChecked: Option<bool>,
    darkTheme: Option<bool>,
    style: Option<PromptSwitchStyle>,
    promptWidth: Option<real>,
    promptHeight: Option<real>,
    promptVisible: Option<bool>)

  /** Every field of a switch that its methods or its callers may change. */
  datatype SwitchState = SwitchState(
    text: string, xPosition: real, yPosition: real, style: PromptSwitchStyle,
    startChecked: bool, onCheck: Callback, onUncheck: Callback, labelColor: Option<Color>,
    checked: bool, renderX: Option<real>, renderY: Option<real>)

  /** What one render draws. */
  datatype SwitchRender = SwitchRender(display: bool, placement: Placement, image: SwitchImage,
                                       labelColor: Color, text: string)

  class PromptSwitch {
    const base: InPromptUIObject
    var text: string
    var xPosition: real
    var yPosition: real
    var style: PromptSwitchStyle
    var startChecked: bool
    var onCheck: Callback
    var onUncheck: Callback
    var labelColor: Option<Color>    // `labelElement.color`: unset by the constructor; a caller may set it
    var checked: bool
    var renderX: Option<real>        // `_xPosition`: undefined until the first render
    var renderY: Option<real>

    ghost function Repr(): set<object>
    {
      {this, base, base.ui}
    }

    function State(): SwitchState
      reads this
    {
      SwitchState(text, xPosition, yPosition, style, startChecked, onCheck, onUncheck, labelColor,
                  checked, renderX, renderY)
    }

    /** The switch forwards the whole prompt context to its base. */
    ghost predicate Valid()
      reads base
    {
      base.promptWidth.Some? && base.promptHeight.Some? && base.darkTheme.Some?
    }

    ghost predicate Initial(config: PromptSwitchConfig)
      reads this, base, base.ui
    {
      var startHidden := OrDefault(config.startHidden, false);
      var promptVisible := OrDefault(config.promptVisible, false);
      && base.ui.visible == ControlInitialVisible(startHidden, promptVisible)
      && base.promptVisible == promptVisible
      && base.promptWidth == Some(OrDefault(config.promptWidth, 400.0))
      && base.promptHeight == Some(OrDefault(config.promptHeight, 250.0))
      && base.darkTheme == Some(OrDefault(config.darkTheme, false))
      && State() == SwitchState(OrDefault(config.text, ""), OrDefault(config.xPosition, 0.0),
                                OrDefault(config.yPosition, 0.0), OrDefault(config.style, ROUNDGREEN),
                                OrDefault(config.startChecked, false), OrDefault(config.onCheck, Noop),
                                OrDefault(config.onUncheck, Noop), None,
                                OrDefault(config.startChecked, false), None, None)
    }

    constructor (config: PromptSwitchConfig)
      ensures fresh(base) && fresh(base.ui)
      ensures Valid() && Initial(config)
    {
      var startHidden := OrDefault(config.startHidden, false);
      var promptVisible := OrDefault(config.promptVisible, false);
      base := new InPromptUIObject(Some(startHidden || !promptVisible), promptVisible,
                                   Some(OrDefault(config.promptWidth, 400.0)),
                                   Some(OrDefault(config.promptHeight, 250.0)),
                                   Some(OrDefault(config.darkTheme, false)));
      text := OrDefault(config.text, "");
      xPosition := OrDefault(config.xPosition, 0.0);
      yPosition := OrDefault(config.yPosition, 0.0);
      style := OrDefault(config.style, ROUNDGREEN);
      startChecked := OrDefault(config.startChecked, false);
      onUncheck := OrDefault(config.onUncheck, Noop);
      onCheck := OrDefault(config.onCheck, Noop);
      labelColor := None;
      checked := OrDefault(config.startChecked, false);
      renderX := None;
      renderY := None;
    }

    method Uncheck()
      modifies this
      ensures State() == old(State()).(checked := false)
    {
      checked := false;
    }

    method Check()
      modifies this
      ensures State() == old(State()).(checked := true)
    {
      checked := true;
    }

    /** `_click`: flips the state and returns the callback it runs. */
    method Click() returns (fired: Callback)
      modifies this
      ensures State() == old(State()).(checked := Checkable.Click(old(checked)).checked)
      ensures fired == if Checkable.Click(old(checked)).fired == OnCheck then onCheck else onUncheck
    {
      if !checked {
        Check();
        fired := onCheck;
      } else {
        Uncheck();
        fired := onUncheck;
      }
    }

    /**
     * `render`: recomputes the offsets from the current public fields, caches them,
     * and draws the switch centred at (xPosition, yPosition) from the prompt's centre.
     */
    method Render() returns (r: SwitchRender)
      requires Valid()
      modifies this
      ensures r.placement == CentredPlacement(base.promptWidth.value, base.promptHeight.value,
                                              base.promptWidth.value, RowHeight, xPosition, yPosition)
      ensures renderX == Some(-r.placement.right) && renderY == Some(r.placement.bottom)
      ensures renderX == Some(xPosition) && renderY == Some(base.promptHeight.value / 2.0 - 16.0 + yPosition)
      ensures State() == old(State()).(renderX := renderX, renderY := renderY)
      ensures r.display == Displayed(base.ui.visible, base.promptVisible)
      ensures r.image == ImageStyle(style, checked)
      ensures r.labelColor == LabelColor(labelColor, base.darkTheme.value)
      ensures r.text == text
    {
      var promptWidth := base.promptWidth.value;
      var promptHeight := base.promptHeight.value;
      renderX := Some((promptWidth / -2.0) + (promptWidth / 2.0) + xPosition);
      renderY := Some((promptHeight / 2.0) + (RowHeight / -2.0) + yPosition);
      r := SwitchRender(Displayed(base.ui.visible, base.promptVisible),
                        Placement(renderY.value, renderX.value * -1.0),
                        ImageStyle(style, checked),
                        LabelColor(labelColor, base.darkTheme.value),
                        text);
    }
  }
}
