/**
 * The older prompt button, used with `CustomPrompt`. It has the same look and offsets
 * as the button inside a prompt, but follows only its own flag and binds no input action.
 */
module CustomPromptButton {
  import opened Values
  import opened UIObject
  import opened PromptGeometry
  import opened PromptButton

  datatype CustomPromptButtonConfig = CustomPromptButtonConfig(
    startHidden: Option<bool>,
    text: Option<string>,
    xPosition: Option<real>,
    yPosition: Option<real>,
    onMouseDown: Option<Callback>,
    style: Option<PromptButtonStyle>,
    promptWidth: real,
    promptHeight: real)

  class CustomPromptButton {
    const ui: UIObject
    const style: PromptButtonStyle
    const text: string
    const placement: Placement
    const labelXOffset: real
    const onMouseDown: Callback
    var disabled: bool

    /** Visible unless asked otherwise, enabled, centred on the given offsets. */
    constructor (config: CustomPromptButtonConfig)
      ensures fresh(ui) && ui.visible == !OrDefault(config.startHidden, false)
      ensures style == OrDefault(config.style, DefaultStyle) && text == OrDefault(config.text, "")
      ensures CentreX(placement, Width, config.promptWidth) == OrDefault(config.xPosition, 0.0)
      ensures CentreY(placement, Height, config.promptHeight) == OrDefault(config.yPosition, 0.0)
      ensures labelXOffset == LabelXOffset(style)
      ensures onMouseDown == OrDefault(config.onMouseDown, Noop) && !disabled
    {
      ui := new UIObject(Some(OrDefault(config.startHidden, false)));
      var s := OrDefault(config.style, DefaultStyle);
      style := s;
      text := OrDefault(config.text, "");
      placement := CentredPlacement(config.promptWidth, config.promptHeight, Width, Height,
                                    OrDefault(config.xPosition, 0.0), OrDefault(config.yPosition, 0.0));
      labelXOffset := LabelXOffset(s);
      onMouseDown := OrDefault(config.onMouseDown, Noop);
      disabled := false;
    }

    /** Disables the button; nothing else changes. */
    method GrayOut()
      modifies this
      ensures disabled
    {
      disabled := true;
    }

    /** Enables the button; nothing else changes. */
    method Enable()
      modifies this
      ensures !disabled
    {
      disabled := false;
    }

    /** `_click`: the callback it runs, if any; a disabled button runs none. */
    method Click() returns (fired: Option<Callback>)
      ensures fired.Some? <==> !disabled
      ensures fired.Some? ==> fired.value == onMouseDown
    {
      if disabled {
        return None;
      }
      fired := Some(onMouseDown);
    }

    /** The button follows its own flag only; the key glyph and label colour follow the style and `disabled`. */
    function Display(): (r: (bool, bool, Color))
      reads this, ui
      ensures r.0 == ui.visible
      ensures r.1 <==> !disabled && (style == E || style == F)
      ensures r.2 == Gray <==> disabled
      ensures r.2 == Black <==> !disabled && (style == ROUNDWHITE || style == SQUAREWHITE)
    {
      (ui.visible, GlyphShown(style, disabled), LabelColor(style, disabled))
    }

    /** Where the key glyph sits: left of centre by a distance that grows with the label, clamped at 65. */
    function IconMarginLeft(): (m: real)
      reads this
      ensures m == ButtonIconPos(|text|) - 26.0 / 2.0
      ensures -65.0 - 13.0 <= m <= -20.0 - 13.0
    {
      ButtonIconPos(|text|) - 26.0 / 2.0
    }
  }
}
