/** A text box inside a prompt; every edit by the player is reported through `onChange`. */
module PromptInput {
  import opened Values
  import opened UIObject
  import opened InPromptUIObject
  import opened PromptGeometry

  const Width: real := 312.0
  const Height: real := 46.0
  const DefaultPlaceholder := "Fill in"

  datatype PromptInputConfig = PromptInputConfig(
    startHidden: Option<bool>,
    placeholder: Option<string>,
    xPosition: Option<real>,
    yPosition: Option<real>,
    onChange: Option<Callback>,
    promptWidth: Option<real>,
    promptHeight: Option<real>,
    promptVisible: Option<bool>,
    darkTheme: Option<bool>)

  /** Every field of a text box that its methods or its callers may change. */
  datatype InputState = InputState(placeholder: string, xPosition: real, yPosition: real,
                                   onChange: Callback, renderX: Option<real>, renderY: Option<real>)

  /** What one render draws: the placeholder fixed at construction and the current `onChange`. */
  datatype InputRender = InputRender(display: bool, placement: Placement, placeholder: string,
                                     onChange: Callback)

  class PromptInput {
    const base: InPromptUIObject
    const shownPlaceholder: string   // `fillInBoxElement.placeholder`, taken from `placeholder` once
    var placeholder: string
    var xPosition: real
    var yPosition: real
    var onChange: Callback
    var renderX: Option<real>
    var renderY: Option<real>

    ghost function Repr(): set<object>
    {
      {this, base, base.ui}
    }

    function State(): InputState
      reads this
    {
      InputState(placeholder, xPosition, yPosition, onChange, renderX, renderY)
    }

    ghost predicate Valid()
      reads base
    {
      base.promptWidth.Some? && base.promptHeight.Some?
    }

    /** The state the constructor leaves; `darkTheme` has no default and reaches the base as given. */
    ghost predicate Initial(config: PromptInputConfig)
      reads this, base, base.ui
    {
      var startHidden := OrDefault(config.startHidden, false);
      var promptVisible := OrDefault(config.promptVisible, false);
      && base.ui.visible == ControlInitialVisible(startHidden, promptVisible)
      && base.promptVisible == promptVisible
      && base.promptWidth == Some(OrDefault(config.promptWidth, 400.0))
      && base.promptHeight == Some(OrDefault(config.promptHeight, 250.0))
      && base.darkTheme == config.darkTheme
      && shownPlaceholder == OrDefault(config.placeholder, DefaultPlaceholder)
      && State() == InputState(OrDefault(config.placeholder, DefaultPlaceholder),
                               OrDefault(config.xPosition, 0.0), OrDefault(config.yPosition, 0.0),
                               OrDefault(config.onChange, Noop), None, None)
    }

    constructor (config: PromptInputConfig)
      ensures fresh(base) && fresh(base.ui)
      ensures Valid() && Initial(config)
    {
      var startHidden := OrDefault(config.startHidden, false);
      var promptVisible := OrDefault(config.promptVisible, false);
      base := new InPromptUIObject(Some(startHidden || !promptVisible), promptVisible,
                                   Some(OrDefault(config.promptWidth, 400.0)),
                                   Some(OrDefault(config.promptHeight, 250.0)),
                                   config.darkTheme);
      placeholder := OrDefault(config.placeholder, DefaultPlaceholder);
      xPosition := OrDefault(config.xPosition, 0.0);
      yPosition := OrDefault(config.yPosition, 0.0);
      onChange := OrDefault(config.onChange, Noop);
      shownPlaceholder := OrDefault(config.placeholder, DefaultPlaceholder);
      renderX := None;
      renderY := None;
    }

    /** `render`: recomputes and caches the offsets; the box is centred at (xPosition, yPosition) from the prompt's centre. */
    method Render() returns (r: InputRender)
      requires Valid()
      modifies this
      ensures r.placement == CentredPlacement(base.promptWidth.value, base.promptHeight.value,
                                              Width, Height, xPosition, yPosition)
      ensures renderX == Some(-r.placement.right) && renderY == Some(r.placement.bottom)
      ensures renderX == Some(base.promptWidth.value / -2.0 + 156.0 + xPosition)
      ensures renderY == Some(base.promptHeight.value / 2.0 - 23.0 + yPosition)
      ensures State() == old(State()).(renderX := renderX, renderY := renderY)
      ensures r.display == Displayed(base.ui.visible, base.promptVisible)
      ensures r.placeholder == shownPlaceholder && r.onChange == onChange
    {
      renderX := Some(base.promptWidth.value / -2.0 + Width / 2.0 + xPosition);
      renderY := Some(base.promptHeight.value / 2.0 + Height / -2.0 + yPosition);
      r := InputRender(Displayed(base.ui.visible, base.promptVisible),
                       Placement(renderY.value, renderX.value * -1.0),
                       shownPlaceholder, onChange);
    }
  }
}
