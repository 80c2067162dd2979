/**
 * The close button in a prompt's top-right corner. It is a plain widget, not a
 * prompt control: it has no notion of the prompt's visibility.
 */
module PromptCloseIcon {
  import opened Values
  import opened UIObject
  import opened Atlas

  datatype PromptCloseIconStyle = CLOSEW | CLOSED

  /** The atlas size of a close-icon image, used when no size is given. */
  function SourceSize(coords: Coordinates, style: PromptCloseIconStyle): Size
  {
    match style
    case CLOSEW => coords.closeW
    case CLOSED => coords.closeD
  }

  datatype PromptCloseIconConfig = PromptCloseIconConfig(
    startHidden: Option<bool>,
    style: Option<PromptCloseIconStyle>,
    width: Option<real>,
    height: Option<real>,
    xPosition: Option<real>,
    yPosition: Option<real>,
    onMouseDown: Option<Callback>)

  /** The offsets from the container's top-right corner it is rendered with. */
  datatype CornerPlacement = CornerPlacement(top: real, right: real)

  class PromptCloseIcon {
    const ui: UIObject
    const style: PromptCloseIconStyle
    const width: real
    const height: real
    const placement: CornerPlacement
    const onMouseDown: Callback

    ghost function Repr(): set<object>
    {
      {this, ui}
    }

    /**
     * The state the constructor leaves: visible unless `startHidden`, sized like the
     * atlas image unless a size is given, `yPosition` from the top and `xPosition`
     * from the right (10 each by default), and the click handler exactly as given.
     */
    ghost predicate Initial(config: PromptCloseIconConfig, coords: Coordinates)
      reads this, ui
    {
      var style := OrDefault(config.style, CLOSED);
      && ui.visible == InitialVisible(Some(OrDefault(config.startHidden, false)))
      && this.style == style
      && width == OrDefault(config.width, SourceSize(coords, style).width)
      && height == OrDefault(config.height, SourceSize(coords, style).height)
      && placement == CornerPlacement(OrDefault(config.yPosition, 10.0), OrDefault(config.xPosition, 10.0))
      && onMouseDown == OrDefault(config.onMouseDown, Noop)
    }

    constructor (config: PromptCloseIconConfig, coords: Coordinates)
      ensures fresh(ui)
      ensures Initial(config, coords)
    {
      var style := OrDefault(config.style, CLOSED);
      ui := new UIObject(Some(OrDefault(config.startHidden, false)));
      this.style := style;
      width := OrDefault(config.width, SourceSize(coords, style).width);
      height := OrDefault(config.height, SourceSize(coords, style).height);
      placement := CornerPlacement(OrDefault(config.yPosition, 10.0), OrDefault(config.xPosition, 10.0));
      onMouseDown := OrDefault(config.onMouseDown, Noop);
    }

    /** Drawn exactly when its own flag is set. */
    function Display(): (shown: bool)
      reads ui
      ensures shown == ui.visible
    {
      ui.visible
    }

    /** A click runs the handler it was given, unconditionally. */
    method Click() returns (fired: Callback)
      ensures fired == onMouseDown
    {
      fired := onMouseDown;
    }
  }
}
