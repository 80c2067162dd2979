/** An image inside a prompt, placed by its centre. */
module PromptIcon {
  import opened Values
  import opened UIObject
  import opened InPromptUIObject
  import opened PromptGeometry

  datatype PromptIconConfig = PromptIconConfig(
    startHidden: Option<bool>,
    image: Option<string>,
    width: Option<real>,
    height: Option<real>,
    xPosition: Option<real>,
    yPosition: Option<real>,
    promptVisible: Option<bool>,
    promptWidth: real,
    promptHeight: real)

  class PromptIcon {
    const base: InPromptUIObject
    const image: string
    const width: real
    const height: real
    const placement: Placement

    ghost function Repr(): set<object>
    {
      {this, base, base.ui}
    }

    ghost predicate Initial(config: PromptIconConfig)
      reads this, base, base.ui
    {
      var startHidden := OrDefault(config.startHidden, false);
      var promptVisible := OrDefault(config.promptVisible, false);
      && base.ui.visible == ControlInitialVisible(startHidden, promptVisible)
      && base.promptVisible == promptVisible
      && base.promptWidth == None && base.promptHeight == None && base.darkTheme == None
      && image == OrDefault(config.image, "")
      && width == OrDefault(config.width, 128.0) && height == OrDefault(config.height, 128.0)
      && placement == CentredPlacement(config.promptWidth, config.promptHeight, width, height,
                                       OrDefault(config.xPosition, 0.0), OrDefault(config.yPosition, 0.0))
    }

    constructor (config: PromptIconConfig)
      ensures fresh(base) && fresh(base.ui)
      ensures Initial(config)
    {
      var startHidden := OrDefault(config.startHidden, false);
      var promptVisible := OrDefault(config.promptVisible, false);
      base := new InPromptUIObject(Some(startHidden || !promptVisible), promptVisible, None, None, None);
      image := OrDefault(config.image, "");
      width := OrDefault(config.width, 128.0);
      height := OrDefault(config.height, 128.0);
      placement := CentredPlacement(config.promptWidth, config.promptHeight,
                                    OrDefault(config.width, 128.0), OrDefault(config.height, 128.0),
                                    OrDefault(config.xPosition, 0.0), OrDefault(config.yPosition, 0.0));
    }

    function Display(): (shown: bool)
      reads base, base.ui
      ensures shown <==> base.ui.visible && base.promptVisible
    {
      Displayed(base.ui.visible, base.promptVisible)
    }
  }
}
