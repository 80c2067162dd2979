/** A label inside a prompt. Its look is fixed when it is built. */
module PromptText {
  import opened Values
  import opened UIObject
  import opened InPromptUIObject

  const DefaultSize: real := 15.0

  datatype PromptTextConfig = PromptTextConfig(
    startHidden: Option<bool>,
    value: Option<string>,
    xPosition: Option<real>,
    yPosition: Option<real>,
    darkTheme: Option<bool>,
    color: Option<Color>,
    size: Option<real>,
    promptVisible: Option<bool>)

  /**
   * The label record: its top-left corner sits at the prompt's centre, moved
   * `marginLeft` to the right and `marginTop` down.
   */
  datatype TextLabel = TextLabel(value: string, marginLeft: real, marginTop: real, color: Color, fontSize: real)

  /**
   * The label a configuration produces: moved right by `xPosition` and up by
   * `yPosition`; coloured as given, or white on a dark prompt and black on a light one.
   */
  function MakeLabel(config: PromptTextConfig): (t: TextLabel)
    ensures t.value == OrDefault(config.value, "")
    ensures t.marginLeft == OrDefault(config.xPosition, 0.0)
    ensures t.marginTop == -OrDefault(config.yPosition, 0.0)
    ensures config.color.Some? ==> t.color == config.color.value
    ensures config.color.None? ==> (t.color == White <==> config.darkTheme == Some(true))
    ensures config.color.None? ==> (t.color == Black <==> config.darkTheme != Some(true))
    ensures t.fontSize == OrDefault(config.size, DefaultSize)
  {
    var darkTheme := OrDefault(config.darkTheme, false);
    var color := OrDefault(config.color, if darkTheme then White else Black);
    var yPosition := OrDefault(config.yPosition, 0.0);
    TextLabel(OrDefault(config.value, ""), OrDefault(config.xPosition, 0.0), yPosition * -1.0,
              color, OrDefault(config.size, DefaultSize))
  }

  class PromptText {
    const base: InPromptUIObject
    const text: TextLabel

    ghost function Repr(): set<object>
    {
      {this, base, base.ui}
    }

    /** Only `startHidden` and `promptVisible` reach the base; the theme is used for the colour alone. */
    ghost predicate Initial(config: PromptTextConfig)
      reads this, base, base.ui
    {
      var startHidden := OrDefault(config.startHidden, false);
      var promptVisible := OrDefault(config.promptVisible, false);
      && base.ui.visible == ControlInitialVisible(startHidden, promptVisible)
      && base.promptVisible == promptVisible
      && base.promptWidth == None && base.promptHeight == None && base.darkTheme == None
      && text == MakeLabel(config)
    }

    constructor (config: PromptTextConfig)
      ensures fresh(base) && fresh(base.ui)
      ensures Initial(config)
    {
      var startHidden := OrDefault(config.startHidden, false);
      var promptVisible := OrDefault(config.promptVisible, false);
      base := new InPromptUIObject(Some(startHidden || !promptVisible), promptVisible, None, None, None);
      text := MakeLabel(config);
    }

    function Display(): (shown: bool)
      reads base, base.ui
      ensures shown <==> base.ui.visible && base.promptVisible
    {
      Displayed(base.ui.visible, base.promptVisible)
    }
  }
}
