/** A line of text in the bottom-right corner of the screen that can be replaced. */
module CornerLabel {
  import opened Values
  import opened UIObject
  import opened PromptGeometry

  datatype CornerLabelConfig = CornerLabelConfig(
    startHidden: Option<bool>,
    value: Option<string>,
    xOffset: Option<real>,
    yOffset: Option<real>,
    color: Option<Color>,
    size: Option<real>)

  class CornerLabel {
    const ui: UIObject
    var value: string
    const xOffset: real
    const yOffset: real
    const color: Color
    const size: real

    constructor (config: CornerLabelConfig)
      ensures fresh(ui) && ui.visible == InitialVisible(Some(OrDefault(config.startHidden, true)))
      ensures value == OrDefault(config.value, "")
      ensures xOffset == OrDefault(config.xOffset, -40.0) && yOffset == OrDefault(config.yOffset, 70.0)
      ensures color == OrDefault(config.color, White) && size == OrDefault(config.size, 25.0)
    {
      ui := new UIObject(Some(OrDefault(config.startHidden, true)));
      value := OrDefault(config.value, "");
      xOffset := OrDefault(config.xOffset, -40.0);
      yOffset := OrDefault(config.yOffset, 70.0);
      color := OrDefault(config.color, White);
      size := OrDefault(config.size, 25.0);
    }

    /** Replaces the text; called without an argument it clears it. Only the text changes. */
    method Set(newValue: Option<string>)
      modifies this
      ensures value == OrDefault(newValue, "")
      ensures newValue.None? ==> value == ""
    {
      value := OrDefault(newValue, "");
    }

    /** The label's place on the screen and whether it is drawn. */
    function Display(): (r: (bool, Placement))
      reads this, ui
      ensures r.0 == ui.visible && r.1 == ScreenPlacement(xOffset, yOffset)
    {
      (ui.visible, ScreenPlacement(xOffset, yOffset))
    }
  }
}
