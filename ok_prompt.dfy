/** A prompt with one line of text and an accept button. */
module OkPrompt {
  import opened Values
  import opened Atlas
  import opened PromptGeometry
  import opened PromptComponents
  import Prompt
  import PromptText
  import PromptButton

  datatype OkPromptConfig = OkPromptConfig(
    startHidden: Option<bool>,
    text: Option<string>,
    textSize: Option<real>,
    useDarkTheme: Option<bool>,
    acceptLabel: Option<string>,
    onAccept: Option<Callback>)

  const Width: real := 400.0
  const Height: real := 250.0

  class OkPrompt {
    const prompt: Prompt.Prompt
    const message: PromptText.PromptText
    const button: PromptButton.PromptButton

    /**
     * A 400 by 250 prompt, hidden unless asked otherwise, holding the close icon, the text
     * 40 pixels above the centre and an `E` button 70 pixels below it that runs `onAccept`.
     */
    constructor (config: OkPromptConfig, coords: Coordinates)
      ensures prompt.Valid() && fresh(prompt.Repr)
      ensures prompt.components == [prompt.components[0], TextC(message), ButtonC(button)]
      ensures prompt.ui.visible <==> config.startHidden == Some(false)
      ensures prompt.style == Prompt.ThemedStyle(OrDefault(config.useDarkTheme, false)) && prompt.onClose == Noop
      ensures prompt.width == Width && prompt.height == Height
      ensures message.text == PromptText.TextLabel(
        OrDefault(config.text, ""), 0.0, -40.0,
        if OrDefault(config.useDarkTheme, false) then White else Black, OrDefault(config.textSize, 24.0))
      ensures button.style == PromptButton.E && button.text == OrDefault(config.acceptLabel, "Ok")
      ensures button.onMouseDown == OrDefault(config.onAccept, Noop)
      ensures button.placement == CentredPlacement(Width, Height, PromptButton.Width, PromptButton.Height, 0.0, -70.0)
      ensures message.base.ui.visible == prompt.ui.visible && button.base.ui.visible == prompt.ui.visible
    {
      var dark := OrDefault(config.useDarkTheme, false);
      var p := Prompt.NewThemedPrompt(OrDefault(config.startHidden, true), dark, Width, Height, coords);
      var t := Prompt.AddLine(p, OrDefault(config.text, ""), 40.0, OrDefault(config.textSize, 24.0));
      var b := Prompt.AddChoice(p, OrDefault(config.acceptLabel, "Ok"), 0.0, -70.0,
                                OrDefault(config.onAccept, Noop), PromptButton.E);
      prompt := p;
      message := t;
      button := b;
    }
  }
}
