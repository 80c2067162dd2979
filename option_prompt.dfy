/** A prompt with a title, a line of text and two buttons, one to accept and one to reject. */
module OptionPrompt {
  import opened Values
  import opened Atlas
  import opened PromptGeometry
  import opened PromptComponents
  import Prompt
  import PromptText
  import PromptButton

  datatype OptionPromptConfig = OptionPromptConfig(
    startHidden: Option<bool>,
    title: Option<string>,
    titleSize: Option<real>,
    text: Option<string>,
    textSize: Option<real>,
    useDarkTheme: Option<bool>,
    acceptLabel: Option<string>,
    rejectLabel: Option<string>,
    onAccept: Option<Callback>,
    onReject: Option<Callback>)

  const Width: real := 480.0
  const Height: real := 384.0

  class OptionPrompt {
    const prompt: Prompt.Prompt
    const title: PromptText.PromptText
    const message: PromptText.PromptText
    const acceptButton: PromptButton.PromptButton
    const rejectButton: PromptButton.PromptButton

    /**
     * A 480 by 384 prompt, hidden unless asked otherwise: the title 160 pixels above the
     * centre, the text 40 above it, and 120 pixels below it an `E` button on the left
     * running `onAccept` and an `F` button on the right running `onReject`.
     */
    constructor (config: OptionPromptConfig, coords: Coordinates)
      ensures prompt.Valid() && fresh(prompt.Repr)
      ensures prompt.components ==
        [prompt.components[0], TextC(title), TextC(message), ButtonC(acceptButton), ButtonC(rejectButton)]
      ensures prompt.ui.visible <==> config.startHidden == Some(false)
      ensures prompt.style == Prompt.ThemedStyle(OrDefault(config.useDarkTheme, false)) && prompt.onClose == Noop
      ensures prompt.width == Width && prompt.height == Height
      ensures title.text == PromptText.TextLabel(
        OrDefault(config.title, ""), 0.0, -160.0,
        if OrDefault(config.useDarkTheme, false) then White else Black, OrDefault(config.titleSize, 24.0))
      ensures message.text == PromptText.TextLabel(
        OrDefault(config.text, ""), 0.0, -40.0,
        if OrDefault(config.useDarkTheme, false) then White else Black, OrDefault(config.textSize, 21.0))
      ensures acceptButton.style == PromptButton.E && acceptButton.text == OrDefault(config.acceptLabel, "Yes")
      ensures acceptButton.onMouseDown == OrDefault(config.onAccept, Noop)
      ensures acceptButton.placement ==
        CentredPlacement(Width, Height, PromptButton.Width, PromptButton.Height, -100.0, -120.0)
      ensures rejectButton.style == PromptButton.F && rejectButton.text == OrDefault(config.rejectLabel, "No")
      ensures rejectButton.onMouseDown == OrDefault(config.onReject, Noop)
      ensures rejectButton.placement ==
        CentredPlacement(Width, Height, PromptButton.Width, PromptButton.Height, 100.0, -120.0)
      ensures acceptButton.base.ui.visible == prompt.ui.visible && rejectButton.base.ui.visible == prompt.ui.visible
    {
      var dark := OrDefault(config.useDarkTheme, false);
      var p := Prompt.NewThemedPrompt(OrDefault(config.startHidden, true), dark, Width, Height, coords);
      var t := Prompt.AddLine(p, OrDefault(config.title, ""), 160.0, OrDefault(config.titleSize, 24.0));
      var l := Prompt.AddLine(p, OrDefault(config.text, ""), 40.0, OrDefault(config.textSize, 21.0));
      var a := Prompt.AddChoice(p, OrDefault(config.acceptLabel, "Yes"), -100.0, -120.0,
                                OrDefault(config.onAccept, Noop), PromptButton.E);
      var r := Prompt.AddChoice(p, OrDefault(config.rejectLabel, "No"), 100.0, -120.0,
                                OrDefault(config.onReject, Noop), PromptButton.F);
      prompt := p;
      title := t;
      message := l;
      acceptButton := a;
      rejectButton := r;
    }
  }
}
