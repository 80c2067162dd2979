/**
 * A prompt with a title, a text box and a submit button. The prompt remembers what
 * was last typed into the box and hands it to `onAccept` when the button is clicked.
 */
module FillInPrompt {
  import opened Values
  import opened Atlas
  import opened PromptGeometry
  import opened PromptComponents
  import Prompt
  import PromptText
  import PromptButton
  import PromptInput

  datatype FillInPromptConfig = FillInPromptConfig(
    startHidden: Option<bool>,
    title: Option<string>,
    titleSize: Option<real>,
    useDarkTheme: Option<bool>,
    placeholder: Option<string>,
    acceptLabel: Option<string>,
    onAccept: Option<Callback>)

  const Width: real := 400.0
  const Height: real := 250.0

  /** The text the box last reported, or the empty string before the first change. */
  function LastTyped(typed: seq<string>): (text: string)
    ensures |typed| == 0 ==> text == ""
    ensures |typed| > 0 ==> text == typed[|typed| - 1]
  {
    if |typed| == 0 then "" else typed[|typed| - 1]
  }

  class FillInPrompt {
    const prompt: Prompt.Prompt
    const title: PromptText.PromptText
    const textBox: PromptInput.PromptInput
    const button: PromptButton.PromptButton
    const onAccept: Callback
    var inputText: string
    /** Every value the text box has reported, oldest first. */
    ghost var typed: seq<string>

    /** `_inputText` always holds the last value the text box reported. */
    ghost predicate Valid()
      reads this
    {
      inputText == LastTyped(typed) && button.onMouseDown == AcceptInputText(onAccept)
    }

    /**
     * A 400 by 250 prompt, hidden unless asked otherwise: the title 90 pixels above the
     * centre, the text box at the centre reporting its changes to this prompt, and an `E`
     * button 70 pixels below the centre that submits the text.
     */
    constructor (config: FillInPromptConfig, coords: Coordinates)
      ensures Valid() && typed == [] && inputText == ""
      ensures prompt.Valid() && fresh(prompt.Repr)
      ensures prompt.components == [prompt.components[0], TextC(title), InputC(textBox), ButtonC(button)]
      ensures prompt.ui.visible <==> config.startHidden == Some(false)
      ensures prompt.style == Prompt.ThemedStyle(OrDefault(config.useDarkTheme, false)) && prompt.onClose == Noop
      ensures prompt.width == Width && prompt.height == Height
      ensures title.text == PromptText.TextLabel(
        OrDefault(config.title, ""), 0.0, -90.0,
        if OrDefault(config.useDarkTheme, false) then White else Black, OrDefault(config.titleSize, 24.0))
      ensures textBox.shownPlaceholder == OrDefault(config.placeholder, PromptInput.DefaultPlaceholder)
      ensures textBox.State().onChange == StoreInputText
      ensures textBox.State().xPosition == 0.0 && textBox.State().yPosition == 0.0
      ensures button.style == PromptButton.E && button.text == OrDefault(config.acceptLabel, "Submit")
      ensures onAccept == OrDefault(config.onAccept, Noop)
      ensures button.placement == CentredPlacement(Width, Height, PromptButton.Width, PromptButton.Height, 0.0, -70.0)
      ensures textBox.base.ui.visible == prompt.ui.visible && button.base.ui.visible == prompt.ui.visible
    {
      var dark := OrDefault(config.useDarkTheme, false);
      var p := Prompt.NewThemedPrompt(OrDefault(config.startHidden, true), dark, Width, Height, coords);
      var t := Prompt.AddLine(p, OrDefault(config.title, ""), 90.0, OrDefault(config.titleSize, 24.0));
      var i := p.AddTextBox(PromptInput.PromptInputConfig(
        None, Some(OrDefault(config.placeholder, PromptInput.DefaultPlaceholder)), Some(0.0), Some(0.0),
        Some(StoreInputText), None, None, None, None));
      var accept := OrDefault(config.onAccept, Noop);
      var b := Prompt.AddChoice(p, OrDefault(config.acceptLabel, "Submit"), 0.0, -70.0,
                                AcceptInputText(accept), PromptButton.E);
      prompt := p;
      title := t;
      textBox := i;
      button := b;
      onAccept := accept;
      inputText := "";
      typed := [];
    }

    /** The text box's `onChange`: keeps the reported value. */
    method OnChange(value: string)
      requires Valid()
      modifies this
      ensures Valid() && typed == old(typed) + [value]
      ensures inputText == value
    {
      inputText := value;
      typed := typed + [value];
    }

    /**
     * A click on the submit button: unless the button is disabled, `onAccept` runs with
     * the text last typed, or with the empty string if nothing was typed.
     */
    method Accept() returns (fired: Option<(Callback, string)>)
      requires Valid()
      ensures fired.Some? <==> !button.disabled
      ensures fired.Some? ==> fired.value == (onAccept, LastTyped(typed))
    {
      var clicked := button.Click();
      match clicked
      case None =>
        fired := None;
      case Some(AcceptInputText(callback)) =>
        fired := Some((callback, inputText));
      case Some(_) =>
        assert false;
        fired := None;
    }
  }
}
