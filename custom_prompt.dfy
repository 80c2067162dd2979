/**
 * The older prompt, exported as `CustomPrompt`: a background of a chosen shape and
 * nothing else. It always uses the light texture and shows no close icon.
 */
module CustomPrompt {
  import opened Values
  import opened UIObject
  import opened Atlas
  import Prompt

  /**
   * `_setStyle` of the older prompt: the large styles pick the large background, the
   * slanted ones the slanted background, and the regular styles, like any custom
   * style (the empty `default` case), the regular one.
   */
  function SectionFor(style: Prompt.PromptStyle): (section: PromptBackground)
    ensures section == PromptLargeBackground <==> Prompt.IsLargeStyle(style)
    ensures section == PromptSlantedBackground <==> Prompt.IsSlantedStyle(style)
    ensures style.CustomStyle? ==> section == PromptBackground
  {
    match style
    case LIGHT => PromptBackground
    case DARK => PromptBackground
    case LIGHTLARGE => PromptLargeBackground
    case DARKLARGE => PromptLargeBackground
    case LIGHTSLANTED => PromptSlantedBackground
    case DARKSLANTED => PromptSlantedBackground
    case CustomStyle(_) => PromptBackground
  }

  /** The older prompt picks the same background as the newer one for every style. */
  lemma SectionAgreesWithPrompt(style: Prompt.PromptStyle)
    ensures SectionFor(style) == Prompt.SetStyle(style, Prompt.DefaultStyleFields).section
  {
  }

  /** But unlike the newer prompt it never switches texture: a dark style still draws the light one. */
  lemma DarkStyleKeepsLightTexture(style: Prompt.PromptStyle)
    requires Prompt.IsDarkStyle(style)
    ensures Prompt.SetStyle(style, Prompt.DefaultStyleFields).texture != ATLAS_PATH_LIGHT
  {
  }

  datatype CustomPromptConfig = CustomPromptConfig(
    startHidden: Option<bool>,
    width: Option<real>,
    height: Option<real>,
    style: Option<Prompt.PromptStyle>)

  class CustomPrompt {
    const ui: UIObject
    const width: real
    const height: real
    const style: Prompt.PromptStyle
    const texture: AtlasTheme
    const section: PromptBackground

    /**
     * Visible unless asked otherwise; 400 by 250 unless a size is given, where a
     * given 0 is kept; the light texture whatever the style.
     */
    constructor (config: CustomPromptConfig)
      ensures fresh(ui) && ui.visible == !OrDefault(config.startHidden, false)
      ensures width == OrDefault(config.width, 400.0) && height == OrDefault(config.height, 250.0)
      ensures style == OrDefault(config.style, Prompt.LIGHT)
      ensures texture == ATLAS_PATH_LIGHT
      ensures section == SectionFor(style)
    {
      ui := new UIObject(Some(OrDefault(config.startHidden, false)));
      width := OrDefault(config.width, 400.0);
      height := OrDefault(config.height, 250.0);
      style := OrDefault(config.style, Prompt.LIGHT);
      texture := ATLAS_PATH_LIGHT;
      section := SectionFor(OrDefault(config.style, Prompt.LIGHT));
    }

    /** The prompt is drawn exactly when its flag is set. */
    function Display(): (shown: bool)
      reads ui
      ensures shown == ui.visible
    {
      ui.visible
    }
  }
}
