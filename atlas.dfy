/**
 * The sizes the controls take from the shared texture atlas. Their values live
 * in a constants table that is not part of this model, so they are passed in.
 */
module Atlas {

  datatype Size = Size(width: real, height: real)

  /** The two atlas images; controls pass the path to the renderer. */
  datatype AtlasTheme = ATLAS_PATH_LIGHT | ATLAS_PATH_DARK

  /** The three prompt backgrounds a prompt style can select. */
  datatype PromptBackground = PromptBackground | PromptLargeBackground | PromptSlantedBackground

  /** The source sizes of the atlas sections a prompt and its close icon fall back on. */
  datatype Coordinates = Coordinates(
    promptBackground: Size,
    promptLargeBackground: Size,
    promptSlantedBackground: Size,
    closeW: Size,
    closeD: Size)

  function BackgroundSize(coords: Coordinates, section: PromptBackground): Size
  {
    match section
    case PromptBackground => coords.promptBackground
    case PromptLargeBackground => coords.promptLargeBackground
    case PromptSlantedBackground => coords.promptSlantedBackground
  }
}
