/**
 * A prompt: a background of a chosen style with a close icon, to which the
 * caller adds controls. Showing or hiding the prompt passes its visibility on to
 * every control it holds.
 */
module Prompt {
  import opened Values
  import opened UIObject
  import opened Atlas
  import opened PromptComponents
  import PromptGeometry
  import PromptCloseIcon
  import PromptText
  import PromptIcon
  import PromptButton
  import PromptCheckbox
  import PromptSwitch
  import PromptInput

  /** The predefined styles; any other value names a custom image, which no case of `_setStyle` matches. */
  datatype PromptStyle = LIGHT | DARK | LIGHTLARGE | DARKLARGE | LIGHTSLANTED | DARKSLANTED | CustomStyle(path: string)

  predicate IsDarkStyle(style: PromptStyle)
  {
    style == DARK || style == DARKLARGE || style == DARKSLANTED
  }

  predicate IsLargeStyle(style: PromptStyle)
  {
    style == LIGHTLARGE || style == DARKLARGE
  }

  predicate IsSlantedStyle(style: PromptStyle)
  {
    style == LIGHTSLANTED || style == DARKSLANTED
  }

  /** The style the ready-made prompts pass on: `useDarkTheme ? DARK : LIGHT`. */
  function ThemedStyle(useDarkTheme: bool): (style: PromptStyle)
    ensures IsDarkStyle(style) <==> useDarkTheme
    ensures !IsLargeStyle(style) && !IsSlantedStyle(style) && !style.CustomStyle?
  {
    if useDarkTheme then DARK else LIGHT
  }

  /** The three fields `_setStyle` writes: the background, the texture and the close icon's configuration. */
  datatype StyleFields = StyleFields(section: PromptBackground, texture: AtlasTheme,
                                     closeIcon: PromptCloseIcon.PromptCloseIconConfig)

  /**
   * `_setStyle`: a predefined style picks the background by size, the dark texture and
   * the white close icon for the dark styles, and moves the close icon to 15 pixels from
   * the right for the slanted ones. A custom style matches no case and keeps `current`.
   */
  function SetStyle(style: PromptStyle, current: StyleFields): (r: StyleFields)
    ensures style.CustomStyle? ==> r == current
    ensures !style.CustomStyle? ==>
      && r.texture == (if IsDarkStyle(style) then ATLAS_PATH_DARK else ATLAS_PATH_LIGHT)
      && r.closeIcon.style == Some(if IsDarkStyle(style) then PromptCloseIcon.CLOSEW else PromptCloseIcon.CLOSED)
      && (r.section == PromptLargeBackground <==> IsLargeStyle(style))
      && (r.section == PromptSlantedBackground <==> IsSlantedStyle(style))
    ensures r.closeIcon.xPosition == if IsSlantedStyle(style) then Some(15.0) else current.closeIcon.xPosition
    ensures r.closeIcon == current.closeIcon.(style := r.closeIcon.style, xPosition := r.closeIcon.xPosition)
  {
    var closeIcon := current.closeIcon;
    match style
    case LIGHT => StyleFields(PromptBackground, ATLAS_PATH_LIGHT, closeIcon.(style := Some(PromptCloseIcon.CLOSED)))
    case DARK => StyleFields(PromptBackground, ATLAS_PATH_DARK, closeIcon.(style := Some(PromptCloseIcon.CLOSEW)))
    case LIGHTLARGE =>
      StyleFields(PromptLargeBackground, ATLAS_PATH_LIGHT, closeIcon.(style := Some(PromptCloseIcon.CLOSED)))
    case DARKLARGE =>
      StyleFields(PromptLargeBackground, ATLAS_PATH_DARK, closeIcon.(style := Some(PromptCloseIcon.CLOSEW)))
    case LIGHTSLANTED =>
      StyleFields(PromptSlantedBackground, ATLAS_PATH_LIGHT,
                  closeIcon.(style := Some(PromptCloseIcon.CLOSED), xPosition := Some(15.0)))
    case DARKSLANTED =>
      StyleFields(PromptSlantedBackground, ATLAS_PATH_DARK,
                  closeIcon.(style := Some(PromptCloseIcon.CLOSEW), xPosition := Some(15.0)))
    case CustomStyle(_) => current
  }

  /**
   * The fields as the constructor sets them before `_setStyle`: the regular background,
   * the light texture and a 32-pixel dark close icon whose click closes the prompt.
   */
  const DefaultStyleFields := StyleFields(
    PromptBackground, ATLAS_PATH_LIGHT,
    PromptCloseIcon.PromptCloseIconConfig(None, Some(PromptCloseIcon.CLOSED), Some(32.0), Some(32.0),
                                          None, None, Some(PromptClose)))

  /** `_isDarkTheme`, whether the texture `_setStyle` chose is not the light one: exactly the dark styles. */
  function IsDarkTheme(style: PromptStyle): (dark: bool)
    ensures dark <==> IsDarkStyle(style)
  {
    SetStyle(style, DefaultStyleFields).texture != ATLAS_PATH_LIGHT
  }

  /**
   * `width ? width : section.sourceWidth` (and the same for the height): a given size
   * wins unless it is missing or zero, in which case the background's own size is used.
   */
  function BoxSide(given: Option<real>, sectionSide: real): (side: real)
    ensures given.Some? && given.value != 0.0 ==> side == given.value
    ensures given.None? || given == Some(0.0) ==> side == sectionSide
  {
    OrIfFalsy(given, sectionSide)
  }

  datatype PromptConfig = PromptConfig(
    startHidden: Option<bool>,
    style: Option<PromptStyle>,
    width: Option<real>,
    height: Option<real>,
    onClose: Option<Callback>)

  class Prompt {
    const ui: UIObject
    const style: PromptStyle
    const onClose: Callback
    const section: PromptBackground
    const texture: AtlasTheme
    const closeIconData: PromptCloseIcon.PromptCloseIconConfig
    const width: real
    const height: real
    const isDarkTheme: bool
    var components: seq<Component>
    ghost var Repr: set<object>

    /** The children are the close icon followed by the added controls, each built from its own objects. */
    ghost predicate Valid()
      reads this
    {
      && this in Repr && ui in Repr
      && |components| >= 1 && components[0].CloseIconC?
      && (forall k :: 0 <= k < |components| ==> Footprint(components[k]) <= Repr)
      && (forall k :: 0 <= k < |components| ==> this !in Footprint(components[k]) && ui !in Footprint(components[k]))
      && (forall j, k :: 0 <= j < k < |components| ==> Footprint(components[j]) !! Footprint(components[k]))
    }

    constructor (config: PromptConfig, coords: Coordinates)
      ensures Valid() && fresh(Repr)
      ensures ui.visible == InitialVisible(config.startHidden)
      ensures style == OrDefault(config.style, LIGHT) && onClose == OrDefault(config.onClose, Noop)
      ensures StyleFields(section, texture, closeIconData) == SetStyle(style, DefaultStyleFields)
      ensures width == BoxSide(config.width, BackgroundSize(coords, section).width)
      ensures height == BoxSide(config.height, BackgroundSize(coords, section).height)
      ensures isDarkTheme == IsDarkTheme(style)
      ensures |components| == 1 && components[0].closeIcon.Initial(closeIconData, coords)
    {
      ui := new UIObject(config.startHidden);
      var style := OrDefault(config.style, LIGHT);
      this.style := style;
      onClose := OrDefault(config.onClose, Noop);
      var fields := SetStyle(style, DefaultStyleFields);
      section := fields.section;
      texture := fields.texture;
      closeIconData := fields.closeIcon;
      width := BoxSide(config.width, BackgroundSize(coords, fields.section).width);
      height := BoxSide(config.height, BackgroundSize(coords, fields.section).height);
      var closeIcon := new PromptCloseIcon.PromptCloseIcon(fields.closeIcon, coords);
      components := [CloseIconC(closeIcon)];
      isDarkTheme := fields.texture != ATLAS_PATH_LIGHT;
      Repr := {this, ui} + closeIcon.Repr();
    }

    /** The prompt is drawn exactly when its own flag is set. */
    function Display(): (shown: bool)
      reads this, ui
      ensures shown == ui.visible
    {
      ui.visible
    }

    /**
     * Shows the prompt, then calls `changedPromptVisible(true)` and `show()` on every
     * child in list order; the close icon is only shown.
     */
    method Show()
      requires Valid()
      modifies Repr
      ensures Valid() && Repr == old(Repr) && components == old(components)
      ensures ui.visible
      ensures forall k :: 0 <= k < |components| ==> View(components[k]) == ShownByPrompt(old(View(components[k])))
    {
      ui.Show();
      var i := 0;
      while i < |components|
        invariant 0 <= i <= |components|
        invariant Valid() && Repr == old(Repr) && components == old(components) && ui.visible
        invariant forall k :: 0 <= k < i ==> View(components[k]) == ShownByPrompt(old(View(components[k])))
        invariant forall k :: i <= k < |components| ==> View(components[k]) == old(View(components[k]))
      {
        Notify(components[i], true);
        PromptComponents.Show(components[i]);
        i := i + 1;
      }
    }

    /**
     * Hides the prompt, then calls `changedPromptVisible(false)` and `hide()` on every
     * child in list order; the close icon is only hidden.
     */
    method Hide()
      requires Valid()
      modifies Repr
      ensures Valid() && Repr == old(Repr) && components == old(components)
      ensures !ui.visible
      ensures forall k :: 0 <= k < |components| ==> View(components[k]) == HiddenByPrompt(old(View(components[k])))
    {
      ui.Hide();
      var i := 0;
      while i < |components|
        invariant 0 <= i <= |components|
        invariant Valid() && Repr == old(Repr) && components == old(components) && !ui.visible
        invariant forall k :: 0 <= k < i ==> View(components[k]) == HiddenByPrompt(old(View(components[k])))
        invariant forall k :: i <= k < |components| ==> View(components[k]) == old(View(components[k]))
      {
        Notify(components[i], false);
        PromptComponents.Hide(components[i]);
        i := i + 1;
      }
    }

    /** `_close`, the close icon's click: runs `onClose` (returned here), then hides the prompt. */
    method Close() returns (fired: Callback)
      requires Valid()
      modifies Repr
      ensures fired == onClose
      ensures Valid() && Repr == old(Repr) && components == old(components)
      ensures !ui.visible
      ensures forall k :: 0 <= k < |components| ==> View(components[k]) == HiddenByPrompt(old(View(components[k])))
    {
      fired := onClose;
      Hide();
    }

    /** Builds a text box with the prompt's visibility and size, appends it and returns it. */
    method AddTextBox(config: PromptInput.PromptInputConfig) returns (c: PromptInput.PromptInput)
      requires Valid()
      modifies this
      ensures Valid() && fresh(c.Repr()) && Repr == old(Repr) + c.Repr()
      ensures components == old(components) + [InputC(c)]
      ensures c.Initial(config.(promptVisible := Some(ui.visible), promptWidth := Some(width), promptHeight := Some(height)))
      ensures c.base.ui.visible <==> ui.visible && !OrDefault(config.startHidden, false)
    {
      c := new PromptInput.PromptInput(
        config.(promptVisible := Some(ui.visible), promptWidth := Some(width), promptHeight := Some(height)));
      components := components + [InputC(c)];
      Repr := Repr + c.Repr();
    }

    /** Builds a switch with the prompt's visibility, size and theme, appends it and returns it. */
    method AddSwitch(config: PromptSwitch.PromptSwitchConfig) returns (c: PromptSwitch.PromptSwitch)
      requires Valid()
      modifies this
      ensures Valid() && fresh(c.Repr()) && Repr == old(Repr) + c.Repr()
      ensures components == old(components) + [SwitchC(c)]
      ensures c.Initial(config.(promptVisible := Some(ui.visible), promptWidth := Some(width),
                                promptHeight := Some(height), darkTheme := Some(isDarkTheme)))
      ensures c.base.ui.visible <==> ui.visible && !OrDefault(config.startHidden, false)
    {
      c := new PromptSwitch.PromptSwitch(
        config.(promptVisible := Some(ui.visible), promptWidth := Some(width),
                promptHeight := Some(height), darkTheme := Some(isDarkTheme)));
      components := components + [SwitchC(c)];
      Repr := Repr + c.Repr();
    }

    /** Builds a checkbox with the prompt's visibility, size and theme, appends it and returns it. */
    method AddCheckbox(config: PromptCheckbox.PromptCheckboxConfig) returns (c: PromptCheckbox.PromptCheckbox)
      requires Valid()
      modifies this
      ensures Valid() && fresh(c.Repr()) && Repr == old(Repr) + c.Repr()
      ensures components == old(components) + [CheckboxC(c)]
      ensures c.Initial(config.(promptVisible := Some(ui.visible), promptWidth := Some(width),
                                promptHeight := Some(height), darkTheme := Some(isDarkTheme)))
      ensures c.base.ui.visible <==> ui.visible && !OrDefault(config.startHidden, false)
    {
      c := new PromptCheckbox.PromptCheckbox(
        config.(promptVisible := Some(ui.visible), promptWidth := Some(width),
                promptHeight := Some(height), darkTheme := Some(isDarkTheme)));
      components := components + [CheckboxC(c)];
      Repr := Repr + c.Repr();
    }

    /** Builds a button with the prompt's visibility and size, appends it and returns it. */
    method AddButton(config: PromptButton.PromptButtonConfig) returns (c: PromptButton.PromptButton)
      requires Valid()
      modifies this
      ensures Valid() && fresh(c.Repr()) && Repr == old(Repr) + c.Repr()
      ensures components == old(components) + [ButtonC(c)]
      ensures c.Initial(config.(promptVisible := Some(ui.visible), promptWidth := width, promptHeight := height))
      ensures c.base.ui.visible <==> ui.visible && !OrDefault(config.startHidden, false)
    {
      c := new PromptButton.PromptButton(
        config.(promptVisible := Some(ui.visible), promptWidth := width, promptHeight := height));
      components := components + [ButtonC(c)];
      Repr := Repr + c.Repr();
    }

    /** Builds a label with the prompt's visibility and theme, appends it and returns it. */
    method AddText(config: PromptText.PromptTextConfig) returns (c: PromptText.PromptText)
      requires Valid()
      modifies this
      ensures Valid() && fresh(c.Repr()) && Repr == old(Repr) + c.Repr()
      ensures components == old(components) + [TextC(c)]
      ensures c.Initial(config.(promptVisible := Some(ui.visible), darkTheme := Some(isDarkTheme)))
      ensures c.base.ui.visible <==> ui.visible && !OrDefault(config.startHidden, false)
    {
      c := new PromptText.PromptText(config.(promptVisible := Some(ui.visible), darkTheme := Some(isDarkTheme)));
      components := components + [TextC(c)];
      Repr := Repr + c.Repr();
    }

    /** Builds an image with the prompt's visibility and size, appends it and returns it. */
    method AddIcon(config: PromptIcon.PromptIconConfig) returns (c: PromptIcon.PromptIcon)
      requires Valid()
      modifies this
      ensures Valid() && fresh(c.Repr()) && Repr == old(Repr) + c.Repr()
      ensures components == old(components) + [IconC(c)]
      ensures c.Initial(config.(promptVisible := Some(ui.visible), promptWidth := width, promptHeight := height))
      ensures c.base.ui.visible <==> ui.visible && !OrDefault(config.startHidden, false)
    {
      c := new PromptIcon.PromptIcon(config.(promptVisible := Some(ui.visible), promptWidth := width, promptHeight := height));
      components := components + [IconC(c)];
      Repr := Repr + c.Repr();
    }
  }
  /**
   * The `super(...)` call the ready-made prompts make: a regular prompt of a given size in
   * the light or the dark style, with no `onClose` of its own.
   */
  method NewThemedPrompt(startHidden: bool, useDarkTheme: bool, width: real, height: real, coords: Coordinates)
    returns (p: Prompt)
    requires width != 0.0 && height != 0.0
    ensures p.Valid() && fresh(p.Repr) && |p.components| == 1
    ensures p.ui.visible == !startHidden
    ensures p.style == ThemedStyle(useDarkTheme) && p.onClose == Noop && p.isDarkTheme == useDarkTheme
    ensures p.width == width && p.height == height
  {
    p := new Prompt(PromptConfig(Some(startHidden), Some(ThemedStyle(useDarkTheme)), Some(width), Some(height), None),
                    coords);
  }

  /**
   * The `addText` call the ready-made prompts make: a line of text centred horizontally,
   * `yPosition` above the centre, in the prompt's theme colour.
   */
  method AddLine(p: Prompt, value: string, yPosition: real, size: real) returns (t: PromptText.PromptText)
    requires p.Valid()
    modifies p
    ensures p.Valid() && fresh(t.Repr()) && p.Repr == old(p.Repr) + t.Repr()
    ensures p.components == old(p.components) + [TextC(t)]
    ensures t.text == PromptText.TextLabel(value, 0.0, -yPosition, if p.isDarkTheme then White else Black, size)
    ensures t.base.ui.visible == p.ui.visible
  {
    t := p.AddText(PromptText.PromptTextConfig(None, Some(value), Some(0.0), Some(yPosition), None, None,
                                               Some(size), None));
  }

  /** The `addButton` call the ready-made prompts make: a button with a label, a place, a callback and a style. */
  method AddChoice(p: Prompt, text: string, xPosition: real, yPosition: real, onMouseDown: Callback,
                   style: PromptButton.PromptButtonStyle) returns (b: PromptButton.PromptButton)
    requires p.Valid()
    modifies p
    ensures p.Valid() && fresh(b.Repr()) && p.Repr == old(p.Repr) + b.Repr()
    ensures p.components == old(p.components) + [ButtonC(b)]
    ensures b.style == style && b.text == text && b.onMouseDown == onMouseDown && !b.disabled
    ensures b.placement ==
      PromptGeometry.CentredPlacement(p.width, p.height, PromptButton.Width, PromptButton.Height, xPosition, yPosition)
    ensures b.base.ui.visible == p.ui.visible && b.base.promptVisible == p.ui.visible
  {
    b := p.AddButton(PromptButton.PromptButtonConfig(None, Some(text), Some(xPosition), Some(yPosition),
                                                     Some(onMouseDown), Some(style), None, 0.0, 0.0));
  }
}
