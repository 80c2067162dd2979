/**
 * An image in a corner of the screen. Its size comes from a preset unless given;
 * the small, medium and large variants force their preset.
 */
module Icon {
  import opened Values
  import opened UIObject
  import opened PromptGeometry

  datatype IconSizeType = Small | Medium | Large

  /** The preset side lengths: small 32, medium 64, large 128 pixels. */
  function IconSize(size: IconSizeType): (side: real)
    ensures size == Small ==> side == 32.0
    ensures size == Medium ==> side == 64.0
    ensures size == Large ==> side == 128.0
  {
    match size
    case Small => 32.0
    case Medium => 64.0
    case Large => 128.0
  }

  /** The complete defaults an icon falls back on (its `initial` configuration). */
  datatype IconDefaults = IconDefaults(startHidden: bool, image: string, width: real, height: real,
                                       xOffset: real, yOffset: real, size: IconSizeType)

  const PlainDefaults := IconDefaults(true, "", 128.0, 128.0, 0.0, 0.0, Large)
  const SmallDefaults := IconDefaults(true, "", 32.0, 32.0, -30.0, 50.0, Large)
  const MediumDefaults := IconDefaults(true, "", 64.0, 64.0, -30.0, 50.0, Large)
  const LargeDefaults := IconDefaults(true, "", 128.0, 128.0, -30.0, 50.0, Large)

  datatype IconConfig = IconConfig(
    initial: Option<IconDefaults>,
    startHidden: Option<bool>,
    image: Option<string>,
    width: Option<real>,
    height: Option<real>,
    xOffset: Option<real>,
    yOffset: Option<real>,
    size: Option<IconSizeType>)

  /** What an icon is built with: its flag at start, its image, size and corner offsets. */
  datatype IconFields = IconFields(visible: bool, image: string, width: real, height: real,
                                   xOffset: real, yOffset: real)

  /**
   * The constructor's defaulting. Every field falls back on the `initial` defaults, except
   * the width and height, which fall back on the preset of the chosen size, so the
   * defaults' own width and height are never used.
   */
  function Resolve(config: IconConfig): (icon: IconFields)
    ensures var initial := OrDefault(config.initial, PlainDefaults);
      && icon.visible == !OrDefault(config.startHidden, initial.startHidden)
      && icon.image == OrDefault(config.image, initial.image)
      && icon.width == OrDefault(config.width, IconSize(OrDefault(config.size, initial.size)))
      && icon.height == OrDefault(config.height, IconSize(OrDefault(config.size, initial.size)))
      && icon.xOffset == OrDefault(config.xOffset, initial.xOffset)
      && icon.yOffset == OrDefault(config.yOffset, initial.yOffset)
  {
    var initial := OrDefault(config.initial, PlainDefaults);
    var size := OrDefault(config.size, initial.size);
    IconFields(InitialVisible(Some(OrDefault(config.startHidden, initial.startHidden))),
               OrDefault(config.image, initial.image),
               OrDefault(config.width, IconSize(size)), OrDefault(config.height, IconSize(size)),
               OrDefault(config.xOffset, initial.xOffset), OrDefault(config.yOffset, initial.yOffset))
  }

  /** A variant replaces the caller's size and defaults with its own before resolving. */
  function Variant(config: IconConfig, size: IconSizeType, defaults: IconDefaults): (icon: IconFields)
    ensures icon.width == OrDefault(config.width, IconSize(size))
    ensures icon.height == OrDefault(config.height, IconSize(size))
    ensures icon.xOffset == OrDefault(config.xOffset, defaults.xOffset)
    ensures icon.yOffset == OrDefault(config.yOffset, defaults.yOffset)
    ensures icon.visible <==> !OrDefault(config.startHidden, defaults.startHidden)
    ensures icon.image == OrDefault(config.image, defaults.image)
  {
    Resolve(config.(size := Some(size), initial := Some(defaults)))
  }

  /** `SmallIcon`: 32 pixels square unless a size is given, at (-30, 50), hidden unless asked otherwise. */
  function SmallIcon(config: IconConfig): (icon: IconFields)
    ensures icon.width == OrDefault(config.width, 32.0) && icon.height == OrDefault(config.height, 32.0)
    ensures icon.xOffset == OrDefault(config.xOffset, -30.0) && icon.yOffset == OrDefault(config.yOffset, 50.0)
    ensures icon.visible <==> config.startHidden == Some(false)
  {
    Variant(config, Small, SmallDefaults)
  }

  /** `MediumIcon`: 64 pixels square unless a size is given, at (-30, 50), hidden unless asked otherwise. */
  function MediumIcon(config: IconConfig): (icon: IconFields)
    ensures icon.width == OrDefault(config.width, 64.0) && icon.height == OrDefault(config.height, 64.0)
    ensures icon.xOffset == OrDefault(config.xOffset, -30.0) && icon.yOffset == OrDefault(config.yOffset, 50.0)
    ensures icon.visible <==> config.startHidden == Some(false)
  {
    Variant(config, Medium, MediumDefaults)
  }

  /** `LargeIcon`: 128 pixels square unless a size is given, at (-30, 50), hidden unless asked otherwise. */
  function LargeIcon(config: IconConfig): (icon: IconFields)
    ensures icon.width == OrDefault(config.width, 128.0) && icon.height == OrDefault(config.height, 128.0)
    ensures icon.xOffset == OrDefault(config.xOffset, -30.0) && icon.yOffset == OrDefault(config.yOffset, 50.0)
    ensures icon.visible <==> config.startHidden == Some(false)
  {
    Variant(config, Large, LargeDefaults)
  }

  /** Where the icon is drawn: offsets read from the bottom-right corner. */
  function IconPlacement(icon: IconFields): (p: Placement)
    ensures p == ScreenPlacement(icon.xOffset, icon.yOffset)
  {
    ScreenPlacement(icon.xOffset, icon.yOffset)
  }

  /** Explicit sizes win over every preset. */
  lemma ExplicitSizeWins(config: IconConfig, w: real, h: real)
    requires config.width == Some(w) && config.height == Some(h)
    ensures Resolve(config).width == w && Resolve(config).height == h
    ensures SmallIcon(config).width == w && MediumIcon(config).width == w && LargeIcon(config).width == w
  {
  }

  /**
   * The variants ignore any size the caller asks for: without an explicit width and
   * height they are 32, 64 and 128 pixels square, at offsets (-30, 50), hidden at start.
   */
  lemma VariantsForceSize(config: IconConfig)
    requires config.width.None? && config.height.None?
    requires config.xOffset.None? && config.yOffset.None? && config.startHidden.None?
    ensures SmallIcon(config) == IconFields(false, OrDefault(config.image, ""), 32.0, 32.0, -30.0, 50.0)
    ensures MediumIcon(config) == IconFields(false, OrDefault(config.image, ""), 64.0, 64.0, -30.0, 50.0)
    ensures LargeIcon(config) == IconFields(false, OrDefault(config.image, ""), 128.0, 128.0, -30.0, 50.0)
  {
  }

  /** The plain icon defaults to a large icon at the corner itself, hidden at start. */
  lemma PlainIconDefaults(config: IconConfig)
    requires config.initial.None? && config.size.None? && config.width.None? && config.height.None?
    requires config.xOffset.None? && config.yOffset.None? && config.startHidden.None?
    ensures Resolve(config) == IconFields(false, OrDefault(config.image, ""), 128.0, 128.0, 0.0, 0.0)
  {
  }
}
