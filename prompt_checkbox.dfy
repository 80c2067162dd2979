/** A checkbox inside a prompt: a box image that reflects the check state, and a label. */
module PromptCheckbox {
  import opened Values
  import opened UIObject
  import opened InPromptUIObject
  import opened PromptGeometry
  import opened Checkable

  /** The atlas images of the box: `w…` for a dark prompt, `d…` for a light one. */
  datatype CheckboxImage = wLargeOff | wLargeOn | wOff | wOn | dLargeOff | dLargeOn | dOff | dOn

  predicate ForDarkPrompt(img: CheckboxImage)
  {
    img.wLargeOff? || img.wLargeOn? || img.wOff? || img.wOn?
  }

  predicate IsLarge(img: CheckboxImage)
  {
    img.wLargeOff? || img.wLargeOn? || img.dLargeOff? || img.dLargeOn?
  }

  predicate IsOn(img: CheckboxImage)
  {
    img.wLargeOn? || img.wOn? || img.dLargeOn? || img.dOn?
  }

  /** `_getImageStyle`: the image encodes the theme, the size and the check state, each of which can be read back. */
  function ImageStyle(darkTheme: bool, large: bool, checked: bool): (img: CheckboxImage)
    ensures ForDarkPrompt(img) == darkTheme
    ensures IsLarge(img) == large
    ensures IsOn(img) == checked
  {
    if darkTheme then
      if large then (if !checked then wLargeOff else wLargeOn)
      else (if !checked then wOff else wOn)
    else
      if large then (if !checked then dLargeOff else dLargeOn)
      else (if !checked then dOff else dOn)
  }

  /** Side of the box image in pixels: 32 when large, 24 otherwise. */
  function BoxSize(large: bool): (side: real)
    ensures large ==> side == 32.0
    ensures !large ==> side == 24.0
  {
    if large then 32.0 else 24.0
  }

  /** Label colour: white on a dark prompt, black on a light one. */
  function LabelColor(darkTheme: bool): (c: Color)
    ensures c == White <==> darkTheme
    ensures c == Black <==> !darkTheme
  {
    if darkTheme then White else Black
  }

  /** The checkbox row is as wide as the prompt and 32 pixels high. */
  const RowHeight: real := 32.0

  datatype PromptCheckboxConfig = PromptCheckboxConfig(
    startHidden: Option<bool>,
    text: Option<string>,
    xPosition: Option<real>,
    yPosition: Option<real>,
    onCheck: Option<Callback>,
    onUncheck: Option<Callback>,
    large: Option<bool>,
    startChecked: Option<bool>,
    darkTheme: Option<bool>,
    promptWidth: Option<real>,
    promptHeight: Option<real>,
    promptVisible: Option<bool>)

  class PromptCheckbox {
    const base: InPromptUIObject
    const text: string
    const placement: Placement
    const darkTheme: bool
    const large: bool
    const onCheck: Callback
    const onUncheck: Callback
    var checked: bool

    ghost function Repr(): set<object>
    {
      {this, base, base.ui}
    }

    /** The state the constructor leaves for `config`; only `startHidden` and `promptVisible` reach the base. */
    ghost predicate Initial(config: PromptCheckboxConfig)
      reads this, base, base.ui
    {
      var startHidden := OrDefault(config.startHidden, false);
      var promptVisible := OrDefault(config.promptVisible, false);
      var promptWidth := OrDefault(config.promptWidth, 400.0);
      var promptHeight := OrDefault(config.promptHeight, 250.0);
      && base.ui.visible == ControlInitialVisible(startHidden, promptVisible)
      && base.promptVisible == promptVisible
      && base.promptWidth == None && base.promptHeight == None && base.darkTheme == None
      && text == OrDefault(config.text, "")
      && placement == CentredPlacement(promptWidth, promptHeight, promptWidth, RowHeight,
                                       OrDefault(config.xPosition, 0.0), OrDefault(config.yPosition, 0.0))
      && darkTheme == OrDefault(config.darkTheme, false)
      && large == OrDefault(config.large, false)
      && onCheck == OrDefault(config.onCheck, Noop)
      && onUncheck == OrDefault(config.onUncheck, Noop)
      && checked == OrDefault(config.startChecked, false)
    }

    constructor (config: PromptCheckboxConfig)
      ensures fresh(base) && fresh(base.ui)
      ensures Initial(config)
    {
      var startHidden := OrDefault(config.startHidden, false);
      var promptVisible := OrDefault(config.promptVisible, false);
      var promptWidth := OrDefault(config.promptWidth, 400.0);
      var promptHeight := OrDefault(config.promptHeight, 250.0);
      base := new InPromptUIObject(Some(startHidden || !promptVisible), promptVisible, None, None, None);
      text := OrDefault(config.text, "");
      checked := OrDefault(config.startChecked, false);
      darkTheme := OrDefault(config.darkTheme, false);
      large := OrDefault(config.large, false);
      onCheck := OrDefault(config.onCheck, Noop);
      onUncheck := OrDefault(config.onUncheck, Noop);
      placement := CentredPlacement(promptWidth, promptHeight, promptWidth, RowHeight,
                                    OrDefault(config.xPosition, 0.0), OrDefault(config.yPosition, 0.0));
    }

    /** Whether the checkbox is drawn. */
    function Display(): (shown: bool)
      reads base, base.ui
      ensures shown <==> base.ui.visible && base.promptVisible
    {
      Displayed(base.ui.visible, base.promptVisible)
    }

    /** The box image for the current state. */
    function Image(): (img: CheckboxImage)
      reads this
      ensures IsOn(img) == checked
    {
      ImageStyle(darkTheme, large, checked)
    }

    method Uncheck()
      modifies this
      ensures !checked
    {
      checked := false;
    }

    method Check()
      modifies this
      ensures checked
    {
      checked := true;
    }

    /** `_click`: flips the state and returns the callback it runs. */
    method Click() returns (fired: Callback)
      modifies this
      ensures checked == Checkable.Click(old(checked)).checked
      ensures fired == if Checkable.Click(old(checked)).fired == OnCheck then onCheck else onUncheck
    {
      if !checked {
        Check();
        fired := onCheck;
      } else {
        Uncheck();
        fired := onUncheck;
      }
    }
  }
}
