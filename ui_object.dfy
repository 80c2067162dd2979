/** The base of every widget: one visibility flag, switched by `show` and `hide`. */
module UIObject {
  import opened Values

  /** `startHidden` when the configuration leaves it out. */
  const DefaultStartHidden := true

  /** Visibility right after construction: visible exactly when `startHidden` is given as false. */
  function InitialVisible(startHidden: Option<bool>): (visible: bool)
    ensures visible <==> startHidden == Some(false)
  {
    !OrDefault(startHidden, DefaultStartHidden)
  }

  class UIObject {
    var visible: bool

    constructor (startHidden: Option<bool>)
      ensures visible == InitialVisible(startHidden)
    {
      visible := InitialVisible(startHidden);
    }

    /** Makes the widget visible, whatever it was before. */
    method Show()
      modifies this
      ensures visible
    {
      visible := true;
    }

    /** Makes the widget invisible, whatever it was before. */
    method Hide()
      modifies this
      ensures !visible
    {
      visible := false;
    }
  }
}
