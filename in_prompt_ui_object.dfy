/**
 * The base of every control placed inside a prompt. Besides its own visibility
 * it remembers whether the enclosing prompt is visible and, when the concrete
 * control forwards them, the prompt's size and theme.
 */
module InPromptUIObject {
  import opened Values
  import opened UIObject

  /**
   * Own visibility of a control built with `startHidden` inside a prompt whose
   * visibility is `promptVisible`: the controls forward `startHidden || !promptVisible`
   * to their base, so a control added to a hidden prompt starts hidden.
   */
  function ControlInitialVisible(startHidden: bool, promptVisible: bool): (visible: bool)
    ensures visible <==> !startHidden && promptVisible
  {
    InitialVisible(Some(startHidden || !promptVisible))
  }

  /** Whether a control is drawn: its own flag and the prompt's flag must both be set. */
  predicate Displayed(visible: bool, promptVisible: bool)
  {
    visible && promptVisible
  }

  /**
   * The display test of the button, checkbox, text and icon as written: they read
   * a field spelled `_promptVisible`, which no class declares. Reading it yields
   * `undefined`, which is falsy, so the test fails in every state.
   */
  function DisplayedAsWritten(visible: bool, promptVisible: bool): (shown: bool)
    ensures !shown
    ensures Displayed(visible, promptVisible) ==> shown != Displayed(visible, promptVisible)
  {
    var undeclaredField: Option<bool> := None;
    visible && undeclaredField == Some(true)
  }

  class InPromptUIObject {
    const ui: UIObject
    var promptVisible: bool
    const promptWidth: Option<real>
    const promptHeight: Option<real>
    const darkTheme: Option<bool>

    /** Stores the prompt fields exactly as given; own visibility comes only from `startHidden`. */
    constructor (startHidden: Option<bool>, promptVisible: bool, promptWidth: Option<real>,
                 promptHeight: Option<real>, darkTheme: Option<bool>)
      ensures fresh(ui) && ui.visible == InitialVisible(startHidden)
      ensures this.promptVisible == promptVisible && this.promptWidth == promptWidth
      ensures this.promptHeight == promptHeight && this.darkTheme == darkTheme
    {
      ui := new UIObject(startHidden);
      this.promptVisible := promptVisible;
      this.promptWidth := promptWidth;
      this.promptHeight := promptHeight;
      this.darkTheme := darkTheme;
    }

    /** Records the prompt's new visibility; the control's own flag is left alone. */
    method ChangedPromptVisible(visible: bool)
      modifies this
      ensures promptVisible == visible
    {
      promptVisible := visible;
    }
  }
}
