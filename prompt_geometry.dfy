/**
 * Placement of controls inside a prompt. Every control positioned from the
 * container's bottom-right corner is given a `bottom` and `right` offset; the
 * functions here recover the centre of the control relative to the prompt's centre.
 */
module PromptGeometry {

  /** The `position: { bottom, right }` a control is rendered with, in pixels. */
  datatype Placement = Placement(bottom: real, right: real)

  /** Horizontal distance, rightwards, from the prompt's centre to the centre of a box `width` wide. */
  function CentreX(p: Placement, width: real, promptWidth: real): real
  {
    promptWidth / 2.0 - p.right - width / 2.0
  }

  /** Vertical distance, upwards, from the prompt's centre to the centre of a box `height` high. */
  function CentreY(p: Placement, height: real, promptHeight: real): real
  {
    p.bottom + height / 2.0 - promptHeight / 2.0
  }

  /**
   * The offset rule shared by the button, the text box, the switch and the checkbox:
   * `_xPosition = promptWidth / -2 + width / 2 + xPosition`,
   * `_yPosition = promptHeight / 2 + height / -2 + yPosition`, rendered as
   * `bottom = _yPosition, right = -_xPosition`.
   */
  function CentredPlacement(promptWidth: real, promptHeight: real, width: real, height: real,
                            xPosition: real, yPosition: real): (p: Placement)
    ensures CentreX(p, width, promptWidth) == xPosition
    ensures CentreY(p, height, promptHeight) == yPosition
  {
    var x := promptWidth / -2.0 + width / 2.0 + xPosition;
    var y := promptHeight / 2.0 + height / -2.0 + yPosition;
    Placement(y, x * -1.0)
  }
  /**
   * The corner rule of the widgets placed on the screen itself (counter, corner label,
   * progress bar, icon): the offsets are read from the bottom-right corner, a positive
   * `xOffset` pointing right and a positive `yOffset` pointing up.
   */
  function ScreenPlacement(xOffset: real, yOffset: real): (p: Placement)
    ensures p.bottom == yOffset && -p.right == xOffset
  {
    Placement(yOffset, xOffset * -1.0)
  }
}
