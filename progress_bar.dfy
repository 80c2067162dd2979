/**
 * A bar on the screen filled in proportion to a value between 0 and 1. The value
 * can be set or moved by a step; every change is clamped into the range.
 */
module ProgressBar {
  import opened Values
  import opened UIObject
  import opened PromptGeometry

  datatype BarStyle =
    | ROUNDBLACK | ROUNDWHITE | ROUNDSILVER | ROUNDGOLD
    | SQUAREBLACK | SQUAREWHITE | SQUARESILVER | SQUAREGOLD

  const ValueMax: real := 1.0
  const ValueMin: real := 0.0
  /** The step `increase` and `decrease` use when no amount is given. */
  const ValueChangeStep: real := 0.1

  /** `_setValueInRange`: a value above 1 becomes 1, one below 0 becomes 0, one in between is kept. */
  function ValueInRange(value: real): (r: real)
    ensures ValueMin <= r <= ValueMax
    ensures ValueMin <= value <= ValueMax ==> r == value
    ensures value > ValueMax ==> r == ValueMax
    ensures value < ValueMin ==> r == ValueMin
  {
    if value > ValueMax then ValueMax else if value < ValueMin then ValueMin else value
  }

  /** How far `increase`/`decrease` move the bar: the amount unless it is missing or zero, 0.1 otherwise. */
  function Step(amount: Option<real>): (step: real)
    ensures Truthy(amount) ==> step == amount.value
    ensures !Truthy(amount) ==> step == ValueChangeStep
    ensures step != 0.0
  {
    OrIfFalsy(amount, ValueChangeStep)
  }

  /** The white and black styles have an even 3-pixel border; the others a thicker one at the bottom. */
  predicate HasEvenBorders(style: BarStyle)
  {
    style == ROUNDWHITE || style == ROUNDBLACK || style == SQUAREWHITE || style == SQUAREBLACK
  }

  datatype Padding = Padding(top: real, bottom: real, left: real, right: real)

  /** The gap between the frame and the fill, scaled with the bar. */
  function FillPadding(style: BarStyle, scale: real): (p: Padding)
    ensures HasEvenBorders(style) ==> p == Padding(3.0 * scale, 3.0 * scale, 3.0 * scale, 3.0 * scale)
    ensures !HasEvenBorders(style) ==> p == Padding(2.0 * scale, 4.0 * scale, 2.0 * scale, 2.0 * scale)
  {
    var even := HasEvenBorders(style);
    Padding((if even then 3.0 else 2.0) * scale, (if even then 3.0 else 4.0) * scale,
            (if even then 3.0 else 2.0) * scale, (if even then 3.0 else 2.0) * scale)
  }

  /** One change made to the bar through its public methods. */
  datatype BarOp = SetOp(amount: real) | IncreaseOp(delta: Option<real>) | DecreaseOp(delta: Option<real>)

  /** The value a change leaves, starting from `value`. */
  function Apply(value: real, op: BarOp): (r: real)
    ensures ValueMin <= r <= ValueMax
    ensures op.SetOp? ==> r == ValueInRange(op.amount)
    ensures op.IncreaseOp? ==> r == ValueInRange(value + Step(op.delta))
    ensures op.DecreaseOp? ==> r == ValueInRange(value - Step(op.delta))
  {
    match op
    case SetOp(amount) => ValueInRange(amount)
    case IncreaseOp(delta) => ValueInRange(value + Step(delta))
    case DecreaseOp(delta) => ValueInRange(value - Step(delta))
  }

  /** The value after a series of changes, oldest first. */
  function ApplyAll(value: real, ops: seq<BarOp>): real
    decreases |ops|
  {
    if |ops| == 0 then value else ApplyAll(Apply(value, ops[0]), ops[1..])
  }

  /** Whatever the starting value, once the bar has been changed at least once its value is in [0, 1]. */
  lemma {:induction false} ChangedValueInRange(value: real, ops: seq<BarOp>)
    requires |ops| > 0
    ensures ValueMin <= ApplyAll(value, ops) <= ValueMax
    decreases |ops|
  {
    if |ops| > 1 {
      ChangedValueInRange(Apply(value, ops[0]), ops[1..]);
    }
  }

  /** Only the last `set` of a series matters: a set forgets everything before it. */
  lemma {:induction false} SetForgetsHistory(value: real, ops: seq<BarOp>, amount: real)
    ensures ApplyAll(value, ops + [SetOp(amount)]) == ValueInRange(amount)
    decreases |ops|
  {
    if |ops| > 0 {
      assert (ops + [SetOp(amount)])[1..] == ops[1..] + [SetOp(amount)];
      SetForgetsHistory(Apply(value, ops[0]), ops[1..], amount);
    }
  }

  /** Setting twice to the same amount is the same as setting once. */
  lemma SetIdempotent(value: real, amount: real)
    ensures Apply(Apply(value, SetOp(amount)), SetOp(amount)) == Apply(value, SetOp(amount))
  {
  }

  /** Away from the ends, a decrease undoes an increase by the same amount. */
  lemma DecreaseUndoesIncrease(value: real, delta: Option<real>)
    requires ValueMin <= value <= ValueMax && ValueMin <= value + Step(delta) <= ValueMax
    ensures Apply(Apply(value, IncreaseOp(delta)), DecreaseOp(delta)) == value
  {
  }

  datatype ProgressBarConfig = ProgressBarConfig(
    startHidden: Option<bool>,
    value: Option<real>,
    scale: Option<real>,
    color: Option<Color>,
    xOffset: Option<real>,
    yOffset: Option<real>,
    style: Option<BarStyle>)

  class ProgressBar {
    const ui: UIObject
    var value: real
    const scale: real
    const color: Color
    const xOffset: real
    const yOffset: real
    const style: BarStyle
    const width: real
    const height: real
    const padding: Padding
    /** The width of the fill, fixed from the value the bar was built with. */
    const progressWidth: real
    const progressHeight: real
    /** The value given at construction, and every change made since. */
    ghost const initialValue: real
    ghost var history: seq<BarOp>

    ghost predicate Valid()
      reads this
    {
      value == ApplyAll(initialValue, history)
    }

    /**
     * Stores the initial value as given, even outside [0, 1]; the bar is 128 by 32
     * pixels times `scale`, and the fill spans the initial value's share of the width.
     */
    constructor (config: ProgressBarConfig)
      ensures Valid() && history == []
      ensures fresh(ui) && ui.visible == InitialVisible(Some(OrDefault(config.startHidden, true)))
      ensures value == initialValue == OrDefault(config.value, 0.0)
      ensures scale == OrDefault(config.scale, 1.0) && style == OrDefault(config.style, ROUNDSILVER)
      ensures color == OrDefault(config.color, Red)
      ensures xOffset == OrDefault(config.xOffset, -30.0) && yOffset == OrDefault(config.yOffset, 60.0)
      ensures width == 128.0 * scale && height == 32.0 * scale
      ensures padding == FillPadding(style, scale)
      ensures progressWidth == width * value - padding.left - padding.right
      ensures progressHeight == height - padding.top - padding.bottom
    {
      ui := new UIObject(Some(OrDefault(config.startHidden, true)));
      var v := OrDefault(config.value, 0.0);
      var s := OrDefault(config.scale, 1.0);
      var st := OrDefault(config.style, ROUNDSILVER);
      value := v;
      initialValue := v;
      history := [];
      scale := s;
      color := OrDefault(config.color, Red);
      xOffset := OrDefault(config.xOffset, -30.0);
      yOffset := OrDefault(config.yOffset, 60.0);
      style := st;
      width := 128.0 * s;
      height := 32.0 * s;
      var p := FillPadding(st, s);
      padding := p;
      progressWidth := 128.0 * s * v - p.left - p.right;
      progressHeight := 32.0 * s - p.top - p.bottom;
    }

    /** The stored value; nothing changes. */
    method Read() returns (v: real)
      requires Valid()
      ensures v == ApplyAll(initialValue, history)
    {
      v := value;
    }

    method Set(amount: real)
      requires Valid()
      modifies this
      ensures Valid() && history == old(history) + [SetOp(amount)]
      ensures value == Apply(old(value), SetOp(amount))
    {
      ApplyAllSnoc(initialValue, history, SetOp(amount));
      value := ValueInRange(amount);
      history := history + [SetOp(amount)];
    }

    method Increase(amount: Option<real>)
      requires Valid()
      modifies this
      ensures Valid() && history == old(history) + [IncreaseOp(amount)]
      ensures value == Apply(old(value), IncreaseOp(amount))
    {
      ApplyAllSnoc(initialValue, history, IncreaseOp(amount));
      value := ValueInRange(value + Step(amount));
      history := history + [IncreaseOp(amount)];
    }

    method Decrease(amount: Option<real>)
      requires Valid()
      modifies this
      ensures Valid() && history == old(history) + [DecreaseOp(amount)]
      ensures value == Apply(old(value), DecreaseOp(amount))
    {
      ApplyAllSnoc(initialValue, history, DecreaseOp(amount));
      value := ValueInRange(value - Step(amount));
      history := history + [DecreaseOp(amount)];
    }

    /** The bar's place on the screen and whether it is drawn. */
    function Display(): (r: (bool, Placement))
      reads this, ui
      ensures r.0 == ui.visible && r.1 == ScreenPlacement(xOffset, yOffset)
    {
      (ui.visible, ScreenPlacement(xOffset, yOffset))
    }
  }

  /** Replaying one more change applies it to the value the earlier ones left. */
  lemma {:induction false} ApplyAllSnoc(value: real, ops: seq<BarOp>, op: BarOp)
    ensures ApplyAll(value, ops + [op]) == Apply(ApplyAll(value, ops), op)
    decreases |ops|
  {
    if |ops| > 0 {
      assert (ops + [op])[1..] == ops[1..] + [op];
      ApplyAllSnoc(Apply(value, ops[0]), ops[1..], op);
    }
  }
}
