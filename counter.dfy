/** A number shown in the bottom-right corner of the screen, moved up or down by steps. */
module Counter {
  import opened Values
  import opened UIObject
  import opened PromptGeometry

  /** The step `increase` and `decrease` use when no amount is given. */
  const ValueStep: real := 1.0

  /** How far `increase`/`decrease` move the value: the amount unless it is missing or zero, 1 otherwise. */
  function Step(amount: Option<real>): (step: real)
    ensures Truthy(amount) ==> step == amount.value
    ensures !Truthy(amount) ==> step == ValueStep
    ensures step != 0.0
  {
    OrIfFalsy(amount, ValueStep)
  }

  /** One change made to the counter through its public methods. */
  datatype CounterOp = SetOp(value: real) | IncreaseOp(amount: Option<real>) | DecreaseOp(amount: Option<real>)

  /** One change: set stores the value as given; increase and decrease move it by `Step`, unbounded. */
  function Apply(value: real, op: CounterOp): (r: real)
    ensures op.SetOp? ==> r == op.value
    ensures op.IncreaseOp? ==> r - value == Step(op.amount)
    ensures op.DecreaseOp? ==> value - r == Step(op.amount)
    ensures !op.SetOp? ==> r != value
  {
    match op
    case SetOp(v) => v
    case IncreaseOp(amount) => value + Step(amount)
    case DecreaseOp(amount) => value - Step(amount)
  }

  /** The value after a series of changes, oldest first. */
  function ApplyAll(value: real, ops: seq<CounterOp>): real
    decreases |ops|
  {
    if |ops| == 0 then value else ApplyAll(Apply(value, ops[0]), ops[1..])
  }

  predicate NoSet(ops: seq<CounterOp>)
  {
    forall k :: 0 <= k < |ops| ==> !ops[k].SetOp?
  }

  /** The total movement of a series of increases and decreases. */
  function NetChange(ops: seq<CounterOp>): real
    decreases |ops|
  {
    if |ops| == 0 then 0.0
    else (match ops[0]
          case SetOp(_) => 0.0
          case IncreaseOp(amount) => Step(amount)
          case DecreaseOp(amount) => -Step(amount)) + NetChange(ops[1..])
  }

  /**
   * Without a `set`, the counter moves by exactly the sum of its steps: nothing is
   * clamped or rounded, whatever the value.
   */
  lemma {:induction false} StepsAdd(value: real, ops: seq<CounterOp>)
    requires NoSet(ops)
    ensures ApplyAll(value, ops) == value + NetChange(ops)
    decreases |ops|
  {
    if |ops| > 0 {
      assert !ops[0].SetOp?;
      StepsAdd(Apply(value, ops[0]), ops[1..]);
    }
  }

  /** An increase followed by a decrease by the same amount restores the value, for every amount and value. */
  lemma IncreaseDecreaseRoundTrip(value: real, amount: Option<real>)
    ensures ApplyAll(value, [IncreaseOp(amount), DecreaseOp(amount)]) == value
  {
    var ops := [IncreaseOp(amount), DecreaseOp(amount)];
    assert ops[1..] == [DecreaseOp(amount)] && ops[1..][1..] == [];
    assert NetChange(ops[1..][1..]) == 0.0;
    assert NetChange(ops[1..]) == -Step(amount);
    StepsAdd(value, ops);
  }

  /** A `set` forgets everything before it. */
  lemma {:induction false} SetForgetsHistory(value: real, ops: seq<CounterOp>, v: real)
    ensures ApplyAll(value, ops + [SetOp(v)]) == v
    decreases |ops|
  {
    if |ops| > 0 {
      assert (ops + [SetOp(v)])[1..] == ops[1..] + [SetOp(v)];
      SetForgetsHistory(Apply(value, ops[0]), ops[1..], v);
    }
  }

  /** Replaying one more change applies it to the value the earlier ones left. */
  lemma {:induction false} ApplyAllSnoc(value: real, ops: seq<CounterOp>, op: CounterOp)
    ensures ApplyAll(value, ops + [op]) == Apply(ApplyAll(value, ops), op)
    decreases |ops|
  {
    if |ops| > 0 {
      assert (ops + [op])[1..] == ops[1..] + [op];
      ApplyAllSnoc(Apply(value, ops[0]), ops[1..], op);
    }
  }

  datatype CounterConfig = CounterConfig(
    startHidden: Option<bool>,
    value: Option<real>,
    xOffset: Option<real>,
    yOffset: Option<real>,
    color: Option<Color>,
    size: Option<real>,
    fixedDigits: Option<nat>)

  class Counter {
    const ui: UIObject
    var value: real
    const xOffset: real
    const yOffset: real
    const color: Color
    const size: real
    const fixedDigits: nat
    ghost const initialValue: real
    /** Every change made since construction, oldest first. */
    ghost var history: seq<CounterOp>

    ghost predicate Valid()
      reads this
    {
      value == ApplyAll(initialValue, history)
    }

    constructor (config: CounterConfig)
      ensures Valid() && history == []
      ensures fresh(ui) && ui.visible == InitialVisible(Some(OrDefault(config.startHidden, true)))
      ensures value == initialValue == OrDefault(config.value, 0.0)
      ensures xOffset == OrDefault(config.xOffset, -40.0) && yOffset == OrDefault(config.yOffset, 70.0)
      ensures color == OrDefault(config.color, White) && size == OrDefault(config.size, 25.0)
      ensures fixedDigits == OrDefault(config.fixedDigits, 0)
    {
      ui := new UIObject(Some(OrDefault(config.startHidden, true)));
      value := OrDefault(config.value, 0.0);
      initialValue := OrDefault(config.value, 0.0);
      history := [];
      xOffset := OrDefault(config.xOffset, -40.0);
      yOffset := OrDefault(config.yOffset, 70.0);
      color := OrDefault(config.color, White);
      size := OrDefault(config.size, 25.0);
      fixedDigits := OrDefault(config.fixedDigits, 0);
    }

    /** The stored value; nothing changes. */
    method Read() returns (v: real)
      requires Valid()
      ensures v == ApplyAll(initialValue, history)
    {
      v := value;
    }

    method Set(v: real)
      requires Valid()
      modifies this
      ensures Valid() && history == old(history) + [SetOp(v)]
      ensures value == v
    {
      SetForgetsHistory(initialValue, history, v);
      value := v;
      history := history + [SetOp(v)];
    }

    method Increase(amount: Option<real>)
      requires Valid()
      modifies this
      ensures Valid() && history == old(history) + [IncreaseOp(amount)]
      ensures value == old(value) + Step(amount)
    {
      ApplyAllSnoc(initialValue, history, IncreaseOp(amount));
      value := value + Step(amount);
      history := history + [IncreaseOp(amount)];
    }

    method Decrease(amount: Option<real>)
      requires Valid()
      modifies this
      ensures Valid() && history == old(history) + [DecreaseOp(amount)]
      ensures value == old(value) - Step(amount)
    {
      ApplyAllSnoc(initialValue, history, DecreaseOp(amount));
      value := value - Step(amount);
      history := history + [DecreaseOp(amount)];
    }

    /** The counter's place on the screen and whether it is drawn. */
    function Display(): (r: (bool, Placement))
      reads this, ui
      ensures r.0 == ui.visible && r.1 == ScreenPlacement(xOffset, yOffset)
    {
      (ui.visible, ScreenPlacement(xOffset, yOffset))
    }
  }
}
