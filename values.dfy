/**
 * The handful of JavaScript value conventions the library's constructors rely on:
 * optional configuration fields, destructuring defaults, truthiness of numbers,
 * colours and the callbacks a control hands back to its caller.
 */
module Values {

  /** A configuration field that may be left out (`undefined`). */
  datatype Option<+T> = None | Some(value: T)

  /** A destructuring default `{ field = d }`: only a missing field takes `d`. */
  function OrDefault<T>(x: Option<T>, d: T): T
  {
    match x
    case Some(v) => v
    case None => d
  }

  /** JavaScript truthiness of an optional number: `undefined` and `0` are falsy. */
  predicate Truthy(x: Option<real>)
  {
    x.Some? && x.value != 0.0
  }

  /** The conditional `x ? x : d` on an optional number. */
  function OrIfFalsy(x: Option<real>, d: real): (r: real)
    ensures Truthy(x) ==> r == x.value
    ensures !Truthy(x) ==> r == d
  {
    if Truthy(x) then x.value else d
  }

  /** The `Color4` values the controls choose between; any other colour is opaque. */
  datatype Color = Black | White | Gray | Red | OtherColor(id: nat)

  /**
   * A function a control invokes on a click, a check or a text change.
   * `UserCallback` stands for one supplied by the caller; the others are the
   * closures the library builds itself.
   */
  datatype Callback =
    | Noop                                   // the default `() => {}`
    | UserCallback(id: nat)
    | PromptClose                            // `Prompt._close`
    | StoreInputText                         // FillInPrompt's `onChange`: remembers the text
    | AcceptInputText(onAccept: Callback)    // FillInPrompt's accept: `onAccept(this._inputText)`
}
