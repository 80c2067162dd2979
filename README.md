# decentraland-ui-utils: a Dafny model of the prompt container and widgets

This project models the logic of the `decentraland-ui-utils` library. The library is a set of
ready-made UI widgets for Decentraland scenes. The model covers:

- the two visibility base classes. `UIObject` has one own `visible` flag. `InPromptUIObject` adds
  the flag of the prompt a control sits in.
- the composable prompt container `Prompt`. It resolves its style, owns an ordered list of children
  whose first entry is the close icon, appends children through its `add*` methods, and pushes
  `show`/`hide` to every child.
- the leaf controls inside a prompt: button, checkbox, switch, text box, text, icon and close icon.
  This includes the button's binding of the primary or secondary input action.
- the three ready-made prompts `OkPrompt`, `OptionPrompt` and `FillInPrompt`.
- the standalone widgets `ProgressBar`, `Counter`, `CornerLabel` and the `Icon` presets.
- the older prompt and its button, which the package exports as `CustomPrompt`.
- the countdown `Timer`.

Objects whose fields the library updates are Dafny classes with `modifies` frames. TypeScript
inheritance becomes composition:

- a control holds its `InPromptUIObject` part in `base`;
- that part holds the `UIObject` part in `ui`.

The prompt's children are a tagged union, `PromptComponents.Component`. The ghost snapshot `View` and
the pure transitions `ShownByPrompt` and `HiddenByPrompt` state what `Prompt.Show`/`Prompt.Hide` do to
each child.

Numbers are `real`. JavaScript destructuring defaults are `Values.OrDefault`: only a missing value
takes the default. The `a ? a : d` idiom is `Values.OrIfFalsy`: a missing value or 0 takes the
default.

Callbacks are values of `Values.Callback`. A method that runs a callback returns the callback it runs.

Three things outside the library are inputs to the model:

- the sizes in the image atlas are an `Atlas.Coordinates` record passed in;
- the engine's input-action registry is a `SystemInputActions.Registrations` record;
- the engine's system list is a trace of `TimerUtils.EngineCall` values.

The histories of `ProgressBar`, `Counter`, `FillInPrompt` and `Timer` are ghost fields. They tie the
stored value to a pure function of everything the widget has been asked to do, and the lemmas are
stated about that function.

## Model

| member | source | states |
|---|---|---|
| Values.OrIfFalsy | src/ui-entities/prompts/Prompt/index.tsx:93-94 | `x ? x : d`: the given number when it is present and non-zero, otherwise the default |
| UIObject.InitialVisible | src/ui-entities/UIObject/index.tsx:27-29 | a new object is visible iff `startHidden` is given as false; a missing `startHidden` means hidden |
| UIObject.UIObject.constructor | src/ui-entities/UIObject/index.tsx:27-29 | the flag starts as `InitialVisible(startHidden)` |
| UIObject.UIObject.Show | src/ui-entities/UIObject/index.tsx:33-35 | afterwards visible, whatever the state before; the object has no other field |
| UIObject.UIObject.Hide | src/ui-entities/UIObject/index.tsx:37-39 | afterwards hidden, whatever the state before |
| InPromptUIObject.ControlInitialVisible | src/ui-entities/prompts/Prompt/components/Button/index.tsx:99 | a control added with `startHidden || !promptVisible` is visible iff it is not start-hidden and its prompt is visible |
| InPromptUIObject.InPromptUIObject.constructor | src/ui-entities/prompts/Prompt/InPromptUIObject/index.tsx:18-25 | stores the prompt flag, width, height and theme as given; own visibility comes from `startHidden` alone |
| InPromptUIObject.InPromptUIObject.ChangedPromptVisible | src/ui-entities/prompts/Prompt/InPromptUIObject/index.tsx:27-29 | sets the prompt flag to the argument and touches nothing else, so a second call changes nothing |
| InPromptUIObject.DisplayedAsWritten | src/ui-entities/prompts/Prompt/components/Button/index.tsx:235 | as written, the display test reads an undeclared field: it is never `flex`, in every state where the control should show |
| Checkable.Click | src/ui-entities/prompts/Prompt/components/Checkbox/index.tsx:184-192 | a click flips the checked flag and fires `onCheck` iff the box was unchecked, else `onUncheck` |
| Checkable.TwoClicksRestore | src/ui-entities/prompts/Prompt/components/Checkbox/index.tsx:184-192 | two clicks restore the flag and fire each of `onCheck` and `onUncheck` once |
| Checkable.ClicksAlternate | src/ui-entities/prompts/Prompt/components/Switch/index.tsx:194-202 | n clicks fire n events, which alternate starting from the one the initial flag selects; the flag ends flipped iff n is odd |
| SystemInputActions.Add | src/ui-entities/prompts/Prompt/components/Button/index.tsx:276-283 | registering adds one live registration and overwrites the stored reference; the old one, if still live, is orphaned |
| SystemInputActions.RemoveStored | src/ui-entities/prompts/Prompt/components/Button/index.tsx:286-288 | removing affects only the stored registration: one fewer live if it was live, orphans untouched |
| SystemInputActions.RemoveStoredIdempotent | src/ui-entities/prompts/Prompt/components/Button/index.tsx:286-288 | a second removal changes nothing |
| SystemInputActions.OrphansOutliveRemove | src/ui-entities/prompts/Prompt/components/Button/index.tsx:273-288 | add-then-remove restores the live count; add-add-remove leaves one registration live for good |
| PromptGeometry.CentredPlacement | src/ui-entities/prompts/Prompt/components/Button/index.tsx:119-123 | the `bottom`/`right` placement from the prompt-corner offset formula puts the control's centre exactly at (xPosition, yPosition) from the prompt's centre |
| PromptGeometry.ScreenPlacement | src/ui-entities/CornerLabel/index.tsx:80-82 | a widget is placed at `bottom = yOffset` and `right = -xOffset` |
| PromptButton.ActionFor | src/ui-entities/prompts/Prompt/components/Button/index.tsx:273-284 | only E and F bind an action; E binds IA_PRIMARY and F binds IA_SECONDARY |
| PromptButton.LabelXOffset | src/ui-entities/prompts/Prompt/components/Button/index.tsx:107-117 | the label is shifted by 25 exactly for the styles that bind an action, otherwise by 0 |
| PromptButton.ButtonIconPos | src/ui-entities/prompts/Prompt/components/Button/index.tsx:268-271 | `max(-20 - 4n, -65)`: inside [-65, -20], one of the two candidates, never right of the linear term |
| PromptButton.LabelColor | src/ui-entities/prompts/Prompt/components/Button/index.tsx:128-131 | gray iff disabled; otherwise black iff ROUNDWHITE or SQUAREWHITE, white for every other style |
| PromptButton.GlyphShown | src/ui-entities/prompts/Prompt/components/Button/index.tsx:251 | the key glyph shows iff the button is enabled and its style binds an action |
| PromptButton.CreateSystemInputAction | src/ui-entities/prompts/Prompt/components/Button/index.tsx:273-284 | registers (one more live, stored) iff button and prompt are visible and the style has an action; otherwise nothing changes |
| PromptButton.ClearSystemInputAction | src/ui-entities/prompts/Prompt/components/Button/index.tsx:286-288 | removes the stored registration if live; orphans are kept |
| PromptButton.CreateSystemInputActionAsWritten | src/ui-entities/prompts/Prompt/components/Button/index.tsx:273-284 | as written the guard reads the undeclared `_promptVisible` and returns early, so the registrations never change |
| PromptButton.AsWrittenNeverBinds | src/ui-entities/prompts/Prompt/components/Button/index.tsx:274 | for an E or F button visible in a visible prompt, as written no registration is added, while the corrected guard adds exactly one |
| PromptButton.PromptButton.constructor | src/ui-entities/prompts/Prompt/components/Button/index.tsx:87-198 | defaults, forced-hidden start, the centred placement, enabled, and the initial binding attempt |
| PromptButton.PromptButton.Display | src/ui-entities/prompts/Prompt/components/Button/index.tsx:235 | drawn iff own flag and prompt flag are both set (the declared field is read, see Findings) |
| PromptButton.PromptButton.ChangedPromptVisible | src/ui-entities/prompts/Prompt/components/Button/index.tsx:200-208 | stores the flag; true tries to bind, false clears the stored binding; `disabled` kept |
| PromptButton.PromptButton.Show | src/ui-entities/prompts/Prompt/components/Button/index.tsx:210-214 | visible, then tries to bind |
| PromptButton.PromptButton.Hide | src/ui-entities/prompts/Prompt/components/Button/index.tsx:216-220 | hidden, then clears the stored binding |
| PromptButton.PromptButton.GrayOut | src/ui-entities/prompts/Prompt/components/Button/index.tsx:222-224 | disabled, bindings untouched |
| PromptButton.PromptButton.Enable | src/ui-entities/prompts/Prompt/components/Button/index.tsx:226-228 | enabled, bindings untouched |
| PromptButton.PromptButton.Click | src/ui-entities/prompts/Prompt/components/Button/index.tsx:262-266 | runs `onMouseDown` iff enabled, and nothing otherwise |
| PromptButton.PromptButton.CreateAction | src/ui-entities/prompts/Prompt/components/Button/index.tsx:273-284 | the stored registrations become `CreateSystemInputAction` of the old ones for the current flags and style; `disabled` kept |
| PromptButton.PromptButton.ClearAction | src/ui-entities/prompts/Prompt/components/Button/index.tsx:286-288 | the stored registrations become `ClearSystemInputAction` of the old ones; `disabled` kept |
| PromptCheckbox.ImageStyle | src/ui-entities/prompts/Prompt/components/Checkbox/index.tsx:168-182 | the image key has the dark-prompt form iff dark, the large form iff large, the on form iff checked |
| PromptCheckbox.BoxSize | src/ui-entities/prompts/Prompt/components/Checkbox/index.tsx:96-97 | the box side is 32 when large, otherwise 24 |
| PromptCheckbox.LabelColor | src/ui-entities/prompts/Prompt/components/Checkbox/index.tsx:118 | white iff dark theme, black otherwise |
| PromptCheckbox.PromptCheckbox.constructor | src/ui-entities/prompts/Prompt/components/Checkbox/index.tsx:67-124 | forced-hidden start, `startChecked` default false, a row 32 high and as wide as the prompt placed with its centre at (xPosition, yPosition) |
| PromptCheckbox.PromptCheckbox.Display | src/ui-entities/prompts/Prompt/components/Checkbox/index.tsx:142 | drawn iff own flag and prompt flag |
| PromptCheckbox.PromptCheckbox.Image | src/ui-entities/prompts/Prompt/components/Checkbox/index.tsx:168-182 | the image shown is the on form iff checked |
| PromptCheckbox.PromptCheckbox.Uncheck | src/ui-entities/prompts/Prompt/components/Checkbox/index.tsx:126-128 | unchecked afterwards |
| PromptCheckbox.PromptCheckbox.Check | src/ui-entities/prompts/Prompt/components/Checkbox/index.tsx:133-135 | checked afterwards |
| PromptCheckbox.PromptCheckbox.Click | src/ui-entities/prompts/Prompt/components/Checkbox/index.tsx:184-192 | the flag follows `Checkable.Click` and the callback fired is `onCheck` or `onUncheck` accordingly |
| PromptSwitch.ImageStyle | src/ui-entities/prompts/Prompt/components/Switch/index.tsx:182-192 | checked shows the style itself; unchecked shows `roundOff` iff the style is round, else `squareOff` |
| PromptSwitch.LabelColor | src/ui-entities/prompts/Prompt/components/Switch/index.tsx:176 | white iff a preset colour exists or the theme is dark; black otherwise |
| PromptSwitch.PresetColorIgnored | src/ui-entities/prompts/Prompt/components/Switch/index.tsx:176 | a preset colour on a light prompt still renders white |
| PromptSwitch.PromptSwitch.constructor | src/ui-entities/prompts/Prompt/components/Switch/index.tsx:75-131 | forced-hidden start, style ROUNDGREEN and unchecked by default |
| PromptSwitch.PromptSwitch.Uncheck | src/ui-entities/prompts/Prompt/components/Switch/index.tsx:133-135 | unchecked, every other field kept |
| PromptSwitch.PromptSwitch.Check | src/ui-entities/prompts/Prompt/components/Switch/index.tsx:140-142 | checked, every other field kept |
| PromptSwitch.PromptSwitch.Click | src/ui-entities/prompts/Prompt/components/Switch/index.tsx:194-202 | toggles, fires exactly one of `onCheck`/`onUncheck`, keeps every other field |
| PromptSwitch.PromptSwitch.Render | src/ui-entities/prompts/Prompt/components/Switch/index.tsx:144-180 | caches `_xPosition = xPosition` and `_yPosition = promptHeight/2 - 16 + yPosition`, draws at right = -x, bottom = y (centre at (xPosition, yPosition)), changes nothing else; display, image and label colour as above |
| PromptInput.PromptInput.constructor | src/ui-entities/prompts/Prompt/components/Input/index.tsx:52-88 | forced-hidden start, placeholder default `Fill in`, the prompt context kept for the render |
| PromptInput.PromptInput.Render | src/ui-entities/prompts/Prompt/components/Input/index.tsx:90-104 | caches `_xPosition = -promptWidth/2 + 156 + xPosition` and `_yPosition = promptHeight/2 - 23 + yPosition` for the 312 by 46 box, draws at right = -x, bottom = y; drawn iff both flags; `onChange` passed through |
| PromptText.MakeLabel | src/ui-entities/prompts/Prompt/components/Text/index.tsx:44-70 | margins left = x and top = -y; an explicit colour wins, else white iff dark theme; font size default 15 |
| PromptText.PromptText.constructor | src/ui-entities/prompts/Prompt/components/Text/index.tsx:44-70 | forced-hidden start and the label `MakeLabel` builds |
| PromptText.PromptText.Display | src/ui-entities/prompts/Prompt/components/Text/index.tsx:79 | drawn iff own flag and prompt flag |
| PromptIcon.PromptIcon.constructor | src/ui-entities/prompts/Prompt/components/Icon/index.tsx:50-86 | forced-hidden start, 128 by 128 by default, centre fixed at (xPosition, yPosition) |
| PromptIcon.PromptIcon.Display | src/ui-entities/prompts/Prompt/components/Icon/index.tsx:95 | drawn iff own flag and prompt flag |
| PromptCloseIcon.PromptCloseIcon.constructor | src/ui-entities/prompts/Prompt/components/CloseIcon/index.tsx:54-77 | visible by default, at top 10 and right 10 by default, without sign flip; size from the atlas |
| PromptCloseIcon.PromptCloseIcon.Display | src/ui-entities/prompts/Prompt/components/CloseIcon/index.tsx:84 | drawn iff its own flag is set; no prompt coupling |
| PromptCloseIcon.PromptCloseIcon.Click | src/ui-entities/prompts/Prompt/components/CloseIcon/index.tsx:97 | the handler is `onMouseDown` as given |
| PromptComponents.NotifyView | src/ui-entities/prompts/Prompt/index.tsx:105 | a control records the new prompt flag and keeps its own; a button then binds (one more live if it is visible and has an action) or drops its stored binding; the close icon is left as it is |
| PromptComponents.ShowView | src/ui-entities/prompts/Prompt/index.tsx:106 | the child's own flag is set and its prompt flag kept; a button gains one live binding iff its prompt flag is set and it has an action |
| PromptComponents.HideView | src/ui-entities/prompts/Prompt/index.tsx:115 | the child's own flag is cleared; a button's stored binding stops being live, one fewer live iff it was live |
| PromptComponents.ShownByPrompt | src/ui-entities/prompts/Prompt/index.tsx:101-108 | one child after the prompt's show: own flag and prompt flag set; an E/F button gains two live bindings if it was already visible, else one |
| PromptComponents.HiddenByPrompt | src/ui-entities/prompts/Prompt/index.tsx:110-117 | one child after the prompt's hide: own flag and prompt flag cleared; a button loses at most its stored binding |
| PromptComponents.ShownByPromptDisplays | src/ui-entities/prompts/Prompt/index.tsx:101-108 | after the prompt shows, every child is displayed, including one hidden on its own; only a button's bindings change |
| PromptComponents.HiddenByPromptHides | src/ui-entities/prompts/Prompt/index.tsx:110-117 | after the prompt hides, no child is displayed and no button keeps its stored binding live |
| PromptComponents.ShowHideCycleBalanced | src/ui-entities/prompts/Prompt/index.tsx:101-117 | for a hidden E/F button, show-then-hide of the prompt adds one binding and takes it away again |
| PromptComponents.ShowOnVisibleButtonLeaks | src/ui-entities/prompts/Prompt/components/Button/index.tsx:200-214 | for a visible E/F button the prompt's show binds twice; the first is orphaned and stays live after hide |
| PromptComponents.FirstMissingNotify | src/ui-entities/prompts/Prompt/index.tsx:103-106 | the first child in list order without `changedPromptVisible`, or none iff every child has it |
| PromptComponents.ShowAsWrittenThrowsAtCloseIcon | src/ui-entities/prompts/Prompt/index.tsx:96-106 | with the close icon first, the call fails at child 0, before any child is updated |
| PromptComponents.Notify | src/ui-entities/prompts/Prompt/index.tsx:105 | dispatches `changedPromptVisible` to the child's class |
| PromptComponents.Show | src/ui-entities/prompts/Prompt/index.tsx:106 | dispatches `show` to the child's class |
| PromptComponents.Hide | src/ui-entities/prompts/Prompt/index.tsx:115 | dispatches `hide` to the child's class |
| Prompt.ThemedStyle | src/ui-entities/prompts/OkPrompt/index.tsx:55 | the ready-made prompts use DARK iff `useDarkTheme`, otherwise LIGHT |
| Prompt.SetStyle | src/ui-entities/prompts/Prompt/index.tsx:246-324 | dark texture and CLOSEW iff a dark style; large and slanted backgrounds iff those styles; close-icon x 15 iff slanted; an unknown style keeps the defaults |
| Prompt.IsDarkTheme | src/ui-entities/prompts/Prompt/index.tsx:98 | the theme is dark iff the style is one of the dark ones |
| Prompt.BoxSide | src/ui-entities/prompts/Prompt/index.tsx:93-94 | the given side if truthy, otherwise the side of the style's atlas section |
| Prompt.Prompt.constructor | src/ui-entities/prompts/Prompt/index.tsx:62-99 | hidden by default, style LIGHT, list holds exactly the close icon, and the fields `SetStyle` and `BoxSide` give |
| Prompt.Prompt.Display | src/ui-entities/prompts/Prompt/index.tsx:211 | drawn iff visible |
| Prompt.Prompt.Show | src/ui-entities/prompts/Prompt/index.tsx:101-108 | the prompt is visible, the list is unchanged, and each child's new state is `ShownByPrompt` of its old one |
| Prompt.Prompt.Hide | src/ui-entities/prompts/Prompt/index.tsx:110-117 | the prompt is hidden, the list is unchanged, and each child's new state is `HiddenByPrompt` of its old one |
| Prompt.Prompt.Close | src/ui-entities/prompts/Prompt/index.tsx:326-330 | runs `onClose` once, then leaves the prompt and children as `Hide` does |
| Prompt.Prompt.AddTextBox | src/ui-entities/prompts/Prompt/index.tsx:119-130 | appends exactly one text box, which snapshots the prompt's flag and size; earlier children untouched |
| Prompt.Prompt.AddSwitch | src/ui-entities/prompts/Prompt/index.tsx:132-146 | appends exactly one switch, which snapshots flag, size and theme |
| Prompt.Prompt.AddCheckbox | src/ui-entities/prompts/Prompt/index.tsx:148-162 | appends exactly one checkbox, which snapshots flag, size and theme |
| Prompt.Prompt.AddButton | src/ui-entities/prompts/Prompt/index.tsx:164-177 | appends exactly one button, placed in the prompt's box, visible iff the prompt is |
| Prompt.Prompt.AddText | src/ui-entities/prompts/Prompt/index.tsx:179-191 | appends exactly one text, which takes the prompt's theme |
| Prompt.Prompt.AddIcon | src/ui-entities/prompts/Prompt/index.tsx:193-204 | appends exactly one icon, placed in the prompt's box |
| Prompt.NewThemedPrompt | src/ui-entities/prompts/OkPrompt/index.tsx:52-58 | a prompt of the given size and visibility, themed light or dark, no close handler, holding only the close icon |
| Prompt.AddLine | src/ui-entities/prompts/OkPrompt/index.tsx:60-65 | appends one centred text line at height y in the theme's text colour |
| Prompt.AddChoice | src/ui-entities/prompts/OkPrompt/index.tsx:67-73 | appends one enabled button of the given style, label and action at the given centre offset |
| OkPrompt.OkPrompt.constructor | src/ui-entities/prompts/OkPrompt/index.tsx:43-74 | 400 by 250, hidden by default; children exactly [close icon, text at (0, 40), E button `Ok` at (0, -70) running `onAccept`] |
| OptionPrompt.OptionPrompt.constructor | src/ui-entities/prompts/OptionPrompt/index.tsx:54-104 | 480 by 384; children [close, title at 160, text at 40, E `Yes` at (-100, -120), F `No` at (100, -120)] |
| FillInPrompt.LastTyped | src/ui-entities/prompts/FillInPrompt/index.tsx:66-79 | the last value typed, or the empty string if nothing was typed |
| FillInPrompt.FillInPrompt.constructor | src/ui-entities/prompts/FillInPrompt/index.tsx:48-93 | empty input; children [close, title at 90, text box at (0, 0) storing each change, E `Submit` at (0, -70)]; no close handler |
| FillInPrompt.FillInPrompt.OnChange | src/ui-entities/prompts/FillInPrompt/index.tsx:77-79 | the stored input becomes the typed value |
| FillInPrompt.FillInPrompt.Accept | src/ui-entities/prompts/FillInPrompt/index.tsx:88-90 | when the button is enabled, runs `onAccept` with the last typed value (or the empty string); otherwise nothing |
| ProgressBar.ValueInRange | src/ui-entities/ProgressBar/index.tsx:213-215 | clamps to [0, 1], keeping a value already inside |
| ProgressBar.Step | src/ui-entities/ProgressBar/index.tsx:148-150 | the amount if truthy, otherwise 0.1, so an explicit 0 still moves the bar |
| ProgressBar.FillPadding | src/ui-entities/ProgressBar/index.tsx:102-112 | padding 3 on every side for the white and black styles, 2/4/2/2 otherwise, times scale |
| ProgressBar.Apply | src/ui-entities/ProgressBar/index.tsx:138-160 | set stores the clamped amount; increase and decrease store the clamped sum or difference; always within [0, 1] |
| ProgressBar.ChangedValueInRange | src/ui-entities/ProgressBar/index.tsx:213-215 | after at least one mutator the value is within [0, 1] |
| ProgressBar.SetForgetsHistory | src/ui-entities/ProgressBar/index.tsx:138-140 | after `set(a)` the value is the clamped `a`, whatever came before |
| ProgressBar.SetIdempotent | src/ui-entities/ProgressBar/index.tsx:138-140 | setting the same amount twice equals setting it once |
| ProgressBar.DecreaseUndoesIncrease | src/ui-entities/ProgressBar/index.tsx:148-160 | decrease undoes increase when neither step is clamped |
| ProgressBar.ApplyAllSnoc | src/ui-entities/ProgressBar/index.tsx:138-160 | the value after one more mutator is that mutator applied to the value before |
| ProgressBar.ProgressBar.constructor | src/ui-entities/ProgressBar/index.tsx:76-121 | stores the initial value unclamped; size 128 by 32 times scale; the fill size from the initial value |
| ProgressBar.ProgressBar.Read | src/ui-entities/ProgressBar/index.tsx:128-130 | returns the value the history of mutators gives, changing nothing |
| ProgressBar.ProgressBar.Set | src/ui-entities/ProgressBar/index.tsx:138-140 | the value becomes `Apply` of a set |
| ProgressBar.ProgressBar.Increase | src/ui-entities/ProgressBar/index.tsx:148-150 | the value becomes `Apply` of an increase |
| ProgressBar.ProgressBar.Decrease | src/ui-entities/ProgressBar/index.tsx:158-160 | the value becomes `Apply` of a decrease |
| ProgressBar.ProgressBar.Display | src/ui-entities/ProgressBar/index.tsx:166-170 | drawn iff visible, at `bottom = yOffset`, `right = -xOffset` |
| Counter.Step | src/ui-entities/Counter/index.tsx:92-94 | the amount if truthy, otherwise 1 |
| Counter.Apply | src/ui-entities/Counter/index.tsx:82-104 | set stores the value as given; increase and decrease move it by exactly `Step(amount)`, never zero, with no bound |
| Counter.StepsAdd | src/ui-entities/Counter/index.tsx:92-104 | without a set, the value is the start plus the net of all steps; no clamp anywhere |
| Counter.IncreaseDecreaseRoundTrip | src/ui-entities/Counter/index.tsx:92-104 | increase(a) then decrease(a) restores the value for every a |
| Counter.SetForgetsHistory | src/ui-entities/Counter/index.tsx:82-84 | after `set(v)` the value is `v` |
| Counter.ApplyAllSnoc | src/ui-entities/Counter/index.tsx:82-104 | one more operation is applied to the value so far |
| Counter.Counter.constructor | src/ui-entities/Counter/index.tsx:50-70 | value 0 and hidden by default, at (-40, 70) |
| Counter.Counter.Read | src/ui-entities/Counter/index.tsx:78-80 | returns the value the history gives, changing nothing |
| Counter.Counter.Set | src/ui-entities/Counter/index.tsx:82-84 | stores the value |
| Counter.Counter.Increase | src/ui-entities/Counter/index.tsx:92-94 | adds `Step(amount)` |
| Counter.Counter.Decrease | src/ui-entities/Counter/index.tsx:102-104 | subtracts `Step(amount)` |
| Counter.Counter.Display | src/ui-entities/Counter/index.tsx:123-125 | drawn iff visible, at `bottom = yOffset`, `right = -xOffset` |
| CornerLabel.CornerLabel.constructor | src/ui-entities/CornerLabel/index.tsx:43-59 | hidden by default, empty text, at (-40, 70) |
| CornerLabel.CornerLabel.Set | src/ui-entities/CornerLabel/index.tsx:67-69 | stores the value, or the empty string when none is given; nothing else changes |
| CornerLabel.CornerLabel.Display | src/ui-entities/CornerLabel/index.tsx:80-82 | drawn iff visible, at `bottom = yOffset`, `right = -xOffset` |
| Icon.IconSize | src/ui-entities/Icon/index.tsx:23-27 | small 32, medium 64, large 128 |
| Icon.Resolve | src/ui-entities/Icon/index.tsx:60-80 | explicit width and height win, otherwise the size preset; offsets and hiding from the defaults |
| Icon.Variant | src/ui-entities/Icon/index.tsx:126-186 | a variant overrides the caller's size and defaults: the side is the variant's preset unless given, offsets and hiding from the variant's defaults |
| Icon.SmallIcon | src/ui-entities/Icon/index.tsx:126-130 | 32 square unless given, at (-30, 50), hidden unless `startHidden` is false |
| Icon.MediumIcon | src/ui-entities/Icon/index.tsx:154-158 | 64 square unless given, at (-30, 50), hidden unless `startHidden` is false |
| Icon.LargeIcon | src/ui-entities/Icon/index.tsx:182-186 | 128 square unless given, at (-30, 50), hidden unless `startHidden` is false |
| Icon.IconPlacement | src/ui-entities/Icon/index.tsx:90 | placed at `bottom = yOffset`, `right = -xOffset` |
| Icon.ExplicitSizeWins | src/ui-entities/Icon/index.tsx:66-67 | an explicit size overrides the preset, in the base icon and all three variants |
| Icon.VariantsForceSize | src/ui-entities/Icon/index.tsx:126-186 | the variants are 32, 64 and 128 square at (-30, 50), hidden, whatever size the caller asked for |
| Icon.PlainIconDefaults | src/ui-entities/Icon/index.tsx:29-37 | the base icon defaults to 128 square at (0, 0), hidden |
| CustomPrompt.SectionFor | src/ui-entities/Prompt/index.tsx:105-187 | large background iff a large style, slanted iff a slanted style; an unknown style keeps the plain one |
| CustomPrompt.SectionAgreesWithPrompt | src/ui-entities/Prompt/index.tsx:105-187 | the older prompt picks the same background as the newer one for every style |
| CustomPrompt.DarkStyleKeepsLightTexture | src/ui-entities/Prompt/index.tsx:56 | unlike the newer prompt, a dark style still uses the light atlas |
| CustomPrompt.CustomPrompt.constructor | src/ui-entities/Prompt/index.tsx:43-65 | visible by default, 400 by 250, light texture, background by `SectionFor` |
| CustomPrompt.CustomPrompt.Display | src/ui-entities/Prompt/index.tsx:71 | drawn iff visible |
| CustomPromptButton.CustomPromptButton.constructor | src/ui-entities/Prompt/components/Button/index.tsx:81-186 | visible unless `startHidden` (default false), no prompt coupling; centre at (xPosition, yPosition) |
| CustomPromptButton.CustomPromptButton.GrayOut | src/ui-entities/Prompt/components/Button/index.tsx:188-190 | disabled |
| CustomPromptButton.CustomPromptButton.Enable | src/ui-entities/Prompt/components/Button/index.tsx:192-194 | enabled |
| CustomPromptButton.CustomPromptButton.Click | src/ui-entities/Prompt/components/Button/index.tsx:228-232 | runs `onMouseDown` iff enabled |
| CustomPromptButton.CustomPromptButton.Display | src/ui-entities/Prompt/components/Button/index.tsx:201-222 | drawn iff visible; glyph iff enabled E/F; label gray iff disabled, black iff an enabled white style |
| CustomPromptButton.CustomPromptButton.IconMarginLeft | src/ui-entities/Prompt/components/Button/index.tsx:171 | the glyph margin `_buttonIconPos(n) - 13` lies in [-78, -33] |
| TimerUtils.SumSnoc | src/utils/timerUtils.ts:37 | the time used after one more frame is the time before plus that frame's `dt` |
| TimerUtils.FiringFrame | src/utils/timerUtils.ts:36-48 | the first frame at which the remaining time reaches 0 or below, or none iff no frame gets there |
| TimerUtils.Timer.constructor | src/utils/timerUtils.ts:13-17 | the remaining time starts at `seconds` |
| TimerUtils.Timer.Start | src/utils/timerUtils.ts:19-26 | adds the system iff no countdown is in progress; remaining time kept |
| TimerUtils.Timer.Stop | src/utils/timerUtils.ts:28-34 | removes the system and resets the remaining time to `seconds` |
| TimerUtils.Timer.Tick | src/utils/timerUtils.ts:36-48 | subtracts `dt`; fires the callback iff the time used reaches `seconds`, then removes the system and resets |
| TimerUtils.TickFiresOnFiringFrame | src/utils/timerUtils.ts:36-48 | the first tick that fires is exactly the frame `FiringFrame` names |
| TimerUtils.SumNonNegative | src/utils/timerUtils.ts:37 | with non-negative frame times the time used is non-negative |
| TimerUtils.FiresIffTotalReaches | src/utils/timerUtils.ts:36-48 | with non-negative frame times the timer fires in a run iff the run's total time reaches the remaining time |
| TimerUtils.FiringFrameUnique | src/utils/timerUtils.ts:41 | the first frame at which the time runs out is the only one `FiringFrame` can name |
| TimerUtils.HandleAsWritten | src/utils/timerUtils.ts:25-37 | the handle registered without its receiver never counts the timer down; bound, it subtracts `dt` |
| TimerUtils.AsWrittenNeverCounts | src/utils/timerUtils.ts:25-37 | a 1-second timer given a 2-second frame fires at frame 0 when bound, and does not count the frame as registered |

## Left out

- The `render()` trees are left out. Of what they compute, the model keeps the display flag, the position numbers, the images chosen and the label colours; layout, fonts and the renderer hookup are not modelled.
- The atlas tables, `getImageAtlasMapping` and the theme paths are not part of this model. Section sizes come in as an `Atlas.Coordinates` record, and the texture is an abstract `AtlasTheme` value.
- The input-action registry and `engine.addSystem`/`removeSystem` are calls into the engine. They are modelled as a registration record and a trace of engine calls. Removing a registration that is already removed is taken to do nothing, because the engine's behaviour there is not visible.
- Callbacks are values. Their effects, when they run, are not modelled.
- Values typed `string | number` are modelled as strings. `String(number)`, text length in UTF-16 units, NaN and floating-point rounding are not modelled: numbers are exact reals.
- The Counter's `toFixedLengthStringUtil` is not part of this model. The counter's text is therefore not computed; its `fixedDigits` field is stored.
- The `console.log` calls in the timer are left out.
- Announcement, CenterImage and Loading are left out. They depend on a `DelayedHidingUIObject` base that is not part of this model, and they are render-only.
- The older Text, CloseIcon and Icon components are left out. They hold constructor defaults and rendering only.
- The demo scene, `src/index.ts` and the build configuration are left out.
- Prompt.Prompt.constructor: the close-icon configuration does not carry `promptVisible`. The close icon does not read it.
- InPromptUIObject.InPromptUIObject.constructor: the prompt width, height and theme are `const`. No shown code reassigns them after construction.
- TimerUtils.Timer.Stop: the `!this._callback` guard is not modelled. The configuration type makes the callback mandatory, so the guard never returns.
- TimerUtils.Timer.Tick: the model gives the handle its receiver and so follows the intended countdown (see Findings).
- Icon.Resolve: the `section` (atlas cut-out) option is not modelled. The model does not use the image mapping.
- CustomPrompt.CustomPrompt.constructor: the inherited `show`/`hide` of the older prompt are those of `UIObject` and are not repeated.
- Icon.Resolve: the doc comment of the plain icon gives defaults xOffset -30, yOffset 50 and size medium (src/ui-entities/Icon/index.tsx:46-48), but the code uses 0, 0 and large (lines 29-37); the model follows the code.
- Icon.Variant: the doc comments of the three variants give `startHidden` false (src/ui-entities/Icon/index.tsx:117,145,173), but their defaults are true (lines 105, 133, 161); the model follows the code.
- ProgressBar.DecreaseUndoesIncrease: this holds only when neither clamp applies; a clamped step is not undone, and the lemma's requires say so.

With the `_promptVisible` and close-icon findings corrected, the model keeps two consequences of the code as written. As written they cannot be seen, because `show()` fails at the close icon and no binding is ever made:

- `Prompt.show` re-shows every child, including one hidden on its own (`PromptComponents.ShownByPromptDisplays`).
- Showing a prompt whose E/F button is already visible binds twice and orphans one binding (`PromptComponents.ShowOnVisibleButtonLeaks`).

The model also keeps these behaviours of the code as written:

- Any preset label colour on a switch renders white (`PromptSwitch.PresetColorIgnored`).
- The progress bar's fill width is computed once, from the initial value.
- The ready-made prompts do not forward an `onClose`, so closing them runs the default no-op.
- A zero amount or size counts as absent wherever the code uses `a ? a : d`.
- Calling `start()` twice before the first tick adds the system twice.

## Findings

| source | as written | input that shows it | evidently intended | confidence | as-written member | corrected member |
|---|---|---|---|---|---|---|
| src/ui-entities/prompts/Prompt/components/Button/index.tsx:235 | the display tests of Button, Checkbox, Text and Icon read `_promptVisible`, a field the base class never declares (it declares `promptVisible`) | a button added to a visible prompt: own flag true, declared prompt flag true, display `none` | read the declared `promptVisible`, as Input and Switch do | not executed | InPromptUIObject.DisplayedAsWritten | PromptComponents.ShownByPromptDisplays |
| src/ui-entities/prompts/Prompt/components/Button/index.tsx:274 | the binding guard of the button reads the same undeclared `_promptVisible` and returns early | an E button visible in a visible prompt: no input action is registered | test the declared `promptVisible`, then register | not executed | PromptButton.AsWrittenNeverBinds | PromptButton.CreateSystemInputAction |
| src/ui-entities/prompts/Prompt/index.tsx:105 | `show`/`hide` call `changedPromptVisible` on every child, but the close icon, always child 0, has no such method | any prompt: `show()` fails at the close icon before any child is updated | notify only the children that take the prompt flag, then show or hide every child | not executed | PromptComponents.ShowAsWrittenThrowsAtCloseIcon | Prompt.Prompt.Show |
| src/utils/timerUtils.ts:25 | the tick method is handed to the engine without its receiver, so the countdown it runs is not the timer's own and never reaches the callback | `seconds = 1`, one frame with `dt = 2`: the callback does not run | a bound handle that counts down and fires | not executed | TimerUtils.AsWrittenNeverCounts | TimerUtils.Timer.Tick |
