# ValidateTextField display logic in Dafny

ValidateTextField is a UIKit text field with a title label above it, an
underline bar below it and an inline error label. This project models the two
pieces of pure logic inside it, separated from the view toolkit:

- the **style table** (`Style`): a map from the four display states (empty,
  focused, filled, error) to an underline colour and height, looked up with
  fallbacks (the tint colour, height 1), two setters that only update existing
  entries, and the two preset themes (`default`, `dark`);
- the **fill-state machine and render routine**: text assignment, begin- and
  end-editing move the fill state; the one-shot setup gate decides whether
  `updateUI` draws; `updateUI` and `set(error:)` compute the title label,
  underline colour and height, error-label text, colour and visibility, the
  normalised fill state, and the error-block height reported to the listener.

Files:

- `optional.dfy` — module `Optional`: Swift optionals.
- `style.dfy` — module `Styles`: state enum, colour tokens, style table, presets.
- `text_field.dfy` — module `ValidateTextField`: the field record, the render
  pipeline (`FillSwitch` then `SetError`), the property setters and editing events.
- `traces.dfy` — module `Traces`: event sequences from construction, the
  invariant every reachable field keeps, and the example screen's script.

Every rendering operation is a pure function from a `Field` record to a
`Step`: the new field plus the height reported to the listener, if it was
notified. Attaching or detaching the listener (`SetDelegate`) draws nothing
and returns just the new `Field`. The view is a record of the seven
child-view properties the render writes. Colours are opaque tokens, heights
are `real` (CGFloat). The toolkit's text measurement,
`ceil(boundingRect.height)`, is a parameter `measure: string -> nat`.

The reference description of a rendered view is the predicate
`ValidateTextField.Shows`: with a message, the error label is visible with that
text, and label and underline use the error-message colour at the error
state's height; without one, the label is hidden and both take the colour and
height of the (normalised) fill state. `ShowsDeterminesView` proves that this
description fixes the view completely. `RendersAs` describes one whole render
(fill-state normalisation, the view, the report, and that nothing else
changes); the render and every operation that ends in it are stated against
it, and the trace invariant `Traces.Coherent` against `Shows`.

Behaviour of the code worth knowing, all reproduced by the model:

- `updateUI` rewrites `.empty` to `.filled` before `set(error:)` looks up the
  colour and height, so an empty field is drawn from the filled entry
  (`EmptyTextDrawsFilledEntry`). In both presets the two entries are equal
  (`PresetsRestingStatesAgree`).
- A shown error paints the underline in `errorMessageColor`; only the height
  comes from the error entry. In both presets that colour is also the error
  entry's colour (`PresetShape`).
- The colour the state switch picks (the focused colour for both focused and
  filled) is always painted over by `set(error:)` (`SwitchColorIsOverwritten`).
- Nothing assigns `.error` to the fill state. From construction it is never
  reached (`ReachableFieldsAvoidErrorState`). The model still handles it as the
  code's switch does.

## Model

| member | source | states |
|---|---|---|
| Styles.LineColor | ValidateTextField/TextField/ValidateTextField.swift:274-276 | the stored colour when the state has an entry, the tint colour otherwise |
| Styles.LineHeight | ValidateTextField/TextField/ValidateTextField.swift:278-280 | the stored height when the state has an entry, exactly 1 otherwise |
| Styles.SetLineColor | ValidateTextField/TextField/ValidateTextField.swift:282-286 | an unmapped state leaves the style unchanged; a mapped one gets the new colour and keeps its height; the key set, every other entry and every other style field are unchanged |
| Styles.SetLineHeight | ValidateTextField/TextField/ValidateTextField.swift:288-292 | an unmapped state leaves the style unchanged; a mapped one gets the new height and keeps its colour; the key set, every other entry and every other style field are unchanged |
| Styles.LookupAfterSetLineColor | ValidateTextField/TextField/ValidateTextField.swift:274-286 | after a colour update, the colour lookup of a mapped target state returns the new colour; every other lookup, and every height lookup, is as before |
| Styles.LookupAfterSetLineHeight | ValidateTextField/TextField/ValidateTextField.swift:278-292 | after a height update, the height lookup of a mapped target state returns the new height; every other lookup, and every colour lookup, is as before |
| Styles.DefaultStyle | ValidateTextField/TextField/ValidateTextField.swift:295-308 | the default preset has the preset shape (empty and filled clear at height 8, error in the error-message colour), the error-message colour is the palette's error colour, and the tint equals the text colour |
| Styles.DarkStyle | ValidateTextField/TextField/ValidateTextField.swift:310-323 | the dark preset has the same shape and the same error and tint colours |
| Styles.PresetShapeCoversAllStates | ValidateTextField/TextField/ValidateTextField.swift:295-323 | a preset-shaped table maps all four states, every height is 8, and every state except focused is clear or, for error, the error-message colour |
| Styles.PresetsDifferOnlyInFocusAndTitle | ValidateTextField/TextField/ValidateTextField.swift:295-323 | the dark preset is the default one with the focused colour set to white and the title colour set to red; all other lookups agree, and those two differ |
| Styles.PresetsRestingStatesAgree | ValidateTextField/TextField/ValidateTextField.swift:296-298 | in either preset, empty and filled share colour (clear) and height (8) |
| ValidateTextField.NewField | ValidateTextField/TextField/ValidateTextField.swift:59-68 | a new field is empty, not set up, has no children, uses the default style and has no listener |
| ValidateTextField.FillStateFor | ValidateTextField/TextField/ValidateTextField.swift:46-65 | the state is empty exactly when the text is missing or empty, and filled otherwise |
| ValidateTextField.InitialChildren | ValidateTextField/TextField/ValidateTextField.swift:143-147 | setup creates the underline in the empty entry's colour and height, with no label texts |
| ValidateTextField.Setup | ValidateTextField/TextField/ValidateTextField.swift:69-74 | setup creates the children and raises the flag; nothing else changes |
| ValidateTextField.FillSwitch | ValidateTextField/TextField/ValidateTextField.swift:215-226 | the title label takes the title and title colour; empty becomes filled; every other state is kept |
| ValidateTextField.HeightForText | ValidateTextField/TextField/ValidateTextField.swift:253-256 | the measured height is non-negative, and 0 without a text |
| ValidateTextField.ErrorBlockReport | ValidateTextField/TextField/ValidateTextField.swift:245-249 | the listener is told something exactly when attached: the measured message height plus 16, exactly 16 without a message |
| ValidateTextField.SetError | ValidateTextField/TextField/ValidateTextField.swift:231-251 | the overlay meets the error-label and underline part of the reference description; the listener is notified exactly when attached, with the measured height + 16, which is exactly 16 without a message |
| ValidateTextField.SwitchColorIsOverwritten | ValidateTextField/TextField/ValidateTextField.swift:218-242 | the render's result does not depend on the colour the state switch chose |
| ValidateTextField.ShowsDeterminesView | ValidateTextField/TextField/ValidateTextField.swift:215-242 | two views that both meet the reference description of a render are equal, so the description fixes every child property |
| ValidateTextField.UpdateUI | ValidateTextField/TextField/ValidateTextField.swift:213-251 | before setup nothing changes and nothing is reported; afterwards the fill state is normalised (never empty), the children meet the reference description for that state, nothing else changes, and the report is as for SetError |
| ValidateTextField.UpdateUIIdempotent | ValidateTextField/TextField/ValidateTextField.swift:213-242 | rendering twice gives the same field and report as rendering once |
| ValidateTextField.LayoutSubviews | ValidateTextField/TextField/ValidateTextField.swift:69-99 | the first layout pass sets up and renders: the fill state is kept, except that empty becomes filled; the children meet the reference description; the listener gets the error block's height; nothing else changes; later passes do nothing |
| ValidateTextField.SetText | ValidateTextField/TextField/ValidateTextField.swift:40-49 | the text is stored; the fill state becomes empty or filled by the new text, and filled once rendered; the render follows (children as the reference description prescribes, report to the listener, none before setup); nothing else changes |
| ValidateTextField.BeginEditing | ValidateTextField/TextField/ValidateTextField.swift:203-206 | the fill state becomes focused and stays focused through the render; the render follows; nothing else changes |
| ValidateTextField.EndEditing | ValidateTextField/TextField/ValidateTextField.swift:208-211 | the fill state becomes empty or filled by the current text, and filled once rendered; the render follows; nothing else changes |
| ValidateTextField.SetErrorMessage | ValidateTextField/TextField/ValidateTextField.swift:25-27 | the message is stored and the render follows, so the error label carries it, is hidden exactly when it is missing, and the report measures it; only the normalisation moves the fill state; nothing else changes |
| ValidateTextField.SetTitleText | ValidateTextField/TextField/ValidateTextField.swift:29-31 | the title is stored and the render follows, so the title label carries it; only the normalisation moves the fill state; nothing else changes |
| ValidateTextField.SetStyle | ValidateTextField/TextField/ValidateTextField.swift:33-38 | the style is stored and the field's text colour becomes the style's even before setup; the render follows with the new style; only the normalisation moves the fill state; nothing else changes |
| ValidateTextField.SetDelegate | ValidateTextField/TextField/ValidateTextField.swift:51 | only the listener changes |
| ValidateTextField.EmptyTextDrawsFilledEntry | ValidateTextField/TextField/ValidateTextField.swift:218-240 | assigning an empty text without a message draws the underline from the filled entry |
| ValidateTextField.EndEditingIgnoresTextOnceSetUp | ValidateTextField/TextField/ValidateTextField.swift:208-242 | on a set-up field the end of editing draws and reports the same whatever text is stored |
| ValidateTextField.NoOperationEntersError | ValidateTextField/TextField/ValidateTextField.swift:203-229 | no setter, editing event, layout pass or render moves a field into the error state |
| Traces.Apply | ValidateTextField/TextField/ValidateTextField.swift:25-51 | the listener is never notified when it is attached or detached, and on a set-up field every rendering event notifies it exactly when it is attached |
| Traces.NewFieldCoherent | ValidateTextField/TextField/ValidateTextField.swift:59-68 | a new field satisfies the reachability invariant |
| Traces.ApplyPreservesCoherent | ValidateTextField/TextField/ValidateTextField.swift:25-251 | every event keeps the invariant: never in the error state, children exist exactly when set up, and a set-up field is not empty and shows the reference description |
| Traces.RunPreservesCoherent | ValidateTextField/TextField/ValidateTextField.swift:25-251 | every sequence of events keeps the invariant |
| Traces.ReachableFieldsAvoidErrorState | ValidateTextField/TextField/ValidateTextField.swift:203-226 | no sequence of events from construction reaches the error state, and a set-up field is never left empty |
| Traces.RenderOfReachableFieldIsStable | ValidateTextField/TextField/ValidateTextField.swift:213-251 | an explicit render of a reachable field changes nothing |
| Traces.ExampleScreen | ValidateTextFieldExample/ViewController.swift:19-21 | text, dark style and message assigned before the first layout give, at that layout: red title, error-coloured underline of height 8, visible message |
| Traces.ExampleScreenReport | ValidateTextField/TextField/ValidateTextField.swift:245-249 | with a listener attached before the same script, the first layout pass reports the measured message height plus 16 |
| Traces.ClearingErrorRestoresFillAppearance | ValidateTextField/TextField/ValidateTextField.swift:231-242 | clearing the message hides the label and returns the underline to the fill state's colour and height |
| Traces.EndEditingWithTextShowsFilledLine | ValidateTextField/TextField/ValidateTextField.swift:208-242 | with a preset style and no message, a non-empty text after editing ends is drawn filled with a clear underline of height 8 |

## Left out

- View creation, Auto Layout constraints, `addSubview`, `setNeedsLayout` and `clipsToBounds` (lines 118-176, 243): toolkit plumbing. Only the child properties the render writes are modelled.
- Fonts: the 11/12-scaled fonts of the title and error labels (lines 139-140, 174-175) and the font computed for measurement (lines 246-247). The model has no font property. `heightForText` never reads its `font` parameter, since `boundingRect` at line 258 is called without text attributes, so the scaled font does not reach the measurement.
- Text measurement with `boundingRect` and its rounding up (lines 257-260): floating point and the toolkit. It enters as the `measure` parameter, a natural number.
- The 8.8 horizontal inset of the text rectangles (lines 101-115) and the half-point `evenSpacing` offset of the underline (line 152): float layout geometry.
- `commonInit` border, corner and background settings (lines 88-94): fixed cosmetic defaults with no logic.
- The RGB values of the colour palette in Constants.swift: colours are opaque tokens. UIKit's red and the palette's error colour are kept as distinct tokens.
- The example screen's gesture handling (ViewController.swift lines 23-35): no logic of its own.
- The commented-out validator (lines 178-195): inactive code.
- Listener dispatch is the returned `reported` value, not a callback. The label width that measurement depends on is part of `measure`, and a trace (`Traces.Run`) uses one `measure` throughout. In the code the first render measures the error label while it still has the zero frame it was created with (line 162), and later renders use the width Auto Layout gives it.
- Typing by the user: typed text changes the stored text without going through the overridden `text` setter (lines 40-49), and `didEndEditing` reads it through `isEmpty` (lines 65, 209). The model has no typing event, so the text `EndEditing` reads is the last one assigned in code. Nothing drawn depends on it: on a set-up field the end of editing draws and reports the same whatever the text (`EndEditingIgnoresTextOnceSetUp`).
- The lazy `setupOnce` closure having run is identified with `isSetUp`, since only that closure sets it. A caller assigning `isSetUp` directly is not modelled.
- Control-event registration: editing events reach the field only after setup. The model defines `BeginEditing`/`EndEditing` on every field, matching the handler functions themselves.
- The getter of `text` returns what the toolkit stores. The model keeps the assigned value, so a missing text stays missing.
