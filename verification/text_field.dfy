/**
 * The text field's display logic, separated from the view toolkit: the
 * fill-state machine driven by text assignment and editing events, the
 * one-shot setup gate, and the render routine that draws the title label,
 * the underline and the error label from the current state and style.
 */
module ValidateTextField {
  import opened Optional
  import opened Styles

  /** Vertical margin above and below the error label. */
  const ErrorYMargin: real := 8.0

  /** What the three child views show. */
  datatype View = View(
    titleText: Option<string>,
    titleColor: Color,
    lineColor: Color,
    lineHeight: real,
    errorText: Option<string>,
    errorColor: Color,
    errorHidden: bool)

  /**
   * The field's state. `children` is None until setup creates the title
   * label, the underline and the error label; `hasDelegate` says whether a
   * listener for the error-block height is attached.
   */
  datatype Field = Field(
    text: Option<string>,
    titleText: Option<string>,
    errorMessage: Option<string>,
    style: Style,
    textColor: Color,
    fillState: FieldState,
    hasDelegate: bool,
    isSetUp: bool,
    children: Option<View>)

  /** An operation's result: the new field and the height reported to the
      listener, if it was notified. */
  datatype Step = Step(field: Field, reported: Option<real>)

  /** A freshly constructed field: nothing set, default style, not set up. */
  function NewField(): (f: Field)
    ensures f.fillState == Empty && !f.isSetUp && f.children.None?
    ensures f.style == DefaultStyle() && !f.hasDelegate
    ensures f.text.None? && f.titleText.None? && f.errorMessage.None?
  {
    Field(None, None, None, DefaultStyle(), SystemDefault, Empty, false, false, None)
  }

  /** A missing text counts as empty. */
  predicate IsEmpty(text: Option<string>)
  {
    ValueOr(text, []) == []
  }

  /** The fill state a text assignment or the end of editing selects. */
  function FillStateFor(text: Option<string>): (s: FieldState)
    ensures s == Empty <==> (text.None? || |text.value| == 0)
    ensures s == Empty || s == Filled
  {
    if IsEmpty(text) then Empty else Filled
  }

  /**
   * The reference description of a rendered view. The title label carries
   * the title in the style's title colour; a present message shows the
   * error label with that text and paints label and underline in the
   * error-message colour at the error state's height; without a message the
   * label is hidden and label and underline take the colour and height of
   * `state`.
   */
  ghost predicate Shows(v: View, style: Style, state: FieldState,
                        title: Option<string>, message: Option<string>)
  {
    && v.titleText == title
    && v.titleColor == style.titleColor
    && ShowsOverlay(v, style, state, message)
  }

  /** The error-label and underline part of `Shows`. */
  ghost predicate ShowsOverlay(v: View, style: Style, state: FieldState, message: Option<string>)
  {
    && v.errorText == message
    && v.errorHidden == message.None?
    && v.errorColor == v.lineColor
    && (message.Some? ==> v.lineColor == style.errorMessageColor
                          && v.lineHeight == LineHeight(style, Error))
    && (message.None? ==> v.lineColor == LineColor(style, state)
                          && v.lineHeight == LineHeight(style, state))
  }

  /** The reference description pins the view down completely. */
  lemma ShowsDeterminesView(v: View, w: View, style: Style, state: FieldState,
                            title: Option<string>, message: Option<string>)
    requires Shows(v, style, state, title, message)
    requires Shows(w, style, state, title, message)
    ensures v == w
  {
  }

  /** The children as setup creates them: no texts, default label colours,
      and the underline in the empty state's colour and height. */
  function InitialChildren(style: Style): (v: View)
    ensures v.lineColor == LineColor(style, Empty)
    ensures v.lineHeight == LineHeight(style, Empty)
    ensures v.titleText.None? && v.errorText.None? && !v.errorHidden
  {
    View(None, SystemDefault, LineColor(style, Empty), LineHeight(style, Empty),
         None, SystemDefault, false)
  }

  /** Creates the children and raises the setup flag. */
  function Setup(f: Field): (g: Field)
    ensures g.isSetUp && g.children == Some(InitialChildren(f.style))
    ensures g.(isSetUp := f.isSetUp, children := f.children) == f
  {
    f.(children := Some(InitialChildren(f.style)), isSetUp := true)
  }

  /** The title label and the underline colour after the state switch of
      the render routine, before the error overlay is applied. */
  datatype Draft = Draft(
    fillState: FieldState,
    titleText: Option<string>,
    titleColor: Color,
    lineColor: Color)

  /**
   * The first half of the render routine: the title label takes the title
   * and title colour, the empty state is rewritten to filled, and the
   * underline takes a colour chosen by state (the focused colour for both
   * focused and filled).
   */
  function FillSwitch(f: Field): (d: Draft)
    ensures d.fillState != Empty
    ensures f.fillState != Empty ==> d.fillState == f.fillState
    ensures f.fillState == Empty ==> d.fillState == Filled
    ensures d.titleText == f.titleText && d.titleColor == f.style.titleColor
  {
    match f.fillState
    case Empty => Draft(Filled, f.titleText, f.style.titleColor, LineColor(f.style, Empty))
    case Focused => Draft(Focused, f.titleText, f.style.titleColor, LineColor(f.style, Focused))
    case Filled => Draft(Filled, f.titleText, f.style.titleColor, LineColor(f.style, Focused))
    case Error => Draft(Error, f.titleText, f.style.titleColor, LineColor(f.style, Error))
  }

  /**
   * The height of `text` as the error label lays it out: 0 without a text,
   * otherwise the measured height (already rounded up). The measurement is
   * the toolkit's and comes in as `measure`.
   */
  function HeightForText(text: Option<string>, measure: string -> nat): (h: real)
    ensures h >= 0.0
    ensures text.None? ==> h == 0.0
  {
    match text
    case None => 0.0
    case Some(t) => measure(t) as real
  }

  /**
   * What the listener is told after a render: nothing without a listener,
   * otherwise the error block's height, the measured message height plus
   * the margins above and below the label, which is exactly those margins
   * without a message.
   */
  function ErrorBlockReport(hasDelegate: bool, message: Option<string>,
                            measure: string -> nat): (r: Option<real>)
    ensures r.Some? <==> hasDelegate
    ensures r.Some? ==> r.value >= 2.0 * ErrorYMargin
    ensures r.Some? && message.None? ==> r.value == 16.0
    ensures r.Some? && message.Some? ==> r.value == measure(message.value) as real + 16.0
  {
    if hasDelegate then Some(HeightForText(message, measure) + 2.0 * ErrorYMargin) else None
  }

  /** The views after the error overlay, and what the listener is told. */
  datatype Overlay = Overlay(view: View, reported: Option<real>)

  /**
   * The second half of the render routine: shows or hides the error label
   * and paints label and underline, overwriting the colour the switch
   * chose, then reports the error block's height to the listener.
   */
  function SetError(d: Draft, style: Style, message: Option<string>,
                    hasDelegate: bool, measure: string -> nat): (o: Overlay)
    ensures ShowsOverlay(o.view, style, d.fillState, message)
    ensures o.view.titleText == d.titleText && o.view.titleColor == d.titleColor
    ensures o.reported.Some? <==> hasDelegate
    ensures o.reported.Some? ==> o.reported.value >= 2.0 * ErrorYMargin
    ensures o.reported.Some? && message.None? ==> o.reported.value == 16.0
    ensures o.reported.Some? && message.Some?
            ==> o.reported.value == measure(message.value) as real + 16.0
  {
    var visible := message.Some?;
    var color := if visible then style.errorMessageColor else LineColor(style, d.fillState);
    var height := if visible then LineHeight(style, Error) else LineHeight(style, d.fillState);
    var view := View(d.titleText, d.titleColor, color, height, message, color, !visible);
    Overlay(view, ErrorBlockReport(hasDelegate, message, measure))
  }

  /** The colour the state switch picks for the underline never reaches the
      screen: the overlay paints over it. */
  lemma SwitchColorIsOverwritten(d: Draft, c: Color, style: Style, message: Option<string>,
                                 hasDelegate: bool, measure: string -> nat)
    ensures SetError(d.(lineColor := c), style, message, hasDelegate, measure)
            == SetError(d, style, message, hasDelegate, measure)
  {
  }

  /**
   * The reference description of one render of `g`: before setup nothing
   * changes and nothing is reported; afterwards the fill state is
   * normalised, the children show what `Shows` prescribes for it, nothing
   * else in the field changes, and the listener gets the error block's
   * height.
   */
  ghost predicate RendersAs(g: Field, r: Step, measure: string -> nat)
  {
    if !g.isSetUp then r == Step(g, None)
    else
      && r.field == g.(fillState := r.field.fillState, children := r.field.children)
      && r.field.fillState == (if g.fillState == Empty then Filled else g.fillState)
      && r.field.children.Some?
      && Shows(r.field.children.value, g.style, r.field.fillState, g.titleText, g.errorMessage)
      && r.reported == ErrorBlockReport(g.hasDelegate, g.errorMessage, measure)
  }

  /**
   * The render routine. Before setup it does nothing. Afterwards it redraws
   * every child property, so the new view is fully described by `Shows` for
   * the normalised fill state, and nothing but the fill state and the
   * children changes.
   */
  function UpdateUI(f: Field, measure: string -> nat): (r: Step)
    ensures !f.isSetUp ==> r == Step(f, None)
    ensures f.isSetUp ==> r.field == f.(fillState := r.field.fillState, children := r.field.children)
    ensures f.isSetUp ==> r.field.fillState != Empty
    ensures f.isSetUp ==> r.field.fillState == (if f.fillState == Empty then Filled else f.fillState)
    ensures f.isSetUp ==> (r.field.children.Some? &&
              Shows(r.field.children.value, f.style, r.field.fillState, f.titleText, f.errorMessage))
    ensures f.isSetUp ==> (r.reported.Some? <==> f.hasDelegate)
    ensures f.isSetUp && f.hasDelegate && f.errorMessage.None? ==> r.reported == Some(16.0)
    ensures f.isSetUp && f.hasDelegate && f.errorMessage.Some?
            ==> r.reported == Some(measure(f.errorMessage.value) as real + 16.0)
    ensures RendersAs(f, r, measure)
  {
    if !f.isSetUp then Step(f, None)
    else
      var d := FillSwitch(f);
      var o := SetError(d, f.style, f.errorMessage, f.hasDelegate, measure);
      Step(f.(fillState := d.fillState, children := Some(o.view)), o.reported)
  }

  /** Rendering twice with unchanged inputs gives the same field and the
      same report as rendering once. */
  lemma UpdateUIIdempotent(f: Field, measure: string -> nat)
    ensures UpdateUI(UpdateUI(f, measure).field, measure) == UpdateUI(f, measure)
  {
  }

  /**
   * The first layout pass runs the one-shot setup, which creates the
   * children and raises the flag before its deferred render, so that render
   * draws, keeping a focused or filled state and turning empty into filled,
   * and reports to the listener; every later layout pass does nothing.
   */
  function LayoutSubviews(f: Field, measure: string -> nat): (r: Step)
    ensures f.isSetUp ==> r == Step(f, None)
    ensures !f.isSetUp ==> r.field.isSetUp
    ensures !f.isSetUp ==> r.field.fillState == (if f.fillState == Empty then Filled else f.fillState)
    ensures !f.isSetUp ==> (r.field.children.Some? &&
              Shows(r.field.children.value, f.style, r.field.fillState, f.titleText, f.errorMessage))
    ensures !f.isSetUp ==> r.field.(isSetUp := false, children := None, fillState := f.fillState)
                           == f.(children := None)
    ensures !f.isSetUp ==> (r.reported.Some? <==> f.hasDelegate)
    ensures !f.isSetUp && f.hasDelegate && f.errorMessage.None? ==> r.reported == Some(16.0)
    ensures !f.isSetUp && f.hasDelegate && f.errorMessage.Some?
            ==> r.reported == Some(measure(f.errorMessage.value) as real + 16.0)
    ensures !f.isSetUp ==> RendersAs(Setup(f), r, measure)
  {
    if f.isSetUp then Step(f, None) else UpdateUI(Setup(f), measure)
  }

  /**
   * Assigning the text stores it, selects empty or filled by the new text
   * and renders; nothing else in the field changes.
   */
  function SetText(f: Field, text: Option<string>, measure: string -> nat): (r: Step)
    ensures r.field.(text := f.text, fillState := f.fillState, children := f.children) == f
    ensures r.field.text == text
    ensures !f.isSetUp ==> r.field.fillState == (if IsEmpty(text) then Empty else Filled)
    ensures !f.isSetUp ==> r.reported.None? && r.field.children == f.children
    ensures f.isSetUp ==> r.field.fillState == Filled
    ensures f.isSetUp ==> (r.field.children.Some? &&
              Shows(r.field.children.value, r.field.style, r.field.fillState,
                    r.field.titleText, r.field.errorMessage))
    ensures f.isSetUp ==> r.reported == ErrorBlockReport(f.hasDelegate, f.errorMessage, measure)
    ensures RendersAs(f.(text := text, fillState := FillStateFor(text)), r, measure)
  {
    UpdateUI(f.(text := text, fillState := FillStateFor(text)), measure)
  }

  /** Gaining input focus selects the focused state and renders; nothing
      else in the field changes. */
  function BeginEditing(f: Field, measure: string -> nat): (r: Step)
    ensures r.field.(fillState := f.fillState, children := f.children) == f
    ensures r.field.fillState == Focused
    ensures !f.isSetUp ==> r.reported.None? && r.field.children == f.children
    ensures f.isSetUp ==> (r.field.children.Some? &&
              Shows(r.field.children.value, r.field.style, Focused,
                    r.field.titleText, r.field.errorMessage))
    ensures f.isSetUp ==> r.reported == ErrorBlockReport(f.hasDelegate, f.errorMessage, measure)
    ensures RendersAs(f.(fillState := Focused), r, measure)
  {
    UpdateUI(f.(fillState := Focused), measure)
  }

  /** Losing input focus selects empty or filled by the current text and
      renders; nothing else in the field changes. */
  function EndEditing(f: Field, measure: string -> nat): (r: Step)
    ensures r.field.(fillState := f.fillState, children := f.children) == f
    ensures !f.isSetUp ==> r.field.fillState == (if IsEmpty(f.text) then Empty else Filled)
    ensures !f.isSetUp ==> r.reported.None? && r.field.children == f.children
    ensures f.isSetUp ==> r.field.fillState == Filled
    ensures f.isSetUp ==> (r.field.children.Some? &&
              Shows(r.field.children.value, r.field.style, Filled,
                    r.field.titleText, r.field.errorMessage))
    ensures f.isSetUp ==> r.reported == ErrorBlockReport(f.hasDelegate, f.errorMessage, measure)
    ensures RendersAs(f.(fillState := FillStateFor(f.text)), r, measure)
  {
    UpdateUI(f.(fillState := FillStateFor(f.text)), measure)
  }

  /** Assigning the error message stores it and renders; the fill state
      moves only by the render's normalisation, and nothing else changes. */
  function SetErrorMessage(f: Field, message: Option<string>, measure: string -> nat): (r: Step)
    ensures r.field.(errorMessage := f.errorMessage, fillState := f.fillState,
                     children := f.children) == f
    ensures r.field.errorMessage == message
    ensures f.fillState != Empty ==> r.field.fillState == f.fillState
    ensures !f.isSetUp ==> r.reported.None? && r.field.children == f.children
    ensures f.isSetUp ==> (r.field.children.Some? &&
              Shows(r.field.children.value, r.field.style, r.field.fillState,
                    r.field.titleText, message))
    ensures f.isSetUp ==> r.reported == ErrorBlockReport(f.hasDelegate, message, measure)
    ensures RendersAs(f.(errorMessage := message), r, measure)
  {
    UpdateUI(f.(errorMessage := message), measure)
  }

  /** Assigning the title stores it and renders; nothing else changes but
      the render's normalisation of the fill state. */
  function SetTitleText(f: Field, title: Option<string>, measure: string -> nat): (r: Step)
    ensures r.field.(titleText := f.titleText, fillState := f.fillState,
                     children := f.children) == f
    ensures r.field.titleText == title
    ensures f.fillState != Empty ==> r.field.fillState == f.fillState
    ensures !f.isSetUp ==> r.reported.None? && r.field.children == f.children
    ensures f.isSetUp ==> (r.field.children.Some? &&
              Shows(r.field.children.value, r.field.style, r.field.fillState,
                    title, r.field.errorMessage))
    ensures f.isSetUp ==> r.reported == ErrorBlockReport(f.hasDelegate, f.errorMessage, measure)
    ensures RendersAs(f.(titleText := title), r, measure)
  {
    UpdateUI(f.(titleText := title), measure)
  }

  /** Assigning the style stores it and sets the field's text colour, even
      before setup, then renders; nothing else changes but the render's
      normalisation of the fill state. */
  function SetStyle(f: Field, style: Style, measure: string -> nat): (r: Step)
    ensures r.field.(style := f.style, textColor := f.textColor, fillState := f.fillState,
                     children := f.children) == f
    ensures r.field.style == style && r.field.textColor == style.textColor
    ensures f.fillState != Empty ==> r.field.fillState == f.fillState
    ensures !f.isSetUp ==> r.reported.None? && r.field.children == f.children
    ensures f.isSetUp ==> (r.field.children.Some? &&
              Shows(r.field.children.value, style, r.field.fillState,
                    r.field.titleText, r.field.errorMessage))
    ensures f.isSetUp ==> r.reported == ErrorBlockReport(f.hasDelegate, f.errorMessage, measure)
    ensures RendersAs(f.(style := style, textColor := style.textColor), r, measure)
  {
    UpdateUI(f.(style := style, textColor := style.textColor), measure)
  }

  /** Attaching or detaching the listener; nothing is drawn. */
  function SetDelegate(f: Field, present: bool): (g: Field)
    ensures g.hasDelegate == present
    ensures g.(hasDelegate := f.hasDelegate) == f
  {
    f.(hasDelegate := present)
  }

  /**
   * Assigning an empty text to a set-up field without a message draws the
   * underline from the filled entry, not the empty one: the render has
   * already rewritten the empty state to filled when it picks the colour.
   */
  lemma EmptyTextDrawsFilledEntry(f: Field, text: Option<string>, measure: string -> nat)
    requires f.isSetUp && f.errorMessage.None? && IsEmpty(text)
    ensures var v := SetText(f, text, measure).field.children.value;
            && v.lineColor == LineColor(f.style, Filled)
            && v.lineHeight == LineHeight(f.style, Filled)
            && v.errorHidden
  {
  }

  /**
   * Once set up, the end of editing looks only at the fill state the
   * render leaves behind: whatever text is stored, the view and the report
   * are the same.
   */
  lemma EndEditingIgnoresTextOnceSetUp(f: Field, t1: Option<string>, t2: Option<string>,
                                       measure: string -> nat)
    requires f.isSetUp
    ensures EndEditing(f.(text := t1), measure).field.children
            == EndEditing(f.(text := t2), measure).field.children
    ensures EndEditing(f.(text := t1), measure).reported
            == EndEditing(f.(text := t2), measure).reported
  {
  }

  /** No operation ever produces the error state from a field not in it. */
  lemma NoOperationEntersError(f: Field, text: Option<string>, title: Option<string>,
                               message: Option<string>, style: Style, present: bool,
                               measure: string -> nat)
    requires f.fillState != Error
    ensures SetText(f, text, measure).field.fillState != Error
    ensures BeginEditing(f, measure).field.fillState != Error
    ensures EndEditing(f, measure).field.fillState != Error
    ensures SetErrorMessage(f, message, measure).field.fillState != Error
    ensures SetTitleText(f, title, measure).field.fillState != Error
    ensures SetStyle(f, style, measure).field.fillState != Error
    ensures SetDelegate(f, present).fillState != Error
    ensures LayoutSubviews(f, measure).field.fillState != Error
    ensures UpdateUI(f, measure).field.fillState != Error
  {
  }
}
