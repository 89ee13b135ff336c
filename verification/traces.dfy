/**
 * Sequences of operations on one field, starting from construction: the
 * invariants every reachable field keeps, and the example screen's script.
 */
module Traces {
  import opened Optional
  import opened Styles
  import opened ValidateTextField

  /** Everything that can happen to a field. */
  datatype Event =
    | AssignText(text: Option<string>)
    | AssignTitle(title: Option<string>)
    | AssignError(message: Option<string>)
    | AssignStyle(style: Style)
    | AssignDelegate(present: bool)
    | BeganEditing
    | EndedEditing
    | Layout

  /** Performs one event. */
  function Apply(f: Field, e: Event, measure: string -> nat): (r: Step)
    ensures e.AssignDelegate? ==> r.reported.None?
    ensures !e.AssignDelegate? && !e.Layout? && f.isSetUp ==> (r.reported.Some? <==> r.field.hasDelegate)
  {
    match e
    case AssignText(t) => SetText(f, t, measure)
    case AssignTitle(t) => SetTitleText(f, t, measure)
    case AssignError(m) => SetErrorMessage(f, m, measure)
    case AssignStyle(s) => SetStyle(f, s, measure)
    case AssignDelegate(p) => Step(SetDelegate(f, p), None)
    case BeganEditing => BeginEditing(f, measure)
    case EndedEditing => EndEditing(f, measure)
    case Layout => LayoutSubviews(f, measure)
  }

  /** Performs the events in order and returns the final field. */
  function Run(f: Field, events: seq<Event>, measure: string -> nat): Field
    decreases |events|
  {
    if events == [] then f else Run(Apply(f, events[0], measure).field, events[1..], measure)
  }

  /**
   * What holds of every field reachable from construction: the error state
   * is never entered; the children exist exactly once setup ran; and once
   * set up, the field is never left in the empty state and its children
   * show exactly what the reference description prescribes.
   */
  ghost predicate Coherent(f: Field)
  {
    && f.fillState != Error
    && (f.isSetUp <==> f.children.Some?)
    && (f.isSetUp ==> f.fillState != Empty
                      && Shows(f.children.value, f.style, f.fillState, f.titleText, f.errorMessage))
  }

  lemma NewFieldCoherent()
    ensures Coherent(NewField())
  {
  }

  /** Every single event keeps a coherent field coherent. */
  lemma ApplyPreservesCoherent(f: Field, e: Event, measure: string -> nat)
    requires Coherent(f)
    ensures Coherent(Apply(f, e, measure).field)
  {
  }

  /** Any sequence of events keeps a coherent field coherent. */
  lemma {:induction false} RunPreservesCoherent(f: Field, events: seq<Event>, measure: string -> nat)
    requires Coherent(f)
    ensures Coherent(Run(f, events, measure))
    decreases |events|
  {
    if events != [] {
      ApplyPreservesCoherent(f, events[0], measure);
      RunPreservesCoherent(Apply(f, events[0], measure).field, events[1..], measure);
    }
  }

  /** No sequence of events from construction ever reaches the error state,
      and a set-up field is never left empty. */
  lemma ReachableFieldsAvoidErrorState(events: seq<Event>, measure: string -> nat)
    ensures Run(NewField(), events, measure).fillState != Error
    ensures Run(NewField(), events, measure).isSetUp ==> Run(NewField(), events, measure).fillState != Empty
  {
    NewFieldCoherent();
    RunPreservesCoherent(NewField(), events, measure);
  }

  /** In a reachable field an explicit render changes nothing. */
  lemma RenderOfReachableFieldIsStable(events: seq<Event>, measure: string -> nat)
    ensures var f := Run(NewField(), events, measure);
            UpdateUI(f, measure).field == f
  {
    var f := Run(NewField(), events, measure);
    NewFieldCoherent();
    RunPreservesCoherent(NewField(), events, measure);
  }

  /**
   * The example screen: before the first layout it assigns a text, the dark
   * style and an error message; all three renders are skipped, and the
   * first layout pass draws the dark title colour, the error colour on the
   * underline at the error height, and the visible message.
   */
  lemma ExampleScreen(measure: string -> nat)
    ensures var script := [AssignText(Some("Sample")), AssignStyle(DarkStyle()),
                           AssignError(Some("Sample error message")), Layout];
            var f := Run(NewField(), script, measure);
            && f.isSetUp && f.fillState == Filled
            && f.children == Some(View(None, Red, ErrorRed, PresetLineHeight,
                                       Some("Sample error message"), ErrorRed, false))
  {
  }

  /** The same script with a listener attached: the first layout pass
      reports the measured height of the message plus the two margins. */
  lemma ExampleScreenReport(measure: string -> nat)
    ensures var script := [AssignDelegate(true), AssignText(Some("Sample")),
                           AssignStyle(DarkStyle()), AssignError(Some("Sample error message"))];
            var f := Run(NewField(), script, measure);
            LayoutSubviews(f, measure).reported
              == Some(measure("Sample error message") as real + 2.0 * ErrorYMargin)
  {
  }

  /** Clearing the message returns the underline to the fill state's entry. */
  lemma ClearingErrorRestoresFillAppearance(f: Field, measure: string -> nat)
    requires Coherent(f) && f.isSetUp && f.errorMessage.Some?
    ensures var v := SetErrorMessage(f, None, measure).field.children.value;
            && v.errorHidden
            && v.lineColor == LineColor(f.style, f.fillState)
            && v.lineHeight == LineHeight(f.style, f.fillState)
  {
  }

  /** With a preset style, an edited text ends up drawn with the filled
      (transparent) underline once editing ends and no message is shown. */
  lemma EndEditingWithTextShowsFilledLine(f: Field, text: string, measure: string -> nat)
    requires f.isSetUp && f.errorMessage.None?
    requires f.style == DefaultStyle() || f.style == DarkStyle()
    requires text != []
    ensures var g := EndEditing(SetText(f, Some(text), measure).field, measure).field;
            && g.fillState == Filled
            && g.children.Some?
            && g.children.value.lineColor == Clear
            && g.children.value.lineHeight == PresetLineHeight
            && g.children.value.errorHidden
  {
  }
}
