/**
 * The style table of the text field: per display state an underline colour
 * and height, looked up with fallbacks, plus the two preset themes.
 */
module Styles {
  import opened Optional

  /** The four display states of the field. */
  datatype FieldState = Empty | Focused | Filled | Error

  /**
   * Colours are opaque tokens: the model only ever compares them. The
   * system colours and the palette constants are kept apart even where
   * their RGB values coincide.
   */
  datatype Color =
    | Clear
    | White
    | Black
    | Red
    | TextFieldGray   // the palette's text-field grey
    | LightGray       // the palette's light grey
    | ErrorRed        // the palette's error colour
    | SystemDefault   // what a freshly created label or text field uses
    | Custom(id: nat)

  /** One entry of the table: underline colour and height. */
  datatype Line = Line(color: Color, height: real)

  datatype Style = Style(
    tintColor: Color,
    textColor: Color,
    errorMessageColor: Color,
    titleColor: Color,
    lines: map<FieldState, Line>)

  /** The underline height both presets use for every state. */
  const PresetLineHeight: real := 8.0

  /** The height a lookup falls back to when a state has no entry. */
  const FallbackLineHeight: real := 1.0

  /** The dictionary lookup `lines[state]`. */
  function Entry(style: Style, state: FieldState): Option<Line>
  {
    if state in style.lines then Some(style.lines[state]) else None
  }

  /** The stored colour of `state`, falling back to the tint colour. */
  function LineColor(style: Style, state: FieldState): (c: Color)
    ensures state in style.lines ==> c == style.lines[state].color
    ensures state !in style.lines ==> c == style.tintColor
  {
    match Entry(style, state)
    case Some(line) => line.color
    case None => style.tintColor
  }

  /** The stored height of `state`, falling back to exactly 1. */
  function LineHeight(style: Style, state: FieldState): (h: real)
    ensures state in style.lines ==> h == style.lines[state].height
    ensures state !in style.lines ==> h == FallbackLineHeight
  {
    match Entry(style, state)
    case Some(line) => line.height
    case None => FallbackLineHeight
  }

  /**
   * Replaces the colour of an existing entry. A state without an entry is
   * ignored: the setter never creates entries.
   */
  function SetLineColor(style: Style, color: Color, state: FieldState): (r: Style)
    ensures r.lines.Keys == style.lines.Keys
    ensures state !in style.lines ==> r == style
    ensures state in style.lines ==> r.lines[state] == Line(color, style.lines[state].height)
    ensures forall t :: t in style.lines && t != state ==> r.lines[t] == style.lines[t]
    ensures r.(lines := style.lines) == style
  {
    match Entry(style, state)
    case None => style
    case Some(line) => style.(lines := style.lines[state := line.(color := color)])
  }

  /**
   * Replaces the height of an existing entry. A state without an entry is
   * ignored: the setter never creates entries.
   */
  function SetLineHeight(style: Style, height: real, state: FieldState): (r: Style)
    ensures r.lines.Keys == style.lines.Keys
    ensures state !in style.lines ==> r == style
    ensures state in style.lines ==> r.lines[state] == Line(style.lines[state].color, height)
    ensures forall t :: t in style.lines && t != state ==> r.lines[t] == style.lines[t]
    ensures r.(lines := style.lines) == style
  {
    match Entry(style, state)
    case None => style
    case Some(line) => style.(lines := style.lines[state := line.(height := height)])
  }

  /** Lookups after a colour update: only the colour of a mapped `state` moves. */
  lemma LookupAfterSetLineColor(style: Style, color: Color, state: FieldState, t: FieldState)
    ensures LineColor(SetLineColor(style, color, state), t)
            == (if t == state && state in style.lines then color else LineColor(style, t))
    ensures LineHeight(SetLineColor(style, color, state), t) == LineHeight(style, t)
  {
  }

  /** Lookups after a height update: only the height of a mapped `state` moves. */
  lemma LookupAfterSetLineHeight(style: Style, height: real, state: FieldState, t: FieldState)
    ensures LineHeight(SetLineHeight(style, height, state), t)
            == (if t == state && state in style.lines then height else LineHeight(style, t))
    ensures LineColor(SetLineHeight(style, height, state), t) == LineColor(style, t)
  {
  }

  /** True of a table that maps each of the four states to the preset
      height, keeps the resting states transparent and draws the error
      state in the error-message colour. */
  predicate PresetShape(s: Style)
  {
    && Entry(s, Empty) == Some(Line(Clear, PresetLineHeight))
    && Entry(s, Filled) == Some(Line(Clear, PresetLineHeight))
    && Entry(s, Focused).Some? && s.lines[Focused].height == PresetLineHeight
    && Entry(s, Error) == Some(Line(s.errorMessageColor, PresetLineHeight))
  }

  /** A preset-shaped table has an entry for every state, all of the preset
      height, so no lookup ever reaches a fallback. */
  lemma PresetShapeCoversAllStates(s: Style, st: FieldState)
    requires PresetShape(s)
    ensures st in s.lines
    ensures LineHeight(s, st) == PresetLineHeight
    ensures st != Focused ==> LineColor(s, st) == (if st == Error then s.errorMessageColor else Clear)
  {
  }

  /** The light preset theme. */
  function DefaultStyle(): (s: Style)
    ensures PresetShape(s)
    ensures s.errorMessageColor == ErrorRed
    ensures s.tintColor == s.textColor
  {
    Style(
      tintColor := TextFieldGray,
      textColor := TextFieldGray,
      errorMessageColor := ErrorRed,
      titleColor := Black,
      lines := map[
        Empty := Line(Clear, PresetLineHeight),
        Filled := Line(Clear, PresetLineHeight),
        Focused := Line(LightGray, PresetLineHeight),
        Error := Line(ErrorRed, PresetLineHeight)])
  }

  /** The dark preset theme. */
  function DarkStyle(): (s: Style)
    ensures PresetShape(s)
    ensures s.errorMessageColor == ErrorRed
    ensures s.tintColor == s.textColor
  {
    Style(
      tintColor := TextFieldGray,
      textColor := TextFieldGray,
      errorMessageColor := ErrorRed,
      titleColor := Red,
      lines := map[
        Empty := Line(Clear, PresetLineHeight),
        Filled := Line(Clear, PresetLineHeight),
        Focused := Line(White, PresetLineHeight),
        Error := Line(ErrorRed, PresetLineHeight)])
  }

  /**
   * The presets differ only in the focused underline colour and the title
   * colour: the dark theme is the default one with those two replaced.
   */
  lemma PresetsDifferOnlyInFocusAndTitle()
    ensures DarkStyle() == SetLineColor(DefaultStyle(), White, Focused).(titleColor := Red)
    ensures forall st :: st != Focused ==> LineColor(DefaultStyle(), st) == LineColor(DarkStyle(), st)
    ensures forall st :: LineHeight(DefaultStyle(), st) == LineHeight(DarkStyle(), st)
    ensures LineColor(DefaultStyle(), Focused) != LineColor(DarkStyle(), Focused)
    ensures DefaultStyle().titleColor != DarkStyle().titleColor
  {
  }

  /** In both presets an empty and a filled field look the same at rest. */
  lemma PresetsRestingStatesAgree(s: Style)
    requires s == DefaultStyle() || s == DarkStyle()
    ensures LineColor(s, Empty) == LineColor(s, Filled) == Clear
    ensures LineHeight(s, Empty) == LineHeight(s, Filled) == PresetLineHeight
  {
  }
}
