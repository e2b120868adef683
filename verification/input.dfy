/**
 * The Input component (components/common/Input.tsx): its two pieces of
 * local state (focus and password visibility), the style arrays of its
 * label and its text field, the masking of secure entry, the eye toggle and
 * the caption below the field.
 */
module Input {
  import opened Wrappers
  import opened JsString
  import opened Style
  import opened DesignSystem

  /** The props the rendering depends on; `None` is an omitted optional prop. */
  datatype InputProps = InputProps(
    labelText: Option<string>,  // `label` (a reserved word here)
    error: Option<string>,
    helperText: Option<string>,
    containerStyle: Option<Style>,
    inputStyle: Option<Style>,
    labelStyle: Option<Style>,
    secureTextEntry: Option<bool>,
    fullWidth: Option<bool>)

  /** The text under the field: the error wins over the helper text. */
  datatype Caption =
    | ErrorCaption(text: string, captionStyle: Style)
    | HelperCaption(text: string, captionStyle: Style)
    | NoCaption

  /** The rendered input. */
  datatype InputView = InputView(
    containerStyle: Style,
    shownLabel: Option<(string, Style)>,
    fieldStyle: Style,
    masked: bool,
    eyeIcon: Option<string>,
    caption: Caption)

  // The component's own StyleSheet.
  const ContainerStyle: Style := map[MarginBottom := Num(SpaceMd)]
  const FullWidthStyle: Style := map[Width := Text("100%")]
  const ErrorLabel: Style := map[Color := Paint(ErrorColors.main)]

  function IsSecure(p: InputProps): bool { p.secureTextEntry.GetOr(false) }
  function IsFullWidth(p: InputProps): bool { p.fullWidth.GetOr(false) }

  /** The style array of the text field over its base (`components.input.base`). */
  function FieldArray(base: Style, focused: bool, hasError: bool, fullWidth: bool, inputStyle: Option<Style>)
    : (entries: seq<Option<Style>>)
    ensures |entries| == 5 && entries[0] == Some(base) && entries[4] == inputStyle
    ensures entries[1].Some? <==> focused
    ensures entries[2].Some? <==> hasError
    ensures entries[3].Some? <==> fullWidth
    ensures fullWidth ==> entries[3] == Some(FullWidthStyle)
  {
    [Some(base), When(focused, InputFocused), When(hasError, InputError),
     When(fullWidth, FullWidthStyle), inputStyle]
  }

  /** The style array of the label. */
  function LabelArray(hasError: bool, labelStyle: Option<Style>): (entries: seq<Option<Style>>)
    ensures |entries| == 3 && entries[0] == Some(InputLabel) && entries[2] == labelStyle
    ensures entries[1].Some? <==> hasError
  {
    [Some(InputLabel), When(hasError, ErrorLabel), labelStyle]
  }

  /** `secureTextEntry && !isPasswordVisible`: the text is hidden. */
  predicate Masked(secure: bool, visible: bool)
  {
    secure && !visible
  }

  /** The eye button: only for secure entry; it offers to hide what is shown and to show what is hidden. */
  function EyeIcon(secure: bool, visible: bool): (icon: Option<string>)
    ensures icon.Some? <==> secure
    ensures icon.Some? ==> (icon.value == "eye-off" <==> !Masked(secure, visible))
    ensures icon.Some? ==> icon.value in {"eye", "eye-off"}
  {
    if secure then Some(if visible then "eye-off" else "eye") else None
  }

  function CaptionOf(error: Option<string>, helperText: Option<string>): (c: Caption)
    ensures c.ErrorCaption? <==> Truthy(error)
    ensures c.HelperCaption? <==> !Truthy(error) && Truthy(helperText)
    ensures c.ErrorCaption? ==> c == ErrorCaption(error.value, InputErrorText)
    ensures c.HelperCaption? ==> c == HelperCaption(helperText.value, InputHelperText)
  {
    if Truthy(error) then ErrorCaption(error.value, InputErrorText)
    else if Truthy(helperText) then HelperCaption(helperText.value, InputHelperText)
    else NoCaption
  }

  /** The rendering for given props and state. */
  function Render(p: InputProps, focused: bool, visible: bool): (v: InputView)
    ensures v.containerStyle == Flatten([Some(ContainerStyle), When(IsFullWidth(p), FullWidthStyle), p.containerStyle])
    ensures v.shownLabel.Some? <==> Truthy(p.labelText)
    ensures v.shownLabel.Some? ==> v.shownLabel.value == (p.labelText.value, Flatten(LabelArray(Truthy(p.error), p.labelStyle)))
    ensures v.fieldStyle == Flatten(FieldArray(InputBase, focused, Truthy(p.error), IsFullWidth(p), p.inputStyle))
    ensures v.masked <==> Masked(IsSecure(p), visible)
    ensures v.eyeIcon == EyeIcon(IsSecure(p), visible)
    ensures v.caption == CaptionOf(p.error, p.helperText)
  {
    InputView(
      Flatten([Some(ContainerStyle), When(IsFullWidth(p), FullWidthStyle), p.containerStyle]),
      if Truthy(p.labelText) then Some((p.labelText.value, Flatten(LabelArray(Truthy(p.error), p.labelStyle)))) else None,
      Flatten(FieldArray(InputBase, focused, Truthy(p.error), IsFullWidth(p), p.inputStyle)),
      Masked(IsSecure(p), visible),
      EyeIcon(IsSecure(p), visible),
      CaptionOf(p.error, p.helperText))
  }

  /** The field's state: `isFocused` and `isPasswordVisible`. */
  class InputState {
    var isFocused: bool
    var isPasswordVisible: bool

    /** Mounting: not focused, and the password hidden exactly when the entry is secure. */
    constructor (secureTextEntry: bool)
      ensures !isFocused
      ensures isPasswordVisible == !secureTextEntry
      ensures Masked(secureTextEntry, isPasswordVisible) <==> secureTextEntry
    {
      isFocused := false;
      isPasswordVisible := !secureTextEntry;
    }

    /** `onFocus`. */
    method Focus()
      modifies this
      ensures isFocused && isPasswordVisible == old(isPasswordVisible)
    {
      isFocused := true;
    }

    /** `onBlur`. */
    method Blur()
      modifies this
      ensures !isFocused && isPasswordVisible == old(isPasswordVisible)
    {
      isFocused := false;
    }

    /** Pressing the eye, which exists only for secure entry: the mask flips. */
    method TogglePasswordVisibility(secureTextEntry: bool)
      requires secureTextEntry
      modifies this
      ensures isPasswordVisible == !old(isPasswordVisible) && isFocused == old(isFocused)
      ensures Masked(secureTextEntry, isPasswordVisible) <==> !Masked(secureTextEntry, old(isPasswordVisible))
    {
      isPasswordVisible := !isPasswordVisible;
    }

    function View(p: InputProps): (v: InputView)
      reads this
      ensures v == Render(p, isFocused, isPasswordVisible)
    {
      Render(p, isFocused, isPasswordVisible)
    }
  }

  /** A plain (not secure) entry is never masked and has no eye, whatever the state. */
  lemma PlainEntryNeverMasked(p: InputProps, focused: bool, visible: bool)
    requires !IsSecure(p)
    ensures !Render(p, focused, visible).masked && Render(p, focused, visible).eyeIcon.None?
  {
  }

  /** An error marks the border red whether or not the field has focus (the error entry comes later). */
  lemma ErrorBorderWins(base: Style, focused: bool, fullWidth: bool, inputStyle: Option<Style>)
    requires Leaves(inputStyle, BorderColor)
    ensures BorderColor in Flatten(FieldArray(base, focused, true, fullWidth, inputStyle))
    ensures Flatten(FieldArray(base, focused, true, fullWidth, inputStyle))[BorderColor] == Paint(ErrorColors.main)
  {
    var entries := FieldArray(base, focused, true, fullWidth, inputStyle);
    assert !Supplies(entries, 3, BorderColor) && !Supplies(entries, 4, BorderColor);
    FlattenPicks(entries, 2, BorderColor);
  }

  /** Focus without an error: the primary border colour. */
  lemma FocusBorder(base: Style, fullWidth: bool, inputStyle: Option<Style>)
    requires Leaves(inputStyle, BorderColor)
    ensures BorderColor in Flatten(FieldArray(base, true, false, fullWidth, inputStyle))
    ensures Flatten(FieldArray(base, true, false, fullWidth, inputStyle))[BorderColor] == Paint(PrimaryColors.main)
  {
    var entries := FieldArray(base, true, false, fullWidth, inputStyle);
    assert !Supplies(entries, 2, BorderColor);
    assert !Supplies(entries, 3, BorderColor) && !Supplies(entries, 4, BorderColor);
    FlattenPicks(entries, 1, BorderColor);
  }

  /** Neither focus nor error: the border colour of the base. */
  lemma RestingBorder(base: Style, fullWidth: bool, inputStyle: Option<Style>)
    requires BorderColor in base && Leaves(inputStyle, BorderColor)
    ensures BorderColor in Flatten(FieldArray(base, false, false, fullWidth, inputStyle))
    ensures Flatten(FieldArray(base, false, false, fullWidth, inputStyle))[BorderColor] == base[BorderColor]
  {
    var entries := FieldArray(base, false, false, fullWidth, inputStyle);
    assert !Supplies(entries, 1, BorderColor) && !Supplies(entries, 2, BorderColor);
    assert !Supplies(entries, 3, BorderColor) && !Supplies(entries, 4, BorderColor);
    FlattenPicks(entries, 0, BorderColor);
  }

  /** With focus the background brightens to 0.12; an error does not change it. */
  lemma FocusedBackground(base: Style, hasError: bool, fullWidth: bool, inputStyle: Option<Style>)
    requires Leaves(inputStyle, BackgroundColor)
    ensures BackgroundColor in Flatten(FieldArray(base, true, hasError, fullWidth, inputStyle))
    ensures Flatten(FieldArray(base, true, hasError, fullWidth, inputStyle))[BackgroundColor] == Paint(Rgba(255, 255, 255, 0.12))
  {
    var entries := FieldArray(base, true, hasError, fullWidth, inputStyle);
    assert !Supplies(entries, 2, BackgroundColor);
    assert !Supplies(entries, 3, BackgroundColor) && !Supplies(entries, 4, BackgroundColor);
    FlattenPicks(entries, 1, BackgroundColor);
  }

  /** Without focus the background stays the base's, error or not. */
  lemma RestingBackground(base: Style, hasError: bool, fullWidth: bool, inputStyle: Option<Style>)
    requires BackgroundColor in base && Leaves(inputStyle, BackgroundColor)
    ensures BackgroundColor in Flatten(FieldArray(base, false, hasError, fullWidth, inputStyle))
    ensures Flatten(FieldArray(base, false, hasError, fullWidth, inputStyle))[BackgroundColor] == base[BackgroundColor]
  {
    var entries := FieldArray(base, false, hasError, fullWidth, inputStyle);
    assert !Supplies(entries, 1, BackgroundColor) && !Supplies(entries, 2, BackgroundColor);
    assert !Supplies(entries, 3, BackgroundColor) && !Supplies(entries, 4, BackgroundColor);
    FlattenPicks(entries, 0, BackgroundColor);
  }

  /**
   * The field's border colour after each event, for a field without a
   * caller border colour: red while there is an error, primary while focused,
   * the glass border otherwise.
   */
  lemma BorderAfterEvents(p: InputProps, s: InputState)
    requires Leaves(p.inputStyle, BorderColor)
    ensures BorderColor in s.View(p).fieldStyle
    ensures s.View(p).fieldStyle[BorderColor] ==
      if Truthy(p.error) then Paint(ErrorColors.main)
      else if s.isFocused then Paint(PrimaryColors.main)
      else Paint(GlassColor.border)
  {
    if Truthy(p.error) {
      ErrorBorderWins(InputBase, s.isFocused, IsFullWidth(p), p.inputStyle);
    } else if s.isFocused {
      FocusBorder(InputBase, IsFullWidth(p), p.inputStyle);
    } else {
      InputBaseColours();
      RestingBorder(InputBase, IsFullWidth(p), p.inputStyle);
    }
  }

  /** The field's background after each event: 0.12 while focused, 0.08 otherwise, error or not. */
  lemma BackgroundAfterEvents(p: InputProps, s: InputState)
    requires Leaves(p.inputStyle, BackgroundColor)
    ensures BackgroundColor in s.View(p).fieldStyle
    ensures s.View(p).fieldStyle[BackgroundColor] == Paint(Rgba(255, 255, 255, if s.isFocused then 0.12 else 0.08))
  {
    if s.isFocused {
      FocusedBackground(InputBase, Truthy(p.error), IsFullWidth(p), p.inputStyle);
    } else {
      InputBaseColours();
      RestingBackground(InputBase, Truthy(p.error), IsFullWidth(p), p.inputStyle);
    }
  }

  /** Without a caller label colour, the label is red exactly when there is an error. */
  lemma LabelColour(hasError: bool, labelStyle: Option<Style>)
    requires Leaves(labelStyle, Color)
    ensures Color in Flatten(LabelArray(hasError, labelStyle))
    ensures Flatten(LabelArray(hasError, labelStyle))[Color] ==
      if hasError then Paint(ErrorColors.main) else Paint(Neutral.light)
  {
    var entries := LabelArray(hasError, labelStyle);
    assert !Supplies(entries, 2, Color);
    if hasError {
      FlattenPicks(entries, 1, Color);
    } else {
      assert !Supplies(entries, 1, Color);
      FlattenPicks(entries, 0, Color);
    }
  }

  /** An empty error string counts as no error: neither the red border nor the error caption. */
  lemma EmptyErrorIsNoError(p: InputProps, focused: bool, visible: bool)
    requires p.error == Some("")
    ensures Render(p, focused, visible) == Render(p.(error := None), focused, visible)
  {
  }

  /** A full-width input without caller widths stretches both its container and its field to `width: '100%'`. */
  lemma FullWidthStretches(p: InputProps, focused: bool, visible: bool)
    requires IsFullWidth(p) && Leaves(p.containerStyle, Width) && Leaves(p.inputStyle, Width)
    ensures var v := Render(p, focused, visible);
      Width in v.containerStyle && v.containerStyle[Width] == Text("100%")
      && Width in v.fieldStyle && v.fieldStyle[Width] == Text("100%")
  {
    var outer := [Some(ContainerStyle), When(IsFullWidth(p), FullWidthStyle), p.containerStyle];
    assert !Supplies(outer, 2, Width);
    FlattenPicks(outer, 1, Width);
    var field := FieldArray(InputBase, focused, Truthy(p.error), IsFullWidth(p), p.inputStyle);
    assert field[3] == Some(FullWidthStyle);
    assert !Supplies(field, 4, Width);
    FlattenPicks(field, 3, Width);
  }
}
