/**
 * The Button component (components/common/Button.tsx): default props, the
 * variant and size lookup, the order of its style array, and the
 * disabled/loading behaviour.
 */
module Button {
  import opened Wrappers
  import opened Style
  import opened DesignSystem

  /** The props the rendering depends on; `None` is an omitted optional prop. */
  datatype ButtonProps = ButtonProps(
    title: string,
    variant: Option<ButtonVariantName>,
    size: Option<ButtonSizeName>,
    disabled: Option<bool>,
    loading: Option<bool>,
    fullWidth: Option<bool>,
    style: Option<Style>,
    textStyle: Option<Style>)

  /** What sits inside the touchable: the spinner while loading, the title otherwise. */
  datatype Content =
    | Spinner(color: Colour, spinnerStyle: Style)
    | Title(text: string, textStyle: Style)

  /** The rendered button: its resolved style, whether touch is off, and its content. */
  datatype Rendered = Rendered(style: Style, touchDisabled: bool, content: Content)

  const FullWidthStyle: Style := map[Width := Text("100%")]
  const DisabledStyle: Style := map[Opacity := Frac(0.6)]
  const LoaderStyle: Style := map[MarginHorizontal := Num(SpaceSm)]

  /** The variant after the `'primary'` default. */
  function VariantOf(p: ButtonProps): (v: ButtonVariantName)
    ensures p.variant.Some? ==> v == p.variant.value
    ensures p.variant.None? ==> v == Toned(Primary)
  {
    p.variant.GetOr(Toned(Primary))
  }

  /** The size after the `'md'` default. */
  function SizeOf(p: ButtonProps): (z: ButtonSizeName)
    ensures p.size.Some? ==> z == p.size.value
    ensures p.size.None? ==> z == Md
  {
    p.size.GetOr(Md)
  }

  function IsDisabled(p: ButtonProps): bool { p.disabled.GetOr(false) }
  function IsLoading(p: ButtonProps): bool { p.loading.GetOr(false) }
  function IsFullWidth(p: ButtonProps): bool { p.fullWidth.GetOr(false) }

  /** The style array of the touchable, around the variant and size fragments it looks up. */
  function StyleArray(variantStyle: Style, sizeStyle: Style, fullWidth: bool, disabled: bool, style: Option<Style>)
    : (entries: seq<Option<Style>>)
    ensures |entries| == 6
    ensures entries[0] == Some(ButtonBase) && entries[1] == Some(variantStyle) && entries[2] == Some(sizeStyle)
    ensures entries[3].Some? <==> fullWidth
    ensures fullWidth ==> entries[3] == Some(FullWidthStyle)
    ensures entries[4].Some? <==> disabled
    ensures disabled ==> entries[4] == Some(DisabledStyle)
    ensures entries[5] == style
  {
    [Some(ButtonBase), Some(variantStyle), Some(sizeStyle),
     When(fullWidth, FullWidthStyle), When(disabled, DisabledStyle), style]
  }

  /** The touchable's array for the props: the looked-up variant and size, the two flags and the caller's style. */
  function StyleEntries(p: ButtonProps): (entries: seq<Option<Style>>)
    ensures |entries| == 6 && entries[0] == Some(ButtonBase)
    ensures entries[1] == Some(ButtonVariantStyle(VariantOf(p))) && entries[2] == Some(ButtonSizeStyle(SizeOf(p)))
    ensures entries[3].Some? <==> IsFullWidth(p)
    ensures IsFullWidth(p) ==> entries[3] == Some(FullWidthStyle)
    ensures entries[4].Some? <==> IsDisabled(p)
    ensures IsDisabled(p) ==> entries[4] == Some(DisabledStyle)
    ensures entries[5] == p.style
  {
    StyleArray(ButtonVariantStyle(VariantOf(p)), ButtonSizeStyle(SizeOf(p)), IsFullWidth(p), IsDisabled(p), p.style)
  }

  /** A key the size fragment sets, and nothing after it, comes from the size fragment. */
  lemma SizeEntryWins(variantStyle: Style, sizeStyle: Style, fullWidth: bool, disabled: bool, style: Option<Style>, k: Key)
    requires k in sizeStyle && k != Width && k != Opacity && Leaves(style, k)
    ensures k in Flatten(StyleArray(variantStyle, sizeStyle, fullWidth, disabled, style))
    ensures Flatten(StyleArray(variantStyle, sizeStyle, fullWidth, disabled, style))[k] == sizeStyle[k]
  {
    var entries := StyleArray(variantStyle, sizeStyle, fullWidth, disabled, style);
    assert !Supplies(entries, 3, k) && !Supplies(entries, 4, k) && !Supplies(entries, 5, k);
    FlattenPicks(entries, 2, k);
  }

  /** A key the variant sets, and nothing after it, comes from the variant. */
  lemma VariantEntryWins(variantStyle: Style, sizeStyle: Style, fullWidth: bool, disabled: bool, style: Option<Style>, k: Key)
    requires k in variantStyle && k !in sizeStyle && k != Width && k != Opacity && Leaves(style, k)
    ensures k in Flatten(StyleArray(variantStyle, sizeStyle, fullWidth, disabled, style))
    ensures Flatten(StyleArray(variantStyle, sizeStyle, fullWidth, disabled, style))[k] == variantStyle[k]
  {
    var entries := StyleArray(variantStyle, sizeStyle, fullWidth, disabled, style);
    assert !Supplies(entries, 2, k) && !Supplies(entries, 3, k);
    assert !Supplies(entries, 4, k) && !Supplies(entries, 5, k);
    FlattenPicks(entries, 1, k);
  }

  /** With no fragment and no caller style setting an opacity, only the disabled entry can. */
  lemma OpacityEntry(variantStyle: Style, sizeStyle: Style, fullWidth: bool, disabled: bool, style: Option<Style>)
    requires Opacity !in variantStyle && Opacity !in sizeStyle && Leaves(style, Opacity)
    ensures Opacity in Flatten(StyleArray(variantStyle, sizeStyle, fullWidth, disabled, style)) <==> disabled
    ensures disabled ==> Flatten(StyleArray(variantStyle, sizeStyle, fullWidth, disabled, style))[Opacity] == Frac(0.6)
  {
    var entries := StyleArray(variantStyle, sizeStyle, fullWidth, disabled, style);
    if disabled {
      assert !Supplies(entries, 5, Opacity);
      FlattenPicks(entries, 4, Opacity);
    } else {
      assert !Supplies(entries, 0, Opacity) && !Supplies(entries, 1, Opacity) && !Supplies(entries, 2, Opacity);
      assert !Supplies(entries, 3, Opacity) && !Supplies(entries, 4, Opacity) && !Supplies(entries, 5, Opacity);
      FlattenLacks(entries, Opacity);
    }
  }

  function Render(p: ButtonProps): (r: Rendered)
    ensures r.style == Flatten(StyleEntries(p))
    ensures r.touchDisabled <==> IsDisabled(p) || IsLoading(p)
    ensures r.content.Spinner? <==> IsLoading(p)
    ensures r.content.Spinner? ==> r.content == Spinner(Neutral.white, LoaderStyle)
    ensures r.content.Title? ==> r.content == Title(p.title, Flatten([Some(ButtonText), p.textStyle]))
  {
    Rendered(
      Flatten(StyleEntries(p)),
      IsDisabled(p) || IsLoading(p),
      if IsLoading(p) then Spinner(Neutral.white, LoaderStyle)
      else Title(p.title, Flatten([Some(ButtonText), p.textStyle])))
  }

  /** Omitting the variant and the size is the same as asking for `primary` and `md`. */
  lemma DefaultsArePrimaryMd(p: ButtonProps)
    requires p.variant.None? && p.size.None?
    ensures Render(p) == Render(p.(variant := Some(Toned(Primary)), size := Some(Md)))
  {
  }

  /**
   * Without a caller style for the key, a known size decides the paddings and
   * the corner radius: the size comes after the variant in the style array.
   */
  lemma SizeDecidesShape(p: ButtonProps, k: Key)
    requires k in {PaddingVertical, PaddingHorizontal, BorderRadius} && Leaves(p.style, k)
    ensures k in ButtonSizeStyle(SizeOf(p))
    ensures k in Render(p).style && Render(p).style[k] == ButtonSizeStyle(SizeOf(p))[k]
  {
    ButtonSizeKeys(SizeOf(p));
    SizeEntryWins(ButtonVariantStyle(VariantOf(p)), ButtonSizeStyle(SizeOf(p)), IsFullWidth(p), IsDisabled(p), p.style, k);
  }

  /**
   * Without a caller style for the key, the variant decides the background
   * and border colours: no size fragment sets them.
   */
  lemma VariantDecidesColours(p: ButtonProps, k: Key)
    requires k in {BackgroundColor, BorderColor} && Leaves(p.style, k)
    ensures k in ButtonVariantStyle(VariantOf(p))
    ensures k in Render(p).style && Render(p).style[k] == ButtonVariantStyle(VariantOf(p))[k]
  {
    ButtonVariantKeys(VariantOf(p));
    ButtonSizeKeys(SizeOf(p));
    assert k !in ButtonSizeStyle(SizeOf(p));
    VariantEntryWins(ButtonVariantStyle(VariantOf(p)), ButtonSizeStyle(SizeOf(p)), IsFullWidth(p), IsDisabled(p), p.style, k);
  }

  /** Without a caller opacity, the button is faded (0.6) exactly when it is disabled. */
  lemma DisabledFades(p: ButtonProps)
    requires Leaves(p.style, Opacity)
    ensures Opacity in Render(p).style <==> IsDisabled(p)
    ensures IsDisabled(p) ==> Render(p).style[Opacity] == Frac(0.6)
  {
    ButtonVariantKeys(VariantOf(p));
    ButtonSizeKeys(SizeOf(p));
    OpacityEntry(ButtonVariantStyle(VariantOf(p)), ButtonSizeStyle(SizeOf(p)), IsFullWidth(p), IsDisabled(p), p.style);
  }

  /** A caller style overrides everything before it. */
  lemma CallerStyleWins(p: ButtonProps, k: Key)
    requires p.style.Some? && k in p.style.value
    ensures k in Render(p).style && Render(p).style[k] == p.style.value[k]
  {
    FlattenPicks(StyleEntries(p), 5, k);
  }

  /** The fullWidth entry decides `width` unless the caller's style sets one. */
  lemma FullWidthEntry(variantStyle: Style, sizeStyle: Style, disabled: bool, style: Option<Style>)
    requires Leaves(style, Width)
    ensures Width in Flatten(StyleArray(variantStyle, sizeStyle, true, disabled, style))
    ensures Flatten(StyleArray(variantStyle, sizeStyle, true, disabled, style))[Width] == Text("100%")
  {
    var entries := StyleArray(variantStyle, sizeStyle, true, disabled, style);
    assert !Supplies(entries, 4, Width) && !Supplies(entries, 5, Width);
    FlattenPicks(entries, 3, Width);
  }

  /** A full-width button without a caller width stretches to `width: '100%'`. */
  lemma FullWidthStretches(p: ButtonProps)
    requires IsFullWidth(p) && Leaves(p.style, Width)
    ensures Width in Render(p).style && Render(p).style[Width] == Text("100%")
  {
    FullWidthEntry(ButtonVariantStyle(VariantOf(p)), ButtonSizeStyle(SizeOf(p)), IsDisabled(p), p.style);
  }
}
