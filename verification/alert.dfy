/**
 * The Alert component (components/common/Alert.tsx): the `info` default, the
 * icon chosen by type, the style array `[container, variants[type], style]`,
 * and which parts are shown.
 */
module Alert {
  import opened Wrappers
  import opened JsString
  import opened Style
  import opened DesignSystem

  /** The props the rendering depends on; `onClose` is modelled by its presence alone. */
  datatype AlertProps = AlertProps(
    title: Option<string>,
    message: string,
    alertType: Option<string>,
    hasOnClose: bool,
    style: Option<Style>)

  /** The rendered alert: its style, icon name, the title if shown, the message, and the close button. */
  datatype AlertView = AlertView(style: Style, icon: string, title: Option<string>, message: string, closeButton: bool)

  /** The type after the `'info'` default. */
  function TypeOf(p: AlertProps): (t: string)
    ensures p.alertType.Some? ==> t == p.alertType.value
    // the default is a type that has a variant
    ensures p.alertType.None? ==> t == "info" && AlertVariant(t).Some?
  {
    p.alertType.GetOr("info")
  }

  /** `getIcon()`: `info` and every unlisted type share the information icon. */
  function Icon(alertType: string): (icon: string)
    ensures icon == "information-circle" <==>
      alertType != "success" && alertType != "warning" && alertType != "error"
  {
    if alertType == "success" then "checkmark-circle"
    else if alertType == "warning" then "warning"
    else if alertType == "error" then "close-circle"
    else "information-circle"
  }

  /** The style of the alert's view. */
  function AlertStyle(p: AlertProps): (s: Style)
    // the container's keys are always there, and the caller's style is written last
    ensures AlertContainer.Keys <= s.Keys
    ensures p.style.Some? ==> forall k :: k in p.style.value ==> k in s && s[k] == p.style.value[k]
  {
    FlattenTriple(AlertContainer, AlertVariant(TypeOf(p)), p.style);
    Flatten([Some(AlertContainer), AlertVariant(TypeOf(p)), p.style])
  }

  function Render(p: AlertProps): (v: AlertView)
    ensures v.style == AlertStyle(p) && v.icon == Icon(TypeOf(p))
    ensures v.title.Some? <==> Truthy(p.title)
    ensures v.title.Some? ==> v.title == p.title
    ensures v.message == p.message
    ensures v.closeButton <==> p.hasOnClose
  {
    AlertView(
      AlertStyle(p),
      Icon(TypeOf(p)),
      if Truthy(p.title) then p.title else None,
      p.message,
      p.hasOnClose)
  }

  /** Omitting the type is the same as asking for `info`. */
  lemma DefaultIsInfo(p: AlertProps)
    requires p.alertType.None?
    ensures Render(p) == Render(p.(alertType := Some("info")))
  {
  }

  /** The four types with a variant have four different icons, so the icon tells the type. */
  lemma IconIdentifiesType(a: string, b: string)
    requires AlertVariant(a).Some? && AlertVariant(b).Some?
    requires Icon(a) == Icon(b)
    ensures a == b
  {
    var ta, tb := ParseTone(a).value, ParseTone(b).value;
    assert ToneName(ta) == a && ToneName(tb) == b;
  }

  /** A type with no variant shows the information icon, as `info` does. */
  lemma IconWithoutVariant(alertType: string)
    requires AlertVariant(alertType).None?
    ensures Icon(alertType) == Icon("info") == "information-circle"
  {
  }

  /** A type with no variant adds nothing to the container. */
  lemma UnknownTypeIsBareContainer(p: AlertProps)
    requires AlertVariant(TypeOf(p)).None?
    ensures AlertStyle(p) == Merge(AlertContainer, p.style.GetOr(map[]))
  {
    FlattenTriple(AlertContainer, None, p.style);
    assert Merge(AlertContainer, map[]) == AlertContainer;
  }

  /** In a three-entry array, a key the middle entry sets and the last leaves comes from the middle. */
  lemma MiddleEntryWins(first: Style, middle: Style, last: Option<Style>, k: Key)
    requires k in middle && Leaves(last, k)
    ensures k in Flatten([Some(first), Some(middle), last])
    ensures Flatten([Some(first), Some(middle), last])[k] == middle[k]
  {
    FlattenTriple(first, Some(middle), last);
  }

  /** In a three-entry array, a key only the first entry sets comes from the first. */
  lemma FirstEntryStays(first: Style, middle: Style, last: Option<Style>, k: Key)
    requires k in first && k !in middle && Leaves(last, k)
    ensures k in Flatten([Some(first), Some(middle), last])
    ensures Flatten([Some(first), Some(middle), last])[k] == first[k]
  {
    FlattenTriple(first, Some(middle), last);
  }

  /**
   * For a type with a variant, and no caller style for these keys, the
   * variant's background replaces the strong glass overlay of the container,
   * the thick left border (4) is added, and the container's border width (2)
   * stays.
   */
  lemma VariantOverContainer(p: AlertProps, t: Tone)
    requires ParseTone(TypeOf(p)) == Some(t) && IsAlertTone(t)
    requires Leaves(p.style, BackgroundColor) && Leaves(p.style, BorderLeftWidth) && Leaves(p.style, BorderWidth)
    ensures BackgroundColor in AlertStyle(p) && BorderLeftWidth in AlertStyle(p) && BorderWidth in AlertStyle(p)
    ensures AlertStyle(p)[BackgroundColor] == Paint(ToneColors(t).glass)
    ensures AlertContainer[BackgroundColor] == Paint(GlassColor.overlay) != Paint(ToneColors(t).glass)
    ensures AlertStyle(p)[BorderLeftWidth] == Num(4)
    ensures AlertStyle(p)[BorderWidth] == Num(2)
  {
    var fragment := AlertFragment(ToneColors(t));
    assert AlertVariant(TypeOf(p)) == Some(fragment);
    AlertContainerFromStrong();
    MiddleEntryWins(AlertContainer, fragment, p.style, BackgroundColor);
    MiddleEntryWins(AlertContainer, fragment, p.style, BorderLeftWidth);
    FirstEntryStays(AlertContainer, fragment, p.style, BorderWidth);
  }
}
