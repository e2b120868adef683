/**
 * The glass design system (design-system.js): literal token tables, the glass
 * effects composed from them, and the spread-merged style fragments of the
 * button, card, input and alert components.
 *
 * Every `{...a, k: v}` is written as `Merge(a, map[k := v])`, so a key written
 * after a spread replaces the spread's value and a spread replaces the keys
 * written before it.
 */
module DesignSystem {
  import opened Wrappers
  import opened Style

  // ---------------------------------------------------------------- COLORS

  /** The five shades of each state colour. */
  datatype Palette = Palette(main: Colour, light: Colour, dark: Colour, glass: Colour, border: Colour)

  const PrimaryColors: Palette := Palette(
    Rgba(74, 144, 226, 0.85), Rgba(126, 182, 246, 0.75), Rgba(45, 100, 180, 0.9),
    Rgba(74, 144, 226, 0.25), Rgba(74, 144, 226, 0.4))
  const SecondaryColors: Palette := Palette(
    Rgba(155, 89, 182, 0.85), Rgba(187, 143, 206, 0.75), Rgba(125, 60, 152, 0.9),
    Rgba(155, 89, 182, 0.25), Rgba(155, 89, 182, 0.4))
  const SuccessColors: Palette := Palette(
    Rgba(46, 204, 113, 0.85), Rgba(88, 214, 141, 0.75), Rgba(30, 132, 73, 0.9),
    Rgba(46, 204, 113, 0.25), Rgba(46, 204, 113, 0.4))
  const WarningColors: Palette := Palette(
    Rgba(241, 196, 15, 0.85), Rgba(247, 220, 111, 0.75), Rgba(183, 149, 11, 0.9),
    Rgba(241, 196, 15, 0.25), Rgba(241, 196, 15, 0.4))
  const ErrorColors: Palette := Palette(
    Rgba(231, 76, 60, 0.85), Rgba(239, 132, 120, 0.75), Rgba(169, 50, 38, 0.9),
    Rgba(231, 76, 60, 0.25), Rgba(231, 76, 60, 0.4))
  const InfoColors: Palette := Palette(
    Rgba(52, 152, 219, 0.85), Rgba(108, 178, 235, 0.75), Rgba(31, 97, 141, 0.9),
    Rgba(52, 152, 219, 0.25), Rgba(52, 152, 219, 0.4))


  /** The six state colours of `colors`, by the names the components pass. */
  datatype Tone = Primary | Secondary | Success | Warning | Error | Info

  function ToneName(t: Tone): string
  {
    match t
    case Primary => "primary"
    case Secondary => "secondary"
    case Success => "success"
    case Warning => "warning"
    case Error => "error"
    case Info => "info"
  }

  /** The state a name denotes; `None` for a name `colors` has no state for. */
  function ParseTone(name: string): (r: Option<Tone>)
    ensures r.Some? ==> ToneName(r.value) == name
    ensures r.None? ==> forall t :: ToneName(t) != name
  {
    if name == "primary" then Some(Primary)
    else if name == "secondary" then Some(Secondary)
    else if name == "success" then Some(Success)
    else if name == "warning" then Some(Warning)
    else if name == "error" then Some(Error)
    else if name == "info" then Some(Info)
    else None
  }

  /** `colors.<state>`. */
  function ToneColors(t: Tone): (p: Palette)
    // a state's glass tint and border are its main colour, more transparent
    ensures p.main.Rgba? && p.glass == p.main.(alpha := 0.25) && p.border == p.main.(alpha := 0.4)
  {
    match t
    case Primary => PrimaryColors
    case Secondary => SecondaryColors
    case Success => SuccessColors
    case Warning => WarningColors
    case Error => ErrorColors
    case Info => InfoColors
  }

  datatype NeutralPalette = NeutralPalette(
    white: Colour, light: Colour, medium: Colour, dark: Colour, black: Colour, transparent: Colour)

  const Neutral: NeutralPalette := NeutralPalette(
    Rgba(255, 255, 255, 0.95), Rgba(236, 240, 241, 0.75), Rgba(189, 195, 199, 0.65),
    Rgba(52, 73, 94, 0.85), Rgba(44, 62, 80, 0.9), Transparent)

  /** `colors.glass`: the translucent tints of the glass look. */
  datatype GlassPalette = GlassPalette(
    background: Colour, card: Colour, overlay: Colour, border: Colour,
    shadow: Colour, highlight: Colour, divider: Colour)

  const GlassColor: GlassPalette := GlassPalette(
    Rgba(255, 255, 255, 0.15), Rgba(255, 255, 255, 0.25), Rgba(255, 255, 255, 0.35),
    Rgba(255, 255, 255, 0.2), Rgba(31, 38, 135, 0.37), Rgba(255, 255, 255, 0.8),
    Rgba(255, 255, 255, 0.12))

  /** `colors.gradients`: two stops each. */
  const Gradients: map<string, (Colour, Colour)> := map[
    "primary" := (Rgba(74, 144, 226, 0.8), Rgba(74, 144, 226, 0.4)),
    "secondary" := (Rgba(155, 89, 182, 0.8), Rgba(155, 89, 182, 0.4)),
    "success" := (Rgba(46, 204, 113, 0.8), Rgba(46, 204, 113, 0.4)),
    "error" := (Rgba(231, 76, 60, 0.8), Rgba(231, 76, 60, 0.4)),
    "neutral" := (Rgba(236, 240, 241, 0.8), Rgba(189, 195, 199, 0.4)),
    "glass" := (Rgba(255, 255, 255, 0.4), Rgba(255, 255, 255, 0.1))]

  // ------------------------------------------------------------ TYPOGRAPHY

  const FamilyRegular := "Inter-Regular"
  const FamilyMedium := "Inter-Medium"
  const FamilySemiBold := "Inter-SemiBold"
  const FamilyBold := "Inter-Bold"
  const FamilyLight := "Inter-Light"

  /** `typography.fontFamily` by name. */
  const FontFamilies: map<string, string> := map[
    "regular" := FamilyRegular, "medium" := FamilyMedium, "semiBold" := FamilySemiBold,
    "bold" := FamilyBold, "light" := FamilyLight]

  const FontXs: nat := 10
  const FontSm: nat := 12
  const FontMd: nat := 14

  /** `typography.fontSize` by name. */
  const FontSizes: map<string, nat> := map[
    "xs" := FontXs, "sm" := FontSm, "md" := FontMd, "lg" := 16, "xl" := 18,
    "2xl" := 20, "3xl" := 24, "4xl" := 30, "5xl" := 36, "6xl" := 48]

  const LineHeight: map<string, real> := map[
    "tight" := 1.2, "normal" := 1.5, "relaxed" := 1.75, "loose" := 2.0]

  const FontWeight: map<string, string> := map[
    "light" := "300", "regular" := "400", "medium" := "500", "semiBold" := "600", "bold" := "700"]

  const LetterSpacing: map<string, real> := map[
    "tighter" := -0.8, "tight" := -0.4, "normal" := 0.0, "wide" := 0.4, "wider" := 0.8]


  // --------------------------------------------------------------- SPACING

  const SpaceXxs: nat := 2
  const SpaceXs: nat := 4
  const SpaceSm: nat := 8
  const SpaceMd: nat := 16
  const SpaceLg: nat := 24
  const SpaceXl: nat := 32

  /** A table of lengths, as its entries in declaration order. */
  type Scale = seq<(string, nat)>

  /** `spacing`. */
  const Spacing: Scale := [
    ("none", 0), ("xxs", SpaceXxs), ("xs", SpaceXs), ("sm", SpaceSm), ("md", SpaceMd),
    ("lg", SpaceLg), ("xl", SpaceXl), ("2xl", 40), ("3xl", 48), ("4xl", 56), ("5xl", 64),
    ("6xl", 72), ("7xl", 80), ("8xl", 96)]

  // --------------------------------------------------------------- BORDERS

  const RadiusXs: nat := 2
  const RadiusSm: nat := 4
  const RadiusMd: nat := 8
  const RadiusLg: nat := 12
  const RadiusXl: nat := 16

  /** `borders.radius`. */
  const Radius: Scale := [
    ("none", 0), ("xs", RadiusXs), ("sm", RadiusSm), ("md", RadiusMd), ("lg", RadiusLg),
    ("xl", RadiusXl), ("2xl", 24), ("full", 9999)]

  const WidthThin: nat := 1
  const WidthRegular: nat := 2
  const WidthThick: nat := 4

  /** `borders.width`. */
  const BorderWidths: Scale := [("none", 0), ("thin", WidthThin), ("regular", WidthRegular), ("thick", WidthThick)]

  const BorderStyle: map<string, string> := map[
    "none" := "none", "solid" := "solid", "dashed" := "dashed", "dotted" := "dotted"]

  // --------------------------------------------------------------- SHADOWS

  /** The five keys every shadow token sets. */
  const ShadowKeys: set<Key> := {ShadowColor, ShadowOffset, ShadowOpacity, ShadowRadius, Elevation}

  function ShadowToken(color: Colour, height: int, opacity: real, radius: real, elevation: int): Style
  {
    map[
      ShadowColor := Paint(color),
      ShadowOffset := Offset(0, height),
      ShadowOpacity := Frac(opacity),
      ShadowRadius := Frac(radius),
      Elevation := Num(elevation)]
  }

  const ShadowNone: Style := ShadowToken(Transparent, 0, 0.0, 0.0, 0)
  const ShadowXs: Style := ShadowToken(GlassColor.shadow, 1, 0.18, 1.0, 1)
  const ShadowSm: Style := ShadowToken(GlassColor.shadow, 2, 0.23, 2.62, 2)
  const ShadowMd: Style := ShadowToken(GlassColor.shadow, 3, 0.27, 4.65, 3)
  const ShadowLg: Style := ShadowToken(GlassColor.shadow, 5, 0.34, 6.27, 5)
  const ShadowXl: Style := ShadowToken(GlassColor.shadow, 8, 0.44, 10.32, 8)
  const Shadow2xl: Style := ShadowToken(GlassColor.shadow, 12, 0.58, 16.00, 12)

  // ---------------------------------------------------------- GLASS EFFECTS

  /** The five levels of `glassEffects`. */
  datatype GlassLevel = Subtle | Medium | Strong | Frosted | Blurred

  /** The keys a glass level writes itself, before it spreads its shadow. */
  function GlassFace(l: GlassLevel): (f: Style)
  {
    match l
    case Subtle => map[
      BackgroundColor := Paint(GlassColor.background),
      BorderColor := Paint(GlassColor.border),
      BorderWidth := Num(WidthThin),
      BorderRadius := Num(RadiusMd)]
    case Medium => map[
      BackgroundColor := Paint(GlassColor.card),
      BorderColor := Paint(GlassColor.border),
      BorderWidth := Num(WidthThin),
      BorderRadius := Num(RadiusLg)]
    case Strong => map[
      BackgroundColor := Paint(GlassColor.overlay),
      BorderColor := Paint(GlassColor.border),
      BorderWidth := Num(WidthRegular),
      BorderRadius := Num(RadiusXl)]
    case Frosted => map[
      BackgroundColor := Paint(Rgba(255, 255, 255, 0.08)),
      BorderColor := Paint(Rgba(255, 255, 255, 0.5)),
      BorderTopWidth := Num(WidthThin),
      BorderLeftWidth := Num(WidthThin),
      BorderRightWidth := Num(0),
      BorderBottomWidth := Num(0),
      BorderRadius := Num(RadiusLg)]
    case Blurred => map[
      BackgroundColor := Paint(Rgba(255, 255, 255, 0.1)),
      BackdropFilter := Text("blur(10px)"),
      BorderColor := Paint(GlassColor.highlight),
      BorderWidth := Num(WidthThin),
      BorderRadius := Num(RadiusXl)]
  }

  /** The shadow token each level spreads last. */
  function GlassShadow(l: GlassLevel): (s: Style)
    // the glass shadow colour and a positive elevation
    ensures ShadowColor in s && s[ShadowColor] == Paint(GlassColor.shadow)
    ensures Elevation in s && s[Elevation].Num? && s[Elevation].n > 0
  {
    match l
    case Subtle => ShadowSm
    case Medium => ShadowMd
    case Strong => ShadowLg
    case Frosted => ShadowMd
    case Blurred => ShadowLg
  }

  /** `glassEffects.<level>`: `{...face, ...shadow}`. */
  function Glass(l: GlassLevel): (g: Style)
  {
    Merge(GlassFace(l), GlassShadow(l))
  }

  const GlassSubtle: Style := Glass(Subtle)
  const GlassMedium: Style := Glass(Medium)
  const GlassStrong: Style := Glass(Strong)

  // ---------------------------------------------------------------- BUTTON

  const ButtonBase: Style := map[
    PaddingVertical := Num(SpaceSm),
    PaddingHorizontal := Num(SpaceMd),
    BorderRadius := Num(RadiusMd),
    FlexDirection := Text("row"),
    AlignItems := Text("center"),
    JustifyContent := Text("center")]

  /** `{...level, backgroundColor, borderColor}`: a glass level recoloured. */
  function Recoloured(level: Style, background: Colour, border: Colour): (r: Style)
    // the two colours written after the spread win
    ensures BackgroundColor in r && r[BackgroundColor] == Paint(background)
    ensures BorderColor in r && r[BorderColor] == Paint(border)
  {
    Merge(level, map[BackgroundColor := Paint(background), BorderColor := Paint(border)])
  }

  /** Recolouring sets the two colours and leaves every other key of the level as it was. */
  lemma RecolourFacts(level: Style, background: Colour, border: Colour)
    ensures Recoloured(level, background, border).Keys == level.Keys + {BackgroundColor, BorderColor}
    ensures Recoloured(level, background, border)[BackgroundColor] == Paint(background)
    ensures Recoloured(level, background, border)[BorderColor] == Paint(border)
    ensures forall k :: k in level && k != BackgroundColor && k != BorderColor ==>
      Recoloured(level, background, border)[k] == level[k]
  {
  }

  /** Recolouring a style that already sets both colours keeps its key set. */
  lemma RecolourKeepsKeys(level: Style, background: Colour, border: Colour)
    requires BackgroundColor in level && BorderColor in level
    ensures Recoloured(level, background, border).Keys == level.Keys
  {
  }

  /** The keys of `buttonStyles.variants`: one per state colour, and `ghost`. */
  datatype ButtonVariantName = Toned(tone: Tone) | Ghost

  /** `buttonStyles.variants.<v>`: a state recolours the medium level, the ghost the subtle one. */
  function ButtonVariantStyle(v: ButtonVariantName): (r: Style)
    // a state variant shows its own state's glass tint and border
    ensures v.Toned? ==> BackgroundColor in r && r[BackgroundColor] == Paint(ToneColors(v.tone).glass)
    ensures v.Toned? ==> BorderColor in r && r[BorderColor] == Paint(ToneColors(v.tone).border)
  {
    match v
    case Toned(t) => Recoloured(GlassMedium, ToneColors(t).glass, ToneColors(t).border)
    case Ghost => Recoloured(GlassSubtle, Rgba(255, 255, 255, 0.05), Rgba(255, 255, 255, 0.15))
  }

  /** The keys of `buttonStyles.sizes`. */
  datatype ButtonSizeName = Xs | Sm | Md | Lg | Xl

  /** Position in declaration order, xs first. */
  function SizeRank(z: ButtonSizeName): nat
  {
    match z
    case Xs => 0
    case Sm => 1
    case Md => 2
    case Lg => 3
    case Xl => 4
  }

  /** A button size: its two paddings and its corner radius. */
  function SizeFragment(vertical: nat, horizontal: nat, radius: nat): (s: Style)
  {
    map[PaddingVertical := Num(vertical), PaddingHorizontal := Num(horizontal), BorderRadius := Num(radius)]
  }

  /** `buttonStyles.sizes.<z>`. */
  function ButtonSizeStyle(z: ButtonSizeName): (r: Style)
    ensures r.Keys == {PaddingVertical, PaddingHorizontal, BorderRadius}
  {
    match z
    case Xs => SizeFragment(SpaceXxs, SpaceXs, RadiusXs)
    case Sm => SizeFragment(SpaceXs, SpaceSm, RadiusSm)
    case Md => SizeFragment(SpaceSm, SpaceMd, RadiusMd)
    case Lg => SizeFragment(SpaceMd, SpaceLg, RadiusLg)
    case Xl => SizeFragment(SpaceLg, SpaceXl, RadiusXl)
  }

  const ButtonText: Style := map[
    Color := Paint(Neutral.white),
    FontFamily := Text(FamilyMedium),
    FontSize := Num(FontMd),
    TextAlign := Text("center")]

  // ------------------------------------------------------------------ CARD

  const CardBase: Style := Merge(map[
    Padding := Num(SpaceMd),
    MarginVertical := Num(SpaceSm),
    MarginHorizontal := Num(SpaceSm)], GlassMedium)

  /** The keys of `cardStyles.variants`. */
  datatype CardVariantName = Raised | Flat | Frosted | Highlight

  /** The variant a name denotes; `None` for a key the table lacks, `default` among them. */
  function ParseCardVariant(name: string): (r: Option<CardVariantName>)
    ensures r == Some(Raised) <==> name == "raised"
    ensures r == Some(Flat) <==> name == "flat"
    ensures r == Some(CardVariantName.Frosted) <==> name == "frosted"
    ensures r == Some(Highlight) <==> name == "highlight"
  {
    if name == "raised" then Some(Raised)
    else if name == "flat" then Some(Flat)
    else if name == "frosted" then Some(CardVariantName.Frosted)
    else if name == "highlight" then Some(Highlight)
    else None
  }

  /** `cardStyles.variants.<v>`: a glass level with a few keys written over it. */
  function CardVariantStyle(v: CardVariantName): (r: Style)
    // the keys each variant writes after its glass level win
    ensures v == Raised || v == CardVariantName.Frosted ==> Padding in r && r[Padding] == Num(SpaceLg)
    ensures v == Flat ==> ShadowOpacity in r && r[ShadowOpacity] == Frac(0.1)
    ensures v == Highlight ==>
      BorderColor in r && BorderLeftWidth in r
      && r[BorderColor] == Paint(PrimaryColors.border) && r[BorderLeftWidth] == Num(WidthThick)
  {
    match v
    case Raised => Merge(GlassStrong, map[Padding := Num(SpaceLg)])
    case Flat => Merge(GlassSubtle, map[ShadowOpacity := Frac(0.1)])
    case Frosted => Merge(Glass(GlassLevel.Frosted), map[Padding := Num(SpaceLg)])
    case Highlight => Merge(GlassMedium, map[
      BorderColor := Paint(PrimaryColors.border),
      BorderLeftWidth := Num(WidthThick)])
  }

  /** `cardStyles.variants[name]`, `None` standing for `undefined`. */
  function CardVariant(name: string): (r: Option<Style>)
    ensures r.Some? <==> ParseCardVariant(name).Some?
    ensures r.Some? ==> r.value == CardVariantStyle(ParseCardVariant(name).value)
  {
    match ParseCardVariant(name)
    case Some(v) => Some(CardVariantStyle(v))
    case None => None
  }

  // ----------------------------------------------------------------- INPUT

  /** The keys `inputStyles.base` writes after spreading the subtle level. */
  const InputOverrides: Style := map[
    BackgroundColor := Paint(Rgba(255, 255, 255, 0.08)),
    Color := Paint(Neutral.white),
    FontSize := Num(FontMd),
    FontFamily := Text(FamilyRegular)]

  /** `{height, paddingHorizontal, ...glassEffects.subtle, backgroundColor, color, fontSize, fontFamily}`. */
  const InputBase: Style := Merge(Merge(map[
    Height := Num(48),
    PaddingHorizontal := Num(SpaceMd)], GlassSubtle), InputOverrides)

  const InputFocused: Style := map[
    BorderColor := Paint(PrimaryColors.main),
    BackgroundColor := Paint(Rgba(255, 255, 255, 0.12))]
  const InputError: Style := map[BorderColor := Paint(ErrorColors.main)]
  const InputDisabled: Style := map[Opacity := Frac(0.6)]

  const InputLabel: Style := map[
    FontSize := Num(FontSm),
    FontFamily := Text(FamilyMedium),
    Color := Paint(Neutral.light),
    MarginBottom := Num(SpaceXs)]

  const InputHelperText: Style := map[
    FontSize := Num(FontXs),
    FontFamily := Text(FamilyRegular),
    Color := Paint(Neutral.medium),
    MarginTop := Num(SpaceXs)]

  const InputErrorText: Style := map[
    FontSize := Num(FontXs),
    FontFamily := Text(FamilyMedium),
    Color := Paint(ErrorColors.main),
    MarginTop := Num(SpaceXs)]

  // ----------------------------------------------------------------- ALERT

  const AlertContainer: Style := Merge(GlassStrong, map[
    PaddingHorizontal := Num(SpaceMd),
    PaddingVertical := Num(SpaceSm),
    MarginVertical := Num(SpaceSm),
    MarginHorizontal := Num(SpaceMd),
    FlexDirection := Text("row"),
    AlignItems := Text("center")])

  /** The states `alertStyles.variants` has an entry for. */
  predicate IsAlertTone(t: Tone)
  {
    t.Success? || t.Warning? || t.Error? || t.Info?
  }

  /** An alert variant: its state's glass and border colours and a thick left border. */
  function AlertFragment(p: Palette): Style
  {
    map[
      BackgroundColor := Paint(p.glass),
      BorderColor := Paint(p.border),
      BorderLeftWidth := Num(WidthThick)]
  }

  /** `alertStyles.variants[name]`, `None` standing for `undefined`. */
  function AlertVariant(name: string): (r: Option<Style>)
    ensures r.Some? <==> ParseTone(name).Some? && IsAlertTone(ParseTone(name).value)
  {
    match ParseTone(name)
    case Some(t) => if IsAlertTone(t) then Some(AlertFragment(ToneColors(t))) else None
    case None => None
  }

  const AlertTitle: Style := map[
    FontFamily := Text(FamilySemiBold),
    FontSize := Num(FontMd),
    Color := Paint(Neutral.white)]

  const AlertMessage: Style := map[
    FontFamily := Text(FamilyRegular),
    FontSize := Num(FontSm),
    Color := Paint(Neutral.light),
    MarginTop := Num(SpaceXxs)]

  const AlertIcon: Style := map[MarginRight := Num(SpaceSm)]

  // ------------------------------------------------------------ PROPERTIES

  /** Each shadow a level spreads sets exactly the five shadow keys. */
  lemma GlassShadowKeys(l: GlassLevel)
    ensures GlassShadow(l).Keys == ShadowKeys
  {
  }

  /** Every glass level ends with its shadow spread, so all five shadow keys come from that token. */
  lemma GlassEffectsCarryShadow(l: GlassLevel)
    ensures forall k :: k in ShadowKeys ==> k in Glass(l) && Glass(l)[k] == GlassShadow(l)[k]
  {
  }

  /**
   * Every glass level sets a background, a border colour, a corner radius and
   * the five shadow keys.
   */
  lemma GlassLevelComplete(l: GlassLevel)
    ensures {BackgroundColor, BorderColor, BorderRadius} + ShadowKeys <= Glass(l).Keys
  {
  }

  /** Every glass level sets both colours a recolouring replaces. */
  lemma GlassColoured(l: GlassLevel)
    ensures BackgroundColor in Glass(l) && BorderColor in Glass(l)
  {
  }

  /** No glass level sets an opacity. */
  lemma GlassLacksOpacity(l: GlassLevel)
    ensures Opacity !in Glass(l)
  {
  }

  /** No glass level sets a padding. */
  lemma GlassLacksPadding(l: GlassLevel)
    ensures Padding !in Glass(l)
  {
  }

  /** The keys any glass level may write: colours, border widths, the corner radius, the blur and the shadow. */
  const GlassKeyRange: set<Key> := {
    BackgroundColor, BorderColor, BorderWidth, BorderTopWidth, BorderLeftWidth, BorderRightWidth,
    BorderBottomWidth, BorderRadius, BackdropFilter} + ShadowKeys

  /** A glass level sets no spacing, size, text or opacity key. */
  lemma GlassKeysBounded(l: GlassLevel)
    ensures Glass(l).Keys <= GlassKeyRange
  {
  }

  /** The background of a level is the one its face writes: no shadow key is a background. */
  lemma GlassBackgroundFromFace(l: GlassLevel)
    ensures BackgroundColor in Glass(l) && Glass(l)[BackgroundColor] == GlassFace(l)[BackgroundColor]
  {
  }

  /** The background tint of each level, as its face writes it. */
  function GlassTint(l: GlassLevel): Colour
  {
    match l
    case Subtle => GlassColor.background
    case Medium => GlassColor.card
    case Strong => GlassColor.overlay
    case Frosted => Rgba(255, 255, 255, 0.08)
    case Blurred => Rgba(255, 255, 255, 0.1)
  }

  lemma GlassTintIsBackground(l: GlassLevel)
    ensures BackgroundColor in Glass(l) && Glass(l)[BackgroundColor] == Paint(GlassTint(l))
  {
    GlassBackgroundFromFace(l);
  }

  /** No two glass levels share a background. */
  lemma GlassBackgroundsDistinct(a: GlassLevel, b: GlassLevel)
    requires a != b
    ensures Glass(a)[BackgroundColor] != Glass(b)[BackgroundColor]
  {
    GlassTintIsBackground(a);
    GlassTintIsBackground(b);
  }

  /** `b` has a larger number than `a` under key `k`. */
  ghost predicate Grows(a: Style, b: Style, k: Key)
  {
    k in a && k in b && a[k].Num? && b[k].Num? && a[k].n < b[k].n
  }

  /** subtle, medium, strong: each level sits higher (elevation) and is rounder than the one before. */
  lemma GlassDepthIncreasing()
    ensures Grows(GlassSubtle, GlassMedium, Elevation) && Grows(GlassMedium, GlassStrong, Elevation)
    ensures Grows(GlassSubtle, GlassMedium, BorderRadius) && Grows(GlassMedium, GlassStrong, BorderRadius)
  {
  }

  /**
   * A state button variant is the medium glass level with only its background
   * and border recoloured, from its own state's palette.
   */
  lemma StateButtonIsRecolouredMedium(t: Tone)
    ensures ButtonVariantStyle(Toned(t)).Keys == GlassMedium.Keys
    ensures ButtonVariantStyle(Toned(t))[BackgroundColor] == Paint(ToneColors(t).glass)
    ensures ButtonVariantStyle(Toned(t))[BorderColor] == Paint(ToneColors(t).border)
    ensures forall k :: k in GlassMedium && k != BackgroundColor && k != BorderColor ==>
      ButtonVariantStyle(Toned(t))[k] == GlassMedium[k]
  {
    GlassColoured(Medium);
    RecolourFacts(GlassMedium, ToneColors(t).glass, ToneColors(t).border);
    RecolourKeepsKeys(GlassMedium, ToneColors(t).glass, ToneColors(t).border);
  }

  /** The ghost button is the subtle glass level recoloured. */
  lemma GhostButtonIsRecolouredSubtle()
    ensures ButtonVariantStyle(Ghost).Keys == GlassSubtle.Keys
    ensures forall k :: k in GlassSubtle && k != BackgroundColor && k != BorderColor ==>
      ButtonVariantStyle(Ghost)[k] == GlassSubtle[k]
  {
    GlassColoured(Subtle);
    RecolourFacts(GlassSubtle, Rgba(255, 255, 255, 0.05), Rgba(255, 255, 255, 0.15));
    RecolourKeepsKeys(GlassSubtle, Rgba(255, 255, 255, 0.05), Rgba(255, 255, 255, 0.15));
  }

  /** The lengths of a scale strictly increase along its declaration order. */
  ghost predicate StrictlyIncreasing(scale: Scale)
  {
    forall i, j :: 0 <= i < j < |scale| ==> scale[i].1 < scale[j].1
  }

  /** Each entry of a scale is larger than the one before it. */
  ghost predicate StepwiseIncreasing(scale: Scale)
  {
    forall i :: 0 <= i < |scale| - 1 ==> scale[i].1 < scale[i + 1].1
  }

  lemma {:induction false} StepwiseGivesStrictlyIncreasing(scale: Scale)
    requires StepwiseIncreasing(scale)
    ensures StrictlyIncreasing(scale)
    decreases |scale|
  {
    if |scale| > 1 {
      var init := scale[..|scale| - 1];
      assert StepwiseIncreasing(init) by {
        forall i | 0 <= i < |init| - 1
          ensures init[i].1 < init[i + 1].1
        {
          assert init[i] == scale[i] && init[i + 1] == scale[i + 1];
        }
      }
      StepwiseGivesStrictlyIncreasing(init);
      forall i, j | 0 <= i < j < |scale|
        ensures scale[i].1 < scale[j].1
      {
        if j < |scale| - 1 {
          assert scale[i] == init[i] && scale[j] == init[j];
        } else if i < j - 1 {
          assert scale[i] == init[i] && scale[j - 1] == init[j - 1];
        }
      }
    }
  }

  /** Each step of the spacing scale is larger than the one declared before it. */
  lemma SpacingScaleIncreasing()
    ensures StrictlyIncreasing(Spacing)
  {
    StepwiseGivesStrictlyIncreasing(Spacing);
  }

  /** The corner-radius scale, likewise. */
  lemma RadiusScaleIncreasing()
    ensures StrictlyIncreasing(Radius)
  {
    StepwiseGivesStrictlyIncreasing(Radius);
  }

  /** Every button size sets exactly the two paddings and the corner radius. */
  lemma ButtonSizeKeys(z: ButtonSizeName)
    ensures ButtonSizeStyle(z).Keys == {PaddingVertical, PaddingHorizontal, BorderRadius}
  {
  }

  /**
   * The button sizes, xs to xl, take consecutive steps of the spacing and radius
   * scales, so each later size is larger in both paddings and in its corner radius.
   */
  lemma ButtonSizesIncreasing(a: ButtonSizeName, b: ButtonSizeName)
    requires SizeRank(a) < SizeRank(b)
    ensures Grows(ButtonSizeStyle(a), ButtonSizeStyle(b), PaddingVertical)
    ensures Grows(ButtonSizeStyle(a), ButtonSizeStyle(b), PaddingHorizontal)
    ensures Grows(ButtonSizeStyle(a), ButtonSizeStyle(b), BorderRadius)
  {
  }

  /** The default `md` size restates the base padding and radius, so applying it over the base changes nothing. */
  lemma ButtonMdSizeIsBase()
    ensures ButtonSizeStyle(Md).Keys <= ButtonBase.Keys
    ensures Merge(ButtonBase, ButtonSizeStyle(Md)) == ButtonBase
  {
  }

  /** The card base adds padding and margins to the medium glass level, which it keeps whole. */
  lemma CardBaseIsMediumGlass()
    ensures CardBase.Keys == GlassMedium.Keys + {Padding, MarginVertical, MarginHorizontal}
    ensures forall k :: k in GlassMedium ==> CardBase[k] == GlassMedium[k]
    ensures CardBase[Padding] == Num(SpaceMd)
  {
    GlassLacksPadding(Medium);
  }

  /** The flat card is the subtle glass level with a fainter shadow and nothing else changed. */
  lemma CardFlatFaintShadow()
    ensures CardVariantStyle(Flat).Keys == GlassSubtle.Keys
    ensures CardVariantStyle(Flat)[ShadowOpacity] == Frac(0.1) && GlassSubtle[ShadowOpacity] == Frac(0.23)
    ensures forall k :: k in GlassSubtle && k != ShadowOpacity ==> CardVariantStyle(Flat)[k] == GlassSubtle[k]
  {
    GlassEffectsCarryShadow(Subtle);
  }

  /**
   * The input base spreads the subtle glass level and then writes its own
   * background: the later literal wins, and every key of the level the
   * literal does not write survives.
   */
  lemma InputBaseOverridesGlassBackground()
    ensures InputBase[BackgroundColor] == Paint(Rgba(255, 255, 255, 0.08))
    ensures InputBase[BackgroundColor] != GlassSubtle[BackgroundColor]
    ensures forall k :: k in GlassSubtle && k !in InputOverrides ==> k in InputBase && InputBase[k] == GlassSubtle[k]
  {
    GlassBackgroundFromFace(Subtle);
  }

  /** At rest the input shows the glass border colour and its own 0.08 background. */
  lemma InputBaseColours()
    ensures BorderColor in InputBase && InputBase[BorderColor] == Paint(GlassColor.border)
    ensures BackgroundColor in InputBase && InputBase[BackgroundColor] == Paint(Rgba(255, 255, 255, 0.08))
  {
    GlassColoured(Subtle);
    assert GlassFace(Subtle)[BorderColor] == Paint(GlassColor.border);
  }

  /** The alert container keeps the strong level's background and its regular (2) border width. */
  lemma AlertContainerFromStrong()
    ensures AlertContainer[BackgroundColor] == Paint(GlassColor.overlay)
    ensures AlertContainer[BorderWidth] == Num(WidthRegular) && WidthRegular == 2
  {
    GlassTintIsBackground(Strong);
    GlassShadowKeys(Strong);
    assert GlassFace(Strong)[BorderWidth] == Num(WidthRegular);
    assert GlassStrong[BorderWidth] == Num(WidthRegular);
  }

  /** Each alert variant takes its own state's glass and border colours and a thick (4) left border. */
  lemma AlertVariantUsesOwnState(name: string, t: Tone)
    requires ParseTone(name) == Some(t) && IsAlertTone(t)
    ensures AlertVariant(name).Some?
    ensures AlertVariant(name).value[BackgroundColor] == Paint(ToneColors(t).glass)
    ensures AlertVariant(name).value[BorderColor] == Paint(ToneColors(t).border)
    ensures AlertVariant(name).value[BorderLeftWidth] == Num(WidthThick) && WidthThick == 4
  {
  }

  /** Every button variant sets a background and a border colour, and no opacity. */
  lemma ButtonVariantKeys(v: ButtonVariantName)
    ensures BackgroundColor in ButtonVariantStyle(v) && BorderColor in ButtonVariantStyle(v)
    ensures Opacity !in ButtonVariantStyle(v)
  {
    match v
    case Toned(_) => GlassLacksOpacity(Medium);
    case Ghost => GlassLacksOpacity(Subtle);
  }
}
