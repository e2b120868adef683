/**
 * The Card component (components/common/Card.tsx): its variant prop picks a
 * fragment of `cardStyles` that is layered over the card base, with the base
 * itself standing in for `default` and for any name the table lacks.
 */
module Card {
  import opened Wrappers
  import opened Style
  import opened DesignSystem

  /** The props the style depends on; `None` is an omitted optional prop. */
  datatype CardProps = CardProps(variant: Option<string>, style: Option<Style>)

  /** The variant name after the `'default'` default. */
  function VariantOf(p: CardProps): (name: string)
    ensures p.variant.Some? ==> name == p.variant.value
    // the default names no variant of the table, so the card is its base
    ensures p.variant.None? ==> name == "default" && ParseCardVariant(name).None? && Look(name) == CardBase
  {
    p.variant.GetOr("default")
  }

  /** `variant === 'default' ? base : variants[variant] || base`. */
  function VariantStyle(name: string): (s: Style)
    // spread over the base, the fragment gives the variant's look
    ensures Merge(CardBase, s) == Look(name)
  {
    MergeSelf(CardBase);
    if name == "default" then CardBase else CardVariant(name).GetOr(CardBase)
  }

  /** The style of the card's view: `[base, variantStyle, style]`. */
  function CardStyle(p: CardProps): (s: Style)
    // every key of the base is there, and the caller's style is written last
    ensures CardBase.Keys <= s.Keys
    ensures p.style.Some? ==> forall k :: k in p.style.value ==> k in s && s[k] == p.style.value[k]
  {
    FlattenTriple(CardBase, Some(VariantStyle(VariantOf(p))), p.style);
    Flatten([Some(CardBase), Some(VariantStyle(VariantOf(p))), p.style])
  }

  /**
   * What a variant name is meant to look like before the caller's style: the
   * base with the named variant written over it, or the bare base when the
   * table has no such variant.
   */
  function Look(name: string): (l: Style)
    ensures ParseCardVariant(name).None? ==> l == CardBase
    // a known variant keeps every key it writes over the base
    ensures ParseCardVariant(name).Some? ==> var v := CardVariantStyle(ParseCardVariant(name).value);
      forall k :: k in v ==> k in l && l[k] == v[k]
  {
    match ParseCardVariant(name)
    case Some(v) => Merge(CardBase, CardVariantStyle(v))
    case None => CardBase
  }

  /** The card's style is its look with the caller's style written over it. */
  lemma CardStyleIsLookThenCaller(p: CardProps)
    ensures CardStyle(p) == Merge(Look(VariantOf(p)), p.style.GetOr(map[]))
  {
    FlattenTriple(CardBase, Some(VariantStyle(VariantOf(p))), p.style);
    if ParseCardVariant(VariantOf(p)).None? {
      MergeSelf(CardBase);
    }
  }

  /** An omitted variant, or `default`, gives the base with the caller's style over it. */
  lemma DefaultIsBase(p: CardProps)
    requires p.variant.None? || p.variant == Some("default")
    ensures CardStyle(p) == Merge(CardBase, p.style.GetOr(map[]))
  {
    CardStyleIsLookThenCaller(p);
  }

  /** A name the variant table lacks falls back to the base. */
  lemma UnknownVariantIsBase(p: CardProps)
    requires ParseCardVariant(VariantOf(p)).None?
    ensures CardStyle(p) == Merge(CardBase, p.style.GetOr(map[]))
  {
    CardStyleIsLookThenCaller(p);
  }

  /** A known variant is written over the base, and the caller's style over both. */
  lemma KnownVariantOverBase(p: CardProps, v: CardVariantName)
    requires ParseCardVariant(VariantOf(p)) == Some(v)
    ensures CardStyle(p) == Merge(Merge(CardBase, CardVariantStyle(v)), p.style.GetOr(map[]))
  {
    CardStyleIsLookThenCaller(p);
  }

  /** The caller's style is applied last. */
  lemma CallerStyleWins(p: CardProps, k: Key)
    requires p.style.Some? && k in p.style.value
    ensures k in CardStyle(p) && CardStyle(p)[k] == p.style.value[k]
  {
    CardStyleIsLookThenCaller(p);
  }
}
