/**
 * Style objects and their composition.
 *
 * A React-Native style is a bag of keys; both object spread (`{...a, k: v}`)
 * and a style array (`[a, b && c, d]`) build one by overriding left to right,
 * last write wins, with falsy/null entries of an array contributing nothing.
 */
module Style {
  import opened Wrappers

  /** A colour: an `rgba(r, g, b, a)` literal, or the keyword `transparent`. */
  datatype Colour = Rgba(red: int, green: int, blue: int, alpha: real) | Transparent

  /** The values that occur in the design tokens. */
  datatype Value =
    | Num(n: int)                       // pixels, widths, elevation, heights
    | Frac(r: real)                     // opacities and shadow radii
    | Paint(c: Colour)                  // colours
    | Text(s: string)                   // font names, keywords, percentages
    | Offset(width: int, height: int)   // `shadowOffset: { width, height }`

  /**
   * The style properties the design tokens and the components write, by their
   * React-Native names; `Other` is any further property a caller passes in.
   */
  datatype Key =
    | BackgroundColor | BorderColor | Color | Opacity
    | BorderWidth | BorderTopWidth | BorderLeftWidth | BorderRightWidth | BorderBottomWidth | BorderRadius
    | ShadowColor | ShadowOffset | ShadowOpacity | ShadowRadius | Elevation | BackdropFilter
    | Padding | PaddingVertical | PaddingHorizontal
    | MarginVertical | MarginHorizontal | MarginTop | MarginBottom | MarginRight
    | Height | Width | FlexDirection | AlignItems | JustifyContent
    | FontFamily | FontSize | TextAlign
    | Other(name: string)

  type Style = map<Key, Value>

  /** `{...a, ...b}`: every key of `b` replaces the same key of `a`. */
  function Merge(a: Style, b: Style): (r: Style)
    ensures forall k {:trigger k in r} :: k in r <==> k in a || k in b
    ensures forall k {:trigger r[k]} :: k in b ==> r[k] == b[k]
    ensures forall k {:trigger r[k]} :: k in a && k !in b ==> r[k] == a[k]
  {
    a + b
  }

  /** `cond && s` inside a style array: the fragment, or a falsy entry. */
  function When(cond: bool, s: Style): (e: Option<Style>)
    ensures e.Some? <==> cond
    ensures cond ==> e.value == s
  {
    if cond then Some(s) else None
  }

  /** An optional caller style that does not set `k`. */
  predicate Leaves(s: Option<Style>, k: Key)
  {
    s.None? || k !in s.value
  }

  /** Entry `i` of a style array is present and sets key `k`. */
  ghost predicate Supplies(entries: seq<Option<Style>>, i: int, k: Key)
  {
    0 <= i < |entries| && entries[i].Some? && k in entries[i].value
  }

  /** The index of the last entry of a style array that sets `k`, or -1. */
  function LastSupplier(entries: seq<Option<Style>>, k: Key): (i: int)
    ensures -1 <= i < |entries|
    ensures i >= 0 ==> Supplies(entries, i, k)
    ensures forall j :: i < j < |entries| ==> !Supplies(entries, j, k)
    decreases |entries|
  {
    if entries == [] then -1
    else
      var n := |entries| - 1;
      if entries[n].Some? && k in entries[n].value then n
      else
        var i := LastSupplier(entries[..n], k);
        assert forall j :: 0 <= j < n ==> (Supplies(entries[..n], j, k) <==> Supplies(entries, j, k));
        assert !Supplies(entries, n, k);
        i
  }

  /** Flattening a style array: left-to-right override, absent entries skipped. */
  function Flatten(entries: seq<Option<Style>>): (r: Style)
    // a present last entry overrides everything before it
    ensures entries != [] && entries[|entries| - 1].Some? ==>
      forall k :: k in entries[|entries| - 1].value ==> k in r && r[k] == entries[|entries| - 1].value[k]
    decreases |entries|
  {
    if entries == [] then map[]
    else
      var n := |entries| - 1;
      match entries[n]
      case None => Flatten(entries[..n])
      case Some(last) => Merge(Flatten(entries[..n]), last)
  }

  /**
   * A key of a flattened style is set exactly when some present entry sets
   * it, and then it holds the value of the LAST entry that sets it.
   */
  lemma {:induction false} FlattenLookup(entries: seq<Option<Style>>, k: Key)
    ensures k in Flatten(entries) <==> LastSupplier(entries, k) >= 0
    ensures k in Flatten(entries) ==>
      Flatten(entries)[k] == entries[LastSupplier(entries, k)].value[k]
    decreases |entries|
  {
    if entries != [] {
      FlattenLookup(entries[..|entries| - 1], k);
    }
  }

  /** Flattening distributes over concatenation of style arrays. */
  lemma {:induction false} FlattenAppend(es: seq<Option<Style>>, fs: seq<Option<Style>>)
    ensures Flatten(es + fs) == Merge(Flatten(es), Flatten(fs))
    decreases |fs|
  {
    if fs == [] {
      assert es + fs == es;
    } else {
      var n := |fs| - 1;
      assert (es + fs)[..|es| + n] == es + fs[..n];
      FlattenAppend(es, fs[..n]);
    }
  }

  /** Re-applying a fragment that is already applied changes nothing. */
  lemma MergeIdempotent(a: Style, b: Style)
    ensures Merge(Merge(a, b), b) == Merge(a, b)
  {
  }

  /** Spreading a style over itself changes nothing. */
  lemma MergeSelf(a: Style)
    ensures Merge(a, a) == a
  {
  }

  /** A three-entry array whose first entry is present: the optional second and third follow in turn. */
  lemma FlattenTriple(a: Style, b: Option<Style>, c: Option<Style>)
    ensures Flatten([Some(a), b, c]) == Merge(Merge(a, b.GetOr(map[])), c.GetOr(map[]))
  {
    var e := [Some(a), b, c];
    assert [Some(a)][..0] == [];
    assert Flatten([Some(a)]) == Merge(map[], a) == a;
    assert [Some(a), b][..1] == [Some(a)];
    if b.None? {
      assert Merge(a, map[]) == a;
    }
    assert Flatten([Some(a), b]) == Merge(a, b.GetOr(map[]));
    assert e[..2] == [Some(a), b];
    if c.None? {
      assert Merge(Merge(a, b.GetOr(map[])), map[]) == Merge(a, b.GetOr(map[]));
    }
  }

  /** An array whose entries are all absent flattens to the empty style. */
  lemma {:induction false} FlattenAbsent(entries: seq<Option<Style>>)
    requires forall i :: 0 <= i < |entries| ==> entries[i].None?
    ensures Flatten(entries) == map[]
  {
    if entries != [] {
      FlattenAbsent(entries[..|entries| - 1]);
    }
  }

  /** The entry that sets `k` with no later entry setting it decides `k`. */
  lemma FlattenPicks(entries: seq<Option<Style>>, i: int, k: Key)
    requires Supplies(entries, i, k)
    requires forall j :: i < j < |entries| ==> !Supplies(entries, j, k)
    ensures k in Flatten(entries) && Flatten(entries)[k] == entries[i].value[k]
  {
    FlattenLookup(entries, k);
  }

  /** A key no entry sets is missing from the flattened style. */
  lemma FlattenLacks(entries: seq<Option<Style>>, k: Key)
    requires forall j :: 0 <= j < |entries| ==> !Supplies(entries, j, k)
    ensures k !in Flatten(entries)
  {
    FlattenLookup(entries, k);
  }
}
