/**
 * The typography screen: tapping a style card selects or deselects it, the
 * hierarchy panel lists the largest styles, and each weight has a name.
 */
module TypographyScaleView {
  import opened Wrappers
  import opened Models

  /** `weightName(for:)`: the nine named weights by name, and "Regular" for any other weight. */
  function WeightName(w: FontWeight): string {
    match w
    case UltraLight => "Ultra Light"
    case Thin => "Thin"
    case Light => "Light"
    case Regular => "Regular"
    case Medium => "Medium"
    case Semibold => "Semibold"
    case Bold => "Bold"
    case Heavy => "Heavy"
    case Black => "Black"
    case OtherWeight(_) => "Regular"
  }

  /**
   * Two weights share a name only when both read as "Regular": the regular
   * weight itself and any weight without a name of its own.
   */
  lemma WeightNameDistinguishes(v: FontWeight, w: FontWeight)
    requires v != w && WeightName(v) == WeightName(w)
    ensures WeightName(v) == "Regular"
    ensures (v == Regular || v.OtherWeight?) && (w == Regular || w.OtherWeight?)
  {
  }

  // ---------------------------------------------------------------------------
  // Selecting a card
  // ---------------------------------------------------------------------------
  //
  // The scales are told apart by their `UUID`s, which are distinct; here a
  // selection is the scale's position in `modularScale`.

  /** `selectedScale?.id == scale.id ? nil : scale`: tapping the selected card clears the selection, any other tap selects. */
  function Tapped(selection: Option<nat>, i: nat): (r: Option<nat>)
    ensures r == None <==> selection == Some(i)
    ensures r.Some? ==> r.value == i
  {
    if selection == Some(i) then None else Some(i)
  }

  /**
   * Two taps on the same card give back the selection one started from when
   * nothing or that card was selected; when another card was selected, they
   * leave nothing selected.
   */
  lemma TappedTwice(selection: Option<nat>, i: nat)
    ensures selection == None || selection == Some(i) ==> Tapped(Tapped(selection, i), i) == selection
    ensures selection.Some? && selection.value != i ==> Tapped(Tapped(selection, i), i) == None
  {
  }

  /** `TypographyScaleView`'s state: which card, if any, is expanded. */
  class TypographyScaleState {
    var selectedScale: Option<nat>

    constructor()
      ensures selectedScale == None
    {
      selectedScale := None;
    }

    /** The card at `i` is expanded. */
    predicate IsSelected(i: nat)
      reads this
    {
      selectedScale == Some(i)
    }

    /** Tapping the card at `i`. */
    method Tap(i: nat)
      requires i < |ModularScale()|
      modifies this
      ensures selectedScale == Tapped(old(selectedScale), i)
      ensures IsSelected(i) <==> !old(IsSelected(i))
      ensures forall j :: IsSelected(j) ==> j == i
    {
      selectedScale := if selectedScale == Some(i) then None else Some(i);
    }
  }

  /** At most one card is expanded at a time. */
  lemma AtMostOneSelected(s: TypographyScaleState, i: nat, j: nat)
    requires s.IsSelected(i) && s.IsSelected(j)
    ensures i == j
  {
  }

  // ---------------------------------------------------------------------------
  // The hierarchy panel
  // ---------------------------------------------------------------------------

  datatype HierarchyRow = HierarchyRow(scale: TypographyScale, isLast: bool)

  /**
   * `ForEach(modularScale.prefix(n))` with `isLast` set on the row whose id
   * is the prefix's last: the first `n` styles, only the final one marked.
   */
  function Hierarchy(scales: seq<TypographyScale>, n: nat): (rows: seq<HierarchyRow>)
    ensures |rows| == if n <= |scales| then n else |scales|
    ensures forall k | 0 <= k < |rows| :: rows[k].scale == scales[k]
    ensures forall k | 0 <= k < |rows| :: rows[k].isLast <==> k == |rows| - 1
  {
    var prefix := if n <= |scales| then scales[..n] else scales;
    seq(|prefix|, k requires 0 <= k < |prefix| => HierarchyRow(prefix[k], k == |prefix| - 1))
  }

  /** The typography screen's panel: the six largest styles, "Large Title" to "Body", only "Body" marked last. */
  lemma ScreenHierarchy()
    ensures var rows := Hierarchy(ModularScale(), 6);
      |rows| == 6 && rows[0].scale.name == "Large Title" && rows[5].scale.name == "Body"
      && rows[5].isLast && forall k | 0 <= k < 5 :: !rows[k].isLast
  {
  }
}
