/**
 * The app's reference data: the kinds of reference card, the common aspect
 * ratios, the modular typography scale and the two grid systems.
 */
module Models {
  import opened Foundation
  import opened DesignSystem

  // ---------------------------------------------------------------------------
  // Reference cards
  // ---------------------------------------------------------------------------

  datatype ReferenceCardType = Ratios | Spacing | Typography | SafeZones | GridSystems

  /** The card type's raw value, which is also the card's title. */
  function CardRawValue(t: ReferenceCardType): string {
    match t
    case Ratios => "Visual Ratios"
    case Spacing => "8pt Grid"
    case Typography => "Typography Scale"
    case SafeZones => "Safe Zones"
    case GridSystems => "Grid Systems"
  }

  function CardIcon(t: ReferenceCardType): string {
    match t
    case Ratios => "rectangle.ratio.3.to.4"
    case Spacing => "grid"
    case Typography => "textformat.size"
    case SafeZones => "rectangle.inset.filled"
    case GridSystems => "grid.circle"
  }

  function CardColor(t: ReferenceCardType): PaletteColor {
    match t
    case Ratios => NeonGreen
    case Spacing => NeonPink
    case Typography => NeonBlue
    case SafeZones => NeonGreen
    case GridSystems => NeonPink
  }

  function CardDescription(t: ReferenceCardType): string {
    match t
    case Ratios => "4:3, 16:9, 21:9, 1:1 aspect ratios"
    case Spacing => "8-point spacing system reference"
    case Typography => "Modular scale typography guide"
    case SafeZones => "iOS safe area layout guides"
    case GridSystems => "6 & 12 column grid layouts"
  }

  /** `ReferenceCardType.allCases`: every card type once, in declaration order. */
  function AllCardTypes(): (all: seq<ReferenceCardType>)
    ensures |all| == 5
    ensures forall i, j | 0 <= i < j < |all| :: all[i] != all[j]
  {
    [Ratios, Spacing, Typography, SafeZones, GridSystems]
  }

  /** Every card type is among `allCases`. */
  lemma AllCardTypesComplete(t: ReferenceCardType)
    ensures t in AllCardTypes()
  {
    var all := AllCardTypes();
    match t
    case Ratios => assert all[0] == t;
    case Spacing => assert all[1] == t;
    case Typography => assert all[2] == t;
    case SafeZones => assert all[3] == t;
    case GridSystems => assert all[4] == t;
  }

  /** No two card types share a raw value: a card's title names its type. */
  lemma CardRawValueInjective(s: ReferenceCardType, t: ReferenceCardType)
    ensures CardRawValue(s) == CardRawValue(t) <==> s == t
  {
    if s != t {
      assert CardRawValue(s)[0] != CardRawValue(t)[0];
    }
  }

  /** A reference card; its `UUID` is left out. */
  datatype ReferenceCard = ReferenceCard(cardType: ReferenceCardType, title: string, subtitle: string, color: PaletteColor)

  /** `ReferenceCard(type:)`: the title is the type's raw value, the subtitle its description, the colour its colour. */
  function NewReferenceCard(t: ReferenceCardType): (card: ReferenceCard)
    ensures card.cardType == t
    ensures card.title == CardRawValue(t) && card.subtitle == CardDescription(t) && card.color == CardColor(t)
  {
    ReferenceCard(t, CardRawValue(t), CardDescription(t), CardColor(t))
  }

  /** Two cards made from types with the same title are made from the same type, and so are equal. */
  lemma NewReferenceCardByTitle(s: ReferenceCardType, t: ReferenceCardType)
    requires NewReferenceCard(s).title == NewReferenceCard(t).title
    ensures s == t && NewReferenceCard(s) == NewReferenceCard(t)
  {
    CardRawValueInjective(s, t);
  }

  // ---------------------------------------------------------------------------
  // Aspect ratios
  // ---------------------------------------------------------------------------

  /** An aspect ratio of the reference table; its `UUID` is left out. */
  datatype AspectRatio = AspectRatio(name: string, ratio: real, width: real, height: real, description: string, color: PaletteColor)

  /** `AspectRatio.common`. */
  function CommonAspectRatios(): seq<AspectRatio> {
    [
      AspectRatio("4:3", 4.0 / 3.0, 4.0, 3.0, "Classic display ratio", NeonGreen),
      AspectRatio("16:9", 16.0 / 9.0, 16.0, 9.0, "Widescreen standard", NeonBlue),
      AspectRatio("21:9", 21.0 / 9.0, 21.0, 9.0, "Ultra-wide cinema", NeonPink),
      AspectRatio("1:1", 1.0, 1.0, 1.0, "Perfect square", NeonGreen)
    ]
  }

  /** `"w:h"` for whole dimensions. */
  function DimensionsName(width: nat, height: nat): string {
    NatDescription(width) + ":" + NatDescription(height)
  }

  /**
   * Every common aspect ratio is consistent: its dimensions are positive
   * whole numbers, its ratio is width over height, and its name is
   * `"width:height"`.
   */
  lemma CommonAspectRatiosConsistent(i: nat)
    requires i < |CommonAspectRatios()|
    ensures var a := CommonAspectRatios()[i];
      a.height > 0.0 && a.ratio == a.width / a.height
      && a.width >= 1.0 && a.height >= 1.0
      && a.width == a.width.Floor as real && a.height == a.height.Floor as real
      && a.name == DimensionsName(a.width.Floor, a.height.Floor)
  {
    assert NatDescription(16) == "16" && NatDescription(21) == "21";
  }

  // ---------------------------------------------------------------------------
  // Typography
  // ---------------------------------------------------------------------------

  /** `Font.Weight`: the nine named weights and any other value. */
  datatype FontWeight = UltraLight | Thin | Light | Regular | Medium | Semibold | Bold | Heavy | Black | OtherWeight(value: real)

  /** A step of the type scale; its `UUID` is left out. */
  datatype TypographyScale = TypographyScale(name: string, size: real, lineHeight: real, weight: FontWeight, usage: string)

  /** `TypographyScale.modularScale`, from the largest style to the smallest. */
  function ModularScale(): seq<TypographyScale> {
    [
      TypographyScale("Large Title", 34.0, 41.0, Bold, "Hero headlines"),
      TypographyScale("Title 1", 28.0, 34.0, Bold, "Primary titles"),
      TypographyScale("Title 2", 22.0, 28.0, Bold, "Secondary titles"),
      TypographyScale("Title 3", 20.0, 25.0, Semibold, "Tertiary titles"),
      TypographyScale("Headline", 17.0, 22.0, Semibold, "Emphasis text"),
      TypographyScale("Body", 17.0, 22.0, Regular, "Primary content"),
      TypographyScale("Callout", 16.0, 21.0, Regular, "Secondary content"),
      TypographyScale("Subhead", 15.0, 20.0, Regular, "Subtitles"),
      TypographyScale("Footnote", 13.0, 18.0, Regular, "Supplementary"),
      TypographyScale("Caption 1", 12.0, 16.0, Regular, "Image captions"),
      TypographyScale("Caption 2", 11.0, 13.0, Regular, "Fine print")
    ]
  }

  /** The sizes of a list of styles, in order. */
  function Sizes(scales: seq<TypographyScale>): (sizes: seq<real>)
    ensures |sizes| == |scales|
    ensures forall i | 0 <= i < |scales| :: sizes[i] == scales[i].size
  {
    seq(|scales|, i requires 0 <= i < |scales| => scales[i].size)
  }

  /** Every style's line height exceeds its size, so lines never overlap. */
  lemma ModularScaleLineHeights(i: nat)
    requires i < |ModularScale()|
    ensures ModularScale()[i].lineHeight > ModularScale()[i].size
  {
  }

  /** Going down the modular scale the size never grows. */
  lemma ModularScaleNonIncreasing(i: nat, j: nat)
    requires i <= j < |ModularScale()|
    ensures ModularScale()[j].size <= ModularScale()[i].size
  {
    var sizes := Sizes(ModularScale());
    assert forall k | 0 < k < |sizes| :: sizes[k] <= sizes[k - 1];
    NonIncreasingFromNeighbours(sizes, i, j);
  }

  /** A list whose every element is at most its predecessor is non-increasing. */
  lemma {:induction false} NonIncreasingFromNeighbours(s: seq<real>, i: nat, j: nat)
    requires forall k | 0 < k < |s| :: s[k] <= s[k - 1]
    requires i <= j < |s|
    ensures s[j] <= s[i]
    decreases j - i
  {
    if i < j {
      NonIncreasingFromNeighbours(s, i, j - 1);
    }
  }

  // ---------------------------------------------------------------------------
  // Grid systems
  // ---------------------------------------------------------------------------

  /** A column grid; its `UUID` is left out. */
  datatype GridSystem = GridSystem(name: string, columns: int, gutter: real, margin: real, description: string)

  /** `GridSystem.common`: a 6-column mobile grid and a 12-column desktop grid. */
  function CommonGrids(): (grids: seq<GridSystem>)
    ensures |grids| == 2
    ensures grids[0].columns == 6 && grids[0].gutter == 16.0 && grids[0].margin == 20.0
    ensures grids[1].columns == 12 && grids[1].gutter == 24.0 && grids[1].margin == 32.0
    ensures forall g | g in grids :: g.columns >= 1 && g.gutter >= 0.0 && g.margin >= 0.0
  {
    [
      GridSystem("6 Column", 6, 16.0, 20.0, "Mobile-first layout"),
      GridSystem("12 Column", 12, 24.0, 32.0, "Desktop standard")
    ]
  }
}
