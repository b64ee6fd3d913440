/**
 * The grid-systems reference: how wide each column is once the margins and
 * gutters are taken out of the width, as the label shows it and as the
 * visualisation draws it.
 */
module GridSystems {
  import opened Foundation
  import opened Models

  /** The width `calculateColumnWidth()` measures against: a standard iPhone, 375 points. */
  const ScreenWidth: real := 375.0

  /**
   * `calculateColumnWidth()` before printing: the width less both margins and
   * the `columns - 1` gutters, shared out between the columns. The columns,
   * gutters and margins then fill the width exactly.
   */
  function ColumnWidth(g: GridSystem): (w: real)
    requires g.columns >= 1
    ensures g.columns as real * w + (g.columns - 1) as real * g.gutter + 2.0 * g.margin == ScreenWidth
  {
    var totalMargin := g.margin * 2.0;
    var totalGutter := g.gutter * (g.columns - 1) as real;
    var availableWidth := ScreenWidth - totalMargin - totalGutter;
    availableWidth / g.columns as real
  }

  /** `"\(Int(columnWidth))pt"`: the column width truncated toward zero. */
  function ColumnWidthLabel(g: GridSystem): string
    requires g.columns >= 1
  {
    IntDescription(TruncatedToInt(ColumnWidth(g))) + "pt"
  }

  /** The labels of the two common grids: 42pt for six columns (42.5 exactly) and 3pt for twelve (3.91...). */
  lemma CommonGridLabels()
    ensures ColumnWidthLabel(CommonGrids()[0]) == "42pt"
    ensures ColumnWidthLabel(CommonGrids()[1]) == "3pt"
  {
    var six, twelve := CommonGrids()[0], CommonGrids()[1];
    assert ColumnWidth(six) == 42.5;
    assert TruncatedToInt(42.5) == 42;
    assert NatDescription(42) == "42";
    assert ColumnWidth(twelve) == 47.0 / 12.0;
    assert TruncatedToInt(47.0 / 12.0) == 3;
  }

  /**
   * `GridVisualization`'s column width for a container `width` points wide,
   * written as the view writes it: the margins come out first, then the
   * gutters.
   */
  function VisualizationColumnWidth(g: GridSystem, width: real): (w: real)
    requires g.columns >= 1
    ensures g.columns as real * w + (g.columns - 1) as real * g.gutter + 2.0 * g.margin == width
  {
    var availableWidth := width - g.margin * 2.0;
    var totalGutterWidth := g.gutter * (g.columns - 1) as real;
    (availableWidth - totalGutterWidth) / g.columns as real
  }

  /** Drawn in a 375-point container, the visualisation's columns are exactly as wide as the label says before truncation. */
  lemma VisualizationMatchesLabel(g: GridSystem)
    requires g.columns >= 1
    ensures VisualizationColumnWidth(g, ScreenWidth) == ColumnWidth(g)
  {
    ColumnsDetermineWidth(g, ScreenWidth, VisualizationColumnWidth(g, ScreenWidth), ColumnWidth(g));
  }

  /** The fill equation has one solution: two column widths that both fill `width` are equal. */
  lemma ColumnsDetermineWidth(g: GridSystem, width: real, v: real, w: real)
    requires g.columns >= 1
    requires g.columns as real * v + (g.columns - 1) as real * g.gutter + 2.0 * g.margin == width
    requires g.columns as real * w + (g.columns - 1) as real * g.gutter + 2.0 * g.margin == width
    ensures v == w
  {
    var n := g.columns as real;
    assert n * v == n * w;
    assert n * (v - w) == 0.0;
  }

  /** How many gutter indicators the visualisation draws: one between each pair of neighbouring columns, when gutters are shown. */
  function GutterIndicatorCount(g: GridSystem, showGutters: bool): (n: nat)
    ensures n > 0 <==> showGutters && g.columns > 1
    ensures n > 0 ==> n == g.columns - 1
  {
    if showGutters && g.columns > 1 then g.columns - 1 else 0
  }

  /**
   * The gutter-indicator row lays out a margin and a column, then for each
   * indicator a gutter and a column, then a margin: it spans the container
   * exactly, so each indicator sits over a gutter.
   */
  lemma GutterIndicatorsSpanWidth(g: GridSystem, width: real)
    requires g.columns > 1
    ensures var w := VisualizationColumnWidth(g, width);
      g.margin + w + GutterIndicatorCount(g, true) as real * (g.gutter + w) + g.margin == width
  {
    var w := VisualizationColumnWidth(g, width);
    var k := GutterIndicatorCount(g, true) as real;
    assert k == g.columns as real - 1.0;
    assert k * (g.gutter + w) == k * g.gutter + k * w;
    assert g.columns as real * w == w + k * w;
  }
}
