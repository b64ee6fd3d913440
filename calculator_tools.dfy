/**
 * The three small calculators: the unit converter (every unit goes through
 * CSS pixels at 96 dpi with a 16px root font), the geometric spacing-scale
 * generator, and the colour tool that applies typed hex text.
 */
module CalculatorTools {
  import opened Wrappers
  import opened Foundation
  import opened DesignSystem

  // ---------------------------------------------------------------------------
  // Unit converter
  // ---------------------------------------------------------------------------

  datatype DesignUnit = Px | Pt | Em | Rem | Inch | Cm | Mm

  /** The unit's raw value, shown after a converted number. */
  function RawValue(u: DesignUnit): string {
    match u
    case Px => "px"
    case Pt => "pt"
    case Em => "em"
    case Rem => "rem"
    case Inch => "in"
    case Cm => "cm"
    case Mm => "mm"
  }

  /** No two units share a raw value, so the label names the unit. */
  lemma RawValueInjective(u: DesignUnit, v: DesignUnit)
    ensures RawValue(u) == RawValue(v) <==> u == v
  {
    if u != v {
      assert RawValue(u) != RawValue(v) by {
        if |RawValue(u)| == |RawValue(v)| {
          assert RawValue(u)[0] != RawValue(v)[0] || RawValue(u)[1] != RawValue(v)[1];
        }
      }
    }
  }

  /** `toPixels`: px is the base unit, pt is 1.333px, em and rem 16px, in 96px, cm 37.795px, mm 3.7795px. */
  function ToPixels(u: DesignUnit, value: real): (px: real)
    ensures value > 0.0 ==> px > 0.0
    ensures u == Px ==> px == value
  {
    match u
    case Px => value
    case Pt => value * 1.333
    case Em => value * 16.0
    case Rem => value * 16.0
    case Inch => value * 96.0
    case Cm => value * 37.795
    case Mm => value * 3.7795
  }

  /** `fromPixels`: divides by the same factor `toPixels` multiplies by. */
  function FromPixels(u: DesignUnit, pixels: real): (value: real)
    ensures pixels > 0.0 ==> value > 0.0
    ensures u == Px ==> value == pixels
  {
    match u
    case Px => pixels
    case Pt => pixels / 1.333
    case Em => pixels / 16.0
    case Rem => pixels / 16.0
    case Inch => pixels / 96.0
    case Cm => pixels / 37.795
    case Mm => pixels / 3.7795
  }

  /** `fromPixels` undoes `toPixels` and the other way round, in every unit. */
  lemma PixelsRoundTrip(u: DesignUnit, x: real)
    ensures FromPixels(u, ToPixels(u, x)) == x
    ensures ToPixels(u, FromPixels(u, x)) == x
  {
  }

  /** A value taken to pixels and then to the target unit. */
  function Converted(value: real, from: DesignUnit, to: DesignUnit): real {
    FromPixels(to, ToPixels(from, value))
  }

  /**
   * `convertUnits()`: nothing unless the input text reads as a number greater
   * than zero; otherwise that number converted.
   */
  function ConvertUnits(inputValue: string, from: DesignUnit, to: DesignUnit): (r: Option<real>)
    ensures r.Some? <==> ParseDouble(inputValue).Some? && ParseDouble(inputValue).value > 0.0
    ensures r.Some? ==> r.value > 0.0 && r.value == Converted(ParseDouble(inputValue).value, from, to)
  {
    match ParseDouble(inputValue)
    case Some(value) => if value > 0.0 then Some(FromPixels(to, ToPixels(from, value))) else None
    case None => None
  }

  /** Converting to the unit one started from gives the number back. */
  lemma ConvertSameUnit(value: real, u: DesignUnit)
    ensures Converted(value, u, u) == value
  {
    PixelsRoundTrip(u, value);
  }

  /** Converting there and back again gives the number back. */
  lemma ConvertRoundTrip(value: real, from: DesignUnit, to: DesignUnit)
    ensures Converted(Converted(value, from, to), to, from) == value
  {
    PixelsRoundTrip(to, ToPixels(from, value));
    PixelsRoundTrip(from, value);
  }

  /** em and rem are both 16px, so they convert to each other one for one. */
  lemma EmIsRem(value: real)
    ensures Converted(value, Em, Rem) == value && Converted(value, Rem, Em) == value
  {
  }

  /**
   * The common-conversions table: 1rem and 1em are 16px, 1in is 96px, and
   * 16px is 12pt to two decimal places (it is 12.003...).
   */
  lemma CommonConversions()
    ensures Converted(1.0, Rem, Px) == 16.0
    ensures Converted(1.0, Em, Px) == 16.0
    ensures Converted(1.0, Inch, Px) == 96.0
    ensures 12.0 < Converted(16.0, Px, Pt) < 12.005
  {
  }

  /** Conversion keeps order: a larger value converts to a larger value. */
  lemma ConvertedMonotone(x: real, y: real, from: DesignUnit, to: DesignUnit)
    requires x < y
    ensures Converted(x, from, to) < Converted(y, from, to)
  {
  }

  // ---------------------------------------------------------------------------
  // Spacing scale
  // ---------------------------------------------------------------------------

  /** `pow(x, n)` for a whole exponent. */
  function RealPow(x: real, n: nat): (p: real)
    ensures x > 0.0 ==> p > 0.0
  {
    if n == 0 then 1.0 else RealPow(x, n - 1) * x
  }

  /** Step `i` of a scale: `base * pow(ratio, i)`. */
  function Step(base: real, ratio: real, i: nat): real {
    base * RealPow(ratio, i)
  }

  /**
   * `generateSpacingScale()`: nothing unless both texts read as numbers
   * greater than zero; otherwise `steps` values, step `i` being
   * `base * pow(ratio, i)`.
   */
  method GenerateSpacingScale(baseSize: string, scaleRatio: string, steps: nat)
    returns (scale: Option<seq<real>>)
    ensures scale.Some? <==>
      ParseDouble(baseSize).Some? && ParseDouble(scaleRatio).Some?
      && ParseDouble(baseSize).value > 0.0 && ParseDouble(scaleRatio).value > 0.0
    ensures scale.Some? ==> |scale.value| == steps
    ensures scale.Some? ==> forall i | 0 <= i < steps ::
      scale.value[i] == Step(ParseDouble(baseSize).value, ParseDouble(scaleRatio).value, i)
  {
    var parsedBase, parsedRatio := ParseDouble(baseSize), ParseDouble(scaleRatio);
    if parsedBase.None? || parsedRatio.None? {
      return None;
    }
    var base, ratio := parsedBase.value, parsedRatio.value;
    if !(base > 0.0 && ratio > 0.0) {
      return None;
    }
    var values := GeometricSteps(base, ratio, steps);
    scale := Some(values);
  }

  /** The `for i in 0..<steps` loop of `generateSpacingScale()`, once both numbers are known. */
  method GeometricSteps(base: real, ratio: real, steps: nat) returns (values: seq<real>)
    ensures |values| == steps
    ensures forall i | 0 <= i < steps :: values[i] == Step(base, ratio, i)
  {
    values := [];
    var i := 0;
    while i < steps
      invariant 0 <= i <= steps
      invariant |values| == i
      invariant forall k | 0 <= k < i :: values[k] == Step(base, ratio, k)
    {
      var value := base * RealPow(ratio, i);
      values := values + [value];
      i := i + 1;
    }
  }

  /** The scale starts at the base size. */
  lemma StepZero(base: real, ratio: real)
    ensures Step(base, ratio, 0) == base
  {
  }

  /** Each step is the one before it times the ratio: the scale is geometric. */
  lemma StepNext(base: real, ratio: real, i: nat)
    ensures Step(base, ratio, i + 1) == Step(base, ratio, i) * ratio
  {
  }

  /** With a positive base every step is positive, and a ratio above one makes each step larger than the last. */
  lemma {:induction false} StepGrows(base: real, ratio: real, i: nat, j: nat)
    requires base > 0.0 && ratio > 1.0 && i < j
    ensures 0.0 < Step(base, ratio, i) < Step(base, ratio, j)
    decreases j - i
  {
    StepIncreases(base, ratio, j - 1);
    if i < j - 1 {
      StepGrows(base, ratio, i, j - 1);
    }
  }

  lemma StepIncreases(base: real, ratio: real, k: nat)
    requires base > 0.0 && ratio > 1.0
    ensures 0.0 < Step(base, ratio, k) < Step(base, ratio, k + 1)
  {
    StepPositive(base, ratio, k);
    StepNext(base, ratio, k);
    var x := Step(base, ratio, k);
    assert Step(base, ratio, k + 1) == x * ratio;
    GrowsByRatio(x, ratio);
  }

  lemma StepPositive(base: real, ratio: real, i: nat)
    requires base > 0.0 && ratio > 0.0
    ensures Step(base, ratio, i) > 0.0
  {
    MulPositive(base, RealPow(ratio, i));
  }

  lemma MulPositive(x: real, y: real)
    requires x > 0.0 && y > 0.0
    ensures x * y > 0.0
  {
  }

  lemma GrowsByRatio(x: real, ratio: real)
    requires x > 0.0 && ratio > 1.0
    ensures x * ratio > x
  {
    assert x * ratio - x == x * (ratio - 1.0);
  }

  // ---------------------------------------------------------------------------
  // Colour tools
  // ---------------------------------------------------------------------------

  /** `ColorToolsView`'s state: the colour shown and the hex text being typed. */
  class ColorTools {
    var selectedColor: Rgba
    var hexInput: string

    constructor()
      ensures selectedColor == PaletteValue(NeonGreen)
      ensures hexInput == "00FF94"
    {
      selectedColor := PaletteValue(NeonGreen);
      hexInput := "00FF94";
    }

    /** Typing into the hex field. */
    method SetHexInput(text: string)
      modifies this`hexInput
      ensures hexInput == text
    {
      hexInput := text;
    }

    /** Picking a colour with the colour picker. */
    method PickColor(c: Rgba)
      modifies this`selectedColor
      ensures selectedColor == c
    {
      selectedColor := c;
    }

    /** The Apply button: the typed text replaces the colour only when it decodes. */
    method Apply()
      modifies this`selectedColor
      ensures ColorFromHex(hexInput).Some? ==> selectedColor == ColorFromHex(hexInput).value
      ensures ColorFromHex(hexInput).None? ==> selectedColor == old(selectedColor)
    {
      var color := ColorFromHex(hexInput);
      if color.Some? {
        selectedColor := color.value;
      }
    }
  }

  /** The hex labels beside the palette swatches. */
  function SwatchLabel(p: PaletteColor): string {
    match p
    case NeonGreen => "00FF94"
    case NeonPink => "FF007C"
    case NeonBlue => "2EAAFF"
    case NeonBackground => "111216"
    case NeonSecondaryBackground => "1B1D23"
  }

  /** Typing a swatch's label and pressing Apply selects exactly that palette colour. */
  lemma SwatchLabelDecodes(p: PaletteColor, text: string)
    requires text == SwatchLabel(p)
    ensures ColorFromHex(text) == Some(PaletteValue(p))
  {
    match p
    case NeonBackground => SixDigitEntry(text, 0x11, 0x12, 0x16);
    case NeonSecondaryBackground => SixDigitEntry(text, 0x1b, 0x1d, 0x23);
    case NeonGreen => SixDigitEntry(text, 0x00, 0xff, 0x94);
    case NeonPink => SixDigitEntry(text, 0xff, 0x00, 0x7c);
    case NeonBlue => SixDigitEntry(text, 0x2e, 0xaa, 0xff);
  }

  /** The sixth swatch, white, is labelled `FFFFFF`, which decodes to opaque white. */
  lemma WhiteSwatchDecodes(text: string)
    requires text == "FFFFFF"
    ensures ColorFromHex(text) == Some(Rgba(255, 255, 255, 255))
  {
    SixDigitEntry(text, 0xff, 0xff, 0xff);
  }
}
