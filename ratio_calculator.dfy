/**
 * The ratio calculator: four text fields (width and height of a first and a
 * second pair) and a mode. In "find missing" mode it solves the proportion
 * w1 : h1 = w2 : h2 for the one value left empty, in "compare" mode it
 * compares the two ratios, and in "scale" mode it multiplies the first pair
 * by the number in the third field. Presets fill the first pair.
 */
module RatioCalculator {
  import opened Wrappers
  import opened Foundation

  // ---------------------------------------------------------------------------
  // Reading the fields
  // ---------------------------------------------------------------------------
  //
  // Each calculation receives its fields already read with `Double(_:)`
  // (`ParseDouble`): `None` is text that does not read as a number.

  /** `Double(text) ?? 0`: a field that does not read as a number counts as 0. */
  function FieldValue(parsed: Option<real>): (v: real)
    ensures parsed.None? ==> v == 0.0
    ensures parsed.Some? ==> v == parsed.value
  {
    parsed.GetOr(0.0)
  }

  /** `values.filter { $0 > 0 }.count`. */
  function PositiveCount(values: seq<real>): (n: nat)
    ensures n <= |values|
    ensures n == |values| <==> forall i | 0 <= i < |values| :: values[i] > 0.0
    decreases |values|
  {
    if values == [] then 0
    else (if values[0] > 0.0 then 1 else 0) + PositiveCount(values[1..])
  }

  function Indicator(x: real): nat { if x > 0.0 then 1 else 0 }

  lemma PositiveCountOfFour(a: real, b: real, c: real, d: real)
    ensures PositiveCount([a, b, c, d]) == Indicator(a) + Indicator(b) + Indicator(c) + Indicator(d)
  {
    assert PositiveCount([d]) == Indicator(d) by {
      assert [d][1..] == [];
    }
    assert PositiveCount([c, d]) == Indicator(c) + Indicator(d) by {
      assert [c, d][1..] == [d];
    }
    assert PositiveCount([b, c, d]) == Indicator(b) + Indicator(c) + Indicator(d) by {
      assert [b, c, d][1..] == [c, d];
    }
    assert [a, b, c, d][1..] == [b, c, d];
  }

  /** Read, and greater than zero. */
  predicate Positive(parsed: Option<real>) {
    parsed.Some? && parsed.value > 0.0
  }

  function Abs(x: real): real { if x < 0.0 then -x else x }

  // ---------------------------------------------------------------------------
  // Find missing value
  // ---------------------------------------------------------------------------

  /** The solved fourth value of the proportion, before it is formatted with one decimal. */
  datatype MissingValue = MissingHeight(height: real) | MissingWidth(width: real)

  /**
   * `calculateMissingValue()`: exactly three of the four values must be
   * positive, the first pair must be among them, and the fourth must be
   * exactly 0 (empty or unreadable text counts as 0); then the empty value
   * is solved from w1 : h1 = w2 : h2. Every other configuration gives
   * nothing, so the divisions are never by zero.
   */
  function CalculateMissingValue(width1: Option<real>, height1: Option<real>, width2: Option<real>, height2: Option<real>)
    : (r: Option<MissingValue>)
    ensures var w1, h1, w2, h2 := FieldValue(width1), FieldValue(height1), FieldValue(width2), FieldValue(height2);
      (r.Some? <==> w1 > 0.0 && h1 > 0.0 && ((w2 > 0.0 && h2 == 0.0) || (w2 == 0.0 && h2 > 0.0)))
      && (r.Some? ==> PositiveCount([w1, h1, w2, h2]) == 3)
      && (r.Some? && r.value.MissingHeight? ==> h2 == 0.0 && w1 * r.value.height == w2 * h1)
      && (r.Some? && r.value.MissingWidth? ==> w2 == 0.0 && h1 * r.value.width == h2 * w1)
  {
    var w1, h1, w2, h2 := FieldValue(width1), FieldValue(height1), FieldValue(width2), FieldValue(height2);
    var values := [w1, h1, w2, h2];
    var nonZeroCount := PositiveCount(values);
    PositiveCountOfFour(w1, h1, w2, h2);
    if nonZeroCount != 3 then None
    else if w1 > 0.0 && h1 > 0.0 && w2 > 0.0 && h2 == 0.0 then
      Some(MissingHeight(Quotient(w2 * h1, w1)))
    else if w1 > 0.0 && h1 > 0.0 && w2 == 0.0 && h2 > 0.0 then
      Some(MissingWidth(Quotient(h2 * w1, h1)))
    else None
  }

  /** `x / y` for a non-zero `y`. */
  function Quotient(x: real, y: real): (q: real)
    requires y != 0.0
    ensures y * q == x
  {
    x / y
  }

  /** The solved value completes the proportion: the second pair then has the first pair's ratio. */
  lemma MissingValueKeepsRatio(width1: Option<real>, height1: Option<real>, width2: Option<real>, height2: Option<real>)
    requires CalculateMissingValue(width1, height1, width2, height2).Some?
    ensures var w1, h1, w2, h2 := FieldValue(width1), FieldValue(height1), FieldValue(width2), FieldValue(height2);
      match CalculateMissingValue(width1, height1, width2, height2).value
      case MissingHeight(h) => h > 0.0 && w2 / h == w1 / h1
      case MissingWidth(w) => w > 0.0 && w / h2 == w1 / h1
  {
    var w1, h1, w2, h2 := FieldValue(width1), FieldValue(height1), FieldValue(width2), FieldValue(height2);
    match CalculateMissingValue(width1, height1, width2, height2).value
    case MissingHeight(h) =>
      CrossRatio(w1, h1, w2, h);
    case MissingWidth(w) =>
      CrossRatio(w1, h1, w, h2);
  }

  /** Equal cross products mean equal ratios: `a : b = c : d`, and the second pair is positive like the first. */
  lemma CrossRatio(a: real, b: real, c: real, d: real)
    requires a > 0.0 && b > 0.0 && a * d == c * b
    requires c > 0.0 || d > 0.0
    ensures c > 0.0 && d > 0.0 && c / d == a / b
  {
    assert c > 0.0 && d > 0.0 by {
      SameSign(a, b, c, d);
    }
    assert c / d == (c * b) / (d * b);
    assert a / b == (a * d) / (b * d);
  }

  lemma SameSign(a: real, b: real, c: real, d: real)
    requires a > 0.0 && b > 0.0 && a * d == c * b
    ensures c > 0.0 <==> d > 0.0
  {
  }

  // ---------------------------------------------------------------------------
  // Compare ratios
  // ---------------------------------------------------------------------------

  /** The verdict of `compareRatios()`, before it is formatted. */
  datatype Comparison =
    | Identical(ratio: real)
    | Different(ratioA: real, ratioB: real, percentDiff: real)

  /**
   * `compareRatios()`: nothing unless all four fields read as numbers
   * greater than zero; the ratios are identical when they differ by less
   * than 0.01 in absolute terms, otherwise the difference is reported as a
   * percentage of the first ratio.
   */
  function CompareRatios(width1: Option<real>, height1: Option<real>, width2: Option<real>, height2: Option<real>)
    : (r: Option<Comparison>)
    ensures r.Some? <==> Positive(width1) && Positive(height1) && Positive(width2) && Positive(height2)
    ensures r.Some? ==>
      var ratio1, ratio2 := width1.value / height1.value, width2.value / height2.value;
      (r.value.Identical? <==> Abs(ratio1 - ratio2) < 0.01)
      && (r.value.Identical? ==> r.value.ratio == ratio1)
      && (r.value.Different? ==> r.value.ratioA == ratio1 && r.value.ratioB == ratio2 && r.value.percentDiff > 0.0)
      && (r.value.Different? ==> r.value.percentDiff == Abs(ratio1 - ratio2) / ratio1 * 100.0)
  {
    if !(Positive(width1) && Positive(height1) && Positive(width2) && Positive(height2)) then None
    else
      var w1, h1, w2, h2 := width1.value, height1.value, width2.value, height2.value;
      var ratio1 := w1 / h1;
      var ratio2 := w2 / h2;
      var difference := Abs(ratio1 - ratio2);
      PositiveRatio(w1, h1);
      var percentDiff := Quotient(difference, ratio1) * 100.0;
      if difference < 0.01 then
        Some(Identical(ratio1))
      else
        assert percentDiff > 0.0 by {
          PositiveRatio(difference, ratio1);
        }
        Some(Different(ratio1, ratio2, percentDiff))
  }

  lemma PositiveRatio(x: real, y: real)
    requires x > 0.0 && y > 0.0
    ensures x / y > 0.0
  {
  }

  /** The verdict does not depend on which pair is A and which is B. */
  lemma CompareRatiosSymmetric(width1: Option<real>, height1: Option<real>, width2: Option<real>, height2: Option<real>)
    ensures CompareRatios(width1, height1, width2, height2).Some?
        <==> CompareRatios(width2, height2, width1, height1).Some?
    ensures CompareRatios(width1, height1, width2, height2).Some? ==>
      (CompareRatios(width1, height1, width2, height2).value.Identical?
       <==> CompareRatios(width2, height2, width1, height1).value.Identical?)
  {
  }

  // ---------------------------------------------------------------------------
  // Scale ratio
  // ---------------------------------------------------------------------------

  datatype Dimensions = Dimensions(width: real, height: real)

  /**
   * `scaleRatio()`: the third field is the scale factor; nothing unless the
   * first pair and the factor read as numbers greater than zero; otherwise
   * both sides are multiplied by the factor.
   */
  function ScaleRatio(width1: Option<real>, height1: Option<real>, width2: Option<real>): (r: Option<Dimensions>)
    ensures r.Some? <==> Positive(width1) && Positive(height1) && Positive(width2)
    ensures r.Some? ==> r.value == Dimensions(width1.value * width2.value, height1.value * width2.value)
    ensures r.Some? ==> r.value.height > 0.0 && r.value.width / r.value.height == width1.value / height1.value
  {
    if !(Positive(width1) && Positive(height1) && Positive(width2)) then None
    else
      var w1, h1, scale := width1.value, height1.value, width2.value;
      ScaledQuotient(w1, h1, scale);
      Some(Dimensions(w1 * scale, h1 * scale))
  }

  /** Multiplying both sides by a positive factor keeps the ratio. */
  lemma ScaledQuotient(w: real, h: real, s: real)
    requires w > 0.0 && h > 0.0 && s > 0.0
    ensures h * s > 0.0 && (w * s) / (h * s) == w / h
  {
    assert (w * s) / (h * s) == w / h by {
      assert (w / h) * (h * s) == w * s;
    }
  }

  /** Scaling by `s` and then by `t` is scaling by `s * t`. */
  lemma ScaleRatioComposes(width1: real, height1: real, s: real, t: real)
    requires width1 > 0.0 && height1 > 0.0 && s > 0.0 && t > 0.0
    ensures ScaleRatio(Some(width1 * s), Some(height1 * s), Some(t)) == ScaleRatio(Some(width1), Some(height1), Some(s * t))
  {
    MulPositive(width1, s);
    MulPositive(height1, s);
    MulPositive(s, t);
    var twice := ScaleRatio(Some(width1 * s), Some(height1 * s), Some(t));
    var once := ScaleRatio(Some(width1), Some(height1), Some(s * t));
    assert twice.Some? && once.Some?;
    assert twice.value.width == width1 * s * t == width1 * (s * t) == once.value.width;
    assert twice.value.height == height1 * s * t == height1 * (s * t) == once.value.height;
  }

  lemma MulPositive(x: real, y: real)
    requires x > 0.0 && y > 0.0
    ensures x * y > 0.0
  {
  }

  // ---------------------------------------------------------------------------
  // Dispatch on the mode
  // ---------------------------------------------------------------------------

  datatype CalculationMode = FindMissing | Compare | Scale

  datatype Outcome = Missing(missing: MissingValue) | Compared(comparison: Comparison) | Scaled(dimensions: Dimensions)

  /** `calculateResult()`: the calculation the selected mode names; the result is of that mode's kind. */
  function CalculateResult(mode: CalculationMode, width1: Option<real>, height1: Option<real>, width2: Option<real>, height2: Option<real>)
    : (r: Option<Outcome>)
    ensures r.Some? ==> match mode
      case FindMissing => r.value.Missing?
      case Compare => r.value.Compared?
      case Scale => r.value.Scaled?
    ensures mode == FindMissing ==> (r.Some? <==> CalculateMissingValue(width1, height1, width2, height2).Some?)
    ensures mode == Compare ==> (r.Some? <==> Positive(width1) && Positive(height1) && Positive(width2) && Positive(height2))
    ensures mode == Scale ==> (r.Some? <==> Positive(width1) && Positive(height1) && Positive(width2))
    ensures mode == FindMissing && r.Some? ==> r.value.missing == CalculateMissingValue(width1, height1, width2, height2).value
    ensures mode == Compare && r.Some? ==> r.value.comparison == CompareRatios(width1, height1, width2, height2).value
    ensures mode == Scale && r.Some? ==> r.value.dimensions == ScaleRatio(width1, height1, width2).value
  {
    match mode
    case FindMissing =>
      (match CalculateMissingValue(width1, height1, width2, height2)
       case Some(m) => Some(Missing(m))
       case None => None)
    case Compare =>
      (match CompareRatios(width1, height1, width2, height2)
       case Some(c) => Some(Compared(c))
       case None => None)
    case Scale =>
      (match ScaleRatio(width1, height1, width2)
       case Some(d) => Some(Scaled(d))
       case None => None)
  }

  // ---------------------------------------------------------------------------
  // Common ratio presets
  // ---------------------------------------------------------------------------

  datatype CommonRatio = Golden | Cinema | Widescreen | Traditional | Square | Portrait | Instagram | Story

  /** The preset's raw value, `"width : height"`. */
  function RawValue(p: CommonRatio): string {
    match p
    case Golden => "1.618 : 1"
    case Cinema => "21 : 9"
    case Widescreen => "16 : 9"
    case Traditional => "4 : 3"
    case Square => "1 : 1"
    case Portrait => "3 : 4"
    case Instagram => "4 : 5"
    case Story => "9 : 16"
  }

  /**
   * `split(separator: ":").compactMap { Double($0.trimmingCharacters(in: .whitespaces)) }`:
   * the pieces between colons, trimmed of spaces, that read as numbers.
   */
  function Components(raw: string): seq<real> {
    ParsedPieces(Split(raw, ':'))
  }

  function ParsedPieces(pieces: seq<string>): (values: seq<real>)
    ensures |values| <= |pieces|
  {
    if pieces == [] then []
    else
      match ParseDouble(Trimming(pieces[0], Whitespaces))
      case Some(v) => [v] + ParsedPieces(pieces[1..])
      case None => ParsedPieces(pieces[1..])
  }

  /** The trimmed pieces that read as numbers, as text: what the values were read from. */
  function ParsedTexts(pieces: seq<string>): (texts: seq<string>)
    ensures |texts| == |ParsedPieces(pieces)|
    ensures forall i | 0 <= i < |texts| :: ParseDouble(texts[i]) == Some(ParsedPieces(pieces)[i])
  {
    if pieces == [] then []
    else
      var t := Trimming(pieces[0], Whitespaces);
      match ParseDouble(t)
      case Some(v) => [t] + ParsedTexts(pieces[1..])
      case None => ParsedTexts(pieces[1..])
  }

  /** A number's text: letters, digits and points, with no spaces at either end and no colon. */
  predicate PlainNumeral(t: string) {
    t != [] && ':' !in t && !InSet(Whitespaces, t[0]) && !InSet(Whitespaces, t[|t| - 1])
  }

  /** `"a : b"` splits at the colon and trims to the two numerals `a` and `b`. */
  lemma PresetPieces(raw: string, left: string, right: string)
    requires PlainNumeral(left) && PlainNumeral(right)
    requires raw == left + " : " + right
    ensures Split(raw, ':') == [left + " ", " " + right]
    ensures Trimming(left + " ", Whitespaces) == left && Trimming(" " + right, Whitespaces) == right
  {
    assert raw == (left + " ") + [':'] + (" " + right);
    SplitOnce(left + " ", " " + right, ':');
    TrimmingSkipsTrailing(left, ' ', Whitespaces);
    TrimmingUntouched(left, Whitespaces);
    assert " " + right == [' '] + right;
    TrimmingSkipsLeading(' ', right, Whitespaces);
    TrimmingUntouched(right, Whitespaces);
  }

  /** The two numerals of each preset, as its raw value spells them. */
  function Numerals(p: CommonRatio): (string, string) {
    match p
    case Golden => ("1.618", "1")
    case Cinema => ("21", "9")
    case Widescreen => ("16", "9")
    case Traditional => ("4", "3")
    case Square => ("1", "1")
    case Portrait => ("3", "4")
    case Instagram => ("4", "5")
    case Story => ("9", "16")
  }

  /** The two numbers of each preset: a reference table written independently of the text. */
  function Terms(p: CommonRatio): (real, real) {
    match p
    case Golden => (1.618, 1.0)
    case Cinema => (21.0, 9.0)
    case Widescreen => (16.0, 9.0)
    case Traditional => (4.0, 3.0)
    case Square => (1.0, 1.0)
    case Portrait => (3.0, 4.0)
    case Instagram => (4.0, 5.0)
    case Story => (9.0, 16.0)
  }

  /** Two numerals around `" : "` read as the two numbers they spell, and their texts are the numerals. */
  lemma PresetShape(raw: string, left: string, right: string, x: real, y: real)
    requires PlainNumeral(left) && PlainNumeral(right)
    requires raw == left + " : " + right
    requires ParseDouble(left) == Some(x) && ParseDouble(right) == Some(y)
    ensures ParsedTexts(Split(raw, ':')) == [left, right]
    ensures Components(raw) == [x, y]
  {
    PresetPieces(raw, left, right);
    ParsedPair(left + " ", " " + right, left, right, x, y);
  }

  /** Two pieces that trim to numerals read as those numerals' numbers. */
  lemma ParsedPair(a: string, b: string, ta: string, tb: string, x: real, y: real)
    requires Trimming(a, Whitespaces) == ta && Trimming(b, Whitespaces) == tb
    requires ParseDouble(ta) == Some(x) && ParseDouble(tb) == Some(y)
    ensures ParsedTexts([a, b]) == [ta, tb]
    ensures ParsedPieces([a, b]) == [x, y]
  {
    ParsedFirst([a, b], ta, x);
    ParsedFirst([b], tb, y);
    assert [a, b][1..] == [b] && [b][1..] == [];
  }

  /** A first piece that trims to a numeral contributes that numeral and its number ahead of the rest. */
  lemma ParsedFirst(pieces: seq<string>, t: string, v: real)
    requires pieces != [] && Trimming(pieces[0], Whitespaces) == t && ParseDouble(t) == Some(v)
    ensures ParsedTexts(pieces) == [t] + ParsedTexts(pieces[1..])
    ensures ParsedPieces(pieces) == [v] + ParsedPieces(pieces[1..])
  {
  }

  /** A whole-number preset `"a : b"` reads as `a` and `b`. */
  lemma WholePreset(raw: string, a: nat, b: nat)
    requires raw == NatDescription(a) + " : " + NatDescription(b)
    ensures ParsedTexts(Split(raw, ':')) == [NatDescription(a), NatDescription(b)]
    ensures Components(raw) == [a as real, b as real]
  {
    var left, right := NatDescription(a), NatDescription(b);
    DigitsArePlain(left);
    DigitsArePlain(right);
    NatDescriptionRoundTrip(a);
    NatDescriptionRoundTrip(b);
    PresetShape(raw, left, right, a as real, b as real);
  }

  /** Digits contain no colon and no space. */
  lemma DigitsArePlain(t: string)
    requires t != [] && AllDigits(t)
    ensures PlainNumeral(t)
  {
    assert t[0] == t[0] && IsDigit(t[|t| - 1]);
  }

  /** A preset whose numerals are the decimal `whole.fraction` and the whole number `b` reads as them. */
  lemma DecimalPresetEntry(p: CommonRatio, whole: string, fraction: string, b: nat)
    requires whole != [] && fraction != [] && AllDigits(whole) && AllDigits(fraction)
    requires Numerals(p) == (whole + "." + fraction, NatDescription(b))
    requires RawValue(p) == Numerals(p).0 + " : " + Numerals(p).1
    requires Terms(p) == (DecimalValue(whole, fraction), b as real)
    ensures ParsedTexts(Split(RawValue(p), ':')) == [Numerals(p).0, Numerals(p).1]
    ensures Components(RawValue(p)) == [Terms(p).0, Terms(p).1]
  {
    var left, right := Numerals(p).0, Numerals(p).1;
    DecimalText(whole, fraction);
    NatDescriptionRoundTrip(b);
    DigitsArePlain(right);
    DecimalIsPlain(whole, fraction);
    PresetShape(RawValue(p), left, right, Terms(p).0, Terms(p).1);
  }

  /** A decimal numeral contains no colon and no space. */
  lemma DecimalIsPlain(whole: string, fraction: string)
    requires whole != [] && fraction != [] && AllDigits(whole) && AllDigits(fraction)
    ensures PlainNumeral(whole + "." + fraction)
  {
    var t := whole + "." + fraction;
    assert t[0] == whole[0] && IsDigit(whole[0]);
    assert t[|t| - 1] == fraction[|fraction| - 1] && IsDigit(fraction[|fraction| - 1]);
    assert forall i | 0 <= i < |t| :: t[i] == '.' || IsDigit(t[i]);
  }

  lemma DigitsOf618()
    ensures DigitsValue("618") == 618 && Pow(10, |"618"|) == 1000 && DigitsValue("1") == 1
  {
    assert "618"[..2] == "61" && "61"[..1] == "6" && "6"[..0] == "";
  }

  /** `whole.fraction` reads as the decimal it spells. */
  lemma DecimalText(whole: string, fraction: string)
    requires whole != [] && AllDigits(whole) && AllDigits(fraction)
    ensures ParseDouble(whole + "." + fraction) == Some(DecimalValue(whole, fraction))
  {
    var s := whole + "." + fraction;
    assert forall i | 0 <= i < |whole| :: s[i] == whole[i] && s[i] != '.';
    assert s[|whole|] == '.';
    assert IndexOf(s, '.') == |whole|;
    assert s[..|whole|] == whole && s[|whole| + 1..] == fraction;
  }

  /** Every preset reads as exactly its two numbers, from exactly its two numerals. */
  lemma PresetComponents(p: CommonRatio)
    ensures ParsedTexts(Split(RawValue(p), ':')) == [Numerals(p).0, Numerals(p).1]
    ensures Components(RawValue(p)) == [Terms(p).0, Terms(p).1]
  {
    match p
    case Golden =>
      assert "1.618" == "1" + "." + "618";
      assert DecimalValue("1", "618") == 1.618 by {
        DigitsOf618();
      }
      DecimalPresetEntry(p, "1", "618", 1);
    case Cinema =>
      assert NatDescription(21) == "21";
      WholePresetEntry(p, 21, 9);
    case Widescreen =>
      assert NatDescription(16) == "16";
      WholePresetEntry(p, 16, 9);
    case Traditional => WholePresetEntry(p, 4, 3);
    case Square => WholePresetEntry(p, 1, 1);
    case Portrait => WholePresetEntry(p, 3, 4);
    case Instagram => WholePresetEntry(p, 4, 5);
    case Story =>
      assert NatDescription(16) == "16";
      WholePresetEntry(p, 9, 16);
  }

  /** A preset whose numerals are the whole numbers `a` and `b` reads as them. */
  lemma WholePresetEntry(p: CommonRatio, a: nat, b: nat)
    requires Numerals(p) == (NatDescription(a), NatDescription(b))
    requires RawValue(p) == Numerals(p).0 + " : " + Numerals(p).1
    requires Terms(p) == (a as real, b as real)
    ensures ParsedTexts(Split(RawValue(p), ':')) == [Numerals(p).0, Numerals(p).1]
    ensures Components(RawValue(p)) == [Terms(p).0, Terms(p).1]
  {
    WholePreset(RawValue(p), a, b);
  }

  /**
   * `useCommonRatio` as written: when the raw value reads as two numbers,
   * the first pair becomes those numbers printed with `%.0f`, which rounds
   * to a whole number.
   */
  function CommonRatioFieldsAsWritten(raw: string): Option<(string, string)> {
    var components := Components(raw);
    if |components| == 2 then
      Some((IntDescription(RoundedWhole(components[0])), IntDescription(RoundedWhole(components[1]))))
    else None
  }

  /** As written, the golden preset `1.618 : 1` fills the fields with `2` and `1`, the ratio 2 : 1. */
  lemma GoldenLoadsAsTwoToOne()
    ensures Components(RawValue(Golden)) == [1.618, 1.0]
    ensures CommonRatioFieldsAsWritten(RawValue(Golden)) == Some(("2", "1"))
  {
    PresetComponents(Golden);
    var x, y := 1.618, 1.0;
    assert RoundedWhole(x) == 2 && RoundedWhole(y) == 1;
    assert NatDescription(2) == "2" && NatDescription(1) == "1";
  }

  /**
   * `useCommonRatio` with the rounding removed: when the raw value reads as
   * two numbers, the first pair becomes the two numerals themselves, so the
   * fields read back as exactly those numbers.
   */
  function CommonRatioFields(raw: string): (fields: Option<(string, string)>)
    ensures fields.Some? <==> |Components(raw)| == 2
    ensures fields.Some? ==>
      ParseDouble(fields.value.0) == Some(Components(raw)[0])
      && ParseDouble(fields.value.1) == Some(Components(raw)[1])
  {
    var texts := ParsedTexts(Split(raw, ':'));
    if |texts| == 2 then Some((texts[0], texts[1])) else None
  }

  /** Every preset loads, and the fields then hold its numerals, which read as its two numbers. */
  lemma CommonRatioFieldsKeepRatio(p: CommonRatio)
    ensures CommonRatioFields(RawValue(p)) == Some(Numerals(p))
    ensures ParseDouble(Numerals(p).0) == Some(Terms(p).0) && ParseDouble(Numerals(p).1) == Some(Terms(p).1)
  {
    PresetComponents(p);
  }

  /** For the whole-number presets the rounding changes nothing: as written and corrected agree. */
  lemma AsWrittenAgreesOnWholePresets(p: CommonRatio)
    requires p != Golden
    ensures CommonRatioFieldsAsWritten(RawValue(p)) == CommonRatioFields(RawValue(p))
  {
    match p
    case Cinema =>
      assert NatDescription(21) == "21";
      WholeFieldsAgree(p, 21, 9);
    case Widescreen =>
      assert NatDescription(16) == "16";
      WholeFieldsAgree(p, 16, 9);
    case Traditional => WholeFieldsAgree(p, 4, 3);
    case Square => WholeFieldsAgree(p, 1, 1);
    case Portrait => WholeFieldsAgree(p, 3, 4);
    case Instagram => WholeFieldsAgree(p, 4, 5);
    case Story =>
      assert NatDescription(16) == "16";
      WholeFieldsAgree(p, 9, 16);
  }

  lemma WholeFieldsAgree(p: CommonRatio, a: nat, b: nat)
    requires Numerals(p) == (NatDescription(a), NatDescription(b))
    requires Terms(p) == (a as real, b as real)
    ensures CommonRatioFieldsAsWritten(RawValue(p)) == CommonRatioFields(RawValue(p))
  {
    PresetComponents(p);
    WholeRoundTrip(a);
    WholeRoundTrip(b);
  }

  /** A whole number printed with `%.0f` is its own description. */
  lemma WholeRoundTrip(n: nat)
    ensures IntDescription(RoundedWhole(n as real)) == NatDescription(n)
  {
    assert RoundedWhole(n as real) == n;
  }

  // ---------------------------------------------------------------------------
  // The calculator's state
  // ---------------------------------------------------------------------------

  /** `RatioCalculatorView`'s state: the four text fields and the mode. */
  class RatioCalculatorState {
    var width1: string
    var height1: string
    var width2: string
    var height2: string
    var calculationMode: CalculationMode

    constructor()
      ensures width1 == "16" && height1 == "9" && width2 == "" && height2 == ""
      ensures calculationMode == FindMissing
    {
      width1, height1, width2, height2 := "16", "9", "", "";
      calculationMode := FindMissing;
    }

    /** What the results section shows. */
    function Result(): Option<Outcome>
      reads this
    {
      CalculateResult(calculationMode, ParseDouble(width1), ParseDouble(height1), ParseDouble(width2), ParseDouble(height2))
    }

    /** Typing into the fields. */
    method Edit(w1: string, h1: string, w2: string, h2: string)
      modifies this
      ensures width1 == w1 && height1 == h1 && width2 == w2 && height2 == h2
      ensures calculationMode == old(calculationMode)
    {
      width1, height1, width2, height2 := w1, h1, w2, h2;
    }

    /** `clearFields()`: empties the second pair. */
    method ClearFields()
      modifies this`width2, this`height2
      ensures width2 == "" && height2 == ""
    {
      width2 := "";
      height2 := "";
    }

    /** A mode button: selects the mode and clears the second pair; the first pair stays. */
    method SelectMode(mode: CalculationMode)
      modifies this
      ensures calculationMode == mode
      ensures width2 == "" && height2 == ""
      ensures width1 == old(width1) && height1 == old(height1)
    {
      calculationMode := mode;
      ClearFields();
    }

    /**
     * A preset button: the first pair takes the preset's two numbers, read
     * back exactly (see `CommonRatioFields`); nothing else changes.
     */
    method UseCommonRatio(p: CommonRatio)
      modifies this`width1, this`height1
      ensures width1 == Numerals(p).0 && height1 == Numerals(p).1
    {
      CommonRatioFieldsKeepRatio(p);
      var fields := CommonRatioFields(RawValue(p));
      if fields.Some? {
        width1 := fields.value.0;
        height1 := fields.value.1;
      }
    }
  }

  /**
   * The calculator opens in "find missing" mode with the second pair empty,
   * and then there is nothing to solve, whatever the first pair holds.
   */
  lemma EmptySecondPairSolvesNothing(width1: Option<real>, height1: Option<real>)
    ensures CalculateResult(FindMissing, width1, height1, ParseDouble(""), ParseDouble("")) == None
  {
    assert ParseDouble("") == None;
  }
}
