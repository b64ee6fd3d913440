/**
 * The colour half of the design system: `Color(hex:)`, which reads a
 * 3-, 6- or 8-digit hex code into the four 8-bit channels it then divides
 * by 255, and the five palette colours that are built from it with a
 * force-unwrap.
 */
module DesignSystem {
  import opened Wrappers
  import opened Foundation

  type Byte = x: nat | x < 256

  /** The channels of a colour, as the integers 0...255 that `Color(hex:)` computes. */
  datatype Rgba = Rgba(r: Byte, g: Byte, b: Byte, a: Byte)

  /**
   * `Color(hex:)`: trim everything but letters and digits from both ends,
   * scan the hex number at the front, then split it into channels according
   * to the number of characters left: 3 (RGB, one nibble per channel), 6
   * (RRGGBB) or 8 (AARRGGBB); any other count gives `nil`.
   */
  function ColorFromHex(hex: string): (c: Option<Rgba>)
    ensures c.Some? <==> |Trimming(hex, AlphanumericsInverted)| in {3, 6, 8}
  {
    var digits := Trimming(hex, AlphanumericsInverted);
    Channels(|digits|, ScanHex(digits))
  }

  /**
   * The `switch hex.count` of `Color(hex:)`: the channels of the scanned
   * number `n`, which has at most `count` hex digits. The shifts and masks
   * are written as the divisions and remainders they stand for
   * (`n >> 8` is `n / 0x100`, `n & 0xFF` is `n % 0x100`).
   */
  function Channels(count: nat, n: nat): (c: Option<Rgba>)
    requires n < Pow(16, count)
    ensures c.Some? <==> count in {3, 6, 8}
  {
    if count == 3 then
      assert n < 0x1000;
      Some(Rgba(n / 0x100 * 17, n / 0x10 % 0x10 * 17, n % 0x10 * 17, 255))
    else if count == 6 then
      assert n < 0x100_0000;
      Some(Rgba(n / 0x1_0000, n / 0x100 % 0x100, n % 0x100, 255))
    else if count == 8 then
      assert n < 0x1_0000_0000;
      Some(Rgba(n / 0x1_0000 % 0x100, n / 0x100 % 0x100, n % 0x100, n / 0x100_0000))
    else
      None
  }

  // ---------------------------------------------------------------------------
  // Reading the digit groups
  // ---------------------------------------------------------------------------

  /** Hex digits are letters or digits, so a string of them is untouched by the trim. */
  lemma TrimmingKeepsHexDigits(s: string)
    requires AllHexDigits(s)
    ensures Trimming(s, AlphanumericsInverted) == s
  {
    if s != [] {
      assert IsHexDigit(s[0]) && IsHexDigit(s[|s| - 1]);
    }
    TrimmingUntouched(s, AlphanumericsInverted);
  }

  /** A string of hex digits followed by another is a string of hex digits. */
  lemma AllHexDigitsAppend(a: string, b: string)
    requires AllHexDigits(a) && AllHexDigits(b)
    ensures AllHexDigits(a + b)
  {
    var ab := a + b;
    forall i | 0 <= i < |ab| ensures IsHexDigit(ab[i]) {
      if i < |a| { assert ab[i] == a[i]; } else { assert ab[i] == b[i - |a|]; }
    }
  }

  /** The value of two digit groups side by side. */
  lemma {:induction false} HexValueAppend(a: string, b: string)
    requires AllHexDigits(a) && AllHexDigits(b)
    ensures AllHexDigits(a + b)
    ensures HexValue(a + b) == HexValue(a) * Pow(16, |b|) + HexValue(b)
    decreases |b|
  {
    AllHexDigitsAppend(a, b);
    if b == [] {
      assert a + b == a;
    } else {
      var ab := a + b;
      var b' := b[..|b| - 1];
      var d := HexDigitValue(b[|b| - 1]);
      HexValueAppend(a, b');
      var va, p, vb' := HexValue(a), Pow(16, |b'|), HexValue(b');
      assert HexValue(ab) == HexValue(a + b') * 16 + d by {
        assert ab[..|ab| - 1] == a + b';
        assert ab[|ab| - 1] == b[|b| - 1];
      }
      assert HexValue(b) == vb' * 16 + d;
      assert Pow(16, |b|) == p * 16;
      ShiftByDigit(va, p, vb', d);
    }
  }

  /** Appending one digit to `x * p + y` shifts both parts by one place. */
  lemma ShiftByDigit(x: nat, p: nat, y: nat, d: nat)
    ensures (x * p + y) * 16 + d == x * (p * 16) + (y * 16 + d)
  {
  }

  /** Splitting `q * 16 + r` with `r < 16` back into `q` and `r`. */
  lemma DivMod16(q: nat, r: nat)
    requires r < 0x10
    ensures (q * 0x10 + r) / 0x10 == q && (q * 0x10 + r) % 0x10 == r
  {
  }

  /** Splitting `q * 256 + r` with `r < 256` back into `q` and `r`. */
  lemma DivMod256(q: nat, r: nat)
    requires r < 0x100
    ensures (q * 0x100 + r) / 0x100 == q && (q * 0x100 + r) % 0x100 == r
  {
  }

  /** Splitting `q * 65536 + r` with `r < 65536` back into `q` and `r`. */
  lemma DivMod65536(q: nat, r: nat)
    requires r < 0x1_0000
    ensures (q * 0x1_0000 + r) / 0x1_0000 == q
  {
  }

  /** Splitting `q * 2^24 + r` with `r < 2^24` back into `q` and `r`. */
  lemma DivMod16777216(q: nat, r: nat)
    requires r < 0x100_0000
    ensures (q * 0x100_0000 + r) / 0x100_0000 == q
  {
  }

  /** A single hex digit read as a group. */
  lemma HexValueOne(c: char)
    requires IsHexDigit(c)
    ensures HexValue([c]) == HexDigitValue(c)
  {
    assert [c][..0] == [];
  }

  /** For a string of hex digits the scan reads all of them. */
  lemma ColorFromHexDigits(s: string)
    requires AllHexDigits(s)
    ensures ColorFromHex(s) == Channels(|s|, HexValue(s))
  {
    TrimmingKeepsHexDigits(s);
  }

  lemma ThreeChannels(h0: nat, h1: nat, h2: nat)
    requires h0 < 16 && h1 < 16 && h2 < 16
    ensures (h0 * 16 + h1) * 16 + h2 < Pow(16, 3)
    ensures Channels(3, (h0 * 16 + h1) * 16 + h2) == Some(Rgba(h0 * 17, h1 * 17, h2 * 17, 255))
  {
    var n := (h0 * 16 + h1) * 16 + h2;
    DivMod16(h0 * 16 + h1, h2);
    DivMod16(h0, h1);
    assert n == h0 * 0x100 + (h1 * 16 + h2);
    DivMod256(h0, h1 * 16 + h2);
  }

  lemma SixChannels(x: nat, y: nat, z: nat)
    requires x < 256 && y < 256 && z < 256
    ensures (x * 0x100 + y) * 0x100 + z < Pow(16, 6)
    ensures Channels(6, (x * 0x100 + y) * 0x100 + z) == Some(Rgba(x, y, z, 255))
  {
    var n := (x * 0x100 + y) * 0x100 + z;
    DivMod256(x * 0x100 + y, z);
    DivMod256(x, y);
    assert n == x * 0x1_0000 + (y * 0x100 + z);
    DivMod65536(x, y * 0x100 + z);
  }

  lemma EightChannels(w: nat, x: nat, y: nat, z: nat)
    requires w < 256 && x < 256 && y < 256 && z < 256
    ensures ((w * 0x100 + x) * 0x100 + y) * 0x100 + z < Pow(16, 8)
    ensures Channels(8, ((w * 0x100 + x) * 0x100 + y) * 0x100 + z) == Some(Rgba(x, y, z, w))
  {
    var top := (w * 0x100 + x) * 0x100 + y;
    var n := top * 0x100 + z;
    DivMod256(top, z);
    DivMod256(w * 0x100 + x, y);
    assert n == (w * 0x100 + x) * 0x1_0000 + (y * 0x100 + z);
    DivMod65536(w * 0x100 + x, y * 0x100 + z);
    DivMod256(w, x);
    assert n == w * 0x100_0000 + ((x * 0x100 + y) * 0x100 + z);
    DivMod16777216(w, (x * 0x100 + y) * 0x100 + z);
  }

  /** The value of two hex digits. */
  lemma HexPairValue(s: string)
    requires |s| == 2 && AllHexDigits(s)
    ensures HexValue(s) == HexDigitValue(s[0]) * 16 + HexDigitValue(s[1]) < 256
  {
    assert s[..1] == [s[0]] && s[..1][..0] == [];
  }

  /**
   * Three digits: each nibble `n` becomes the channel `n * 17`, so `F` gives
   * 255 and `0` gives 0; alpha is 255.
   */
  lemma ThreeDigitColor(s: string)
    requires |s| == 3 && AllHexDigits(s)
    ensures ColorFromHex(s) == Some(Rgba(
      HexDigitValue(s[0]) * 17, HexDigitValue(s[1]) * 17, HexDigitValue(s[2]) * 17, 255))
  {
    ColorFromHexDigits(s);
    var h0, h1, h2 := HexDigitValue(s[0]), HexDigitValue(s[1]), HexDigitValue(s[2]);
    HexPairValue(s[..2]);
    assert s[..|s| - 1] == s[..2];
    assert HexValue(s) == (h0 * 16 + h1) * 16 + h2;
    ThreeChannels(h0, h1, h2);
  }

  /** Six digits: the three byte pairs are red, green and blue in that order; alpha is 255. */
  lemma SixDigitColor(s: string)
    requires |s| == 6 && AllHexDigits(s)
    ensures ColorFromHex(s) == Some(Rgba(HexValue(s[..2]), HexValue(s[2..4]), HexValue(s[4..]), 255))
  {
    var x, y, z := s[..2], s[2..4], s[4..];
    assert s == x + y + z;
    ThreePairsValue(x, y, z);
    SixDigitValue(s, HexValue(x), HexValue(y), HexValue(z));
  }

  /** Three byte pairs side by side are worth the bytes packed most significant first. */
  lemma ThreePairsValue(x: string, y: string, z: string)
    requires |x| == 2 && |y| == 2 && |z| == 2
    requires AllHexDigits(x) && AllHexDigits(y) && AllHexDigits(z)
    ensures HexValue(x) < 256 && HexValue(y) < 256 && HexValue(z) < 256
    ensures HexValue(x + y + z) == (HexValue(x) * 0x100 + HexValue(y)) * 0x100 + HexValue(z)
  {
    HexPairValue(x);
    HexPairValue(y);
    HexPairValue(z);
    assert Pow(16, 2) == 0x100;
    HexValueAppend(x, y);
    HexValueAppend(x + y, z);
  }

  /** Six digits whose value packs three bytes decode to those bytes, with alpha 255. */
  lemma SixDigitValue(s: string, x: Byte, y: Byte, z: Byte)
    requires |s| == 6 && AllHexDigits(s)
    requires HexValue(s) == (x * 0x100 + y) * 0x100 + z
    ensures ColorFromHex(s) == Some(Rgba(x, y, z, 255))
  {
    ColorFromHexDigits(s);
    SixChannels(x, y, z);
  }

  /** Eight digits are AARRGGBB: the first byte pair is alpha, then red, green, blue. */
  lemma EightDigitColor(s: string)
    requires |s| == 8 && AllHexDigits(s)
    ensures ColorFromHex(s) == Some(Rgba(HexValue(s[2..4]), HexValue(s[4..6]), HexValue(s[6..]), HexValue(s[..2])))
  {
    var w, x, y, z := s[..2], s[2..4], s[4..6], s[6..];
    assert s == w + x + y + z;
    FourPairsValue(w, x, y, z);
    EightDigitValue(s, HexValue(w), HexValue(x), HexValue(y), HexValue(z));
  }

  /** Eight digits whose value packs four bytes decode to those bytes, the first being alpha. */
  lemma EightDigitValue(s: string, w: Byte, x: Byte, y: Byte, z: Byte)
    requires |s| == 8 && AllHexDigits(s)
    requires HexValue(s) == ((w * 0x100 + x) * 0x100 + y) * 0x100 + z
    ensures ColorFromHex(s) == Some(Rgba(x, y, z, w))
  {
    ColorFromHexDigits(s);
    EightChannels(w, x, y, z);
  }

  /** Four byte pairs side by side are worth the bytes packed most significant first. */
  lemma FourPairsValue(w: string, x: string, y: string, z: string)
    requires |w| == 2 && |x| == 2 && |y| == 2 && |z| == 2
    requires AllHexDigits(w) && AllHexDigits(x) && AllHexDigits(y) && AllHexDigits(z)
    ensures HexValue(w) < 256 && HexValue(x) < 256 && HexValue(y) < 256 && HexValue(z) < 256
    ensures HexValue(w + x + y + z) == ((HexValue(w) * 0x100 + HexValue(x)) * 0x100 + HexValue(y)) * 0x100 + HexValue(z)
  {
    HexPairValue(w);
    HexPairValue(x);
    HexPairValue(y);
    HexPairValue(z);
    assert Pow(16, 2) == 0x100;
    HexValueAppend(w, x);
    HexValueAppend(w + x, y);
    HexValueAppend(w + x + y, z);
  }

  /** Punctuation in front of the digits, such as a leading `#`, is trimmed away before decoding. */
  lemma ColorFromHexIgnoresLeadingMark(mark: char, s: string)
    requires !IsAlphanumeric(mark)
    ensures ColorFromHex([mark] + s) == ColorFromHex(s)
  {
    TrimmingSkipsLeading(mark, s, AlphanumericsInverted);
  }

  // ---------------------------------------------------------------------------
  // The palette
  // ---------------------------------------------------------------------------

  datatype PaletteColor = NeonBackground | NeonSecondaryBackground | NeonGreen | NeonPink | NeonBlue

  /** The hex literal each palette colour is built from. */
  function PaletteLiteral(p: PaletteColor): string {
    match p
    case NeonBackground => "#111216"
    case NeonSecondaryBackground => "#1b1d23"
    case NeonGreen => "#00ff94"
    case NeonPink => "#ff007c"
    case NeonBlue => "#2eaaff"
  }

  /** `Color.neonGreen` and its siblings: the channels of the palette's hex literals. */
  function PaletteValue(p: PaletteColor): Rgba {
    match p
    case NeonBackground => Rgba(0x11, 0x12, 0x16, 255)
    case NeonSecondaryBackground => Rgba(0x1b, 0x1d, 0x23, 255)
    case NeonGreen => Rgba(0x00, 0xff, 0x94, 255)
    case NeonPink => Rgba(0xff, 0x00, 0x7c, 255)
    case NeonBlue => Rgba(0x2e, 0xaa, 0xff, 255)
  }

  /**
   * Every palette literal decodes, so the force-unwrap that builds the
   * palette never traps, and it decodes to the palette colour.
   */
  lemma PaletteDecodes(p: PaletteColor, literal: string)
    requires literal == PaletteLiteral(p)
    ensures ColorFromHex(literal) == Some(PaletteValue(p))
  {
    match p
    case NeonBackground => PaletteEntry(literal, 0x11, 0x12, 0x16);
    case NeonSecondaryBackground => PaletteEntry(literal, 0x1b, 0x1d, 0x23);
    case NeonGreen => PaletteEntry(literal, 0x00, 0xff, 0x94);
    case NeonPink => PaletteEntry(literal, 0xff, 0x00, 0x7c);
    case NeonBlue => PaletteEntry(literal, 0x2e, 0xaa, 0xff);
  }

  /** `#` and six hex digits decode to their three byte pairs, with alpha 255. */
  lemma PaletteEntry(literal: string, r: Byte, g: Byte, b: Byte)
    requires |literal| == 7 && literal[0] == '#' && AllHexDigits(literal[1..])
    requires HexDigitValue(literal[1]) * 16 + HexDigitValue(literal[2]) == r
    requires HexDigitValue(literal[3]) * 16 + HexDigitValue(literal[4]) == g
    requires HexDigitValue(literal[5]) * 16 + HexDigitValue(literal[6]) == b
    ensures ColorFromHex(literal) == Some(Rgba(r, g, b, 255))
  {
    var digits := literal[1..];
    assert ColorFromHex(literal) == ColorFromHex(digits) by {
      assert literal == [literal[0]] + digits;
      ColorFromHexIgnoresLeadingMark('#', digits);
    }
    assert forall k | 0 <= k < 6 :: digits[k] == literal[k + 1];
    SixDigitEntry(digits, r, g, b);
  }

  /** Six hex digits decode to their three byte pairs, with alpha 255. */
  lemma SixDigitEntry(digits: string, r: Byte, g: Byte, b: Byte)
    requires |digits| == 6 && AllHexDigits(digits)
    requires HexDigitValue(digits[0]) * 16 + HexDigitValue(digits[1]) == r
    requires HexDigitValue(digits[2]) * 16 + HexDigitValue(digits[3]) == g
    requires HexDigitValue(digits[4]) * 16 + HexDigitValue(digits[5]) == b
    ensures ColorFromHex(digits) == Some(Rgba(r, g, b, 255))
  {
    assert HexValue(digits[..2]) == r by {
      HexPairValue(digits[..2]);
    }
    assert HexValue(digits[2..4]) == g by {
      HexPairValue(digits[2..4]);
      assert digits[2..4][0] == digits[2] && digits[2..4][1] == digits[3];
    }
    assert HexValue(digits[4..]) == b by {
      HexPairValue(digits[4..]);
      assert digits[4..][0] == digits[4] && digits[4..][1] == digits[5];
    }
    SixDigitColor(digits);
  }
}
