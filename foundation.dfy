/**
 * The handful of Foundation and Swift standard-library text and number
 * routines that the app's logic relies on, modelled on ASCII text:
 * `trimmingCharacters(in:)`, `split(separator:)`, `Double(String)`,
 * `Scanner.scanHexInt64`, `String(format: "%.0f")`, `String(format: "%06X")`,
 * `Int(Double)` and integer interpolation `"\(n)"`.
 */
module Foundation {
  import opened Wrappers

  // ---------------------------------------------------------------------------
  // Character classes
  // ---------------------------------------------------------------------------

  predicate IsDigit(c: char) { '0' <= c <= '9' }

  predicate IsHexDigit(c: char) { IsDigit(c) || 'a' <= c <= 'f' || 'A' <= c <= 'F' }

  predicate IsAlphanumeric(c: char) { IsDigit(c) || 'a' <= c <= 'z' || 'A' <= c <= 'Z' }

  predicate AllDigits(s: string) { forall i :: 0 <= i < |s| ==> IsDigit(s[i]) }

  predicate AllHexDigits(s: string) { forall i :: 0 <= i < |s| ==> IsHexDigit(s[i]) }

  /** The two character sets the app trims with. */
  datatype CharacterSet =
    | Whitespaces              // CharacterSet.whitespaces
    | AlphanumericsInverted    // CharacterSet.alphanumerics.inverted

  predicate InSet(cs: CharacterSet, c: char) {
    match cs
    case Whitespaces => c == ' ' || c == '\t'
    case AlphanumericsInverted => !IsAlphanumeric(c)
  }

  function DigitValue(c: char): (d: nat)
    requires IsDigit(c)
    ensures d < 10
  {
    c as int - '0' as int
  }

  function HexDigitValue(c: char): (d: nat)
    requires IsHexDigit(c)
    ensures d < 16
  {
    if IsDigit(c) then c as int - '0' as int
    else if 'a' <= c <= 'f' then c as int - 'a' as int + 10
    else c as int - 'A' as int + 10
  }

  function Pow(b: nat, n: nat): (r: nat)
    ensures b > 0 ==> r > 0
  {
    if n == 0 then 1 else b * Pow(b, n - 1)
  }

  /** A power does not shrink when the exponent grows. */
  lemma {:induction false} PowMonotone(b: nat, k: nat, m: nat)
    requires b > 0 && k <= m
    ensures Pow(b, k) <= Pow(b, m)
    decreases m
  {
    if k < m {
      PowMonotone(b, k, m - 1);
      assert Pow(b, m) == b * Pow(b, m - 1);
    }
  }

  // ---------------------------------------------------------------------------
  // trimmingCharacters(in:)
  // ---------------------------------------------------------------------------

  /** `s` without its leading run of characters from `cs`. */
  function DropLeading(s: string, cs: CharacterSet): (r: string)
    ensures |r| <= |s| && r == s[|s| - |r|..]
    ensures forall i :: 0 <= i < |s| - |r| ==> InSet(cs, s[i])
    ensures r != [] ==> !InSet(cs, r[0])
    decreases |s|
  {
    if s != [] && InSet(cs, s[0]) then DropLeading(s[1..], cs) else s
  }

  /** `s` without its trailing run of characters from `cs`. */
  function DropTrailing(s: string, cs: CharacterSet): (r: string)
    ensures |r| <= |s| && r == s[..|r|]
    ensures forall i :: |r| <= i < |s| ==> InSet(cs, s[i])
    ensures r != [] ==> !InSet(cs, r[|r| - 1])
    decreases |s|
  {
    if s != [] && InSet(cs, s[|s| - 1]) then DropTrailing(s[..|s| - 1], cs) else s
  }

  /** `s.trimmingCharacters(in: cs)`: the characters of `cs` are removed at both ends only. */
  function Trimming(s: string, cs: CharacterSet): string {
    DropTrailing(DropLeading(s, cs), cs)
  }

  /** Where the kept slice of `s.trimmingCharacters(in: cs)` starts. */
  function TrimStart(s: string, cs: CharacterSet): nat {
    |s| - |DropLeading(s, cs)|
  }

  /** Trimming keeps one contiguous slice of `s`, the one that starts after the leading run of `cs`. */
  lemma TrimmingIsMiddleSlice(s: string, cs: CharacterSet)
    ensures TrimStart(s, cs) + |Trimming(s, cs)| <= |s|
    ensures Trimming(s, cs) == s[TrimStart(s, cs)..TrimStart(s, cs) + |Trimming(s, cs)|]
  {
    var l := DropLeading(s, cs);
    var r := DropTrailing(l, cs);
    var i := |s| - |l|;
    assert r == l[..|r|] && l == s[i..];
  }

  /** Everything trimming cuts off, at either end, is in `cs`. */
  lemma TrimmingCutsOnlySet(s: string, cs: CharacterSet, k: nat)
    requires k < TrimStart(s, cs) || TrimStart(s, cs) + |Trimming(s, cs)| <= k < |s|
    ensures InSet(cs, s[k])
  {
    var l := DropLeading(s, cs);
    var r := DropTrailing(l, cs);
    var i := |s| - |l|;
    if k >= i {
      assert l == s[i..];
      assert s[k] == l[k - i];
    }
  }

  /** What is left after trimming neither starts nor ends with a member of `cs`. */
  lemma TrimmingEndsOutsideSet(s: string, cs: CharacterSet)
    ensures var r := Trimming(s, cs);
      r != [] ==> !InSet(cs, r[0]) && !InSet(cs, r[|r| - 1])
  {
    var l := DropLeading(s, cs);
    var r := DropTrailing(l, cs);
    if r != [] {
      assert r[0] == l[0];
    }
  }

  /** Text that is cut off by trimming at the front does not change the result. */
  lemma TrimmingSkipsLeading(c: char, s: string, cs: CharacterSet)
    requires InSet(cs, c)
    ensures Trimming([c] + s, cs) == Trimming(s, cs)
  {
    assert ([c] + s)[1..] == s;
  }

  /** Text that is cut off by trimming at the back does not change the result. */
  lemma {:induction false} TrimmingSkipsTrailing(s: string, c: char, cs: CharacterSet)
    requires InSet(cs, c)
    ensures Trimming(s + [c], cs) == Trimming(s, cs)
    decreases |s|
  {
    var t := s + [c];
    if s == [] {
      assert t == [c];
    } else if InSet(cs, s[0]) {
      TrimmingDropsFirst(t, cs);
      assert t[1..] == s[1..] + [c];
      TrimmingDropsFirst(s, cs);
      TrimmingSkipsTrailing(s[1..], c, cs);
    } else {
      TrimmingSkipsTrailingKeptFront(s, c, cs);
    }
  }

  /** A leading member of `cs` is trimmed away. */
  lemma TrimmingDropsFirst(t: string, cs: CharacterSet)
    requires t != [] && InSet(cs, t[0])
    ensures Trimming(t, cs) == Trimming(t[1..], cs)
  {
  }

  /** When the front is kept, only the back is trimmed, and a trailing member of `cs` goes with it. */
  lemma TrimmingSkipsTrailingKeptFront(s: string, c: char, cs: CharacterSet)
    requires s != [] && !InSet(cs, s[0]) && InSet(cs, c)
    ensures Trimming(s + [c], cs) == Trimming(s, cs)
  {
    var t := s + [c];
    assert DropLeading(t, cs) == t by {
      assert t[0] == s[0];
    }
    assert DropLeading(s, cs) == s;
    assert DropTrailing(t, cs) == DropTrailing(s, cs) by {
      assert t[..|t| - 1] == s;
    }
  }

  /** A string that neither starts nor ends with a member of `cs` is left alone. */
  lemma TrimmingUntouched(s: string, cs: CharacterSet)
    requires s != [] ==> !InSet(cs, s[0]) && !InSet(cs, s[|s| - 1])
    ensures Trimming(s, cs) == s
  {
  }

  // ---------------------------------------------------------------------------
  // split(separator:), which omits empty pieces
  // ---------------------------------------------------------------------------

  /** First index of `c` in `s`, or `|s|` when there is none. */
  function IndexOf(s: string, c: char): (k: nat)
    ensures k <= |s|
    ensures forall i :: 0 <= i < k ==> s[i] != c
    ensures k < |s| ==> s[k] == c
    decreases |s|
  {
    if s == [] then 0 else if s[0] == c then 0 else 1 + IndexOf(s[1..], c)
  }

  /** `s.split(separator: sep)`: the non-empty runs between separators, in order. */
  function Split(s: string, sep: char): (r: seq<string>)
    ensures forall i :: 0 <= i < |r| ==> r[i] != [] && sep !in r[i]
    decreases |s|
  {
    if s == [] then []
    else
      var k := IndexOf(s, sep);
      if k == |s| then [s]
      else if k == 0 then Split(s[1..], sep)
      else [s[..k]] + Split(s[k + 1..], sep)
  }

  /** Two non-empty pieces joined by one separator split back into exactly those pieces. */
  lemma {:induction false} SplitOnce(a: string, b: string, sep: char)
    requires a != [] && b != [] && sep !in a && sep !in b
    ensures Split(a + [sep] + b, sep) == [a, b]
  {
    var s := a + [sep] + b;
    assert forall i :: 0 <= i < |a| ==> s[i] == a[i];
    assert s[|a|] == sep;
    var k := IndexOf(s, sep);
    assert k == |a|;
    assert s[..k] == a;
    assert s[k + 1..] == b;
    assert IndexOf(b, sep) == |b|;
  }

  // ---------------------------------------------------------------------------
  // Double(String), for plain decimals
  // ---------------------------------------------------------------------------

  /** The value of a string of decimal digits, most significant first. */
  function DigitsValue(s: string): (n: nat)
    requires AllDigits(s)
    ensures n < Pow(10, |s|)
    decreases |s|
  {
    if s == [] then 0 else DigitsValue(s[..|s| - 1]) * 10 + DigitValue(s[|s| - 1])
  }

  /**
   * A decimal without a sign: digits, optionally a point and more digits,
   * with at least one digit in all (`16`, `1.618`, `1.`, `.5`).
   */
  function UnsignedDecimal(s: string): (r: Option<real>)
    ensures r.Some? ==> r.value >= 0.0
    ensures AllDigits(s) && s != [] ==> r == Some(DigitsValue(s) as real)
  {
    var k := IndexOf(s, '.');
    var whole, fraction := s[..k], if k < |s| then s[k + 1..] else [];
    assert AllDigits(s) ==> k == |s| && whole == s && fraction == [];
    if !AllDigits(whole) || !AllDigits(fraction) || (whole == [] && fraction == []) then None
    else Some(DecimalValue(whole, fraction))
  }

  /** The number written `whole.fraction`. */
  function DecimalValue(whole: string, fraction: string): (v: real)
    requires AllDigits(whole) && AllDigits(fraction)
    ensures v >= 0.0
    ensures fraction == [] ==> v == DigitsValue(whole) as real
  {
    var scale := Pow(10, |fraction|) as real;
    assert DigitsValue(fraction) as real / scale >= 0.0;
    DigitsValue(whole) as real + DigitsValue(fraction) as real / scale
  }

  /**
   * `Double(s)` for decimal text with an optional leading `+` or `-`; every
   * other text (spaces, exponents, `inf`, `nan`, hex floats) is refused.
   */
  function ParseDouble(s: string): (r: Option<real>)
    ensures AllDigits(s) && s != [] ==> r == Some(DigitsValue(s) as real)
    ensures r.Some? && r.value < 0.0 ==> s != [] && s[0] == '-'
  {
    if s != [] && (s[0] == '-' || s[0] == '+') then
      match UnsignedDecimal(s[1..])
      case Some(v) => Some(if s[0] == '-' then -v else v)
      case None => None
    else
      UnsignedDecimal(s)
  }

  // ---------------------------------------------------------------------------
  // Number formatting and conversion
  // ---------------------------------------------------------------------------

  /**
   * The whole number `String(format: "%.0f", x)` prints: the nearest integer,
   * halves going to the even neighbour.
   */
  function RoundedWhole(x: real): (n: int)
    ensures -0.5 <= n as real - x <= 0.5
    ensures n as real - x == 0.5 || x - n as real == 0.5 ==> n % 2 == 0
  {
    var f := x.Floor;
    var d := x - f as real;
    if d < 0.5 then f
    else if d > 0.5 then f + 1
    else if f % 2 == 0 then f else f + 1
  }

  /** `Int(x)`: truncation toward zero. */
  function TruncatedToInt(x: real): (n: int)
    ensures x >= 0.0 ==> 0.0 <= n as real <= x < n as real + 1.0
    ensures x < 0.0 ==> n as real - 1.0 < x <= n as real <= 0.0
  {
    if x >= 0.0 then x.Floor else -((-x).Floor)
  }

  function DigitChar(d: nat): (c: char)
    requires d < 10
    ensures IsDigit(c) && DigitValue(c) == d
  {
    "0123456789"[d]
  }

  /** The decimal digits of `n`, without leading zeros. */
  function NatDescription(n: nat): (s: string)
    ensures s != [] && AllDigits(s)
    decreases n
  {
    if n < 10 then [DigitChar(n)] else NatDescription(n / 10) + [DigitChar(n % 10)]
  }

  /** `"\(n)"` for an `Int`. */
  function IntDescription(n: int): string {
    if n < 0 then "-" + NatDescription(-n) else NatDescription(n)
  }

  /** Reading the digits of `n` back gives `n`. */
  lemma {:induction false} NatDescriptionRoundTrip(n: nat)
    ensures DigitsValue(NatDescription(n)) == n
    decreases n
  {
    var s := NatDescription(n);
    if n >= 10 {
      NatDescriptionRoundTrip(n / 10);
      assert s[..|s| - 1] == NatDescription(n / 10);
    }
  }

  /** The text `"\(n)"` of a whole number reads back, with `Double(_:)`, as that number. */
  lemma IntDescriptionParses(n: int)
    ensures ParseDouble(IntDescription(n)) == Some(n as real)
  {
    var m: nat := if n < 0 then -n else n;
    var digits := NatDescription(m);
    NatDescriptionRoundTrip(m);
    assert UnsignedDecimal(digits) == Some(m as real);
    if n < 0 {
      assert IntDescription(n) == ['-'] + digits;
      assert IntDescription(n)[1..] == digits;
    } else {
      assert IsDigit(digits[0]);
    }
  }

  /** Different numbers print differently. */
  lemma NatDescriptionInjective(m: nat, n: nat)
    requires NatDescription(m) == NatDescription(n)
    ensures m == n
  {
    NatDescriptionRoundTrip(m);
    NatDescriptionRoundTrip(n);
  }

  // ---------------------------------------------------------------------------
  // Hexadecimal text: Scanner.scanHexInt64 and String(format: "%0<w>X")
  // ---------------------------------------------------------------------------

  /** The value of a string of hex digits, most significant first. */
  function HexValue(s: string): (n: nat)
    requires AllHexDigits(s)
    ensures n < Pow(16, |s|)
    decreases |s|
  {
    if s == [] then 0 else HexValue(s[..|s| - 1]) * 16 + HexDigitValue(s[|s| - 1])
  }

  /** Length of the run of hex digits at the start of `s`. */
  function HexRun(s: string): (k: nat)
    ensures k <= |s| && AllHexDigits(s[..k])
    ensures k < |s| ==> !IsHexDigit(s[k])
    decreases |s|
  {
    if s != [] && IsHexDigit(s[0]) then
      var k := 1 + HexRun(s[1..]);
      assert s[..k] == [s[0]] + s[1..][..k - 1];
      k
    else 0
  }

  /**
   * The number `Scanner(string: s).scanHexInt64(&int)` leaves in `int` when it
   * starts at 0: an optional `0x`/`0X` prefix, then the hex digits up to the
   * first character that is not one; 0 when there are none.
   */
  function ScanHex(s: string): (n: nat)
    ensures n < Pow(16, |s|)
    ensures AllHexDigits(s) ==> n == HexValue(s)
  {
    var body := if |s| >= 3 && s[0] == '0' && (s[1] == 'x' || s[1] == 'X') && IsHexDigit(s[2]) then s[2..] else s;
    var k := HexRun(body);
    assert AllHexDigits(s) ==> body == s && k == |s| && s[..k] == s;
    PowMonotone(16, k, |s|);
    HexValue(body[..k])
  }

  /** The upper-case hex digit of `d`. */
  function UpperHexChar(d: nat): (c: char)
    requires d < 16
    ensures IsHexDigit(c) && HexDigitValue(c) == d && !('a' <= c <= 'z')
  {
    "0123456789ABCDEF"[d]
  }

  /** The `width` lowest hex digits of `n`, upper case, most significant first. */
  function HexDigits(n: nat, width: nat): (s: string)
    ensures |s| == width && AllHexDigits(s)
    ensures forall i :: 0 <= i < |s| ==> IsDigit(s[i]) || 'A' <= s[i] <= 'F'
    decreases width
  {
    if width == 0 then [] else HexDigits(n / 16, width - 1) + [UpperHexChar(n % 16)]
  }

  /** `String(format: "%0<width>X", n)` for a number that fits in `width` digits. */
  function FormatHex(n: nat, width: nat): (s: string)
    requires n < Pow(16, width)
    ensures |s| == width && AllHexDigits(s)
    ensures HexValue(s) == n
  {
    HexDigitsRoundTrip(n, width);
    HexDigits(n, width)
  }

  /** Reading back the `width` digits of a number that fits in them gives the number. */
  lemma {:induction false} HexDigitsRoundTrip(n: nat, width: nat)
    requires n < Pow(16, width)
    ensures HexValue(HexDigits(n, width)) == n
    decreases width
  {
    if width > 0 {
      var s := HexDigits(n, width);
      assert s[..|s| - 1] == HexDigits(n / 16, width - 1);
      HexDigitsRoundTrip(n / 16, width - 1);
    }
  }
}
