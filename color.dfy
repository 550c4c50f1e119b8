/**
 * The colour helpers nested inside prompt generation: parsing the
 * background's hex colour into three byte channels, and bucketing the green
 * channel into a coarse shade word.
 */
module ColorConverter {
  import opened Wrappers

  datatype Rgb = Rgb(r: int, g: int, b: int)

  predicate IsByte(n: int) {
    0 <= n < 256
  }

  predicate InRange(c: Rgb) {
    IsByte(c.r) && IsByte(c.g) && IsByte(c.b)
  }

  /** The regular-expression class `[a-f\d]` under the case-insensitive flag. */
  predicate IsHexDigit(c: char) {
    '0' <= c <= '9' || 'a' <= c <= 'f' || 'A' <= c <= 'F'
  }

  function HexDigitValue(c: char): (v: nat)
    requires IsHexDigit(c)
    ensures v < 16
  {
    if '0' <= c <= '9' then c as int - '0' as int
    else if 'a' <= c <= 'f' then c as int - 'a' as int + 10
    else c as int - 'A' as int + 10
  }

  /** `parseInt(pair, 16)` for a two-character capture group of hex digits. */
  function PairValue(hi: char, lo: char): (v: nat)
    requires IsHexDigit(hi) && IsHexDigit(lo)
    ensures IsByte(v)
  {
    16 * HexDigitValue(hi) + HexDigitValue(lo)
  }

  predicate SixHexDigits(s: string) {
    |s| == 6 && forall i :: 0 <= i < 6 ==> IsHexDigit(s[i])
  }

  /** The strings the pattern `^#?([a-f\d]{2}){3}$` (flag i) accepts: an optional '#' and exactly six hex digits. */
  predicate IsHexColor(s: string) {
    SixHexDigits(s) || (|s| == 7 && s[0] == '#' && SixHexDigits(s[1..]))
  }

  /**
   * hexToRgb: the three channels of a hex colour, or None (where the
   * JavaScript `hexToRgb` returns null) when the string has any other shape.
   */
  function HexToRgb(hex: string): (rgb: Option<Rgb>)
    ensures rgb.Some? <==> IsHexColor(hex)
    ensures rgb.Some? ==> InRange(rgb.value)
    ensures rgb.Some? ==>
      var d := hex[|hex| - 6..];
      rgb.value == Rgb(PairValue(d[0], d[1]), PairValue(d[2], d[3]), PairValue(d[4], d[5]))
  {
    var digits := if |hex| > 0 && hex[0] == '#' then hex[1..] else hex;
    if SixHexDigits(digits) then
      Some(Rgb(PairValue(digits[0], digits[1]), PairValue(digits[2], digits[3]), PairValue(digits[4], digits[5])))
    else
      None
  }

  datatype Shade = Bright | Medium | Dark

  function ShadeName(s: Shade): string {
    match s
    case Bright => "bright"
    case Medium => "medium"
    case Dark => "dark"
  }

  /** greenShade: above 200 is bright, above 150 is medium, anything else dark. */
  function GreenShade(g: int): (s: Shade)
    ensures s == Bright <==> g > 200
    ensures s == Medium <==> 150 < g <= 200
    ensures s == Dark <==> g <= 150
  {
    if g > 200 then Bright else if g > 150 then Medium else Dark
  }

  /** Shades ordered from dark to bright. */
  function ShadeRank(s: Shade): nat {
    match s
    case Dark => 0
    case Medium => 1
    case Bright => 2
  }

  lemma ShadeBoundaries()
    ensures GreenShade(150) == Dark && GreenShade(151) == Medium
    ensures GreenShade(200) == Medium && GreenShade(201) == Bright
  {
  }

  /** A greener backdrop never gets a darker shade word. */
  lemma GreenShadeMonotone(g1: int, g2: int)
    requires g1 <= g2
    ensures ShadeRank(GreenShade(g1)) <= ShadeRank(GreenShade(g2))
  {
  }

  // The colour picker's value format: '#' and six lower-case hex digits.

  predicate IsLowerHexDigit(c: char) {
    '0' <= c <= '9' || 'a' <= c <= 'f'
  }

  /** The strings a colour picker delivers. */
  predicate IsPickerColor(s: string) {
    |s| == 7 && s[0] == '#' && forall i :: 1 <= i < 7 ==> IsLowerHexDigit(s[i])
  }

  function LowerHexDigit(v: nat): (c: char)
    requires v < 16
    ensures IsHexDigit(c) && HexDigitValue(c) == v
  {
    if v < 10 then ('0' as int + v) as char else ('a' as int + v - 10) as char
  }

  lemma LowerHexDigitIsLower(v: nat)
    requires v < 16
    ensures IsLowerHexDigit(LowerHexDigit(v))
  {
  }

  function ByteToHex(n: int): (s: string)
    requires IsByte(n)
    ensures |s| == 2 && IsHexDigit(s[0]) && IsHexDigit(s[1]) && PairValue(s[0], s[1]) == n
  {
    [LowerHexDigit(n / 16), LowerHexDigit(n % 16)]
  }

  /** The `#rrggbb` string a colour picker delivers for a colour. */
  function RgbToHex(c: Rgb): (s: string)
    requires InRange(c)
    ensures |s| == 7 && s[0] == '#' && IsHexColor(s)
  {
    "#" + ByteToHex(c.r) + ByteToHex(c.g) + ByteToHex(c.b)
  }

  /** The picker spells every colour in lower-case digits. */
  lemma RgbToHexIsPickerColor(c: Rgb)
    requires InRange(c)
    ensures IsPickerColor(RgbToHex(c))
  {
    var s := RgbToHex(c);
    LowerHexDigitIsLower(c.r / 16);
    LowerHexDigitIsLower(c.r % 16);
    LowerHexDigitIsLower(c.g / 16);
    LowerHexDigitIsLower(c.g % 16);
    LowerHexDigitIsLower(c.b / 16);
    LowerHexDigitIsLower(c.b % 16);
    assert s[1..3] == ByteToHex(c.r) && s[3..5] == ByteToHex(c.g) && s[5..] == ByteToHex(c.b);
  }

  /** Every colour the picker can deliver parses back to that colour. */
  lemma HexRoundTrip(c: Rgb)
    requires InRange(c)
    ensures HexToRgb(RgbToHex(c)) == Some(c)
  {
    var s := RgbToHex(c);
    var d := s[1..];
    assert d == ByteToHex(c.r) + ByteToHex(c.g) + ByteToHex(c.b);
    assert d[0..2] == ByteToHex(c.r) && d[2..4] == ByteToHex(c.g) && d[4..6] == ByteToHex(c.b);
  }

  function ToLower(c: char): char {
    if 'A' <= c <= 'Z' then (c as int - 'A' as int + 'a' as int) as char else c
  }

  function Lower(s: string): (t: string)
    ensures |t| == |s| && forall i :: 0 <= i < |s| ==> t[i] == ToLower(s[i])
  {
    seq(|s|, i requires 0 <= i < |s| => ToLower(s[i]))
  }

  lemma ToLowerHex(c: char)
    ensures IsHexDigit(ToLower(c)) <==> IsHexDigit(c)
    ensures IsHexDigit(c) ==> HexDigitValue(ToLower(c)) == HexDigitValue(c)
  {
  }

  /** The match is case-insensitive: upper- and lower-case spellings parse alike. */
  lemma HexToRgbIgnoresCase(s: string)
    ensures HexToRgb(Lower(s)) == HexToRgb(s)
  {
    var t := Lower(s);
    forall i | 0 <= i < |s|
      ensures IsHexDigit(t[i]) <==> IsHexDigit(s[i])
      ensures IsHexDigit(s[i]) ==> HexDigitValue(t[i]) == HexDigitValue(s[i])
    {
      ToLowerHex(s[i]);
    }
    assert IsHexColor(t) <==> IsHexColor(s) by {
      if |s| == 7 {
        assert SixHexDigits(t[1..]) <==> SixHexDigits(s[1..]) by {
          forall i | 0 <= i < 6 ensures t[1..][i] == t[i + 1] && s[1..][i] == s[i + 1] { }
        }
      }
    }
  }

  /** The picker's digit for the value of a hex digit is that digit, lower-cased. */
  lemma LowerOfValue(c: char)
    requires IsHexDigit(c)
    ensures LowerHexDigit(HexDigitValue(c)) == ToLower(c)
  {
  }

  lemma PairDivMod(hi: nat, lo: nat)
    requires hi < 16 && lo < 16
    ensures (16 * hi + lo) / 16 == hi && (16 * hi + lo) % 16 == lo
  {
  }

  /** The picker spells the value of a hex pair as that pair, lower-cased. */
  lemma PairSpelling(hi: char, lo: char)
    requires IsHexDigit(hi) && IsHexDigit(lo)
    ensures ByteToHex(PairValue(hi, lo)) == [ToLower(hi), ToLower(lo)]
  {
    PairDivMod(HexDigitValue(hi), HexDigitValue(lo));
    LowerOfValue(hi);
    LowerOfValue(lo);
  }

  /** A successful parse determines the digits: the picker's spelling of the result is the input's, lower-cased, with '#'. */
  lemma HexToRgbCanonical(s: string)
    requires HexToRgb(s).Some?
    ensures RgbToHex(HexToRgb(s).value) == "#" + Lower(s[|s| - 6..])
  {
    var d := s[|s| - 6..];
    assert SixHexDigits(d);
    var c := HexToRgb(s).value;
    var l := Lower(d);
    assert ByteToHex(c.r) == l[0..2] by {
      PairSpelling(d[0], d[1]);
    }
    assert ByteToHex(c.g) == l[2..4] by {
      PairSpelling(d[2], d[3]);
    }
    assert ByteToHex(c.b) == l[4..6] by {
      PairSpelling(d[4], d[5]);
    }
    assert l == l[0..2] + l[2..4] + l[4..6];
  }

  /**
   * The picker's strings are exactly those that parse and are the picker's
   * spelling of the colour they parse to.
   */
  lemma PickerColorIff(s: string)
    ensures IsPickerColor(s) <==> HexToRgb(s).Some? && RgbToHex(HexToRgb(s).value) == s
  {
    if IsPickerColor(s) {
      assert SixHexDigits(s[1..]) by {
        forall i | 0 <= i < 6 ensures IsHexDigit(s[1..][i]) {
          assert s[1..][i] == s[i + 1];
        }
      }
      HexToRgbCanonical(s);
      assert Lower(s[1..]) == s[1..];
      assert "#" + s[1..] == s;
    }
    if HexToRgb(s).Some? {
      RgbToHexIsPickerColor(HexToRgb(s).value);
    }
  }

  /** The default background '#00b300' has green channel 179, a medium shade. */
  lemma DefaultBackdropIsMedium()
    ensures HexToRgb("#00b300") == Some(Rgb(0, 179, 0))
    ensures GreenShade(179) == Medium
  {
  }

  /** Shorthand, stray characters and a doubled '#' are rejected; the '#' is optional and case does not matter. */
  lemma HexToRgbExamples()
    ensures HexToRgb("#0b0") == None
    ensures HexToRgb("#00b30g") == None
    ensures HexToRgb("##00b300") == None
    ensures HexToRgb("#00b3000") == None
    ensures HexToRgb("00B300") == Some(Rgb(0, 179, 0))
  {
  }
}
