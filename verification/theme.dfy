/**
  `Color(hex:)`: the integer channels it computes before scaling them to
  `Double` (the division by 255 is left out), and `resolve(in:)`.
  `Scanner.scanHexInt64` is modelled as reading an optional `0x`/`0X`
  prefix and then the longest run of hex digits, with 0 when there is none.
 */
module Theme {
  import opened Text

  datatype ColorScheme = Light | Dark

  /** The four channels, each meant to lie in 0...255. */
  datatype Rgba = Rgba(r: int, g: int, b: int, a: int)

  predicate InByteRange(c: Rgba)
  {
    0 <= c.r <= 255 && 0 <= c.g <= 255 && 0 <= c.b <= 255 && 0 <= c.a <= 255
  }

  predicate IsHexDigit(c: char)
  {
    IsDigit(c) || ('a' <= c <= 'f') || ('A' <= c <= 'F')
  }

  function HexDigitValue(c: char): (v: nat)
    requires IsHexDigit(c)
    ensures v < 16
  {
    if IsDigit(c) then c as int - '0' as int
    else if 'a' <= c <= 'f' then c as int - 'a' as int + 10
    else c as int - 'A' as int + 10
  }

  predicate AllHexDigits(s: string)
  {
    forall i :: 0 <= i < |s| ==> IsHexDigit(s[i])
  }

  function Pow16(n: nat): (p: nat)
    ensures p >= 1
  {
    if n == 0 then 1 else 16 * Pow16(n - 1)
  }

  /** The number a run of hex digits spells, most significant digit first. */
  function HexValue(digits: string): (v: nat)
    requires AllHexDigits(digits)
    ensures v < Pow16(|digits|)
  {
    if digits == [] then 0
    else
      var init := digits[..|digits| - 1];
      assert AllHexDigits(init) by {
        forall i | 0 <= i < |init| ensures IsHexDigit(init[i]) {
          assert init[i] == digits[i];
        }
      }
      HexValue(init) * 16 + HexDigitValue(digits[|digits| - 1])
  }

  /** Length of the leading run of hex digits. */
  function HexRunLength(s: string): (n: nat)
    ensures n <= |s| && AllHexDigits(s[..n])
    ensures n < |s| ==> !IsHexDigit(s[n])
  {
    if s == [] || !IsHexDigit(s[0]) then 0
    else
      var n := 1 + HexRunLength(s[1..]);
      assert s[..n] == [s[0]] + s[1..][..n - 1];
      n
  }

  /** Where the digits start: after a `0x` or `0X` prefix, when there is one. */
  function DigitsStart(s: string): (k: nat)
    ensures k <= |s|
  {
    if |s| >= 2 && s[0] == '0' && (s[1] == 'x' || s[1] == 'X') then 2 else 0
  }

  /** `Scanner(string:).scanHexInt64(&int)`: the value read, 0 when nothing could be read. */
  function ScanHex(s: string): (v: nat)
    ensures v < Pow16(|s|)
  {
    var k := DigitsStart(s);
    var rest := s[k..];
    var n := HexRunLength(rest);
    PowMonotone(n, |s|);
    HexValue(rest[..n])
  }

  lemma {:induction false} PowMonotone(m: nat, n: nat)
    requires m <= n
    ensures Pow16(m) <= Pow16(n)
    decreases n
  {
    if m < n {
      PowMonotone(m, n - 1);
    }
  }

  /** `CharacterSet.alphanumerics.inverted`, on ASCII. */
  predicate NotAlphanumeric(c: char)
  {
    !IsAlphanumeric(c)
  }

  /** The text left for parsing: leading and trailing non-alphanumerics removed. */
  function CleanHex(hex: string): string
  {
    Trim(hex, NotAlphanumeric)
  }

  /** The 12-bit case: each nibble times 17, fully opaque. */
  function Channels12(v: nat): (c: Rgba)
    requires v < 4096
    ensures InByteRange(c)
  {
    Rgba((v / 256) * 17, (v / 16 % 16) * 17, (v % 16) * 17, 255)
  }

  /** The 24-bit case: the three bytes from the top, fully opaque. */
  function Channels24(v: nat): (c: Rgba)
    requires v < 16777216
    ensures InByteRange(c)
  {
    Rgba(v / 65536, v / 256 % 256, v % 256, 255)
  }

  /** The 32-bit case: the top byte is red and the lowest byte is alpha. */
  function Channels32(v: nat): (c: Rgba)
    requires v < 4294967296
    ensures InByteRange(c)
  {
    Rgba(v / 16777216, v / 65536 % 256, v / 256 % 256, v % 256)
  }

  /** The channels for an already cleaned text, picked by its length. */
  function ChannelsOf(t: string): (c: Rgba)
    ensures InByteRange(c)
    ensures |t| !in {3, 6, 8} ==> c == Rgba(0, 0, 0, 255)
    ensures |t| != 8 ==> c.a == 255
  {
    var v := ScanHex(t);
    if |t| == 3 then
      assert Pow16(3) == 4096;
      Channels12(v)
    else if |t| == 6 then
      assert Pow16(6) == 16777216;
      Channels24(v)
    else if |t| == 8 then
      assert Pow16(8) == 4294967296;
      Channels32(v)
    else Rgba(0, 0, 0, 255)
  }

  /** `Color(hex:)`'s integer channels: clean the text, then read it by its length. */
  function FromHex(hex: string): (c: Rgba)
    ensures InByteRange(c)
    ensures |CleanHex(hex)| !in {3, 6, 8} ==> c == Rgba(0, 0, 0, 255)
    ensures |CleanHex(hex)| != 8 ==> c.a == 255
  {
    ChannelsOf(CleanHex(hex))
  }

  /** A leading `#` (or any other non-alphanumeric) is stripped before parsing. */
  lemma LeadingSymbolIgnored(c: char, hex: string)
    requires NotAlphanumeric(c)
    ensures FromHex([c] + hex) == FromHex(hex)
  {
    CleanHexSkipsSymbol(c, hex);
  }

  lemma CleanHexSkipsSymbol(c: char, hex: string)
    requires NotAlphanumeric(c)
    ensures CleanHex([c] + hex) == CleanHex(hex)
  {
    assert ([c] + hex)[1..] == hex;
    assert TrimStart([c] + hex, NotAlphanumeric) == TrimStart(hex, NotAlphanumeric);
  }

  /** Two hex digits read as one byte. */
  function ByteOf(hi: char, lo: char): (v: nat)
    requires IsHexDigit(hi) && IsHexDigit(lo)
    ensures v < 256
  {
    HexDigitValue(hi) * 16 + HexDigitValue(lo)
  }

  /** Three digits: each digit repeated (times 17) gives red, green and blue; fully opaque. */
  lemma ThreeDigits(hex: string)
    requires |CleanHex(hex)| == 3 && AllHexDigits(CleanHex(hex))
    ensures var t := CleanHex(hex);
            FromHex(hex) == Rgba(HexDigitValue(t[0]) * 17, HexDigitValue(t[1]) * 17, HexDigitValue(t[2]) * 17, 255)
  {
    ThreeDigitsClean(CleanHex(hex));
  }

  lemma ThreeDigitsClean(t: string)
    requires |t| == 3 && AllHexDigits(t)
    ensures ChannelsOf(t) == Rgba(HexDigitValue(t[0]) * 17, HexDigitValue(t[1]) * 17, HexDigitValue(t[2]) * 17, 255)
  {
    ScanAllDigits(t);
    HexValueThree(t);
    Nibbles12(HexDigitValue(t[0]), HexDigitValue(t[1]), HexDigitValue(t[2]));
  }

  lemma Nibbles12(d0: nat, d1: nat, d2: nat)
    requires d0 < 16 && d1 < 16 && d2 < 16
    ensures var v := d0 * 256 + d1 * 16 + d2;
            v < 4096 && Channels12(v) == Rgba(d0 * 17, d1 * 17, d2 * 17, 255)
  {
    var v := d0 * 256 + d1 * 16 + d2;
    assert v / 256 == d0 && v % 256 == d1 * 16 + d2;
    assert v / 16 == d0 * 16 + d1 && v % 16 == d2;
    assert v / 16 % 16 == d1;
  }

  /** Six digits: red, green and blue bytes in order; fully opaque. */
  lemma SixDigits(hex: string)
    requires |CleanHex(hex)| == 6 && AllHexDigits(CleanHex(hex))
    ensures var t := CleanHex(hex);
            FromHex(hex) == Rgba(ByteOf(t[0], t[1]), ByteOf(t[2], t[3]), ByteOf(t[4], t[5]), 255)
  {
    SixDigitsClean(CleanHex(hex));
  }

  lemma SixDigitsClean(t: string)
    requires |t| == 6 && AllHexDigits(t)
    ensures ChannelsOf(t) == Rgba(ByteOf(t[0], t[1]), ByteOf(t[2], t[3]), ByteOf(t[4], t[5]), 255)
  {
    ScanAllDigits(t);
    SixDigitValue(t);
    Bytes24(ByteOf(t[0], t[1]), ByteOf(t[2], t[3]), ByteOf(t[4], t[5]));
  }

  lemma SixDigitValue(t: string)
    requires |t| == 6 && AllHexDigits(t)
    ensures HexValue(t) == (ByteOf(t[0], t[1]) * 256 + ByteOf(t[2], t[3])) * 256 + ByteOf(t[4], t[5])
  {
    HexValueBytes(t[..4]);
    HexValueBytes(t);
    assert t[..4][..2] == t[..2] && t[..2][..0] == [];
    HexValueBytes(t[..2]);
  }

  lemma Bytes24(b0: nat, b1: nat, b2: nat)
    requires b0 < 256 && b1 < 256 && b2 < 256
    ensures var v := (b0 * 256 + b1) * 256 + b2;
            v < 16777216 && Channels24(v) == Rgba(b0, b1, b2, 255)
  {
    var v := (b0 * 256 + b1) * 256 + b2;
    assert v / 256 == b0 * 256 + b1 && v % 256 == b2;
    assert v / 256 % 256 == b1;
    assert v / 65536 == b0;
  }

  /**
    Eight digits: red, green, blue, then alpha, so the text is RRGGBBAA
    even though the comment beside the case calls it ARGB.
   */
  lemma EightDigits(hex: string)
    requires |CleanHex(hex)| == 8 && AllHexDigits(CleanHex(hex))
    ensures var t := CleanHex(hex);
            FromHex(hex) == Rgba(ByteOf(t[0], t[1]), ByteOf(t[2], t[3]), ByteOf(t[4], t[5]), ByteOf(t[6], t[7]))
  {
    EightDigitsClean(CleanHex(hex));
  }

  lemma EightDigitsClean(t: string)
    requires |t| == 8 && AllHexDigits(t)
    ensures ChannelsOf(t) == Rgba(ByteOf(t[0], t[1]), ByteOf(t[2], t[3]), ByteOf(t[4], t[5]), ByteOf(t[6], t[7]))
  {
    ScanAllDigits(t);
    EightDigitValue(t);
    Bytes32(ByteOf(t[0], t[1]), ByteOf(t[2], t[3]), ByteOf(t[4], t[5]), ByteOf(t[6], t[7]));
  }

  lemma EightDigitValue(t: string)
    requires |t| == 8 && AllHexDigits(t)
    ensures HexValue(t) == ((ByteOf(t[0], t[1]) * 256 + ByteOf(t[2], t[3])) * 256 + ByteOf(t[4], t[5])) * 256
                           + ByteOf(t[6], t[7])
  {
    SixDigitValue(t[..6]);
    HexValueBytes(t);
  }

  /** Four bytes packed most significant first come apart again under the 32-bit case. */
  lemma Bytes32(b0: nat, b1: nat, b2: nat, b3: nat)
    requires b0 < 256 && b1 < 256 && b2 < 256 && b3 < 256
    ensures var v := ((b0 * 256 + b1) * 256 + b2) * 256 + b3;
            v < 4294967296 && Channels32(v) == Rgba(b0, b1, b2, b3)
  {
    var hi := b0 * 256 + b1;
    var v := (hi * 256 + b2) * 256 + b3;
    assert v / 256 == hi * 256 + b2 && v % 256 == b3;
    assert v / 256 % 256 == b2;
    assert v / 65536 == hi;
    assert v / 65536 % 256 == b1;
    assert v / 16777216 == b0;
  }

  /** A text made only of hex digits is read in full (none of them is the `x` of a prefix). */
  lemma ScanAllDigits(t: string)
    requires AllHexDigits(t)
    ensures ScanHex(t) == HexValue(t)
  {
    if |t| >= 2 {
      assert IsHexDigit(t[1]);
    }
    assert DigitsStart(t) == 0 && t[0..] == t;
    assert t[..HexRunLength(t)] == t;
  }

  lemma HexValueThree(t: string)
    requires |t| == 3 && AllHexDigits(t)
    ensures HexValue(t) == HexDigitValue(t[0]) * 256 + HexDigitValue(t[1]) * 16 + HexDigitValue(t[2])
  {
    assert t[..2][..1] == t[..1];
    assert HexValue(t[..1]) == HexDigitValue(t[0]) by { assert t[..1][..0] == []; }
  }

  /** Appending two digits to a digit text appends one byte to its value. */
  lemma HexValueBytes(t: string)
    requires |t| >= 2 && |t| % 2 == 0 && AllHexDigits(t)
    ensures HexValue(t) == HexValue(t[..|t| - 2]) * 256 + ByteOf(t[|t| - 2], t[|t| - 1])
  {
    var n := |t|;
    assert t[..n - 1][..n - 2] == t[..n - 2];
    assert t[..n - 1][n - 2] == t[n - 2];
  }

  /** `resolve(in:)`: both branches return the color itself. */
  function Resolve(c: Rgba, scheme: ColorScheme): (r: Rgba)
    ensures r == c
  {
    if scheme == Dark then c else c
  }
}
