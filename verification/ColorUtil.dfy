/**
 * Colour-int packing and unpacking on 32-bit words.
 *
 * A Java `int` is a 32-bit two's-complement word, so it is modelled as `bv32`;
 * the bits are the same.  A result at most `0xff` has its sign bit clear, so
 * Java reads it as a non-negative number.  Java's `>>` on an
 * `int` is an arithmetic shift (it copies the sign bit in), which Dafny's `>>`
 * on `bv32` is not, so it is written out as `Asr`.
 */
module ColorUtil {

  /** Java's `x >> n` on an `int`: an arithmetic shift right. */
  function Asr(x: bv32, n: bv32): (r: bv32)
    requires n < 32
    // the bits below the vacated ones are those of a logical shift
    ensures r & (0xFFFF_FFFF >> n) == x >> n
    // a non-negative value shifts as a logical shift does
    ensures x & 0x8000_0000 == 0 ==> r == x >> n
  {
    if x & 0x8000_0000 == 0 then x >> n else (x >> n) | !(0xFFFF_FFFF >> n)
  }

  /** The vacated top bits of `Asr` are copies of the sign bit. */
  lemma AsrCopiesSign(x: bv32, n: bv32)
    requires n < 32
    ensures x & 0x8000_0000 == 0 ==> Asr(x, n) & !(0xFFFF_FFFF >> n) == 0
    ensures x & 0x8000_0000 != 0 ==> Asr(x, n) & !(0xFFFF_FFFF >> n) == !(0xFFFF_FFFF >> n)
  {
    if x & 0x8000_0000 == 0 {
      ShiftClearsTop(x, n);
    } else {
      SignFillSetsTop(x, n);
    }
  }

  // Bit facts behind `AsrCopiesSign`, one per lemma: the solver handles each
  // alone quickly but not together.

  lemma ShiftClearsTop(x: bv32, n: bv32)
    requires n < 32
    ensures (x >> n) & !(0xFFFF_FFFF >> n) == 0
  {
  }

  lemma SignFillSetsTop(x: bv32, n: bv32)
    requires n < 32
    ensures ((x >> n) | !(0xFFFF_FFFF >> n)) & !(0xFFFF_FFFF >> n) == !(0xFFFF_FFFF >> n)
  {
  }

  /** `argb(int a, int r, int g, int b)`: one byte per component, alpha on top. */
  function Argb(a: bv32, r: bv32, g: bv32, b: bv32): (color: bv32)
    ensures color >> 24 == a & 0xff
    ensures (color >> 16) & 0xff == r & 0xff
    ensures (color >> 8) & 0xff == g & 0xff
    ensures color & 0xff == b & 0xff
  {
    ((a & 0xff) << 24) | ((r & 0xff) << 16) | ((g & 0xff) << 8) | (b & 0xff)
  }

  /** `rgb(int r, int g, int b)`: an opaque colour. */
  function Rgb(r: bv32, g: bv32, b: bv32): (color: bv32)
    ensures Alpha(color) == 0xff
    ensures Red(color) == r & 0xff && Green(color) == g & 0xff && Blue(color) == b & 0xff
  {
    Argb(255, r, g, b)
  }

  /** `alpha(int color)`: bits 24-31, whatever the sign of the colour. */
  function Alpha(color: bv32): (v: bv32)
    ensures v <= 0xff
    ensures v == color >> 24
  {
    Asr(color, 24) & 0xff
  }

  /** `red(int color)`: bits 16-23. */
  function Red(color: bv32): (v: bv32)
    ensures v <= 0xff
    ensures v == (color >> 16) & 0xff
  {
    Asr(color, 16) & 0xff
  }

  /** `green(int color)`: bits 8-15. */
  function Green(color: bv32): (v: bv32)
    ensures v <= 0xff
    ensures v == (color >> 8) & 0xff
  {
    Asr(color, 8) & 0xff
  }

  /** `blue(int color)`: bits 0-7. */
  function Blue(color: bv32): (v: bv32)
    ensures v <= 0xff
    ensures v == color & 0xff
  {
    color & 0xff
  }

  /** Components already in 0..255 come back unchanged from a packed colour. */
  lemma ComponentsRoundTrip(a: bv32, r: bv32, g: bv32, b: bv32)
    requires a <= 0xff && r <= 0xff && g <= 0xff && b <= 0xff
    ensures Alpha(Argb(a, r, g, b)) == a
    ensures Red(Argb(a, r, g, b)) == r
    ensures Green(Argb(a, r, g, b)) == g
    ensures Blue(Argb(a, r, g, b)) == b
  {
  }

  /** Every 32-bit colour is rebuilt exactly from its four components. */
  lemma ColorRoundTrip(color: bv32)
    ensures Argb(Alpha(color), Red(color), Green(color), Blue(color)) == color
  {
  }

  /** Only the low byte of each argument reaches the packed colour. */
  lemma LowBytesOnly(a: bv32, r: bv32, g: bv32, b: bv32)
    ensures Argb(a, r, g, b) == Argb(a & 0xff, r & 0xff, g & 0xff, b & 0xff)
  {
  }

  const HexDigits: string := "0123456789abcdef"

  /** The lower-case hexadecimal digit for a nibble. */
  function HexDigit(n: bv32): (ch: char)
    requires n < 16
    ensures ch in HexDigits && HexValue(ch) == n
  {
    HexDigits[n as int]
  }

  /** The value of a lower-case hexadecimal digit; the inverse of `HexDigit`. */
  function HexValue(ch: char): (n: bv32)
    requires ch in HexDigits
    ensures n < 16
  {
    match ch
    case '0' => 0x0 case '1' => 0x1 case '2' => 0x2 case '3' => 0x3
    case '4' => 0x4 case '5' => 0x5 case '6' => 0x6 case '7' => 0x7
    case '8' => 0x8 case '9' => 0x9 case 'a' => 0xa case 'b' => 0xb
    case 'c' => 0xc case 'd' => 0xd case 'e' => 0xe case _ => 0xf
  }

  /** The eight nibbles of a word, most significant first. */
  function Nibbles(color: bv32): seq<bv32>
  {
    [(color >> 28) & 0xf, (color >> 24) & 0xf, (color >> 20) & 0xf, (color >> 16) & 0xf,
     (color >> 12) & 0xf, (color >> 8) & 0xf, (color >> 4) & 0xf, color & 0xf]
  }

  /** `toString(int color)`: `#` and `String.format("%08x", color)`, the eight
      nibbles of the word, most significant first, read as unsigned. */
  function ToString(color: bv32): (s: string)
    ensures |s| == 9 && s[0] == '#'
    ensures forall i :: 1 <= i < 9 ==> s[i] in HexDigits
  {
    var ns := Nibbles(color);
    "#" + [HexDigit(ns[0]), HexDigit(ns[1]), HexDigit(ns[2]), HexDigit(ns[3]),
           HexDigit(ns[4]), HexDigit(ns[5]), HexDigit(ns[6]), HexDigit(ns[7])]
  }

  /** Reads lower-case hexadecimal digits back into a word, most significant
      first; the partner of `ToString`. */
  function ParseHex(s: string): (x: bv32)
    requires forall i :: 0 <= i < |s| ==> s[i] in HexDigits
  {
    Assemble(seq(|s|, i requires 0 <= i < |s| => HexValue(s[i])))
  }

  /** Packs nibbles into a word, most significant first. */
  function Assemble(ns: seq<bv32>): bv32
  {
    if ns == [] then 0 else (Assemble(ns[..|ns| - 1]) << 4) | ns[|ns| - 1]
  }

  /** Eight nibbles packed, written out one by one. */
  lemma AssembleEight(ns: seq<bv32>)
    requires |ns| == 8
    ensures Assemble(ns) == ((((((((((((((ns[0] << 4) | ns[1]) << 4) | ns[2]) << 4)
      | ns[3]) << 4) | ns[4]) << 4) | ns[5]) << 4) | ns[6]) << 4) | ns[7])
  {
    assert Assemble([]) == 0;
    var a0 := Assemble(ns[..1]);
    assert ns[..1][..0] == [];
    var a1 := Assemble(ns[..2]);
    assert ns[..2][..1] == ns[..1];
    var a2 := Assemble(ns[..3]);
    assert ns[..3][..2] == ns[..2];
    var a3 := Assemble(ns[..4]);
    assert ns[..4][..3] == ns[..3];
    var a4 := Assemble(ns[..5]);
    assert ns[..5][..4] == ns[..4];
    var a5 := Assemble(ns[..6]);
    assert ns[..6][..5] == ns[..5];
    var a6 := Assemble(ns[..7]);
    assert ns[..7][..6] == ns[..6];
    assert ns[..8][..7] == ns[..7];
    assert ns[..8] == ns;
  }

  /** A word is the eight nibbles it is made of, packed back together. */
  lemma NibblesReassemble(x: bv32)
    ensures ((((((((((((((((x >> 28) & 0xf) << 4) | ((x >> 24) & 0xf)) << 4)
      | ((x >> 20) & 0xf)) << 4) | ((x >> 16) & 0xf)) << 4) | ((x >> 12) & 0xf)) << 4)
      | ((x >> 8) & 0xf)) << 4) | ((x >> 4) & 0xf)) << 4) | (x & 0xf)) == x
  {
  }

  /** Packing the nibbles of a word gives the word back. */
  lemma NibblesAssemble(color: bv32)
    ensures Assemble(Nibbles(color)) == color
  {
    AssembleEight(Nibbles(color));
    NibblesReassemble(color);
  }

  /** Two sequences of eight nibbles that agree at every index are equal. */
  lemma SameEight(a: seq<bv32>, b: seq<bv32>)
    requires |a| == 8 && |b| == 8
    requires a[0] == b[0] && a[1] == b[1] && a[2] == b[2] && a[3] == b[3]
    requires a[4] == b[4] && a[5] == b[5] && a[6] == b[6] && a[7] == b[7]
    ensures a == b
  {
    forall i | 0 <= i < 8
      ensures a[i] == b[i]
    {
      if i < 4 {
      } else {
      }
    }
  }

  /** The eight digits of `ToString` spell the colour exactly. */
  lemma ToStringRoundTrip(color: bv32)
    ensures ParseHex(ToString(color)[1..]) == color
  {
    var s := ToString(color)[1..];
    var ns := seq(|s|, i requires 0 <= i < |s| => HexValue(s[i]));
    var t := Nibbles(color);
    assert ns[0] == t[0] && ns[1] == t[1] && ns[2] == t[2] && ns[3] == t[3];
    assert ns[4] == t[4] && ns[5] == t[5] && ns[6] == t[6] && ns[7] == t[7];
    SameEight(ns, t);
    NibblesAssemble(color);
  }
}
