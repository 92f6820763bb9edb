/** The 32-bit packed ARGB colour layout used by the pixel buffers:
    alpha in bits 24-31, red in 16-23, green in 8-15, blue in 0-7.
    Words are signed 32-bit integers, as `Color.ToArgb` returns them. */
module Argb {

  type Byte = x: int | 0 <= x < 0x100
  type Int32 = x: int | -0x8000_0000 <= x < 0x8000_0000

  const Int32Max: int := 0x7FFF_FFFF
  const Two32: int := 0x1_0000_0000

  /** A colour reduced to 8 bits per channel. */
  datatype Color = Color(a: Byte, r: Byte, g: Byte, b: Byte)

  const TransparentBlack := Color(0, 0, 0, 0)
  const White := Color(0xFF, 0xFF, 0xFF, 0xFF)

  /** The bit pattern of a signed word, read as an unsigned number. */
  function Unsigned(w: Int32): (u: int)
    ensures 0 <= u < Two32
    ensures u % Two32 == w % Two32
  {
    if w < 0 then w + Two32 else w
  }

  /** The signed word whose bit pattern is the unsigned number `u`. */
  function Signed(u: int): (w: Int32)
    requires 0 <= u < Two32
    ensures Unsigned(w) == u
  {
    if u < 0x8000_0000 then u else u - Two32
  }

  /** `Color.ToArgb`: packs the four channels into one word. */
  function ToArgb(c: Color): (w: Int32)
    ensures Unsigned(w) == c.a * 0x100_0000 + c.r * 0x1_0000 + c.g * 0x100 + c.b
    ensures w < 0 <==> c.a >= 0x80
  {
    Signed(c.a * 0x100_0000 + c.r * 0x1_0000 + c.g * 0x100 + c.b)
  }

  /** Byte `k` (0 = least significant) of the bit pattern of `w`; this is
      also the byte at address `4*i + k` of a little-endian word buffer. */
  function WordByte(w: Int32, k: nat): Byte
    requires k < 4
  {
    var u := Unsigned(w);
    if k == 0 then u % 0x100
    else if k == 1 then (u / 0x100) % 0x100
    else if k == 2 then (u / 0x1_0000) % 0x100
    else u / 0x100_0000
  }

  /** `Color.FromArgb(int)`: unpacks a word into its four channels. */
  function FromArgb(w: Int32): (c: Color)
    ensures Unsigned(w) == c.a * 0x100_0000 + c.r * 0x1_0000 + c.g * 0x100 + c.b
  {
    BytesCompose(w);
    Color(WordByte(w, 3), WordByte(w, 2), WordByte(w, 1), WordByte(w, 0))
  }

  /** Reassembling the four bytes of a word gives the word back. */
  lemma BytesCompose(w: Int32)
    ensures Unsigned(w) == WordByte(w, 3) * 0x100_0000 + WordByte(w, 2) * 0x1_0000
                           + WordByte(w, 1) * 0x100 + WordByte(w, 0)
  {
    var u := Unsigned(w);
    var q1 := u / 0x100;
    assert u == q1 * 0x100 + u % 0x100;
    var q2 := q1 / 0x100;
    assert q1 == q2 * 0x100 + q1 % 0x100;
    assert q2 == u / 0x1_0000;
    var q3 := q2 / 0x100;
    assert q2 == q3 * 0x100 + q2 % 0x100;
    assert q3 == u / 0x100_0000;
  }

  /** Unpacking a packed colour gives the colour back. */
  lemma FromArgbToArgb(c: Color)
    ensures FromArgb(ToArgb(c)) == c
  {
    var w := ToArgb(c);
    var u := c.a * 0x100_0000 + c.r * 0x1_0000 + c.g * 0x100 + c.b;
    assert Unsigned(w) == u;
    assert u / 0x100 == c.a * 0x1_0000 + c.r * 0x100 + c.g;
    assert u / 0x1_0000 == c.a * 0x100 + c.r;
    assert u / 0x100_0000 == c.a;
  }

  /** Packing an unpacked word gives the word back: every word is a colour. */
  lemma ToArgbFromArgb(w: Int32)
    ensures ToArgb(FromArgb(w)) == w
  {
    BytesCompose(w);
  }

  /** An all-zero word decodes to transparent black. */
  lemma ZeroIsTransparentBlack()
    ensures FromArgb(0) == TransparentBlack
  {
  }

  /** In memory a packed colour is stored blue, green, red, alpha. */
  lemma PackedByteOrder(c: Color)
    ensures WordByte(ToArgb(c), 0) == c.b && WordByte(ToArgb(c), 1) == c.g
    ensures WordByte(ToArgb(c), 2) == c.r && WordByte(ToArgb(c), 3) == c.a
  {
    FromArgbToArgb(c);
  }

  /** The byte view of a buffer of words: 4 bytes per word, little-endian. */
  function LittleEndianBytes(words: seq<Int32>): (bytes: seq<Byte>)
    ensures |bytes| == 4 * |words|
  {
    seq(4 * |words|, i requires 0 <= i < 4 * |words| => WordByte(words[i / 4], i % 4))
  }

  /** Pixel `i` of a word buffer is the colour whose channels are bytes
      `4*i+3`, `4*i+2`, `4*i+1` and `4*i` of its byte view. */
  lemma LittleEndianPixel(words: seq<Int32>, i: int)
    requires 0 <= i < |words|
    ensures FromArgb(words[i]) == Color(LittleEndianBytes(words)[4 * i + 3], LittleEndianBytes(words)[4 * i + 2],
                                        LittleEndianBytes(words)[4 * i + 1], LittleEndianBytes(words)[4 * i])
  {
    var bytes := LittleEndianBytes(words);
    assert (4 * i + 3) / 4 == i && (4 * i + 3) % 4 == 3;
    assert (4 * i + 2) / 4 == i && (4 * i + 2) % 4 == 2;
    assert (4 * i + 1) / 4 == i && (4 * i + 1) % 4 == 1;
    assert (4 * i) / 4 == i && (4 * i) % 4 == 0;
  }
}
