/**
  The engine's bitmap: a width-by-height grid of 32-bit colours stored row
  by row, and the byte packing that reads and writes one pixel of an image
  surface whose pixels are 1, 2, 3 or 4 bytes wide.
 */
module Bitmap {

  /** An unsigned char. */
  type Byte = x: int | 0 <= x < 0x100

  /** An unsigned int, the width of a stored colour. */
  type Colour = x: int | 0 <= x < 0x1_0000_0000

  /** A bitmap: `pixels[x + y * width]` is the colour at column x, row y. */
  datatype Bitmap = Bitmap(width: int, height: int, pixels: seq<Colour>)

  predicate Valid(b: Bitmap) {
    b.width >= 0 && b.height >= 0 && |b.pixels| == b.width * b.height
  }

  predicate InBounds(b: Bitmap, x: int, y: int) {
    0 <= x < b.width && 0 <= y < b.height
  }

  /** The storage index of pixel (x, y) in a bitmap `width` pixels wide. */
  function Index(width: int, x: int, y: int): int {
    x + y * width
  }

  /** Every in-bounds coordinate lands inside the pixel array. */
  lemma IndexInBounds(width: int, height: int, x: int, y: int)
    requires 0 <= x < width && 0 <= y < height
    ensures 0 <= Index(width, x, y) < width * height
  {
    assert y * width <= (height - 1) * width by {
      MulMonotone(y, height - 1, width);
    }
    assert (height - 1) * width == width * height - width;
  }

  /** Distinct in-bounds coordinates have distinct storage indices. */
  lemma IndexInjective(width: int, x: int, y: int, x': int, y': int)
    requires 0 <= x < width && 0 <= x' < width && 0 <= y && 0 <= y'
    ensures Index(width, x, y) == Index(width, x', y') <==> x == x' && y == y'
  {
    if y < y' {
      assert y * width + width <= y' * width by { MulMonotone(y + 1, y', width); }
    } else if y' < y {
      assert y' * width + width <= y * width by { MulMonotone(y' + 1, y, width); }
    }
  }

  lemma MulMonotone(a: int, b: int, c: int)
    requires a <= b && 0 <= c
    ensures a * c <= b * c
  {
    assert b * c - a * c == (b - a) * c;
  }

  /** bitmap_get_pixel: the colour stored for (x, y). */
  function Get(b: Bitmap, x: int, y: int): (c: Colour)
    requires Valid(b) && InBounds(b, x, y)
  {
    IndexInBounds(b.width, b.height, x, y);
    b.pixels[Index(b.width, x, y)]
  }

  /** bitmap_set_pixel: (x, y) now holds `color`; every other pixel keeps its colour. */
  function Set(b: Bitmap, x: int, y: int, color: Colour): (b': Bitmap)
    requires Valid(b) && InBounds(b, x, y)
    ensures Valid(b') && b'.width == b.width && b'.height == b.height
    ensures Get(b', x, y) == color
    ensures forall x', y' :: InBounds(b, x', y') && (x', y') != (x, y) ==> Get(b', x', y') == Get(b, x', y')
  {
    IndexInBounds(b.width, b.height, x, y);
    var b' := b.(pixels := b.pixels[Index(b.width, x, y) := color]);
    forall x', y' | InBounds(b, x', y') && (x', y') != (x, y)
      ensures Get(b', x', y') == Get(b, x', y')
    {
      IndexInjective(b.width, x, y, x', y');
      IndexInBounds(b.width, b.height, x', y');
    }
    b'
  }

  /** Writing back the colour just read leaves the bitmap as it was. */
  lemma SetGetUnchanged(b: Bitmap, x: int, y: int)
    requires Valid(b) && InBounds(b, x, y)
    ensures Set(b, x, y, Get(b, x, y)) == b
  {
    IndexInBounds(b.width, b.height, x, y);
  }

  /** A later write to the same pixel hides the earlier one. */
  lemma SetSetOverwrites(b: Bitmap, x: int, y: int, c: Colour, c': Colour)
    requires Valid(b) && InBounds(b, x, y)
    ensures Set(Set(b, x, y, c), x, y, c') == Set(b, x, y, c')
  {
  }

  // ----- surface byte packing -----
  // Shifts and masks of unsigned values are written as division and remainder
  // by powers of 256: `c >> 8` is `c / 0x100` and `c & 0xff` is `c % 0x100`.

  /** The machine's byte order (SDL_BYTEORDER), fixed when the engine is compiled. */
  datatype ByteOrder = LittleEndian | BigEndian

  /** An image surface: `bytesPerPixel` bytes per pixel, rows `pitch` bytes apart. */
  datatype Surface = Surface(bytesPerPixel: nat, pitch: nat, bytes: seq<Byte>)

  /** The byte offset of pixel (x, y). */
  function Offset(s: Surface, x: nat, y: nat): nat {
    y * s.pitch + x * s.bytesPerPixel
  }

  /** The pixel widths the packing handles; any other width reads 0 and writes nothing. */
  predicate Packed(s: Surface) {
    1 <= s.bytesPerPixel <= 4
  }

  /** The pixel's bytes lie inside the surface (nothing is touched for an unhandled width). */
  predicate InSurface(s: Surface, x: nat, y: nat) {
    Packed(s) ==> Offset(s, x, y) + s.bytesPerPixel <= |s.bytes|
  }

  /** The number of colours an n-byte pixel can hold, 256 to the n. */
  function Capacity(n: nat): (m: nat)
    requires 1 <= n <= 4
  {
    match n
    case 1 => 0x100
    case 2 => 0x1_0000
    case 3 => 0x100_0000
    case _ => 0x1_0000_0000
  }

  /** Byte k of a colour, counting from the least significant: `(c >> 8k) & 0xff`. */
  function ByteOf(c: Colour, k: nat): (b: Byte)
    requires k < 4
  {
    match k
    case 0 => c % 0x100
    case 1 => c / 0x100 % 0x100
    case 2 => c / 0x1_0000 % 0x100
    case _ => c / 0x100_0000 % 0x100
  }

  /** The colour an n-byte pixel's bytes hold, read in the machine's byte order
      (`*p`, `*(unsigned short *)p`, the three-byte case spelled out, `*(unsigned int *)p`). */
  function Assemble(bs: seq<Byte>, order: ByteOrder): (c: Colour)
    requires 1 <= |bs| <= 4
    ensures c < Capacity(|bs|)
  {
    match |bs|
    case 1 => bs[0]
    case 2 =>
      if order == BigEndian then bs[0] as int * 0x100 + bs[1]
      else bs[0] + bs[1] as int * 0x100
    case 3 =>
      if order == BigEndian then bs[0] as int * 0x1_0000 + bs[1] as int * 0x100 + bs[2]
      else bs[0] + bs[1] as int * 0x100 + bs[2] as int * 0x1_0000
    case _ =>
      if order == BigEndian then bs[0] as int * 0x100_0000 + bs[1] as int * 0x1_0000 + bs[2] as int * 0x100 + bs[3]
      else bs[0] + bs[1] as int * 0x100 + bs[2] as int * 0x1_0000 + bs[3] as int * 0x100_0000
  }

  /** get_pixel: the colour stored at (x, y); an unhandled pixel width reads 0. */
  function ReadPixel(s: Surface, order: ByteOrder, x: nat, y: nat): (c: Colour)
    requires InSurface(s, x, y)
    ensures Packed(s) ==> c < Capacity(s.bytesPerPixel)
    ensures !Packed(s) ==> c == 0
  {
    var p := Offset(s, x, y);
    if Packed(s) then Assemble(s.bytes[p..p + s.bytesPerPixel], order) else 0
  }

  /** The bytes of an n-byte pixel of colour c, in memory order: least significant first on a
      little-endian machine, most significant first on a big-endian one. */
  function PixelBytes(c: Colour, n: nat, order: ByteOrder): (bs: seq<Byte>)
    requires 1 <= n <= 4
    ensures |bs| == n
  {
    var b0, b1, b2, b3 := ByteOf(c, 0), ByteOf(c, 1), ByteOf(c, 2), ByteOf(c, 3);
    match n
    case 1 => [b0]
    case 2 => if order == BigEndian then [b1, b0] else [b0, b1]
    case 3 => if order == BigEndian then [b2, b1, b0] else [b0, b1, b2]
    case _ => if order == BigEndian then [b3, b2, b1, b0] else [b0, b1, b2, b3]
  }

  /** set_pixel: the colour's low bytes are stored at (x, y); an unhandled pixel width writes nothing. */
  function WritePixel(s: Surface, order: ByteOrder, x: nat, y: nat, c: Colour): (s': Surface)
    requires InSurface(s, x, y)
    ensures s'.bytesPerPixel == s.bytesPerPixel && s'.pitch == s.pitch && |s'.bytes| == |s.bytes|
    ensures !Packed(s) ==> s' == s
    ensures forall i :: 0 <= i < |s.bytes| && !(Offset(s, x, y) <= i < Offset(s, x, y) + s.bytesPerPixel)
              ==> s'.bytes[i] == s.bytes[i]
  {
    var p := Offset(s, x, y);
    var n := s.bytesPerPixel;
    if Packed(s) then s.(bytes := s.bytes[..p] + PixelBytes(c, n, order) + s.bytes[p + n..]) else s
  }

  /** The bytes a write leaves at the pixel: the colour's low bytes, in the machine's order. */
  lemma WrittenBytes(s: Surface, order: ByteOrder, x: nat, y: nat, c: Colour)
    requires InSurface(s, x, y) && Packed(s)
    ensures var p := Offset(s, x, y);
            WritePixel(s, order, x, y, c).bytes[p..p + s.bytesPerPixel] == PixelBytes(c, s.bytesPerPixel, order)
  {
  }

  /** A colour is the sum of its bytes at their weights, and its low k bytes are its remainder modulo 256 to the k. */
  lemma JoinBytes(c: Colour)
    ensures ByteOf(c, 0) == c % 0x100
    ensures ByteOf(c, 0) + ByteOf(c, 1) * 0x100 == c % 0x1_0000
    ensures ByteOf(c, 0) + ByteOf(c, 1) * 0x100 + ByteOf(c, 2) * 0x1_0000 == c % 0x100_0000
    ensures ByteOf(c, 0) + ByteOf(c, 1) * 0x100 + ByteOf(c, 2) * 0x1_0000 + ByteOf(c, 3) * 0x100_0000 == c
  {
    var c1 := c / 0x100;
    var c2 := c1 / 0x100;
    var b0, b1, b2, b3 := c % 0x100, c1 % 0x100, c2 % 0x100, c2 / 0x100;
    assert c == c1 * 0x100 + b0 && c1 == c2 * 0x100 + b1 && c2 == b3 * 0x100 + b2;
    assert c == c2 * 0x1_0000 + (b0 + b1 * 0x100);
    ShiftOut(c2, b0 + b1 * 0x100, 0x1_0000);
    assert c == b3 * 0x100_0000 + (b0 + b1 * 0x100 + b2 * 0x1_0000);
    ShiftOut(b3, b0 + b1 * 0x100 + b2 * 0x1_0000, 0x100_0000);
  }

  /** The bytes of a sum of bytes at their weights are those bytes. */
  lemma SplitBytes(b0: Byte, b1: Byte, b2: Byte, b3: Byte)
    ensures var c := b0 as int + b1 as int * 0x100 + b2 as int * 0x1_0000 + b3 as int * 0x100_0000;
            0 <= c < 0x1_0000_0000 && ByteOf(c, 0) == b0 && ByteOf(c, 1) == b1 && ByteOf(c, 2) == b2 && ByteOf(c, 3) == b3
  {
    var c2 := b2 as int + b3 as int * 0x100;
    var c1 := b1 as int + c2 * 0x100;
    ShiftOut(c1, b0, 0x100);
    ShiftOut(c2, b1, 0x100);
    ShiftOut(b3, b2, 0x100);
    ShiftOut(c2, b0 as int + b1 as int * 0x100, 0x1_0000);
    ShiftOut(b3, b0 as int + b1 as int * 0x100 + b2 as int * 0x1_0000, 0x100_0000);
  }

  /** Shifting out the low part of `q * d + r` leaves q; masking it leaves r. */
  lemma ShiftOut(q: nat, r: nat, d: nat)
    requires d in {0x100, 0x1_0000, 0x100_0000} && r < d
    ensures (q * d + r) / d == q && (q * d + r) % d == r
  {
    if d == 0x100 {
    } else if d == 0x1_0000 {
    } else {
    }
  }

  /** Decoding an encoded pixel yields the colour cut to the pixel's width. */
  lemma AssembleBytes(c: Colour, n: nat, order: ByteOrder)
    requires 1 <= n <= 4
    ensures Assemble(PixelBytes(c, n, order), order) == c % Capacity(n)
  {
    JoinBytes(c);
  }

  /** Encoding a decoded pixel yields the bytes it was decoded from. */
  lemma BytesAssemble(bs: seq<Byte>, order: ByteOrder)
    requires 1 <= |bs| <= 4
    ensures PixelBytes(Assemble(bs, order), |bs|, order) == bs
  {
    var n := |bs|;
    var le := if order == LittleEndian then bs else seq(n, k requires 0 <= k < n => bs[n - 1 - k]);
    var l0: Byte, l1: Byte, l2: Byte, l3: Byte := le[0], if n > 1 then le[1] else 0, if n > 2 then le[2] else 0, if n > 3 then le[3] else 0;
    assert Assemble(bs, order) == l0 as int + l1 as int * 0x100 + l2 as int * 0x1_0000 + l3 as int * 0x100_0000;
    SplitBytes(l0, l1, l2, l3);
  }

  /** The big-endian layout is the little-endian layout reversed. */
  lemma BigEndianReversed(c: Colour, n: nat)
    requires 1 <= n <= 4
    ensures forall k :: 0 <= k < n ==> PixelBytes(c, n, BigEndian)[k] == PixelBytes(c, n, LittleEndian)[n - 1 - k]
  {
  }

  /** Reading a pixel back after writing it yields the colour cut to the pixel's width. */
  lemma ReadAfterWrite(s: Surface, order: ByteOrder, x: nat, y: nat, c: Colour)
    requires InSurface(s, x, y)
    ensures ReadPixel(WritePixel(s, order, x, y, c), order, x, y)
            == if Packed(s) then c % Capacity(s.bytesPerPixel) else 0
  {
    if Packed(s) {
      WrittenBytes(s, order, x, y, c);
      AssembleBytes(c, s.bytesPerPixel, order);
    }
  }

  /** Writing back the colour just read leaves the surface as it was. */
  lemma WriteAfterRead(s: Surface, order: ByteOrder, x: nat, y: nat)
    requires InSurface(s, x, y)
    ensures WritePixel(s, order, x, y, ReadPixel(s, order, x, y)) == s
  {
    if Packed(s) {
      var p := Offset(s, x, y);
      var n := s.bytesPerPixel;
      BytesAssemble(s.bytes[p..p + n], order);
      Reassemble(s.bytes, p, n);
    }
  }

  lemma Reassemble(bs: seq<Byte>, p: nat, n: nat)
    requires p + n <= |bs|
    ensures bs[..p] + bs[p..p + n] + bs[p + n..] == bs
  {
    assert bs[..p] + bs[p..p + n] == bs[..p + n];
  }

  /** Writing a pixel leaves every pixel whose bytes it does not overlap reading as before. */
  lemma WriteKeepsOthers(s: Surface, order: ByteOrder, x: nat, y: nat, x': nat, y': nat, c: Colour)
    requires InSurface(s, x, y) && InSurface(s, x', y')
    requires Offset(s, x, y) + s.bytesPerPixel <= Offset(s, x', y') || Offset(s, x', y') + s.bytesPerPixel <= Offset(s, x, y)
    ensures ReadPixel(WritePixel(s, order, x, y, c), order, x', y') == ReadPixel(s, order, x', y')
  {
    if Packed(s) {
      var p' := Offset(s, x', y');
      var s' := WritePixel(s, order, x, y, c);
      assert s'.bytes[p'..p' + s.bytesPerPixel] == s.bytes[p'..p' + s.bytesPerPixel];
    }
  }
}
