/** Stand-ins for the platform objects the wrappers hold: GDI+ bitmaps,
    lock records, drawing surfaces, fonts and font registries, and .NET
    streams and `Marshal.Copy`.  Each keeps only the state the wrappers
    read or change; decoding, drawing and font parsing are not modelled. */
module Platform {
  import opened Argb
  import opened Errors

  /** Lock modes of `Bitmap.LockBits`. */
  datatype LockMode = ReadOnly | WriteOnly | ReadWrite

  /** A 32bpp ARGB bitmap.  Its pixel storage is a row-major buffer of
      `width * height` words (stride `4 * width` bytes). */
  class Bitmap {
    const width: nat
    const height: nat
    const pixels: array<Int32>
    var locked: bool
    var isDisposed: bool

    ghost predicate Valid()
      reads this
    {
      pixels.Length == width * height
    }

    /** `new Bitmap(width, height)`: every pixel is transparent black. */
    constructor (width: nat, height: nat)
      ensures Valid() && this.width == width && this.height == height
      ensures fresh(pixels) && !locked && !isDisposed
      ensures forall i :: 0 <= i < pixels.Length ==> pixels[i] == 0
    {
      this.width, this.height := width, height;
      pixels := new Int32[width * height](_ => 0);
      locked, isDisposed := false, false;
    }

    /** `LockBits` over the whole bitmap in 32bpp ARGB: the lock record
        points at the pixel storage itself. */
    method LockBits(mode: LockMode) returns (data: BitmapData)
      requires Valid()
      modifies this
      ensures locked && isDisposed == old(isDisposed) && fresh(data)
      ensures data.width == width && data.height == height
      ensures data.scan0 == pixels && data.mode == mode
    {
      data := new BitmapData(width, height, pixels, mode);
      locked := true;
    }

    /** `UnlockBits`. */
    method UnlockBits(data: BitmapData)
      modifies this
      ensures !locked && isDisposed == old(isDisposed)
    {
      locked := false;
    }

    /** A read-only lock seen through a byte pointer: a snapshot of the
        pixel storage as its little-endian bytes. */
    method LockedBytes() returns (bytes: array<Byte>)
      requires Valid()
      ensures fresh(bytes) && bytes[..] == LittleEndianBytes(pixels[..])
    {
      bytes := new Byte[4 * pixels.Length](i reads pixels requires 0 <= i < 4 * pixels.Length =>
                                              WordByte(pixels[i / 4], i % 4));
    }

    /** `Bitmap.Dispose`. */
    method Dispose()
      modifies this
      ensures isDisposed && locked == old(locked)
    {
      isDisposed := true;
    }
  }

  /** The `BitmapData` record a lock returns. */
  class BitmapData {
    const width: nat
    const height: nat
    const scan0: array<Int32>
    const mode: LockMode

    constructor (width: nat, height: nat, scan0: array<Int32>, mode: LockMode)
      ensures this.width == width && this.height == height
      ensures this.scan0 == scan0 && this.mode == mode
    {
      this.width, this.height, this.scan0, this.mode := width, height, scan0, mode;
    }
  }

  /** A drawing surface bound to a bitmap (`Graphics.FromImage`). */
  class Graphics {
    const target: Bitmap
    var isDisposed: bool

    constructor FromImage(target: Bitmap)
      ensures this.target == target && !isDisposed
    {
      this.target := target;
      isDisposed := false;
    }

    /** Completes pending drawing commands (none are modelled). */
    method Flush()
    {
    }

    method Dispose()
      modifies this
      ensures isDisposed
    {
      isDisposed := true;
    }
  }

  /** A readable or unreadable byte stream positioned somewhere in `data`. */
  class Stream {
    const canRead: bool
    const data: seq<Byte>
    var position: nat

    ghost predicate Valid()
      reads this
    {
      position <= |data|
    }

    constructor (canRead: bool, data: seq<Byte>)
      ensures Valid() && this.canRead == canRead && this.data == data && position == 0
    {
      this.canRead, this.data, position := canRead, data, 0;
    }

    /** `Stream.Read(buffer, offset, count)`: copies the next `n` bytes into
        `buffer[offset..]`, where `n` is any number from 1 to
        `min(count, remaining)`, and 0 only once nothing remains. */
    method Read(buffer: array<Byte>, offset: nat, count: nat) returns (n: nat)
      requires Valid() && canRead && offset + count <= buffer.Length
      modifies this, buffer
      ensures Valid() && position == old(position) + n
      ensures n <= count
      ensures n == 0 <==> count == 0 || old(position) == |data|
      ensures buffer[offset..offset + n] == data[old(position)..position]
      ensures buffer[..offset] == old(buffer[..offset]) && buffer[offset + n..] == old(buffer[offset + n..])
    {
      var avail := if count < |data| - position then count else |data| - position;
      if avail == 0 {
        n := 0;
      } else {
        n :| 0 < n <= avail;
      }
      var i := 0;
      while i < n
        invariant 0 <= i <= n && position == old(position)
        invariant buffer[offset..offset + i] == data[position..position + i]
      invariant buffer[..offset] == old(buffer[..offset]) && buffer[offset + i..] == old(buffer[offset + i..])
      {
        buffer[offset + i] := data[position + i];
        i := i + 1;
      }
      position := position + n;
    }
  }

  /** `Marshal.Copy`: copies `length` bytes from `src[srcIndex..]` to
      `dst[dstIndex..]`. */
  method Copy(src: array<Byte>, srcIndex: nat, dst: array<Byte>, dstIndex: nat, length: nat)
    requires src != dst
    requires srcIndex + length <= src.Length && dstIndex + length <= dst.Length
    modifies dst
    ensures dst[dstIndex..dstIndex + length] == src[srcIndex..srcIndex + length]
    ensures dst[..dstIndex] == old(dst[..dstIndex]) && dst[dstIndex + length..] == old(dst[dstIndex + length..])
  {
    for i := 0 to length
      invariant dst[dstIndex..dstIndex + i] == src[srcIndex..srcIndex + i]
      invariant dst[..dstIndex] == old(dst[..dstIndex]) && dst[dstIndex + i..] == old(dst[dstIndex + i..])
    {
      dst[dstIndex + i] := src[srcIndex + i];
    }
  }

  /** A font family handle the platform's font parser produced. */
  class FontFamily {
    var isDisposed: bool

    constructor ()
      ensures !isDisposed
    {
      isDisposed := false;
    }

    method Dispose()
      modifies this
      ensures isDisposed
    {
      isDisposed := true;
    }
  }

  /** What was handed to a font registry. */
  datatype FontSource = FontFile(path: string) | MemoryFont(bytes: seq<Byte>)

  /** A `PrivateFontCollection`: the sources added to it and the families
      the platform found in them. */
  class FontCollection {
    var sources: seq<FontSource>
    var families: seq<FontFamily>
    var isDisposed: bool

    constructor ()
      ensures sources == [] && families == [] && !isDisposed
    {
      sources, families, isDisposed := [], [], false;
    }

    /** `AddFontFile(path)`; `found` is what the platform parses from it. */
    method AddFontFile(path: string, found: seq<FontFamily>)
      modifies this
      ensures sources == old(sources) + [FontFile(path)]
      ensures families == old(families) + found && isDisposed == old(isDisposed)
    {
      sources := sources + [FontFile(path)];
      families := families + found;
    }

    /** `AddMemoryFont(buffer, length)`; `found` as above. */
    method AddMemoryFont(bytes: seq<Byte>, found: seq<FontFamily>)
      modifies this
      ensures sources == old(sources) + [MemoryFont(bytes)]
      ensures families == old(families) + found && isDisposed == old(isDisposed)
    {
      sources := sources + [MemoryFont(bytes)];
      families := families + found;
    }

    method Dispose()
      modifies this
      ensures isDisposed && sources == old(sources) && families == old(families)
    {
      isDisposed := true;
    }
  }

  datatype FontStyle = Regular | Bold | Italic | Underline | Strikeout

  /** A `Font` of a family, an em size in pixels and a style. */
  class Font {
    const family: FontFamily
    const size: int
    const style: FontStyle

    constructor (family: FontFamily, size: int, style: FontStyle)
      ensures this.family == family && this.size == size && this.style == style
    {
      this.family, this.size, this.style := family, size, style;
    }
  }

  /** A `StringFormat`; only the two settings the text options choose. */
  class StringFormat {
    const typographic: bool
    const noWrap: bool

    constructor (typographic: bool, noWrap: bool)
      ensures this.typographic == typographic && this.noWrap == noWrap
    {
      this.typographic, this.noWrap := typographic, noWrap;
    }
  }

  /** `char.IsWhiteSpace`: U+0009 to U+000D, U+0085, and the Unicode space,
      line and paragraph separators. */
  predicate IsWhiteSpace(c: char)
  {
    ('\U{9}' <= c <= '\U{D}') || c == ' ' || c == '\U{85}' || c == '\U{A0}'
    || c == '\U{1680}' || ('\U{2000}' <= c <= '\U{200A}') || c == '\U{2028}'
    || c == '\U{2029}' || c == '\U{202F}' || c == '\U{205F}' || c == '\U{3000}'
  }

  /** `string.IsNullOrWhiteSpace`; a null string is `None`. */
  predicate IsNullOrWhiteSpace(s: Option<string>)
    ensures s.None? || s.value == [] ==> IsNullOrWhiteSpace(s)
    ensures IsNullOrWhiteSpace(s) && s.Some? ==> forall c :: c in s.value ==> IsWhiteSpace(c)
  {
    s.None? || forall i :: 0 <= i < |s.value| ==> IsWhiteSpace(s.value[i])
  }
}
