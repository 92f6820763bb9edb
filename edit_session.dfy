/** `BitmapLoader`: owns a bitmap, a drawing surface bound to it and a heap
    copy of its pixel bytes that `Flush` brings up to date. */
module EditSession {
  import opened Errors
  import opened Argb
  import opened Platform

  /** The size guard of `Initalize`: `8*W*H` must stay below `int.MaxValue`. */
  function SizeGuard(width: nat, height: nat): (r: Outcome)
    ensures r == Pass <==> 8 * (width * height) < Int32Max
    ensures r != Pass ==> r == Fail(ImageTooLarge)
  {
    if 8 * (width * height) >= Int32Max then Fail(ImageTooLarge) else Pass
  }

  /** Byte count of the heap buffer: four bytes per pixel. */
  function BufferBytes(width: nat, height: nat): nat
  {
    4 * (width * height)
  }

  /** A bitmap that passes the guard has a byte count that is a valid
      signed 32-bit allocation size, with room to double it. */
  lemma GuardBoundsBytes(width: nat, height: nat)
    requires SizeGuard(width, height) == Pass
    ensures BufferBytes(width, height) <= Int32Max
    ensures 2 * BufferBytes(width, height) < Int32Max
  {
  }

  /** The guard exactly as the source evaluates it: `8L * W * H` in 64-bit
      arithmetic, which wraps. */
  function Wrap64(x: int): int
  {
    var m := x % 0x1_0000_0000_0000_0000;
    if m < 0x8000_0000_0000_0000 then m else m - 0x1_0000_0000_0000_0000
  }

  function Wrap32(x: int): Int32
  {
    var m := x % Two32;
    if m < 0x8000_0000 then m else m - Two32
  }

  function SizeGuardAsWritten(width: Int32, height: Int32): (tooLarge: bool)
    ensures -0x8000_0000_0000_0000 <= 8 * width * height < 0x8000_0000_0000_0000 ==>
              (tooLarge <==> 8 * width * height >= Int32Max)
  {
    Wrap64(Wrap64(8 * width) * height) >= Int32Max
  }

  function BufferBytesAsWritten(width: Int32, height: Int32): (bytes: Int32)
    ensures -0x8000_0000 <= 4 * width * height < 0x8000_0000 && -0x8000_0000 <= 4 * width < 0x8000_0000 ==>
              bytes == 4 * width * height
  {
    Wrap32(Wrap32(4 * width) * height)
  }

  /** For a bitmap of `int.MaxValue` by `int.MaxValue` pixels the 64-bit
      product wraps to a negative number, so the guard lets it through, and
      the 32-bit byte count wraps to 4. */
  lemma SizeGuardWraps()
    ensures !SizeGuardAsWritten(Int32Max, Int32Max)
    ensures BufferBytesAsWritten(Int32Max, Int32Max) == 4
    ensures SizeGuard(Int32Max, Int32Max) == Fail(ImageTooLarge)
  {
    assert Wrap64(8 * Int32Max) == 8 * Int32Max;
    assert 8 * Int32Max * Int32Max == 0x1_FFFF_FFF8_0000_0008;
    assert Wrap64(8 * Int32Max * Int32Max) == -0x7_FFFF_FFF8;
    assert Wrap32(4 * Int32Max) == -4;
  }

  /** Kinds of resource `Dispose` releases, for recording their order. */
  datatype Resource = GraphicsSurface | OwnedBitmap | HeapBuffer

  class BitmapLoader {
    var bitmap: Bitmap?
    var graphics: Graphics?
    var bitmapData: array?<Byte>
    var bitmapBytes: int
    var isDisposed: bool
    /** The releases performed so far, in order. */
    ghost var released: seq<Resource>

    /** Live: bitmap, surface and heap buffer are set, the surface draws on
        the bitmap and the buffer holds `4*W*H` bytes with the guard met.
        Disposed: all three cleared. */
    ghost predicate Valid()
      reads this, bitmap, graphics
    {
      if isDisposed then bitmap == null && graphics == null && bitmapData == null
      else bitmap != null && graphics != null && bitmapData != null
           && bitmap.Valid() && graphics.target == bitmap
           && SizeGuard(bitmap.width, bitmap.height) == Pass
           && bitmapBytes == BufferBytes(bitmap.width, bitmap.height)
           && bitmapData.Length == bitmapBytes
    }

    /** The heap buffer holds exactly the bitmap's current pixel bytes. */
    ghost predicate InSync()
      reads this, bitmap, graphics, bitmapData, if bitmap != null then {bitmap.pixels} else {}
      requires Valid() && !isDisposed
    {
      bitmapData[..] == LittleEndianBytes(bitmap.pixels[..])
    }

    /** Field setup of `Initalize` once the guard has passed. */
    constructor Allocate(bitmap: Bitmap)
      requires bitmap.Valid() && SizeGuard(bitmap.width, bitmap.height) == Pass
      ensures Valid() && !isDisposed && this.bitmap == bitmap
      ensures fresh(graphics) && fresh(bitmapData) && released == []
      ensures !graphics.isDisposed && graphics.target == bitmap
    {
      this.bitmap := bitmap;
      graphics := new Graphics.FromImage(bitmap);
      bitmapBytes := BufferBytes(bitmap.width, bitmap.height);
      bitmapData := new Byte[BufferBytes(bitmap.width, bitmap.height)];
      isDisposed := false;
      released := [];
    }

    /** `Initalize`: the size guard, then a heap buffer of `4*W*H` bytes,
        then a `Flush`. */
    static method Initialize(bitmap: Bitmap) returns (r: Result<BitmapLoader>)
      requires bitmap.Valid()
      ensures r.Failure? <==> SizeGuard(bitmap.width, bitmap.height) != Pass
      ensures r.Failure? ==> r.error == ImageTooLarge
      ensures r.Success? ==> var v := r.value;
                fresh(v) && fresh(v.graphics) && fresh(v.bitmapData)
                && v.Valid() && !v.isDisposed && v.bitmap == bitmap
                && v.bitmapBytes == 4 * bitmap.width * bitmap.height
                && v.InSync() && v.released == [] && !v.graphics.isDisposed
    {
      var guard := SizeGuard(bitmap.width, bitmap.height);
      if guard.Fail? {
        return Failure(guard.error);
      }
      var v := new BitmapLoader.Allocate(bitmap);
      var _ := v.Flush();
      r := Success(v);
    }

    /** `new BitmapLoader(Bitmap)`: rejects null, takes ownership otherwise. */
    static method FromBitmap(baseBitmap: Bitmap?) returns (r: Result<BitmapLoader>)
      requires baseBitmap != null ==> baseBitmap.Valid()
      ensures baseBitmap == null ==> r == Failure(ArgumentNull("baseBitmap"))
      ensures baseBitmap != null ==> (r.Failure? <==> SizeGuard(baseBitmap.width, baseBitmap.height) != Pass)
      ensures baseBitmap != null && r.Failure? ==> r.error == ImageTooLarge
      ensures r.Success? ==> var v := r.value;
                fresh(v) && fresh(v.graphics) && fresh(v.bitmapData)
                && v.Valid() && !v.isDisposed && v.bitmap == baseBitmap
                && v.bitmapBytes == 4 * baseBitmap.width * baseBitmap.height
                && v.InSync() && v.released == [] && !v.graphics.isDisposed
    {
      if baseBitmap == null {
        return Failure(ArgumentNull("baseBitmap"));
      }
      r := Initialize(baseBitmap);
    }

    /** `new BitmapLoader(Stream)`: rejects a null stream, then an unreadable
        one; `decoded` is the bitmap the platform codec reads from it. */
    static method FromStream(stream: Stream?, decoded: Bitmap) returns (r: Result<BitmapLoader>)
      requires decoded.Valid()
      ensures stream == null ==> r == Failure(ArgumentNull("stream"))
      ensures stream != null && !stream.canRead ==> r == Failure(NotSupported)
      ensures stream != null && stream.canRead ==>
                (r.Failure? <==> SizeGuard(decoded.width, decoded.height) != Pass)
      ensures stream != null && stream.canRead && r.Failure? ==> r.error == ImageTooLarge
      ensures r.Success? ==> var v := r.value;
                fresh(v) && fresh(v.graphics) && fresh(v.bitmapData)
                && v.Valid() && !v.isDisposed && v.bitmap == decoded
                && v.bitmapBytes == 4 * decoded.width * decoded.height
                && v.InSync() && v.released == [] && !v.graphics.isDisposed
    {
      if stream == null {
        return Failure(ArgumentNull("stream"));
      }
      if !stream.canRead {
        return Failure(NotSupported);
      }
      r := Initialize(decoded);
    }

    /** `new BitmapLoader(string)`: rejects a null or blank file name;
        `decoded` is the bitmap the platform codec reads from the file. */
    static method FromFile(filename: Option<string>, decoded: Bitmap) returns (r: Result<BitmapLoader>)
      requires decoded.Valid()
      ensures IsNullOrWhiteSpace(filename) ==> r == Failure(ArgumentNull("filename"))
      ensures !IsNullOrWhiteSpace(filename) ==>
                (r.Failure? <==> SizeGuard(decoded.width, decoded.height) != Pass)
      ensures !IsNullOrWhiteSpace(filename) && r.Failure? ==> r.error == ImageTooLarge
      ensures r.Success? ==> var v := r.value;
                fresh(v) && fresh(v.graphics) && fresh(v.bitmapData)
                && v.Valid() && !v.isDisposed && v.bitmap == decoded
                && v.bitmapBytes == 4 * decoded.width * decoded.height
                && v.InSync() && v.released == [] && !v.graphics.isDisposed
    {
      if IsNullOrWhiteSpace(filename) {
        return Failure(ArgumentNull("filename"));
      }
      r := Initialize(decoded);
    }

    /** `Flush`: after the drawing surface is flushed, copies every byte of
        the read-only locked pixels into the heap buffer. */
    method Flush() returns (r: Outcome)
      requires Valid()
      modifies bitmapData
      ensures Valid()
      ensures r == (if isDisposed then Fail(ObjectDisposed) else Pass)
      ensures r.Pass? ==> InSync()
    {
      if isDisposed {
        return Fail(ObjectDisposed);
      }
      graphics.Flush();
      var src := bitmap.LockedBytes();
      ghost var pixelBytes := LittleEndianBytes(bitmap.pixels[..]);
      assert src.Length == bitmapBytes && src[..] == pixelBytes;
      var i := 0;
      while i < bitmapBytes
        invariant 0 <= i <= bitmapBytes
        invariant src[..] == pixelBytes
        invariant bitmapData[..i] == pixelBytes[..i]
      {
        bitmapData[i] := src[i];
        assert bitmapData[..i + 1] == pixelBytes[..i] + [pixelBytes[i]];
        i := i + 1;
      }
      assert bitmapData[..] == pixelBytes;
      r := Pass;
    }

    /** The `BaseBitmap` property. */
    function GetBaseBitmap(): (r: Result<Bitmap>)
      reads this, bitmap, graphics
      requires Valid()
      ensures r.Failure? <==> isDisposed
      ensures r.Failure? ==> r.error == ObjectDisposed
      ensures r.Success? ==> r.value == bitmap
    {
      if isDisposed then Failure(ObjectDisposed) else Success(bitmap)
    }

    /** The `Graphics` property: a surface that draws on the bitmap. */
    function GetGraphics(): (r: Result<Graphics>)
      reads this, bitmap, graphics
      requires Valid()
      ensures r.Failure? <==> isDisposed
      ensures r.Failure? ==> r.error == ObjectDisposed
      ensures r.Success? ==> r.value == graphics && r.value.target == bitmap
    {
      if isDisposed then Failure(ObjectDisposed) else Success(graphics)
    }

    /** The `Scan0` property: the heap buffer. */
    function GetScan0(): (r: Result<array<Byte>>)
      reads this, bitmap, graphics
      requires Valid()
      ensures r.Failure? <==> isDisposed
      ensures r.Failure? ==> r.error == ObjectDisposed
      ensures r.Success? ==> r.value == bitmapData && r.value.Length == bitmapBytes
    {
      if isDisposed then Failure(ObjectDisposed) else Success(bitmapData)
    }

    /** `Dispose(disposing)`: the first call releases, on the managed path,
        the surface, then the bitmap, then the heap buffer; both paths then
        clear the three fields and set the flag.  Later calls change nothing. */
    method DisposeCore(disposing: bool)
      requires Valid()
      modifies this, graphics, bitmap
      ensures Valid() && isDisposed
      ensures old(isDisposed) ==> unchanged(this)
      ensures !old(isDisposed) && disposing ==>
                released == old(released) + [GraphicsSurface, OwnedBitmap, HeapBuffer]
                && old(graphics).isDisposed && old(bitmap).isDisposed
      ensures !disposing ==> released == old(released)
      ensures !disposing && old(bitmap) != null ==> old(bitmap).isDisposed == old(bitmap.isDisposed)
      ensures !disposing && old(graphics) != null ==> old(graphics).isDisposed == old(graphics.isDisposed)
      ensures old(bitmap) != null ==> old(bitmap).locked == old(bitmap.locked)
    {
      if !isDisposed {
        if disposing {
          if graphics != null {
            graphics.Dispose();
            released := released + [GraphicsSurface];
          }
          if bitmap != null {
            bitmap.Dispose();
            released := released + [OwnedBitmap];
          }
          if bitmapData != null {
            released := released + [HeapBuffer];
          }
        }
        bitmapData := null;
        graphics := null;
        bitmap := null;
        isDisposed := true;
      }
    }

    /** `Dispose()`: the managed path. */
    method Dispose()
      requires Valid()
      modifies this, graphics, bitmap
      ensures Valid() && isDisposed
      ensures old(isDisposed) ==> unchanged(this)
      ensures !old(isDisposed) ==>
                released == old(released) + [GraphicsSurface, OwnedBitmap, HeapBuffer]
                && old(graphics).isDisposed && old(bitmap).isDisposed
      ensures old(bitmap) != null ==> old(bitmap).locked == old(bitmap.locked)
    {
      DisposeCore(true);
    }
  }
}
