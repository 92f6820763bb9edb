/** `BitmapController`: a bounds-checked view of a locked bitmap's pixels
    as colours, with a disposed flag that every accessor checks. */
module PixelView {
  import opened Errors
  import opened Argb
  import opened Platform

  /** Word offset of pixel `(x, y)` in a row-major buffer `width` words wide. */
  function Offset(width: nat, height: nat, x: int, y: int): (k: nat)
    requires 0 <= x < width && 0 <= y < height
    ensures k < width * height
  {
    MulStep(width, y + 1, height);
    width * y + x
  }

  /** `a * b <= a * c` when `b <= c`. */
  lemma MulStep(a: nat, b: nat, c: nat)
    requires b <= c
    ensures a * b <= a * c
  {
  }

  /** Distinct in-range coordinates have distinct offsets. */
  lemma OffsetInjective(width: nat, height: nat, x: int, y: int, x': int, y': int)
    requires 0 <= x < width && 0 <= y < height
    requires 0 <= x' < width && 0 <= y' < height
    ensures Offset(width, height, x, y) == Offset(width, height, x', y') <==> x == x' && y == y'
  {
    if y < y' {
      MulStep(width, y + 1, y');
    } else if y' < y {
      MulStep(width, y' + 1, y);
    }
  }

  /** The argument check of the indexer: x first, then y. */
  function CheckIndex(width: nat, height: nat, x: int, y: int): (r: Outcome)
    ensures r == Pass <==> 0 <= x < width && 0 <= y < height
    ensures r != Pass ==> r == Fail(ArgumentOutOfRange(if 0 <= x < width then "y" else "x"))
  {
    if x < 0 || x >= width then Fail(ArgumentOutOfRange("x"))
    else if y < 0 || y >= height then Fail(ArgumentOutOfRange("y"))
    else Pass
  }

  /** The colour at `(x, y)` of a word buffer. */
  function PixelAt(words: seq<Int32>, width: nat, height: nat, x: int, y: int): Color
    requires |words| == width * height
    requires 0 <= x < width && 0 <= y < height
  {
    FromArgb(words[Offset(width, height, x, y)])
  }

  /** The word buffer after colour `c` is stored at `(x, y)`. */
  function Written(words: seq<Int32>, width: nat, height: nat, x: int, y: int, c: Color): (w: seq<Int32>)
    requires |words| == width * height
    requires 0 <= x < width && 0 <= y < height
    ensures |w| == |words|
  {
    words[Offset(width, height, x, y) := ToArgb(c)]
  }

  /** Reading a pixel just written gives the colour written. */
  lemma ReadAfterWrite(words: seq<Int32>, width: nat, height: nat, x: int, y: int, c: Color)
    requires |words| == width * height
    requires 0 <= x < width && 0 <= y < height
    ensures PixelAt(Written(words, width, height, x, y, c), width, height, x, y) == c
  {
    FromArgbToArgb(c);
  }

  /** Writing one pixel leaves every other pixel as it was. */
  lemma WriteLeavesOthers(words: seq<Int32>, width: nat, height: nat, x: int, y: int, c: Color, x': int, y': int)
    requires |words| == width * height
    requires 0 <= x < width && 0 <= y < height
    requires 0 <= x' < width && 0 <= y' < height
    requires x' != x || y' != y
    ensures PixelAt(Written(words, width, height, x, y, c), width, height, x', y') == PixelAt(words, width, height, x', y')
  {
    OffsetInjective(width, height, x, y, x', y');
  }

  /** A write changes exactly one word of the buffer. */
  lemma WriteChangesOneWord(words: seq<Int32>, width: nat, height: nat, x: int, y: int, c: Color)
    requires |words| == width * height
    requires 0 <= x < width && 0 <= y < height
    ensures forall k :: 0 <= k < |words| && k != Offset(width, height, x, y) ==>
              Written(words, width, height, x, y, c)[k] == words[k]
    ensures Written(words, width, height, x, y, c)[Offset(width, height, x, y)] == ToArgb(c)
  {
  }

  class BitmapController {
    var data: BitmapData?
    var bitmap: Bitmap?
    var scan0: array?<Int32>
    var isDisposed: bool

    /** Live: the lock record, the bitmap and the base address are set and
        the buffer holds `Width*Height` words.  Disposed: all three cleared. */
    ghost predicate Valid()
      reads this, data
    {
      if isDisposed then data == null && bitmap == null && scan0 == null
      else data != null && bitmap != null && scan0 == data.scan0
           && scan0.Length == data.width * data.height
    }

    constructor Lock(bitmap: Bitmap, mode: LockMode)
      requires bitmap.Valid()
      modifies bitmap
      ensures Valid() && !isDisposed && this.bitmap == bitmap
      ensures data.width == bitmap.width && data.height == bitmap.height
      ensures scan0 == bitmap.pixels && data.mode == mode
      ensures bitmap.locked && bitmap.isDisposed == old(bitmap.isDisposed)
    {
      this.bitmap := bitmap;
      var d := bitmap.LockBits(mode);
      data := d;
      scan0 := d.scan0;
      isDisposed := false;
    }

    /** `new BitmapController(bitmap, flags)`: rejects a null bitmap, then
        locks the whole bitmap in 32bpp ARGB. */
    static method Open(bitmap: Bitmap?, mode: LockMode) returns (r: Result<BitmapController>)
      requires bitmap != null ==> bitmap.Valid()
      modifies bitmap
      ensures bitmap == null <==> r.Failure?
      ensures r.Failure? ==> r.error == ArgumentNull("bitmap")
      ensures r.Success? ==> var v := r.value;
                fresh(v) && v.Valid() && !v.isDisposed && v.bitmap == bitmap
                && v.data.width == bitmap.width && v.data.height == bitmap.height
                && v.scan0 == bitmap.pixels && v.data.mode == mode && bitmap.locked
                && bitmap.isDisposed == old(bitmap.isDisposed)
    {
      if bitmap == null {
        return Failure(ArgumentNull("bitmap"));
      }
      var v := new BitmapController.Lock(bitmap, mode);
      r := Success(v);
    }

    /** The indexer's getter. */
    function Get(x: int, y: int): (r: Result<Color>)
      reads this, data, scan0
      requires Valid()
      ensures isDisposed ==> r == Failure(ObjectDisposed)
      ensures !isDisposed && CheckIndex(data.width, data.height, x, y).Fail? ==>
                r == Failure(CheckIndex(data.width, data.height, x, y).error)
      ensures r.Success? <==> !isDisposed && 0 <= x < data.width && 0 <= y < data.height
      ensures r.Success? ==> r.value == PixelAt(scan0[..], data.width, data.height, x, y)
    {
      if isDisposed then Failure(ObjectDisposed)
      else match CheckIndex(data.width, data.height, x, y)
        case Fail(e) => Failure(e)
        case Pass => Success(FromArgb(scan0[Offset(data.width, data.height, x, y)]))
    }

    /** The indexer's setter: stores `ToArgb(c)` at offset `Width*y + x`. */
    method Set(x: int, y: int, c: Color) returns (r: Outcome)
      requires Valid()
      modifies scan0
      ensures Valid()
      ensures r == (if isDisposed then Fail(ObjectDisposed)
                    else CheckIndex(data.width, data.height, x, y))
      ensures r.Pass? ==> scan0[..] == Written(old(scan0[..]), data.width, data.height, x, y, c)
      ensures r.Pass? ==> Get(x, y) == Success(c)
      ensures r.Pass? ==> forall x', y' :: 0 <= x' < data.width && 0 <= y' < data.height && (x' != x || y' != y) ==>
                Get(x', y') == old(Get(x', y'))
      ensures r.Fail? ==> scan0 == null || scan0[..] == old(scan0[..])
    {
      if isDisposed {
        return Fail(ObjectDisposed);
      }
      r := CheckIndex(data.width, data.height, x, y);
      if r.Fail? {
        return;
      }
      ghost var before := scan0[..];
      scan0[Offset(data.width, data.height, x, y)] := ToArgb(c);
      assert scan0[..] == Written(before, data.width, data.height, x, y, c);
      ReadAfterWrite(before, data.width, data.height, x, y, c);
      forall x', y' | 0 <= x' < data.width && 0 <= y' < data.height && (x' != x || y' != y)
        ensures Get(x', y') == old(Get(x', y'))
      {
        WriteLeavesOthers(before, data.width, data.height, x, y, c, x', y');
      }
    }

    /** The `BitmapData` property. */
    function GetBitmapData(): (r: Result<BitmapData>)
      reads this, data
      requires Valid()
      ensures r.Failure? <==> isDisposed
      ensures r.Failure? ==> r.error == ObjectDisposed
      ensures r.Success? ==> r.value == data && r.value.scan0 == scan0
    {
      if isDisposed then Failure(ObjectDisposed) else Success(data)
    }

    /** The `BaseBitmap` property. */
    function GetBaseBitmap(): (r: Result<Bitmap>)
      reads this, data
      requires Valid()
      ensures r.Failure? <==> isDisposed
      ensures r.Failure? ==> r.error == ObjectDisposed
      ensures r.Success? ==> r.value == bitmap
    {
      if isDisposed then Failure(ObjectDisposed) else Success(bitmap)
    }

    /** The `Scan0` property: the base address of the locked words. */
    function GetScan0(): (r: Result<array<Int32>>)
      reads this, data
      requires Valid()
      ensures r.Failure? <==> isDisposed
      ensures r.Failure? ==> r.error == ObjectDisposed
      ensures r.Success? ==> r.value == scan0 && r.value == data.scan0
    {
      if isDisposed then Failure(ObjectDisposed) else Success(scan0)
    }

    /** `Dispose(disposing)`: the first call unlocks the bitmap (on the
        managed path only), clears the three references and sets the flag;
        later calls change nothing.  The bitmap itself is never disposed. */
    method DisposeCore(disposing: bool)
      requires Valid()
      modifies this, bitmap
      ensures Valid() && isDisposed
      ensures old(isDisposed) ==> unchanged(this)
      ensures old(bitmap) != null ==> old(bitmap).isDisposed == old(bitmap.isDisposed)
      ensures !old(isDisposed) && disposing ==> !old(bitmap).locked
      ensures !disposing && old(bitmap) != null ==> old(bitmap).locked == old(bitmap.locked)
    {
      if !isDisposed {
        if disposing {
          if data != null {
            bitmap.UnlockBits(data);
          }
        }
        data := null;
        bitmap := null;
        scan0 := null;
        isDisposed := true;
      }
    }

    /** `Dispose()`: the managed path. */
    method Dispose()
      requires Valid()
      modifies this, bitmap
      ensures Valid() && isDisposed
      ensures old(isDisposed) ==> unchanged(this)
      ensures old(bitmap) != null ==> old(bitmap).isDisposed == old(bitmap.isDisposed)
      ensures !old(isDisposed) ==> !old(bitmap).locked
    {
      DisposeCore(true);
    }
  }

  /** The unit tests' scenarios: a blank 32x32 bitmap reads transparent black
      at its corners, a colour written at a corner reads back, and after
      disposal every accessor fails and a second disposal is harmless. */
  method Scenario()
  {
    var bmp := new Bitmap(32, 32);
    var r := BitmapController.Open(bmp, ReadWrite);
    var v := r.value;
    ZeroIsTransparentBlack();
    assert v.Get(0, 0) == Success(TransparentBlack);
    assert v.Get(31, 31) == Success(TransparentBlack);
    assert v.Get(-1, 0) == Failure(ArgumentOutOfRange("x"));
    assert v.Get(0, 32) == Failure(ArgumentOutOfRange("y"));
    var c := Color(0x12, 0x34, 0x56, 0x78);
    var ok := v.Set(31, 0, c);
    assert v.Get(31, 0) == Success(c);
    v.Dispose();
    assert v.Get(0, 0) == Failure(ObjectDisposed);
    assert v.GetBaseBitmap().Failure? && !bmp.locked && !bmp.isDisposed;
    v.Dispose();
    assert v.isDisposed;
  }
}
