# Nagisa graphics wrappers in Dafny

A model of the four resource wrappers in the `Nagisa.Graphics` namespace of
the Nagisa 2D game library, with proofs of what they promise:

- **`BitmapController`** (`pixel_view.dfy`): a bounds-checked colour view of
  a locked bitmap. The pixels are a buffer of `Width*Height` signed 32-bit
  words, and pixel `(x, y)` is the word at offset `Width*y + x`. A disposed
  flag is checked before every access.
- **`BitmapLoader`** (`edit_session.dfy`): owns a bitmap, a drawing surface
  and a heap buffer of `4*W*H` bytes. A size guard runs before the buffer is
  allocated. `Flush` copies the bitmap's bytes into the buffer one byte at a
  time.
- **`FontLoader`** (`font_loading.dfy`): loads a font file, or reads a font
  from a stream in chunks of at most 16 KiB. It registers the bytes only if
  exactly the declared number arrived.
- **`TextRendererOptions`** (`text_options.dfy`): an options record. Its
  setters validate their argument and leave the old value in place when
  they reject it.

Shared parts:

- `argb.dfy` holds the packed ARGB layout: alpha in bits 24-31, red 16-23,
  green 8-15, blue 0-7. A packed word is stored in memory little-endian.
- `platform.dfy` holds small stand-ins for the platform objects the
  wrappers hold: bitmaps, lock records, drawing surfaces, streams, font
  collections, fonts and `Marshal.Copy`.
- `errors.dfy` has one error value per .NET exception the wrappers throw.

A constructor that can throw becomes a static method that returns
`Result<…>`. A named Dafny constructor does the field setup once the
checks have passed.

Each `Dispose(bool)` becomes `DisposeCore(disposing)`. The public
`Dispose()` is the managed path. Once called, a disposed object's references
are cleared. Every later call changes nothing.

The source and its tests do not always agree. The
model follows the source:

- `FontLoader.Families` has no disposal check and returns null once disposed
  (`Nagisa/Graphics/FontLoader.cs:50`). The test `FamiliesExceptionTest`
  (`UnitTest/Graphics/FontLoaderTest.cs:81-106`) expects an
  `ObjectDisposedException` instead. `FontLoading.FontLoader.Families` states
  what the code does: the result is `None` exactly when the loader is
  disposed.
- `TextRendererOptions` has no `Dispose` and no disposal checks in this
  source, though its tests wrap it in `using`. The second constructor
  repeats the first one's set-up rather than calling it; the effect is the
  same.
- `BitmapLoader.Dispose(false)`, the finalizer path, never frees the heap
  buffer: it only forgets the pointer. `EditSession.BitmapLoader.DisposeCore`
  records no release on that path.
- `FontLoader(Stream, int)` throws whenever the byte count is wrong, short
  or long, before it frees its native block. The model does not track that block's release.

## Model

| member | source | states |
|---|---|---|
| Argb.ToArgb | Nagisa/Graphics/BitmapController.cs:80 | the packed word's bit pattern holds alpha in bits 24-31, red in 16-23, green in 8-15 and blue in 0-7; the word is negative exactly when alpha is at least 0x80 |
| Argb.FromArgb | Nagisa/Graphics/BitmapController.cs:66 | the four channels are the word's four bit fields: reassembled as alpha, red, green, blue they give its unsigned bit pattern |
| Argb.FromArgbToArgb | Nagisa/Graphics/BitmapController.cs:80 | unpacking a packed colour gives the same four channels back |
| Argb.ToArgbFromArgb | Nagisa/Graphics/BitmapController.cs:66 | packing an unpacked word gives the same word back, so every stored word reads as a colour that writes it again |
| Argb.ZeroIsTransparentBlack | UnitTest/Graphics/BitmapControllerTest.cs:55-66 | a zero word decodes to transparent black, as a blank bitmap reads |
| Argb.BytesCompose | Nagisa/Graphics/BitmapController.cs:66 | the four channel bytes of a word reassemble its unsigned bit pattern |
| Argb.PackedByteOrder | Nagisa/Graphics/BitmapLoader.cs:163-167 | in memory a packed colour is stored blue, green, red, alpha |
| Argb.LittleEndianPixel | Nagisa/Graphics/BitmapLoader.cs:157-167 | pixel i of the word buffer is the colour made of bytes 4i+3, 4i+2, 4i+1 and 4i of the byte view that the copy reads |
| Platform.Bitmap.LockBits | Nagisa/Graphics/BitmapController.cs:151-152 | a lock over the whole bitmap marks it locked and points at its own pixel storage with its width and height |
| Platform.Bitmap.UnlockBits | Nagisa/Graphics/BitmapController.cs:183 | releases the lock and leaves the disposed flag as it was |
| Platform.Bitmap.LockedBytes | Nagisa/Graphics/BitmapLoader.cs:157-164 | a read-only lock seen through a byte pointer is the little-endian byte view of the pixels |
| Platform.Stream.Read | Nagisa/Graphics/FontLoader.cs:100 | a read returns at most count bytes, returns 0 only at end of stream, advances the position by what it returned, and copies exactly those stream bytes to the buffer |
| Platform.Copy | Nagisa/Graphics/FontLoader.cs:101 | the destination gets the source range at the offset and is unchanged elsewhere |
| Platform.FontCollection.AddFontFile | Nagisa/Graphics/FontLoader.cs:72 | appends the file to the collection's sources and its parsed families to the collection's families |
| Platform.FontCollection.AddMemoryFont | Nagisa/Graphics/FontLoader.cs:109 | appends the byte block to the collection's sources and its parsed families to the collection's families |
| Platform.IsNullOrWhiteSpace | Nagisa/Graphics/BitmapLoader.cs:138 | a null or empty string counts as blank, and a blank string holds only white-space characters |
| PixelView.Offset | Nagisa/Graphics/BitmapController.cs:66 | for in-range x and y the word offset Width*y + x lies in [0, Width*Height) |
| PixelView.OffsetInjective | Nagisa/Graphics/BitmapController.cs:79 | two in-range coordinates have the same offset if and only if they are the same coordinates |
| PixelView.CheckIndex | Nagisa/Graphics/BitmapController.cs:60-64 | passes if and only if 0 <= x < Width and 0 <= y < Height; otherwise fails with out-of-range naming x when x is out of range, else y |
| PixelView.ReadAfterWrite | Nagisa/Graphics/BitmapController.cs:79-80 | reading a pixel just written gives the colour written |
| PixelView.WriteLeavesOthers | Nagisa/Graphics/BitmapController.cs:79-80 | writing one pixel leaves every other in-range pixel's colour unchanged |
| PixelView.WriteChangesOneWord | Nagisa/Graphics/BitmapController.cs:79-80 | a write changes exactly the word at the pixel's offset, to the packed colour, and keeps every other word |
| PixelView.BitmapController.Open | Nagisa/Graphics/BitmapController.cs:145-153 | a null bitmap fails with argument-null; otherwise a fresh live view of the bitmap's pixels, with its width and height and the caller's lock mode, and the bitmap locked |
| PixelView.BitmapController.Get | Nagisa/Graphics/BitmapController.cs:55-67 | fails with object-disposed after disposal, with the out-of-range error of CheckIndex outside the bitmap, and otherwise returns the colour of the word at Width*y + x |
| PixelView.BitmapController.Set | Nagisa/Graphics/BitmapController.cs:68-81 | the same failures with no change; on success the buffer is the old one with the packed colour at the pixel's offset, Get then returns the colour, and every other pixel reads as before |
| PixelView.BitmapController.GetBitmapData | Nagisa/Graphics/BitmapController.cs:88-97 | fails exactly when disposed; otherwise the lock record, whose base address is the view's |
| PixelView.BitmapController.GetBaseBitmap | Nagisa/Graphics/BitmapController.cs:103-112 | fails exactly when disposed; otherwise the locked bitmap |
| PixelView.BitmapController.GetScan0 | Nagisa/Graphics/BitmapController.cs:118-127 | fails exactly when disposed; otherwise the base address of the locked words |
| PixelView.BitmapController.DisposeCore | Nagisa/Graphics/BitmapController.cs:176-196 | the first call clears data, bitmap and scan0 and sets the flag; the managed path also unlocks the bitmap; the bitmap is never disposed; later calls change nothing |
| PixelView.BitmapController.Dispose | Nagisa/Graphics/BitmapController.cs:160-164 | disposal on the managed path: afterwards disposed and the bitmap unlocked but not disposed; idempotent |
| EditSession.SizeGuard | Nagisa/Graphics/BitmapLoader.cs:222-223 | passes if and only if 8*W*H < int.MaxValue; otherwise fails with the image-too-large argument error |
| EditSession.GuardBoundsBytes | Nagisa/Graphics/BitmapLoader.cs:222-225 | when the guard passes, the 4*W*H byte count fits a signed 32-bit size, with room to double it |
| EditSession.SizeGuardAsWritten | Nagisa/Graphics/BitmapLoader.cs:222 | the guard as C# evaluates it, wrapping in 64 bits; it agrees with the exact test 8*W*H >= int.MaxValue whenever 8*W*H fits a signed 64-bit integer |
| EditSession.BufferBytesAsWritten | Nagisa/Graphics/BitmapLoader.cs:225 | the byte count as C# evaluates it, wrapping in 32 bits; it is exactly 4*W*H whenever 4*W and 4*W*H fit a signed 32-bit integer |
| EditSession.SizeGuardWraps | Nagisa/Graphics/BitmapLoader.cs:222-225 | with the source's 64-bit and 32-bit wrapping, an int.MaxValue by int.MaxValue bitmap passes the guard and gets a 4-byte buffer, while the exact guard rejects it |
| EditSession.BitmapLoader.Initialize | Nagisa/Graphics/BitmapLoader.cs:217-229 | fails with image-too-large exactly when the guard fails, before any allocation; otherwise owns the bitmap through a fresh, live surface drawing on it, and holds a fresh 4*W*H-byte buffer equal to the bitmap's bytes, with nothing released |
| EditSession.BitmapLoader.FromBitmap | Nagisa/Graphics/BitmapLoader.cs:106-112 | a null bitmap fails with argument-null; otherwise fails exactly when the size guard fails, with image-too-large; on success owns the bitmap through a fresh, live surface and a fresh 4*W*H-byte buffer in sync with it, with nothing released |
| EditSession.BitmapLoader.FromStream | Nagisa/Graphics/BitmapLoader.cs:120-129 | a null stream fails with argument-null, then an unreadable one with not-supported; otherwise fails exactly when the size guard fails, with image-too-large, and on success owns the decoded bitmap through a fresh, live surface and a fresh 4*W*H-byte buffer in sync with it, with nothing released |
| EditSession.BitmapLoader.FromFile | Nagisa/Graphics/BitmapLoader.cs:136-142 | a null or blank file name fails with argument-null; otherwise fails exactly when the size guard fails, with image-too-large, and on success owns the decoded bitmap through a fresh, live surface and a fresh 4*W*H-byte buffer in sync with it, with nothing released |
| EditSession.BitmapLoader.Flush | Nagisa/Graphics/BitmapLoader.cs:150-171 | fails with object-disposed once disposed; otherwise byte i of the heap buffer equals byte i of the locked pixels, for every i < bitmapBytes |
| EditSession.BitmapLoader.GetBaseBitmap | Nagisa/Graphics/BitmapLoader.cs:50-59 | fails exactly when disposed; otherwise the owned bitmap |
| EditSession.BitmapLoader.GetGraphics | Nagisa/Graphics/BitmapLoader.cs:65-74 | fails exactly when disposed; otherwise the surface, which draws on the owned bitmap |
| EditSession.BitmapLoader.GetScan0 | Nagisa/Graphics/BitmapLoader.cs:80-89 | fails exactly when disposed; otherwise the heap buffer of bitmapBytes bytes |
| EditSession.BitmapLoader.DisposeCore | Nagisa/Graphics/BitmapLoader.cs:191-213 | the first call clears bitmapData, graphics and bitmap and sets the flag; the managed path releases surface, bitmap and heap buffer in that order; the other path releases nothing and disposes neither the surface nor the bitmap; no path changes the bitmap's lock state; later calls change nothing |
| EditSession.BitmapLoader.Dispose | Nagisa/Graphics/BitmapLoader.cs:176-180 | disposal on the managed path, releasing the three resources in order; idempotent |
| FontLoading.WritesInBoundsIff | Nagisa/Graphics/FontLoader.cs:92-103 | every chunk write lands inside the size-byte block if and only if the chunks add up to at most size |
| FontLoading.OverlongStreamOverruns | Nagisa/Graphics/FontLoader.cs:92-103 | for a size below 16384, a stream holding size + 1 bytes, returned by one read, makes the loop as written copy past the size-byte block |
| FontLoading.FontLoader.FromFile | Nagisa/Graphics/FontLoader.cs:66-74 | fails with argument-null exactly for a null or blank name; otherwise a fresh, live collection holding that one file, its families, and an empty release trace |
| FontLoading.FontLoader.ReadChunk | Nagisa/Graphics/FontLoader.cs:100-102 | one pass of the loop body: the read returns at most 16384 bytes, 0 only at end of stream, and if the chunk fits the block the block's prefix grows by exactly the bytes read |
| FontLoading.FontLoader.ReadToEnd | Nagisa/Graphics/FontLoader.cs:92-103 | reads to the end of the stream; readTotal is the sum of the chunks, each between 1 and 16384 bytes; if readTotal fits the block, the block's first readTotal bytes are the consumed stream bytes in order |
| FontLoading.FontLoader.FromStream | Nagisa/Graphics/FontLoader.cs:81-113 | rejects a null stream, then size < 0, then an unreadable stream, in that order, and a rejected stream is left unread; otherwise reads to the end and succeeds if and only if the stream held exactly size more bytes, and then registers exactly those bytes in a fresh, live collection with an empty release trace; writes stay in the block if and only if it held at most size |
| FontLoading.FontLoader.Families | Nagisa/Graphics/FontLoader.cs:50 | never fails; null exactly when the loader has been disposed |
| FontLoading.FontLoader.DisposeCore | Nagisa/Graphics/FontLoader.cs:134-153 | the first call clears families and fontCollection and sets the flag; the managed path disposes every family, in list order, and then the collection, as the ghost release trace records; the finalizer path disposes nothing; later calls change nothing |
| FontLoading.FontLoader.Dispose | Nagisa/Graphics/FontLoader.cs:120-124 | disposal on the managed path, releasing every family in list order and then the collection; Families is null afterwards; idempotent |
| TextOptions.CheckLineHeight | Nagisa/Graphics/TextRendererOptions.cs:56-60 | passes if and only if the value is finite and non-negative; otherwise out-of-range on "value" |
| TextOptions.CheckShadowIndex | Nagisa/Graphics/TextRendererOptions.cs:98-99 | passes if and only if the index is non-negative |
| TextOptions.CheckFontArguments | Nagisa/Graphics/TextRendererOptions.cs:150-154 | passes if and only if the font is non-null and the line height non-negative; a null font is reported first |
| TextOptions.CheckFamilyArguments | Nagisa/Graphics/TextRendererOptions.cs:178-185 | passes if and only if the family is non-null and size and line height are non-negative; errors in the order family, fontSize, lineHeight |
| TextOptions.TextRendererOptions.FromFont | Nagisa/Graphics/TextRendererOptions.cs:148-163 | fails exactly as CheckFontArguments; otherwise the invariant holds, with the given font and line height, exactly one white brush, shadow index 0, a fresh typographic non-wrapping format, and antialiasing and shadow off |
| TextOptions.TextRendererOptions.FromFamily | Nagisa/Graphics/TextRendererOptions.cs:172-194 | fails exactly as CheckFamilyArguments; otherwise a fresh font of that family, size and style, the given line height, exactly one white brush, shadow index 0, a fresh typographic non-wrapping format, and antialiasing and shadow off |
| TextOptions.TextRendererOptions.SetLineHeight | Nagisa/Graphics/TextRendererOptions.cs:54-63 | stores the value when CheckLineHeight passes, keeps the old value otherwise, keeps the invariant and changes no other field |
| TextOptions.TextRendererOptions.SetShadowIndex | Nagisa/Graphics/TextRendererOptions.cs:96-102 | stores a non-negative index, keeps the old one otherwise, keeps the invariant and changes no other field |
| TextOptions.TextRendererOptions.SetFont | Nagisa/Graphics/TextRendererOptions.cs:114-120 | rejects null with argument-null and no change; otherwise stores the font; keeps the invariant |
| TextOptions.TextRendererOptions.SetFormat | Nagisa/Graphics/TextRendererOptions.cs:132-138 | rejects null with argument-null and no change; otherwise stores the format; keeps the invariant |
| TextOptions.TextRendererOptions.SetAntialiasing | Nagisa/Graphics/TextRendererOptions.cs:80 | stores the flag, nothing else changes |
| TextOptions.TextRendererOptions.SetDrawShadow | Nagisa/Graphics/TextRendererOptions.cs:85 | stores the flag, nothing else changes |

## Left out

- Image decoding (`new Bitmap(stream)`, `new Bitmap(filename)`) is a platform call. The `FromStream` and `FromFile` methods of `BitmapLoader` take the decoded bitmap as a parameter. Decoder failures are not modelled.
- The platform's font parsing (`AddFontFile`, `AddMemoryFont`) is a platform call. The families it yields are a parameter (`found`). Face names and counts are not modelled. A missing font file is not modelled.
- Drawing commands and `Graphics.Flush` are not modelled: `Graphics.Flush` has no effect in the model.
- Finalizers and `GC.SuppressFinalize` depend on garbage-collector timing. Only `DisposeCore(false)` models the finalizer path.
- IEEE single precision is not modelled. `Single` is a real number or one of NaN, +Infinity and -Infinity.
- TextOptions.TextRendererOptions.Init: stores an integer line height exactly. `(float)lineHeight` rounds integers above 2^24; the model does not.
- TextOptions.TextRendererOptions.FromFamily: takes the font style as a required argument. The source's default, `FontStyle.Regular`, is not modelled.
- `Platform.Font` does not record its unit, `GraphicsUnit.Pixel` (`Nagisa/Graphics/TextRendererOptions.cs:187`).
- The GDI+ `Font` constructor rejects a size of 0. That is a platform check, so `FromFamily` accepts 0 as the source's own check does.
- Stride and pixel format are not modelled. The lock always yields exactly `Width*Height` words, stride `4*Width`, 32bpp ARGB.
- GDI+ refusing `LockBits` on an already-locked bitmap is not modelled. Neither is GDI+ refusing `LockBits` on a disposed bitmap: `Platform.Bitmap.LockBits` accepts one.
- Whether a read-only lock blocks writes is a caller contract the code does not enforce.
- `Marshal.AllocHGlobal` and `FreeHGlobal` are modelled as array allocation. Only `BitmapLoader` records the heap buffer's release, in the ghost `released` trace.
- FontLoading.FontLoader.ReadChunk: does not copy a chunk that would cross the end of the native block. The source copies it and writes past the block, which Dafny cannot express. Such a chunk only arrives when the stream holds more than `size` bytes, so the load fails either way (for streams shorter than 2^31 bytes; the 32-bit `readTotal` is not modelled); `WritesInBoundsIff` states when writes stay inside the block.
- EditSession.BitmapLoader.Initialize: uses the exact guard `SizeGuard`, not the 64-bit wrapping one at `Nagisa/Graphics/BitmapLoader.cs:222`. The two differ only for bitmaps of about 2^60 pixels, which GDI+ never creates; `SizeGuardWraps` exhibits the difference.
- EditSession.BitmapLoader.Initialize: on a guard failure it creates nothing. The source has already created the `Graphics` surface and leaves it to the finalizer.
- `Color` equality in .NET also compares the known-colour name (`Color.Transparent != Color.FromArgb(0)`). The model compares the four channels only.
- The `Brushes` getter returns a mutable list that callers can change. The model keeps `brushes` as a value.
- The `IsDisposed` getters and the `TextRendererOptions` property getters are the fields themselves.
- Exception messages are not modelled; an error value keeps only the exception type and the parameter name.
- Stream I/O errors are not modelled.

## Findings

| source | as written | input that shows it | evidently intended | confidence | as-written member | corrected member |
|---|---|---|---|---|---|---|
| Nagisa/Graphics/BitmapLoader.cs:222-225 | the guard `8L * W * H` is computed in 64 bits, which wraps; `4 * W * H` is computed in 32 bits, which wraps | W = H = int.MaxValue: the product wraps to a negative number, the guard lets it through, and `bitmapBytes` is 4 | reject every bitmap whose 8*W*H is at least int.MaxValue, so that 4*W*H always fits | low, not executed: GDI+ refuses to create a bitmap this large before the guard is reached | EditSession.SizeGuardWraps | EditSession.GuardBoundsBytes |
| Nagisa/Graphics/FontLoader.cs:92-103 | the loop copies each chunk to `buffer + readTotal` without checking the end of the `size`-byte block from `AllocHGlobal(size)` | a stream holding size + 1 bytes: the copy of the chunk that crosses the end of the block writes past it, before the length check rejects the stream | never copy past the end of the block, and still reject a stream that does not hold exactly size bytes | medium, not executed | FontLoading.OverlongStreamOverruns | FontLoading.FontLoader.ReadChunk |
