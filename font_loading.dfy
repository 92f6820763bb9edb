/** `FontLoader`: registers one font file or one in-memory font, read from
    a stream in chunks, in a private font collection. */
module FontLoading {
  import opened Errors
  import opened Argb
  import opened Platform

  /** Size of the managed buffer each `Stream.Read` fills (16 KiB). */
  const ReadSegmentSize: nat := 1024 * 16

  function Sum(chunks: seq<nat>): nat
  {
    if chunks == [] then 0 else Sum(chunks[..|chunks| - 1]) + chunks[|chunks| - 1]
  }

  /** Chunk `k` is written at offset `Sum(chunks[..k])` of the native block;
      every write stays inside a block of `size` bytes. */
  ghost predicate WritesInBounds(chunks: seq<nat>, size: int)
  {
    forall k :: 0 <= k < |chunks| ==> Sum(chunks[..k]) + chunks[k] <= size
  }

  /** The loop never checks the block's end: its writes stay inside the
      `size`-byte block exactly when the chunks add up to at most `size`. */
  lemma {:induction false} WritesInBoundsIff(chunks: seq<nat>, size: nat)
    ensures WritesInBounds(chunks, size) <==> Sum(chunks) <= size
  {
    if chunks != [] {
      var n := |chunks| - 1;
      var init := chunks[..n];
      WritesInBoundsIff(init, size);
      assert Sum(chunks) == Sum(init) + chunks[n];
      assert forall k :: 0 <= k < n ==> init[..k] == chunks[..k] && init[k] == chunks[k];
      if Sum(chunks) <= size {
        assert WritesInBounds(init, size);
        forall k | 0 <= k < |chunks|
          ensures Sum(chunks[..k]) + chunks[k] <= size
        {
          if k < n {
            assert Sum(init[..k]) + init[k] <= size;
          }
        }
      } else {
        assert Sum(chunks[..n]) + chunks[n] > size;
      }
    }
  }

  /** A stream that holds one byte more than the declared size, delivered
      in a single read, makes the loop as written copy past the block. */
  lemma OverlongStreamOverruns(size: nat)
    requires size < ReadSegmentSize
    ensures !WritesInBounds([size + 1], size)
  {
    assert [size + 1][..0] == [];
  }

  /** The state after each chunk: `total` bytes consumed as `chunks`. */
  lemma SumAppend(chunks: seq<nat>, c: nat)
    ensures Sum(chunks + [c]) == Sum(chunks) + c
  {
    assert (chunks + [c])[..|chunks|] == chunks;
  }

  /** A handle the managed disposal path releases. */
  datatype Handle = FamilyHandle(family: FontFamily) | CollectionHandle(collection: FontCollection)

  /** The family handles of `items`, in list order. */
  function FamilyHandles(items: seq<FontFamily>): seq<Handle>
  {
    if items == [] then [] else FamilyHandles(items[..|items| - 1]) + [FamilyHandle(items[|items| - 1])]
  }

  class FontLoader {
    var fontCollection: FontCollection?
    var families: Option<seq<FontFamily>>
    var isDisposed: bool
    /** The handles released so far, in the order they were released. */
    ghost var released: seq<Handle>

    /** Live: the collection and the family list are set.  Disposed: both
        cleared. */
    ghost predicate Valid()
      reads this
    {
      if isDisposed then fontCollection == null && families.None?
      else fontCollection != null && families.Some?
    }

    /** The objects `Dispose` may release: the family handles. */
    ghost function FamilySet(): set<FontFamily>
      reads this
    {
      if families.Some? then set i | 0 <= i < |families.value| :: families.value[i] else {}
    }

    constructor Register(collection: FontCollection)
      ensures Valid() && !isDisposed && fontCollection == collection
      ensures families == Some(collection.families) && released == []
    {
      fontCollection := collection;
      families := Some(collection.families);
      isDisposed := false;
      released := [];
    }

    /** `new FontLoader(string)`: rejects a null or blank file name, then
        adds the file to a fresh collection; `found` is what the platform
        parses from it. */
    static method FromFile(filename: Option<string>, found: seq<FontFamily>) returns (r: Result<FontLoader>)
      ensures r.Failure? <==> IsNullOrWhiteSpace(filename)
      ensures r.Failure? ==> r.error == ArgumentNull("filename")
      ensures r.Success? ==> var v := r.value;
                fresh(v) && fresh(v.fontCollection) && v.Valid() && !v.isDisposed
                && v.fontCollection.sources == [FontFile(filename.value)]
                && v.families == Some(found)
                && !v.fontCollection.isDisposed && v.released == []
    {
      if IsNullOrWhiteSpace(filename) {
        return Failure(ArgumentNull("filename"));
      }
      var collection := new FontCollection();
      collection.AddFontFile(filename.value, found);
      assert collection.families == found;
      var v := new FontLoader.Register(collection);
      r := Success(v);
    }

    /** `new FontLoader(Stream, int)`: rejects a null stream, then a negative
        size, then an unreadable stream; reads the stream to its end in
        chunks of at most 16 KiB into a native block of `size` bytes and
        registers the block only if exactly `size` bytes arrived.  `chunks`
        are the sizes the reads returned. */
    static method FromStream(stream: Stream?, size: int, found: seq<FontFamily>)
      returns (r: Result<FontLoader>, ghost chunks: seq<nat>)
      requires stream != null ==> stream.Valid()
      modifies stream
      ensures stream == null ==> r == Failure(ArgumentNull("stream"))
      ensures stream != null && size < 0 ==> r == Failure(ArgumentOutOfRange("size"))
      ensures stream != null && 0 <= size && !stream.canRead ==> r == Failure(InvalidArgument)
      ensures stream != null && (size < 0 || !stream.canRead) ==> unchanged(stream)
      ensures stream != null && 0 <= size && stream.canRead ==>
                && stream.Valid() && stream.position == |stream.data|
                && Sum(chunks) == |stream.data| - old(stream.position)
                && (forall k :: 0 <= k < |chunks| ==> 0 < chunks[k] <= ReadSegmentSize)
                && (WritesInBounds(chunks, size) <==> |stream.data| - old(stream.position) <= size)
                && (r.Success? <==> |stream.data| - old(stream.position) == size)
                && (r.Failure? ==> r.error == InvalidArgument)
      ensures r.Success? ==> var v := r.value;
                fresh(v) && fresh(v.fontCollection) && v.Valid() && !v.isDisposed
                && v.fontCollection.sources == [MemoryFont(stream.data[old(stream.position)..])]
                && v.families == Some(found)
                && !v.fontCollection.isDisposed && v.released == []
    {
      chunks := [];
      if stream == null {
        return Failure(ArgumentNull("stream")), chunks;
      }
      if size < 0 {
        return Failure(ArgumentOutOfRange("size")), chunks;
      }
      if !stream.canRead {
        return Failure(InvalidArgument), chunks;
      }
      var buffer := new Byte[size];
      var readTotal;
      readTotal, chunks := ReadToEnd(stream, buffer);
      WritesInBoundsIff(chunks, size);
      if readTotal != size {
        return Failure(InvalidArgument), chunks;
      }
      assert buffer[..] == buffer[..readTotal];
      var collection := new FontCollection();
      collection.AddMemoryFont(buffer[..], found);
      assert collection.families == found;
      var v := new FontLoader.Register(collection);
      r := Success(v);
    }

    /** One pass of the `do`/`while` body of `FontLoader(Stream, int)`: read
        up to 16 KiB into the managed buffer, then copy the chunk to the
        native block at offset `readTotal`.  A chunk that would cross the end
        of the block is not copied (the source writes past the block's end
        there, which the model cannot express). */
    static method ReadChunk(stream: Stream, readBuffer: array<Byte>, buffer: array<Byte>, readTotal: nat, ghost start: nat)
      returns (readSize: nat)
      requires stream.Valid() && stream.canRead && readBuffer != buffer
      requires readBuffer.Length == ReadSegmentSize && stream.position == start + readTotal
      requires readTotal <= buffer.Length ==> buffer[..readTotal] == stream.data[start..stream.position]
      modifies stream, readBuffer, buffer
      ensures stream.Valid() && stream.position == old(stream.position) + readSize
      ensures readSize <= ReadSegmentSize
      ensures readSize == 0 <==> old(stream.position) == |stream.data|
      ensures readTotal + readSize <= buffer.Length ==>
                buffer[..readTotal + readSize] == stream.data[start..stream.position]
    {
      ghost var at := stream.position;
      readSize := stream.Read(readBuffer, 0, ReadSegmentSize);
      if readTotal + readSize <= buffer.Length {
        Copy(readBuffer, 0, buffer, readTotal, readSize);
        assert buffer[..readTotal + readSize] == buffer[..readTotal] + buffer[readTotal..readTotal + readSize];
        assert stream.data[start..stream.position] == stream.data[start..at] + stream.data[at..stream.position];
      }
    }

    /** The `do`/`while` loop of `FontLoader(Stream, int)`: chunks are read
        and copied until a read returns 0. */
    static method ReadToEnd(stream: Stream, buffer: array<Byte>) returns (readTotal: nat, ghost chunks: seq<nat>)
      requires stream.Valid() && stream.canRead
      modifies stream, buffer
      ensures stream.Valid() && stream.position == |stream.data|
      ensures readTotal == Sum(chunks) == |stream.data| - old(stream.position)
      ensures forall k :: 0 <= k < |chunks| ==> 0 < chunks[k] <= ReadSegmentSize
      ensures readTotal <= buffer.Length ==> buffer[..readTotal] == stream.data[old(stream.position)..]
    {
      chunks := [];
      readTotal := 0;
      var readBuffer := new Byte[ReadSegmentSize];
      ghost var start := stream.position;
      while true
        invariant stream.Valid() && stream.position == start + readTotal
        invariant readTotal == Sum(chunks)
        invariant forall k :: 0 <= k < |chunks| ==> 0 < chunks[k] <= ReadSegmentSize
        invariant readTotal <= buffer.Length ==> buffer[..readTotal] == stream.data[start..stream.position]
        decreases |stream.data| - stream.position
      {
        var readSize := ReadChunk(stream, readBuffer, buffer, readTotal, start);
        if readSize > 0 {
          SumAppend(chunks, readSize);
          chunks := chunks + [readSize];
        }
        readTotal := readTotal + readSize;
        if readSize == 0 {
          break;
        }
      }
    }

    /** The `Families` property: no disposal check, so it is null (`None`)
        exactly when the loader has been disposed. */
    function Families(): (r: Option<seq<FontFamily>>)
      reads this
      requires Valid()
      ensures r.None? <==> isDisposed
      ensures r == families
    {
      families
    }

    /** `Dispose(disposing)`: the first call, on the managed path, disposes
        every family handle in list order and then the collection; the
        finalizer path releases nothing.  Both paths clear the two fields and
        set the flag.  Later calls change nothing. */
    method DisposeCore(disposing: bool)
      requires Valid()
      modifies this, fontCollection, FamilySet()
      ensures Valid() && isDisposed && families.None? && fontCollection == null
      ensures old(isDisposed) ==> unchanged(this)
      ensures !old(isDisposed) && disposing ==>
                && released == old(released) + FamilyHandles(old(families).value) + [CollectionHandle(old(fontCollection))]
                && old(fontCollection).isDisposed
                && forall i :: 0 <= i < |old(families).value| ==> old(families).value[i].isDisposed
      ensures !disposing ==> released == old(released)
      ensures !disposing && old(fontCollection) != null ==>
                old(fontCollection).isDisposed == old(fontCollection.isDisposed)
      ensures !disposing && old(families).Some? ==>
                forall i :: 0 <= i < |old(families).value| ==>
                  old(families).value[i].isDisposed == old(families.value[i].isDisposed)
    {
      if !isDisposed {
        if disposing {
          if families.Some? {
            var items := families.value;
            for i := 0 to |items|
              invariant forall j :: 0 <= j < i ==> items[j].isDisposed
              invariant families == old(families) && fontCollection == old(fontCollection)
              invariant released == old(released) + FamilyHandles(items[..i])
            {
              items[i].Dispose();
              assert items[..i + 1][..i] == items[..i];
              released := released + [FamilyHandle(items[i])];
            }
            assert items[..|items|] == items;
          }
          if fontCollection != null {
            fontCollection.Dispose();
            released := released + [CollectionHandle(fontCollection)];
          }
        }
        families := None;
        fontCollection := null;
        isDisposed := true;
      }
    }

    /** `Dispose()`: the managed path. */
    method Dispose()
      requires Valid()
      modifies this, fontCollection, FamilySet()
      ensures Valid() && isDisposed && Families() == None
      ensures old(isDisposed) ==> unchanged(this)
      ensures !old(isDisposed) ==>
                && released == old(released) + FamilyHandles(old(families).value) + [CollectionHandle(old(fontCollection))]
                && old(fontCollection).isDisposed
                && forall i :: 0 <= i < |old(families).value| ==> old(families).value[i].isDisposed
    {
      DisposeCore(true);
    }
  }
}
