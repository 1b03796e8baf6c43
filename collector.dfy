/**
 * `Clip2Bridge.DataFrameCollector`: a growable byte buffer into which the payloads of
 * HTTP/2 DATA frames are copied, read back as text, and logically emptied between messages.
 */
module Collector {

  newtype byte = b: int | 0 <= b < 256

  /** Capacity of a freshly created collector. */
  const INITIAL_CAPACITY: nat := 512
  /** Chunks at least this long switch the growth rule from "exactly enough" to "at least double". */
  const LARGE_CHUNK: nat := 4096

  /** The bytes read as characters (the model assumes ASCII content, see README). */
  function AsText(bytes: seq<byte>): (text: string)
    ensures |text| == |bytes|
    ensures forall i :: 0 <= i < |bytes| ==> text[i] as int == bytes[i] as int
  {
    seq(|bytes|, i requires 0 <= i < |bytes| => (bytes[i] as int) as char)
  }

  lemma AsTextAppend(a: seq<byte>, b: seq<byte>)
    ensures AsText(a + b) == AsText(a) + AsText(b)
  {
    assert forall i :: 0 <= i < |a + b| ==> AsText(a + b)[i] == (AsText(a) + AsText(b))[i];
  }

  /**
   * The capacity after appending `chunkLength` bytes to a buffer of `capacity` bytes of
   * which `usedSize` are in use: unchanged when the chunk fits; otherwise exactly the
   * needed size for chunks under 4096 bytes, and the larger of twice the old capacity and
   * the needed size for bigger chunks.
   */
  function CapacityAfter(capacity: nat, usedSize: nat, chunkLength: nat): (r: nat)
    ensures r >= usedSize + chunkLength && r >= capacity
    ensures r == capacity <==> usedSize + chunkLength <= capacity
    ensures usedSize + chunkLength > capacity && chunkLength < LARGE_CHUNK ==> r == usedSize + chunkLength
    ensures usedSize + chunkLength > capacity && chunkLength >= LARGE_CHUNK ==>
              r >= 2 * capacity && (r == 2 * capacity || r == usedSize + chunkLength)
  {
    var neededSize := usedSize + chunkLength;
    if neededSize > capacity then
      (if chunkLength < LARGE_CHUNK then neededSize
       else if 2 * capacity > neededSize then 2 * capacity else neededSize)
    else capacity
  }

  /** `Arrays.copyOf`: a fresh array of the new length holding the old prefix, padded with zeros. */
  method CopyOf(original: array<byte>, newLength: nat) returns (copy: array<byte>)
    ensures fresh(copy) && copy.Length == newLength
    ensures forall k :: 0 <= k < newLength ==> copy[k] == if k < original.Length then original[k] else 0
  {
    copy := new byte[newLength](_ => 0);
    var n := if original.Length < newLength then original.Length else newLength;
    var i := 0;
    while i < n
      invariant 0 <= i <= n
      invariant forall k :: 0 <= k < newLength ==> copy[k] == if k < i then original[k] else 0
    {
      copy[i] := original[i];
      i := i + 1;
    }
  }

  /** `ByteBuffer.get(dst, offset, length)` of a whole chunk: copies it into `dst` from `offset` on. */
  method GetInto(data: seq<byte>, dst: array<byte>, offset: nat)
    requires offset + |data| <= dst.Length
    modifies dst
    ensures dst[..offset + |data|] == old(dst[..offset]) + data
  {
    var i := 0;
    while i < |data|
      invariant 0 <= i <= |data|
      invariant dst[..offset + i] == old(dst[..offset]) + data[..i]
    {
      dst[offset + i] := data[i];
      assert dst[..offset + i + 1] == dst[..offset + i] + [data[i]];
      assert data[..i + 1] == data[..i] + [data[i]];
      i := i + 1;
    }
    assert data[..i] == data;
  }

  class DataFrameCollector {
    var buffer: array<byte>
    var usedSize: nat

    ghost predicate Valid()
      reads this
    {
      usedSize <= buffer.Length
    }

    /** The buffered bytes: the first `usedSize` bytes of the buffer. */
    ghost function Content(): seq<byte>
      reads this, buffer
      requires Valid()
    {
      buffer[..usedSize]
    }

    constructor ()
      ensures Valid() && fresh(buffer)
      ensures buffer.Length == INITIAL_CAPACITY && Content() == []
    {
      buffer := new byte[INITIAL_CAPACITY](_ => 0);
      usedSize := 0;
    }

    /**
     * Copies a chunk in after the buffered bytes. The buffer is reallocated (keeping its
     * earlier bytes) only when the chunk does not fit, to the capacity `CapacityAfter` gives.
     */
    method Append(data: seq<byte>)
      requires Valid()
      modifies this, buffer
      ensures Valid()
      ensures Content() == old(Content()) + data
      ensures buffer.Length == CapacityAfter(old(buffer.Length), old(usedSize), |data|)
      ensures old(usedSize) + |data| <= old(buffer.Length) ==> buffer == old(buffer)
      ensures buffer == old(buffer) || fresh(buffer)
    {
      var dataCapacity := |data|;
      var neededSize := usedSize + dataCapacity;
      if neededSize > buffer.Length {
        var newSize := if dataCapacity < LARGE_CHUNK then neededSize
                       else if 2 * buffer.Length > neededSize then 2 * buffer.Length else neededSize;
        buffer := CopyOf(buffer, newSize);
      }
      assert buffer[..usedSize] == old(Content());
      GetInto(data, buffer, usedSize);
      usedSize := neededSize;
    }

    /** The buffered bytes as text; changes nothing. */
    method ContentAsString() returns (text: string)
      requires Valid()
      ensures text == AsText(Content())
    {
      text := AsText(buffer[..usedSize]);
    }

    /** Empties the collector logically: the capacity is kept. */
    method Reset()
      requires Valid()
      modifies this
      ensures Valid() && Content() == []
      ensures buffer == old(buffer) && buffer.Length == old(buffer.Length)
    {
      usedSize := 0;
    }
  }
}
