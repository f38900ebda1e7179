/**
 * BlobWriter: frames a serialized block for the output stream. A frame is the
 * BlobHeader's length as a four-byte big-endian `int`, the BlobHeader (type and
 * Blob length), then the Blob holding the block: zlib-compressed for OSMData,
 * raw for OSMHeader.
 */
module BlobWriter {
  import opened JavaInt
  import opened Wrappers
  import opened Osmformat
  import opened Collaborators

  /** The two block types of the file format. */
  const TYPE_OSM_DATA: string := "OSMData"
  const TYPE_OSM_HEADER: string := "OSMHeader"

  /** The stream takes `n` bytes in all: it has no capacity or `n` is within it. */
  predicate Accepts(capacity: Option<nat>, n: nat)
  {
    capacity.None? || n <= capacity.value
  }

  /** The byte sequences of `chunks` one after the other. */
  function Concat(chunks: seq<seq<Byte>>): seq<Byte>
    decreases |chunks|
  {
    if chunks == [] then [] else chunks[0] + Concat(chunks[1..])
  }

  /**
   * An output stream holding `data` so far. A write that would take it beyond
   * `capacity` throws IOException and writes nothing.
   */
  class OutputStream {
    var data: seq<Byte>
    const capacity: Option<nat>

    constructor (capacity: Option<nat>)
      ensures data == [] && this.capacity == capacity
    {
      data := [];
      this.capacity := capacity;
    }

    /** `write(b)`; `ok` is false where Java throws IOException. */
    method Write(b: seq<Byte>) returns (ok: bool)
      modifies this
      ensures ok <==> Accepts(capacity, |old(data)| + |b|)
      ensures data == if ok then old(data) + b else old(data)
    {
      ok := Accepts(capacity, |data| + |b|);
      if ok {
        data := data + b;
      }
    }
  }

  /**
   * What writing `chunks` in order does to a stream holding `data`: the new
   * contents, and whether every write went through. The first write that
   * throws stops the sequence.
   */
  function Emitted(data: seq<Byte>, capacity: Option<nat>, chunks: seq<seq<Byte>>): (seq<Byte>, bool)
    decreases |chunks|
  {
    if chunks == [] then (data, true)
    else if Accepts(capacity, |data| + |chunks[0]|) then Emitted(data + chunks[0], capacity, chunks[1..])
    else (data, false)
  }

  /**
   * Writing chunks to a stream within its capacity only appends a prefix of
   * their concatenation; it all goes through exactly when the stream takes
   * the whole of it.
   */
  lemma {:induction false} EmittedPrefix(data: seq<Byte>, capacity: Option<nat>, chunks: seq<seq<Byte>>)
    requires Accepts(capacity, |data|)
    ensures var (out, ok) := Emitted(data, capacity, chunks);
      && data <= out && out <= data + Concat(chunks)
      && (ok <==> Accepts(capacity, |data| + |Concat(chunks)|))
      && (ok ==> out == data + Concat(chunks))
    decreases |chunks|
  {
    if chunks != [] {
      var c := chunks[0];
      assert Concat(chunks) == c + Concat(chunks[1..]);
      if Accepts(capacity, |data| + |c|) {
        EmittedPrefix(data + c, capacity, chunks[1..]);
        assert data + c + Concat(chunks[1..]) == data + Concat(chunks);
        assert data <= data + c;
      } else {
        assert |data| + |Concat(chunks)| >= |data| + |c|;
      }
    }
  }

  /**
   * The Blob a block becomes: OSMData compressed as one complete zlib stream,
   * with `raw_size` the block's length; OSMHeader kept raw.
   */
  function DataBlob(z: Zlib, blob: ByteArray, compress: bool): BlobMsg
  {
    if compress then BlobMsg(Some(|blob|), ZlibData(z.deflate(blob))) else BlobMsg(None, Raw(blob))
  }

  /** The three writes of one frame: the header's length, the header, the Blob. */
  function FrameChunks(pb: Protobuf, z: Zlib, blob: ByteArray, blobType: string): seq<seq<Byte>>
  {
    var dataBlob := pb.serializeBlob(DataBlob(z, blob, blobType == TYPE_OSM_DATA));
    var headerBlob := pb.serializeBlobHeader(BlobHeaderMsg(blobType, |dataBlob|));
    [IntToBytes(|headerBlob|), headerBlob, dataBlob]
  }

  /** One frame as it appears in the stream. */
  function Frame(pb: Protobuf, z: Zlib, blob: ByteArray, blobType: string): seq<Byte>
  {
    Concat(FrameChunks(pb, z, blob, blobType))
  }

  /**
   * `write(blob, type)` on a stream holding `data`: an unsupported type writes
   * nothing and fails; otherwise the frame's three writes.
   */
  function WriteResult(pb: Protobuf, z: Zlib, data: seq<Byte>, capacity: Option<nat>,
                       blob: ByteArray, blobType: string): (seq<Byte>, bool)
  {
    if blobType != TYPE_OSM_DATA && blobType != TYPE_OSM_HEADER then (data, false)
    else Emitted(data, capacity, FrameChunks(pb, z, blob, blobType))
  }

  /**
   * The outcome of `write` on a stream within its capacity: an unsupported type fails and leaves the stream
   * alone; a supported one succeeds exactly when the stream takes the whole
   * frame, which is then appended, and otherwise appends at most part of it.
   */
  lemma WriteOutcome(pb: Protobuf, z: Zlib, data: seq<Byte>, capacity: Option<nat>, blob: ByteArray, blobType: string)
    requires Accepts(capacity, |data|)
    ensures var (out, ok) := WriteResult(pb, z, data, capacity, blob, blobType);
      && (blobType != TYPE_OSM_DATA && blobType != TYPE_OSM_HEADER ==> !ok && out == data)
      && (blobType == TYPE_OSM_DATA || blobType == TYPE_OSM_HEADER ==>
            && (ok <==> Accepts(capacity, |data| + |Frame(pb, z, blob, blobType)|))
            && (ok ==> out == data + Frame(pb, z, blob, blobType))
            && data <= out && out <= data + Frame(pb, z, blob, blobType))
  {
    EmittedPrefix(data, capacity, FrameChunks(pb, z, blob, blobType));
  }

  /**
   * The frame's layout: four bytes holding the header's length, the header
   * naming the type and the Blob's length, then the Blob; the Blob
   * compresses exactly OSMData.
   */
  lemma FrameLayout(pb: Protobuf, z: Zlib, blob: ByteArray, blobType: string)
    ensures var f := Frame(pb, z, blob, blobType);
      var dataBlob := pb.serializeBlob(DataBlob(z, blob, blobType == TYPE_OSM_DATA));
      var headerBlob := pb.serializeBlobHeader(BlobHeaderMsg(blobType, |dataBlob|));
      && f == IntToBytes(|headerBlob|) + headerBlob + dataBlob
      && (blobType == TYPE_OSM_DATA ==> DataBlob(z, blob, true) == BlobMsg(Some(|blob|), ZlibData(z.deflate(blob))))
  {
    var dataBlob: seq<Byte> := pb.serializeBlob(DataBlob(z, blob, blobType == TYPE_OSM_DATA));
    var headerBlob: seq<Byte> := pb.serializeBlobHeader(BlobHeaderMsg(blobType, |dataBlob|));
    var chunks: seq<seq<Byte>> := FrameChunks(pb, z, blob, blobType);
    assert chunks[1..] == [headerBlob, dataBlob] && chunks[1..][1..] == [dataBlob];
    assert Concat(chunks[1..][1..]) == dataBlob;
    assert Concat(chunks[1..]) == headerBlob + dataBlob;
  }

  class BlobWriter {
    /** The output stream, shared by the writer's users. */
    const output: OutputStream
    /** The protobuf and zlib libraries the frame is built with. */
    const pb: Protobuf
    const z: Zlib

    constructor (output: OutputStream, pb: Protobuf, z: Zlib)
      ensures this.output == output && this.pb == pb && this.z == z
    {
      this.output := output;
      this.pb := pb;
      this.z := z;
    }

    /** `write(blob)`: the two-argument write with the OSMData type. */
    method WriteData(blob: ByteArray) returns (ok: bool)
      modifies output
      ensures (output.data, ok) == WriteResult(pb, z, old(output.data), output.capacity, blob, TYPE_OSM_DATA)
    {
      ok := Write(blob, TYPE_OSM_DATA);
    }

    /**
     * `write(blob, type)`: false for a type other than OSMData and OSMHeader;
     * otherwise the Blob (compressed for OSMData), its header and the header's
     * length, written length first, with false as soon as a write throws.
     */
    method Write(blob: ByteArray, blobType: string) returns (ok: bool)
      modifies output
      ensures (output.data, ok) == WriteResult(pb, z, old(output.data), output.capacity, blob, blobType)
    {
      var compress: bool;
      if blobType == TYPE_OSM_DATA {
        compress := true;
      } else if blobType == TYPE_OSM_HEADER {
        compress := false;
      } else {
        return false;
      }
      var dataBlob := pb.serializeBlob(DataBlob(z, blob, compress));
      var headerBlob := pb.serializeBlobHeader(BlobHeaderMsg(blobType, |dataBlob|));
      var size := IntToBytes(|headerBlob|);
      ghost var chunks: seq<seq<Byte>> := [size, headerBlob, dataBlob];
      assert chunks == FrameChunks(pb, z, blob, blobType);
      ghost var data := output.data;
      ok := output.Write(size);
      if !ok {
        return;
      }
      assert Emitted(data, output.capacity, chunks) == Emitted(output.data, output.capacity, chunks[1..]);
      ok := output.Write(headerBlob);
      if !ok {
        return;
      }
      assert Emitted(data, output.capacity, chunks) == Emitted(output.data, output.capacity, chunks[2..]);
      ok := output.Write(dataBlob);
      assert |chunks[3..]| == 0;
    }
  }

  /**
   * The compression step as written: the output buffer has the input's
   * length, so `deflate` stops there and the zlib data is the stream cut to
   * that many bytes.
   */
  function AsWrittenDataBlob(z: Zlib, blob: ByteArray): BlobMsg
  {
    var stream := z.deflate(blob);
    var length := if |stream| < |blob| then |stream| else |blob|;
    BlobMsg(Some(|blob|), ZlibData(stream[..length]))
  }

  /**
   * A one-byte OSMData block: its zlib stream has at least six bytes, the
   * buffer one, so the stored data is not the stream and the corrected Blob
   * differs.
   */
  lemma AsWrittenDataBlobTruncates(z: Zlib)
    requires Lawful(z)
    ensures |AsWrittenDataBlob(z, [0]).data.bytes| == 1 < |z.deflate([0])|
    ensures AsWrittenDataBlob(z, [0]) != DataBlob(z, [0], true)
  {
    assert |z.deflate([0])| >= 6;
  }
}
