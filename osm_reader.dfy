/**
 * OSMReader: the Runnable that turns one Blob into its payload (inflating zlib
 * data, passing raw data through) and hands the payload to the header or data
 * decoder, giving back its permit of the reading throttle however it ends.
 */
module OsmReader {
  import opened JavaInt
  import opened Wrappers
  import opened Osmformat
  import opened Collaborators
  import BlobWriter

  /**
   * `decompress(blobData)`: inflates the zlib data into a buffer of
   * `raw_size` bytes. A negative size fails allocating the buffer, a stream
   * zlib rejects is a DataFormatException, and an inflated length other than
   * `raw_size` is an invalid payload size.
   */
  function Decompress(z: Zlib, m: BlobMsg): Result<seq<Byte>>
    requires m.data.ZlibData?
  {
    var rawSize := m.RawSize();
    if rawSize < 0 then Err(NegativeArraySize)
    else
      var inflated := z.inflate(m.data.bytes);
      if inflated.None? then Err(DataFormat)
      else if |inflated.value| != rawSize then Err(InvalidPayloadSize)
      else Ok(inflated.value)
  }

  /**
   * The payload `run` hands on: a Blob that does not parse fails, zlib data is
   * inflated, raw data passes through, and any other payload is refused.
   */
  function Payload(pb: Protobuf, z: Zlib, blob: seq<Byte>): Result<seq<Byte>>
  {
    var m := pb.parseBlob(blob);
    if m.None? then Err(InvalidProtocolBuffer)
    else match m.value.data
      case ZlibData(_) => Decompress(z, m.value)
      case Raw(bytes) => Ok(bytes)
      case OtherData => Err(UnsupportedCompression)
  }

  /**
   * A decompressed payload is the whole inflated stream and has exactly
   * `raw_size` bytes; it is refused exactly when the size is negative, zlib
   * rejects the stream or the lengths differ.
   */
  lemma DecompressExact(z: Zlib, m: BlobMsg)
    requires m.data.ZlibData?
    ensures var r := Decompress(z, m);
      && (r.Ok? <==> m.RawSize() >= 0 && z.inflate(m.data.bytes).Some? && |z.inflate(m.data.bytes).value| == m.RawSize())
      && (r.Ok? ==> r.value == z.inflate(m.data.bytes).value && |r.value| == m.RawSize())
      && (r.Err? && r.error == NegativeArraySize <==> m.RawSize() < 0)
  {
  }

  /**
   * A Blob written by the writer gives back the block it was written from:
   * OSMData through inflation, OSMHeader as raw data.
   */
  lemma PayloadOfWrittenBlob(pb: Protobuf, z: Zlib, block: ByteArray, compress: bool)
    requires FramingRoundTrips(pb) && Lawful(z)
    ensures Payload(pb, z, pb.serializeBlob(BlobWriter.DataBlob(z, block, compress))) == Ok(block)
  {
    var m := BlobWriter.DataBlob(z, block, compress);
    assert pb.parseBlob(pb.serializeBlob(m)) == Some(m);
    if compress {
      assert z.inflate(z.deflate(block)) == Some(block);
    }
  }

  /** The reading throttle: a counting semaphore. */
  class Semaphore {
    var permits: int

    constructor (permits: int)
      ensures this.permits == permits
    {
      this.permits := permits;
    }

    /** `release()`: one more permit. */
    method Release()
      modifies this
      ensures permits == old(permits) + 1
    {
      permits := permits + 1;
    }
  }

  /**
   * One reading task: the Blob's bytes and the throttle it holds a permit of.
   * The decoder `read` stands for the subclass's `read(payload)`.
   */
  class OsmReader {
    const blob: seq<Byte>
    const tasksLimiter: Semaphore
    const pb: Protobuf
    const z: Zlib

    constructor (blob: seq<Byte>, tasksLimiter: Semaphore, pb: Protobuf, z: Zlib)
      ensures this.blob == blob && this.tasksLimiter == tasksLimiter && this.pb == pb && this.z == z
    {
      this.blob := blob;
      this.tasksLimiter := tasksLimiter;
      this.pb := pb;
      this.z := z;
    }

    /**
     * `run()`: the decoder's result on the payload, or the error that stopped
     * the payload from being made (rethrown as a RuntimeException); in every
     * case the permit is released once.
     */
    method Run<T>(read: seq<Byte> -> T) returns (r: Result<T>)
      modifies tasksLimiter
      ensures tasksLimiter.permits == old(tasksLimiter.permits) + 1
      ensures var payload := Payload(pb, z, blob);
        r == if payload.Ok? then Ok(read(payload.value)) else Err(payload.error)
    {
      var blobData := pb.parseBlob(blob);
      if blobData.None? {
        tasksLimiter.Release();
        return Err(InvalidProtocolBuffer);
      }
      var payload: seq<Byte>;
      match blobData.value.data {
        case ZlibData(_) =>
          var inflated := Inflate(blobData.value);
          if inflated.Err? {
            tasksLimiter.Release();
            return Err(inflated.error);
          }
          payload := inflated.value;
        case Raw(bytes) =>
          payload := bytes;
        case OtherData =>
          tasksLimiter.Release();
          return Err(UnsupportedCompression);
      }
      r := Ok(read(payload));
      tasksLimiter.Release();
    }

    /** `decompress(blobData)`. */
    method Inflate(blobData: BlobMsg) returns (r: Result<seq<Byte>>)
      requires blobData.data.ZlibData?
      ensures r == Decompress(z, blobData)
    {
      var rawSize := blobData.RawSize();
      if rawSize < 0 {
        return Err(NegativeArraySize);
      }
      var inflated := z.inflate(blobData.data.bytes);
      if inflated.None? {
        return Err(DataFormat);
      }
      if |inflated.value| != rawSize {
        return Err(InvalidPayloadSize);
      }
      r := Ok(inflated.value);
    }
  }

  /**
   * `decompress` as written: `inflate` fills at most the `raw_size`-byte
   * buffer, so an inflated stream longer than `raw_size` is cut short and
   * passes the length check.
   */
  function AsWrittenDecompress(z: Zlib, m: BlobMsg): Result<seq<Byte>>
    requires m.data.ZlibData?
  {
    var rawSize := m.RawSize();
    if rawSize < 0 then Err(NegativeArraySize)
    else
      var inflated := z.inflate(m.data.bytes);
      if inflated.None? then Err(DataFormat)
      else
        var uncompressedSize := if |inflated.value| < rawSize then |inflated.value| else rawSize;
        if uncompressedSize != rawSize then Err(InvalidPayloadSize)
        else Ok(inflated.value[..uncompressedSize])
  }

  /**
   * A Blob declaring one byte of raw size but holding two inflated bytes: as
   * written the first byte comes back with no error; the size check that was
   * meant refuses it.
   */
  lemma AsWrittenDecompressTruncates(z: Zlib)
    requires Lawful(z)
    ensures AsWrittenDecompress(z, BlobMsg(Some(1), ZlibData(z.deflate([1, 2])))) == Ok([1])
    ensures Decompress(z, BlobMsg(Some(1), ZlibData(z.deflate([1, 2])))) == Err(InvalidPayloadSize)
  {
    assert z.inflate(z.deflate([1, 2])) == Some([1, 2]);
    assert [1, 2][..1] == [1];
  }
}
