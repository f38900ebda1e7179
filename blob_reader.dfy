/**
 * BlobReader: reads the frames of a file from its input stream, one field at a
 * time: the BlobHeader's length, the BlobHeader, the Blob; and fast-forwards
 * the stream to a partition's offset.
 */
module BlobReader {
  import opened JavaInt
  import opened Wrappers
  import opened Osmformat
  import opened Collaborators
  import BlobWriter

  /** The size field is four bytes long. */
  const SIZE_FIELD_LENGTH: Int32 := 4
  /** A BlobHeader is never bigger than 64 KiB. */
  const MAX_HEADER_SIZE: int := 64 * 1024
  /** A Blob is never bigger than 32 MiB. */
  const MAX_BLOB_SIZE: int := 32 * 1024 * 1024

  /** What the reader keeps of a BlobHeader: the Blob's size and type. */
  datatype BlobInformation = BlobInformation(size: Int32, blobType: string)

  /**
   * What an input stream delivers: its bytes, the most bytes one `read` or
   * `skip` call hands over (a file gives all that is asked, a socket or a
   * decompressing stream less), and whether its calls throw IOException.
   */
  datatype Source = Source(data: seq<Byte>, chunk: nat, broken: bool)

  /** The bytes one `read` or `skip` asking for `n` gets at position `pos`. */
  function Delivered(src: Source, pos: nat, n: nat): (k: nat)
    requires pos <= |src.data|
    ensures k <= n && pos + k <= |src.data|
    ensures k == n <==> n <= src.chunk && pos + n <= |src.data|
    ensures n > 0 && src.chunk > 0 && pos < |src.data| ==> k > 0
  {
    var available := |src.data| - pos;
    var k := if n < src.chunk then n else src.chunk;
    if k < available then k else available
  }

  /** `n` zero bytes, as a new Java array holds. */
  function Zeros(n: nat): (z: seq<Byte>)
    ensures |z| == n && forall i :: 0 <= i < n ==> z[i] == 0
  {
    seq(n, _ => 0)
  }

  /** An input stream over `src`, at position `pos`. */
  class InputStream {
    const src: Source
    var pos: nat

    ghost predicate Valid()
      reads this
    {
      pos <= |src.data| && src.chunk > 0
    }

    constructor (src: Source)
      requires src.chunk > 0
      ensures Valid() && this.src == src && pos == 0
    {
      this.src := src;
      pos := 0;
    }

    /**
     * `read(buffer)` into a new buffer of `n` bytes: the bytes delivered fill
     * its start, the count is -1 at the end of the stream (when `n` is not
     * zero), and `thrown` stands for IOException.
     */
    method Read(n: nat) returns (thrown: bool, count: int, buffer: seq<Byte>)
      requires Valid()
      modifies this
      ensures Valid()
      ensures thrown <==> src.broken
      ensures thrown ==> pos == old(pos)
      ensures !thrown ==> var k := Delivered(src, old(pos), n);
        && pos == old(pos) + k
        && count == (if n > 0 && k == 0 then -1 else k)
        && buffer == src.data[old(pos)..pos] + Zeros(n - k)
    {
      if src.broken {
        return true, 0, [];
      }
      var k := Delivered(src, pos, n);
      thrown, count, buffer := false, if n > 0 && k == 0 then -1 else k, src.data[pos..pos + k] + Zeros(n - k);
      pos := pos + k;
    }

    /** `skip(n)`: the number of bytes skipped; `thrown` stands for IOException. */
    method Skip(n: nat) returns (thrown: bool, skipped: nat)
      requires Valid()
      modifies this
      ensures Valid()
      ensures thrown <==> src.broken
      ensures thrown ==> pos == old(pos)
      ensures !thrown ==> skipped == Delivered(src, old(pos), n) && pos == old(pos) + skipped
    {
      if src.broken {
        return true, 0;
      }
      skipped := Delivered(src, pos, n);
      thrown := false;
      pos := pos + skipped;
    }
  }

  /**
   * `readFromStream(n)` at position `pos`: the result and the new position.
   * A negative length fails allocating the buffer; an IOException or a read
   * that delivers fewer than `n` bytes gives empty, the bytes it did deliver
   * being consumed all the same.
   */
  function ReadFromStreamResult(src: Source, pos: nat, n: Int32): (Result<Option<seq<Byte>>>, nat)
    requires pos <= |src.data|
  {
    if n < 0 then (Err(NegativeArraySize), pos)
    else if src.broken then (Ok(None), pos)
    else
      var k := Delivered(src, pos, n);
      var count := if n > 0 && k == 0 then -1 else k;
      (if count == n then Ok(Some(src.data[pos..pos + k] + Zeros(n - k))) else Ok(None), pos + k)
  }

  /**
   * `readFromStream` gives exactly the next `n` bytes, and does so exactly
   * when one read can deliver them; a negative length is the only error.
   */
  lemma ReadFromStreamExact(src: Source, pos: nat, n: Int32)
    requires pos <= |src.data|
    ensures var (r, next) := ReadFromStreamResult(src, pos, n);
      && (r.Err? <==> n < 0)
      && (r.Err? ==> r.error == NegativeArraySize && next == pos)
      && (r.Ok? && r.value.Some? <==> 0 <= n && !src.broken && n <= src.chunk && pos + n <= |src.data|)
      && (r.Ok? && r.value.Some? ==> r.value.value == src.data[pos..pos + n] && next == pos + n)
      && pos <= next <= |src.data|
  {
    if 0 <= n && !src.broken && n <= src.chunk && pos + n <= |src.data| {
      assert src.data[pos..pos + n] + Zeros(0) == src.data[pos..pos + n];
    }
  }

  /**
   * `readBlobHeaderLength()`: the next four bytes as a big-endian `int`;
   * empty when they cannot be read or the value exceeds MAX_HEADER_SIZE.
   */
  function ReadBlobHeaderLengthResult(src: Source, pos: nat): (Option<Int32>, nat)
    requires pos <= |src.data|
  {
    var (r, next) := ReadFromStreamResult(src, pos, SIZE_FIELD_LENGTH);
    if r.Err? || r.value.None? then (None, next)
    else
      var length := BytesToInt(r.value.value);
      (if length > MAX_HEADER_SIZE then None else Some(length), next)
  }

  /**
   * The header length read back: present exactly when four bytes can be read
   * and their big-endian value is at most MAX_HEADER_SIZE (a negative value
   * passes), and then it is that value.
   */
  lemma ReadBlobHeaderLengthValue(src: Source, pos: nat)
    requires pos <= |src.data|
    ensures var (r, next) := ReadBlobHeaderLengthResult(src, pos);
      && (r.Some? <==> !src.broken && 4 <= src.chunk && pos + 4 <= |src.data|
                       && BytesToInt(src.data[pos..pos + 4]) <= MAX_HEADER_SIZE)
      && (r.Some? ==> r.value == BytesToInt(src.data[pos..pos + 4]) && next == pos + 4)
  {
    ReadFromStreamExact(src, pos, SIZE_FIELD_LENGTH);
  }

  /**
   * The limit is inclusive, and the field is signed: 65536 passes, 65537 is
   * refused, and 0xDEADCAFE reads as a negative length that passes.
   */
  lemma HeaderLengthLimit()
    ensures ReadBlobHeaderLengthResult(Source([0, 1, 0, 0], 4, false), 0).0 == Some(65536)
    ensures ReadBlobHeaderLengthResult(Source([0, 1, 0, 1], 4, false), 0).0 == None
    ensures ReadBlobHeaderLengthResult(Source([0xDE, 0xAD, 0xCA, 0xFE], 4, false), 0).0 == Some(0xDEADCAFE - 0x1_0000_0000)
  {
    ReadBlobHeaderLengthValue(Source([0, 1, 0, 0], 4, false), 0);
    ReadBlobHeaderLengthValue(Source([0, 1, 0, 1], 4, false), 0);
    ReadBlobHeaderLengthValue(Source([0xDE, 0xAD, 0xCA, 0xFE], 4, false), 0);
    assert [0, 1, 0, 0][0..4] == [0, 1, 0, 0];
    assert [0, 1, 0, 1][0..4] == [0, 1, 0, 1];
    assert [0xDE, 0xAD, 0xCA, 0xFE][0..4] == [0xDE, 0xAD, 0xCA, 0xFE];
  }

  /**
   * `readBlobHeader(headerLength)`: the next `headerLength` bytes parsed as a
   * BlobHeader; empty on a short read, a parse failure or a datasize above
   * MAX_BLOB_SIZE.
   */
  function ReadBlobHeaderResult(pb: Protobuf, src: Source, pos: nat, headerLength: Int32): (Result<Option<BlobInformation>>, nat)
    requires pos <= |src.data|
  {
    var (r, next) := ReadFromStreamResult(src, pos, headerLength);
    if r.Err? then (Err(r.error), next)
    else if r.value.None? then (Ok(None), next)
    else
      var header := pb.parseBlobHeader(r.value.value);
      if header.None? then (Ok(None), next)
      else if header.value.datasize > MAX_BLOB_SIZE then (Ok(None), next)
      else (Ok(Some(BlobInformation(header.value.datasize, header.value.blobType))), next)
  }

  /**
   * The header read back: present exactly when the bytes can be read, parse,
   * and announce at most MAX_BLOB_SIZE bytes, and then it carries the parsed
   * size and type.
   */
  lemma ReadBlobHeaderValue(pb: Protobuf, src: Source, pos: nat, headerLength: Int32)
    requires pos <= |src.data|
    ensures var (r, next) := ReadBlobHeaderResult(pb, src, pos, headerLength);
      && (r.Err? <==> headerLength < 0)
      && (r.Ok? && r.value.Some? <==>
            && 0 <= headerLength && !src.broken && headerLength <= src.chunk && pos + headerLength <= |src.data|
            && var h := pb.parseBlobHeader(src.data[pos..pos + headerLength]);
               h.Some? && h.value.datasize <= MAX_BLOB_SIZE)
      && (r.Ok? && r.value.Some? ==>
            && var h := pb.parseBlobHeader(src.data[pos..pos + headerLength]).value;
               r.value.value == BlobInformation(h.datasize, h.blobType) && next == pos + headerLength)
  {
    ReadFromStreamExact(src, pos, headerLength);
  }

  /**
   * `skip(offset)` as a specification: the stream moves on by `offset` and
   * the offset comes back, or a throwing stream gives empty (an offset of
   * zero never calls `skip`).
   */
  function SkipResult(src: Source, pos: nat, offset: Int32): (Option<Int32>, nat)
    requires 0 <= offset && pos + offset <= |src.data|
  {
    if src.broken && offset != 0 then (None, pos) else (Some(offset), pos + offset)
  }

  class BlobReader {
    /** The input stream; the reader consumes it. */
    const input: InputStream
    /** The protobuf library headers are parsed with. */
    const pb: Protobuf

    constructor (input: InputStream, pb: Protobuf)
      ensures this.input == input && this.pb == pb
    {
      this.input := input;
      this.pb := pb;
    }

    /** `readFromStream(bytesToRead)`: one read into a fresh buffer. */
    method ReadFromStream(bytesToRead: Int32) returns (r: Result<Option<seq<Byte>>>)
      requires input.Valid()
      modifies input
      ensures input.Valid()
      ensures (r, input.pos) == ReadFromStreamResult(input.src, old(input.pos), bytesToRead)
    {
      if bytesToRead < 0 {
        return Err(NegativeArraySize);
      }
      var thrown, bytesRead, buffer := input.Read(bytesToRead);
      if thrown {
        return Ok(None);
      }
      if bytesRead != bytesToRead as int {
        return Ok(None);
      }
      r := Ok(Some(buffer));
    }

    /** `readBlobHeaderLength()`. */
    method ReadBlobHeaderLength() returns (r: Option<Int32>)
      requires input.Valid()
      modifies input
      ensures input.Valid()
      ensures (r, input.pos) == ReadBlobHeaderLengthResult(input.src, old(input.pos))
    {
      var buffer := ReadFromStream(SIZE_FIELD_LENGTH);
      if buffer.Err? || buffer.value.None? {
        return None;
      }
      var length := BytesToInt(buffer.value.value);
      if length > MAX_HEADER_SIZE {
        return None;
      }
      r := Some(length);
    }

    /** `readBlobHeader(headerLength)`. */
    method ReadBlobHeader(headerLength: Int32) returns (r: Result<Option<BlobInformation>>)
      requires input.Valid()
      modifies input
      ensures input.Valid()
      ensures (r, input.pos) == ReadBlobHeaderResult(pb, input.src, old(input.pos), headerLength)
    {
      var buffer := ReadFromStream(headerLength);
      if buffer.Err? {
        return Err(buffer.error);
      }
      if buffer.value.None? {
        return Ok(None);
      }
      var header := pb.parseBlobHeader(buffer.value.value);
      if header.None? {
        return Ok(None);
      }
      if header.value.datasize > MAX_BLOB_SIZE {
        return Ok(None);
      }
      r := Ok(Some(BlobInformation(header.value.datasize, header.value.blobType)));
    }

    /** `readBlob(blobLength)`: `readFromStream` under another name. */
    method ReadBlob(blobLength: Int32) returns (r: Result<Option<seq<Byte>>>)
      requires input.Valid()
      modifies input
      ensures input.Valid()
      ensures (r, input.pos) == ReadFromStreamResult(input.src, old(input.pos), blobLength)
    {
      r := ReadFromStream(blobLength);
    }

    /**
     * `skip(offset)`: calls `skip` on the stream until `offset` bytes are
     * skipped. The offset must lie within the stream: past its end `skip`
     * returns 0 and the loop would not end.
     */
    method Skip(offset: Int32) returns (r: Option<Int32>)
      requires input.Valid() && 0 <= offset && input.pos + offset <= |input.src.data|
      modifies input
      ensures input.Valid()
      ensures (r, input.pos) == SkipResult(input.src, old(input.pos), offset)
    {
      var left: int := offset;
      while left != 0
        invariant 0 <= left <= offset && input.Valid()
        invariant input.pos == old(input.pos) + (offset - left)
        invariant input.src.broken ==> left == offset
        decreases left
      {
        var thrown, skipped := input.Skip(left);
        if thrown {
          return None;
        }
        left := left - skipped;
      }
      r := Some(offset);
    }
  }

  /**
   * Reading back a frame the writer produced: at the frame's start in a
   * stream that delivers each field in one read, the reader gets the header
   * length, then the header with the Blob's size and type, then the Blob,
   * which parses to the Blob that was written, provided the header and the
   * Blob are within the reader's limits.
   */
  lemma {:induction false} FrameReadsBack(pb: Protobuf, z: Zlib, blob: ByteArray, blobType: string,
                                          before: seq<Byte>, after: seq<Byte>, chunk: nat)
    requires FramingRoundTrips(pb)
    requires var dataBlob := pb.serializeBlob(BlobWriter.DataBlob(z, blob, blobType == BlobWriter.TYPE_OSM_DATA));
      var headerBlob := pb.serializeBlobHeader(BlobHeaderMsg(blobType, |dataBlob|));
      && |headerBlob| <= MAX_HEADER_SIZE && |dataBlob| <= MAX_BLOB_SIZE
      && 4 <= chunk && |headerBlob| <= chunk && |dataBlob| <= chunk
    ensures var src := Source(before + BlobWriter.Frame(pb, z, blob, blobType) + after, chunk, false);
      var dataBlob := pb.serializeBlob(BlobWriter.DataBlob(z, blob, blobType == BlobWriter.TYPE_OSM_DATA));
      var headerBlob := pb.serializeBlobHeader(BlobHeaderMsg(blobType, |dataBlob|));
      var p0 := |before|;
      var p1 := p0 + 4;
      var p2 := p1 + |headerBlob|;
      && ReadBlobHeaderLengthResult(src, p0) == (Some(|headerBlob|), p1)
      && ReadBlobHeaderResult(pb, src, p1, |headerBlob|) == (Ok(Some(BlobInformation(|dataBlob|, blobType))), p2)
      && ReadFromStreamResult(src, p2, |dataBlob|) == (Ok(Some(dataBlob)), p2 + |dataBlob|)
      && pb.parseBlob(dataBlob) == Some(BlobWriter.DataBlob(z, blob, blobType == BlobWriter.TYPE_OSM_DATA))
  {
    var dataBlob := pb.serializeBlob(BlobWriter.DataBlob(z, blob, blobType == BlobWriter.TYPE_OSM_DATA));
    var headerBlob := pb.serializeBlobHeader(BlobHeaderMsg(blobType, |dataBlob|));
    var size := IntToBytes(|headerBlob|);
    BlobWriter.FrameLayout(pb, z, blob, blobType);
    var data := before + BlobWriter.Frame(pb, z, blob, blobType) + after;
    assert data == before + size + headerBlob + dataBlob + after;
    var src := Source(data, chunk, false);
    var p0 := |before|;
    var p1 := p0 + 4;
    var p2 := p1 + |headerBlob|;
    assert data[p0..p1] == size;
    assert data[p1..p2] == headerBlob;
    assert data[p2..p2 + |dataBlob|] == dataBlob;
    IntBytesRoundTrip(|headerBlob|);
    ReadBlobHeaderLengthValue(src, p0);
    ReadBlobHeaderValue(pb, src, p1, |headerBlob|);
    ReadFromStreamExact(src, p2, |dataBlob|);
  }
}
