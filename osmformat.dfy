/**
 * The protobuf messages of fileformat.proto and osmformat.proto, as values.
 * An optional scalar whose presence the code tests is an Option; repeated
 * fields are sequences; strings in the string table are already decoded.
 */
module Osmformat {
  import opened JavaInt
  import opened Wrappers

  // String-table indices (keys, vals, roles, user ids) are plain integers: the
  // decoders treat any value outside the table as IndexOutOfBounds.

  /** The first `n` entries of the parallel `keys` / `vals` arrays are indices of `table`. */
  predicate TagIndicesIn(keys: seq<int>, vals: seq<int>, n: nat, table: seq<string>)
  {
    && n <= |keys| && n <= |vals|
    && forall j :: 0 <= j < n ==> 0 <= keys[j] < |table| && 0 <= vals[j] < |table|
  }

  /**
   * The tags the first `n` entries of `keys` / `vals` stand for: entry j maps
   * table[keys[j]] to table[vals[j]], a later entry replacing an earlier one
   * with the same key.
   */
  function TagsOf(keys: seq<int>, vals: seq<int>, n: nat, table: seq<string>): map<string, string>
    requires TagIndicesIn(keys, vals, n, table)
    decreases n
  {
    if n == 0 then map[] else TagsOf(keys, vals, n - 1, table)[table[keys[n - 1]] := table[vals[n - 1]]]
  }

  datatype InfoMsg = InfoMsg(version: Int32, timestamp: Int64, changeset: Int64, uid: Int32,
                             userSid: int, visible: Option<bool>)

  /** `Info.getDefaultInstance()`: every field absent; osmformat.proto gives version the default -1. */
  const DEFAULT_INFO: InfoMsg := InfoMsg(-1, 0, 0, 0, 0, None)

  datatype NodeMsg = NodeMsg(id: Int64, keys: seq<int>, vals: seq<int>, info: Option<InfoMsg>,
                             lat: Int64, lon: Int64)

  datatype DenseInfoMsg = DenseInfoMsg(version: seq<Int32>, timestamp: seq<Int64>, changeset: seq<Int64>,
                                       uid: seq<Int32>, userSid: seq<Int32>, visible: seq<bool>)

  datatype DenseNodesMsg = DenseNodesMsg(id: seq<Int64>, denseinfo: Option<DenseInfoMsg>,
                                         lat: seq<Int64>, lon: seq<Int64>, keysVals: seq<int>)

  datatype WayMsg = WayMsg(id: Int64, keys: seq<int>, vals: seq<int>, info: Option<InfoMsg>,
                           refs: seq<Int64>)

  /** `types` holds the wire numbers of Relation.MemberType. */
  datatype RelationMsg = RelationMsg(id: Int64, keys: seq<int>, vals: seq<int>, info: Option<InfoMsg>,
                                     rolesSid: seq<int>, memids: seq<Int64>, types: seq<Int32>)

  datatype ChangeSetMsg = ChangeSetMsg(id: Int64)

  datatype PrimitiveGroup = PrimitiveGroup(nodes: seq<NodeMsg>, dense: Option<DenseNodesMsg>,
                                           ways: seq<WayMsg>, relations: seq<RelationMsg>,
                                           changesets: seq<ChangeSetMsg>)

  const EMPTY_GROUP: PrimitiveGroup := PrimitiveGroup([], None, [], [], [])

  datatype PrimitiveBlock = PrimitiveBlock(stringtable: seq<string>, groups: seq<PrimitiveGroup>,
                                           granularity: Option<Int32>, latOffset: Option<Int64>,
                                           lonOffset: Option<Int64>, dateGranularity: Option<Int32>)
  {
    /** The getters apply the defaults of osmformat.proto. */
    function Granularity(): Int32 { if granularity.Some? then granularity.value else 100 }
    function LatOffset(): Int64 { if latOffset.Some? then latOffset.value else 0 }
    function LonOffset(): Int64 { if lonOffset.Some? then lonOffset.value else 0 }
    function DateGranularity(): Int32 { if dateGranularity.Some? then dateGranularity.value else 1000 }
  }

  datatype HeaderBBox = HeaderBBox(left: Int64, right: Int64, top: Int64, bottom: Int64)

  datatype HeaderBlock = HeaderBlock(bbox: Option<HeaderBBox>, requiredFeatures: seq<string>,
                                     optionalFeatures: seq<string>, writingProgram: Option<string>,
                                     source: Option<string>)

  // fileformat.proto

  datatype BlobHeaderMsg = BlobHeaderMsg(blobType: string, datasize: Int32)

  /** The `data` oneof of a Blob; legacy bzip2/lzma payloads and an unset oneof are `OtherData`. */
  datatype BlobData = Raw(bytes: seq<Byte>) | ZlibData(bytes: seq<Byte>) | OtherData

  datatype BlobMsg = BlobMsg(rawSize: Option<Int32>, data: BlobData)
  {
    function RawSize(): Int32 { if rawSize.Some? then rawSize.value else 0 }
  }
}

/**
 * The two foreign libraries the core sits between, as bundles of functions the
 * model knows nothing about beyond the laws stated where they are needed.
 */
module Collaborators {
  import opened JavaInt
  import opened Wrappers
  import opened Osmformat

  /** Protobuf `parseFrom` (None on InvalidProtocolBufferException) and `toByteArray`. */
  datatype Protobuf = Protobuf(
    parseBlobHeader: seq<Byte> -> Option<BlobHeaderMsg>,
    serializeBlobHeader: BlobHeaderMsg -> ByteArray,
    parseBlob: seq<Byte> -> Option<BlobMsg>,
    serializeBlob: BlobMsg -> ByteArray,
    parseBlock: seq<Byte> -> Option<PrimitiveBlock>,
    parseHeaderBlock: seq<Byte> -> Option<HeaderBlock>)

  /** `parseFrom(toByteArray(m))` gives back `m` for the two fileformat messages. */
  ghost predicate FramingRoundTrips(pb: Protobuf)
  {
    && (forall h :: pb.parseBlobHeader(pb.serializeBlobHeader(h)) == Some(h))
    && (forall b :: pb.parseBlob(pb.serializeBlob(b)) == Some(b))
  }

  /**
   * zlib as `Deflater(BEST_COMPRESSION)` and `Inflater` see it: the complete
   * compressed stream of an input, and the complete output of a compressed
   * stream (None on DataFormatException).
   */
  datatype Zlib = Zlib(deflate: seq<Byte> -> seq<Byte>, inflate: seq<Byte> -> Option<seq<Byte>>)

  /**
   * Inflating a deflated stream gives back the input, and a zlib stream is at
   * least six bytes long (a two-byte header and a four-byte Adler-32 trailer,
   * section 2.2 of RFC 1950).
   */
  ghost predicate Lawful(z: Zlib)
  {
    && (forall b :: z.inflate(z.deflate(b)) == Some(b))
    && (forall b :: |z.deflate(b)| >= 6)
  }
}
