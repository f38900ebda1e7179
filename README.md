# parallelpbf in Dafny

This project is a Dafny model of the core of parallelpbf, a Java library that reads and writes OpenStreetMap
PBF files. Such a file is a sequence of frames. Each frame holds:

- four big-endian bytes giving the length of a BlobHeader;
- the BlobHeader, which names the blob type and the Blob's size;
- the Blob, a protobuf message that holds either raw bytes or zlib data.

A Blob's payload is one of two messages:

- an OSMHeader block, which lists the required features and may hold a bounding box;
- an OSMData block: a PrimitiveBlock with a string table, the coordinate grid settings and groups of nodes,
  dense nodes, ways, relations and changesets.

The model covers both directions.

- **Writing.**
  - The block-wide string table interns each distinct string once. Index 0 is reserved for the empty
    string.
  - The way, relation and dense-node encoders delta code ids, node references and member ids, store tags as
    index arrays and keep size-estimate counters. The dense-node encoder is modelled as corrected: the code
    as written takes each delta against the previous delta (see Findings). The way and relation encoders refuse `add` after `write`.
  - The writer routes each entity to its encoder. It flushes a block once the summed estimate is strictly
    above 15 MiB, then resets every encoder together.
  - The blob writer frames a block, compressing OSMData and storing OSMHeader raw. It is modelled as
    corrected, keeping the whole zlib stream; the code as written cuts it short (see Findings).
- **Reading.**
  - The blob reader reads a frame's three parts, with the header limit at 64 KiB and the Blob limit at
    32 MiB.
  - The reader base class inflates or unwraps the payload and checks its size. The check is modelled as
    corrected: the code as written lets a longer stream through, cut to the declared size (see Findings).
  - The header reader checks the required features case-insensitively and hands the header and the bounding
    box to their callbacks.
  - The data reader decodes each group. Every kind whose callback is set goes through its parser: plain and
    dense nodes, ways, relations and changesets. The dense-node loop is modelled as corrected, adding each
    offset once; the code as written adds it again for every node (see Findings).

Every operation that changes state is a method on a class with those fields. Each method is proved against a
function that gives the new state, or the events delivered and the exception thrown.

- **Callbacks** are one `Sink` object that records every event it receives, in order. The model can
  therefore state the order across callbacks and what was delivered before an exception. Whether a
  callback is set is a boolean.
- **Protobuf and zlib** are parameter records of functions: `Collaborators.Protobuf` and
  `Collaborators.Zlib`. Their laws are preconditions of the round-trip lemmas only. Examples of such laws:
  parsing a serialized message gives it back; inflating deflated bytes gives them back.
- **Java `int` and `long` arithmetic** is written out where it wraps: delta coding, running sums and the
  timestamp times the date granularity. `JavaInt.WrapLong` and `JavaInt.WrapInt` do the wrapping.
- **Coordinates** are integers in nanodegrees.

The main properties, each proved for all inputs. Those marked "(corrected)" hold for the corrected
dense-node encoder, blob writer, size check and dense parser of the Findings table, not for the code as written:

- `WayParser.WayRoundTrip`, `RelationParser.RelationRoundTrip` and `NodeParser.DenseRoundTrip`: parsing what
  an encoder wrote gives back the entities (the dense round trip corrected).
- `BlobReader.FrameReadsBack` and `OsmReader.PayloadOfWrittenBlob`: reading a written frame gives back the
  block (corrected).
- `DataReader.WrittenDenseReadsBack`: a block flushed by the writer reads back node for node (corrected).
- `HeaderReader.WrittenHeaderReadsBack`: the written header reads back.
- `OsmWriter.OsmWriter.Run`: every node, way and relation taken from the queue ends up in exactly one written
  block, in queue order.
- `DataReader.GroupInKindOrder`: within a group, the callbacks fire in the order nodes, ways, relations,
  changesets.
- `HeaderReader.CheckRequiredFeatures`: the feature gate accepts exactly the three known features, ignoring
  case as Java's `equalsIgnoreCase` does.

Where the code and its documentation disagree, the model follows the code:

- **Header setters.** `Header.java` declares a record without setters. The header reader calls
  `setWritingProgram` and `setSource`, so `HeaderReader.HeaderOf` follows the reader.
- **Interrupt flush.** The writer's interrupt handler flushes unconditionally, so stopping always writes a
  block, possibly an empty one. A test of a later version expects no output in that case.
- **Node parser.** The data reader imports `com.wolt.osm.parallelpbf.parser.NodeParser`, which is not part
  of this model. The node parser modelled is `akashihi/osm/parallelpbf/parser/NodeParser.java`, with the
  same constructor and `parse` entry points.
- **Relation parser.** The data reader also imports `com.wolt.osm.parallelpbf.parser.RelationParser`, which
  is not part of this model either. The relation parser modelled is
  `akashihi/osm/parallelpbf/parser/RelationParser.java`, with the same constructor and `parse` entry point.
- **Shared string table.** `WayEncoder.java` and `DenseNodesEncoder.java` keep private string tables, while
  `OSMWriter.java` passes one block-wide table to every encoder's constructor. Every modelled encoder takes
  the table it is given. A standalone encoder is one given a new table.

## Model

| member | source | states |
|---|---|---|
| StringTable.StringTableEncoder.constructor | src/main/java/com/wolt/osm/parallelpbf/encoder/StringTableEncoder.java:55-57 | a new table holds only the empty string at index 0, indexes nothing, and has size 0 |
| StringTable.StringTableEncoder.AddStringToTable | src/main/java/com/wolt/osm/parallelpbf/encoder/StringTableEncoder.java:46-50 | the string is appended, its `length()` in UTF-16 code units is added to the size, and the index handed out is one more than the last |
| StringTable.StringTableEncoder.GetStringIndex | src/main/java/com/wolt/osm/parallelpbf/encoder/StringTableEncoder.java:66-68 | the index returned holds `s` and is never 0. A known string gets its old index and nothing changes; a new one is appended at the end under the next index. The table stays a bijection |
| StringTable.StringTableEncoder.GetStringSize | src/main/java/com/wolt/osm/parallelpbf/encoder/StringTableEncoder.java:75-77 | the size is the summed UTF-16 length of every entry of the table |
| StringTable.Utf16Length | src/main/java/com/wolt/osm/parallelpbf/encoder/StringTableEncoder.java:47 | `length()` lies between the number of characters and twice that number |
| StringTable.Utf16LengthExact | src/main/java/com/wolt/osm/parallelpbf/encoder/StringTableEncoder.java:47 | `length()` equals the number of characters exactly when no character lies outside the Basic Multilingual Plane |
| StringTable.IndexIsBijection | src/main/java/com/wolt/osm/parallelpbf/encoder/StringTableEncoder.java:30-68 | the reverse index maps each interned string to its position, and each position 1..stringIndex back to its string |
| StringTable.InternedStringsDistinct | src/main/java/com/wolt/osm/parallelpbf/encoder/StringTableEncoder.java:66-68 | no string is stored twice |
| StringTable.IndexOfSound | src/main/java/com/wolt/osm/parallelpbf/encoder/StringTableEncoder.java:30-68 | every string of the reverse index sits at its index, which is never the reserved 0 |
| StringTable.IndexOfComplete | src/main/java/com/wolt/osm/parallelpbf/encoder/StringTableEncoder.java:30-68 | in a table without repeats every entry after the first is indexed at its position |
| StringTable.Intern | src/main/java/com/wolt/osm/parallelpbf/encoder/StringTableEncoder.java:66-68 | interning gives an index of `s`, and the table only grows at its end |
| OsmEntityEncoder.EncodeTags | src/main/java/com/wolt/osm/parallelpbf/encoder/WayEncoder.java:61-64 | the key and value arrays encode exactly the entity's tags, one pair per tag and never with index 0; the table only grows at its end |
| OsmEntityEncoder.TagsOfGrows | src/main/java/com/wolt/osm/parallelpbf/encoder/RelationEncoder.java:58-61 | tags encoded against the shared table keep meaning the same tags after another encoder appends strings |
| RelationMember.Get | src/main/java/com/wolt/osm/parallelpbf/entity/RelationMember.java:82-89 | `Type.get(v)` succeeds exactly for 0, 1 and 2, returns the entry with that value, and otherwise throws IllegalArgumentException |
| RelationMember.Search | src/main/java/com/wolt/osm/parallelpbf/entity/RelationMember.java:83-88 | the loop finds an entry exactly when some entry has the value, and then one with that value |
| RelationMember.GetOfValue | src/main/java/com/wolt/osm/parallelpbf/entity/RelationMember.java:44-89 | looking up an entry's own value gives that entry |
| RelationMember.OrdinalIsValue | src/main/java/com/wolt/osm/parallelpbf/entity/RelationMember.java:44-58 | declaration order equals the protobuf number, so the encoder's use of `ordinal()` writes the value |
| RelationMember.Ordinal | src/main/java/com/wolt/osm/parallelpbf/encoder/RelationEncoder.java:88 | `ordinal()` is the position of the entry in declaration order |
| Delta.DecodeEncode | src/main/java/com/wolt/osm/parallelpbf/encoder/WayEncoder.java:67-71 | running sums of the deltas give back the ids, with `long` wrap-around |
| Delta.EncodeDecode | src/main/java/com/wolt/osm/parallelpbf/parser/WayParser.java:47-50 | delta coding the running sums gives back the deltas |
| Delta.PrefixSumsAt | src/main/java/com/wolt/osm/parallelpbf/parser/WayParser.java:47-50 | entry `k` of the running sums is the wrapped sum of the first `k + 1` entries |
| JavaInt.WrapLong | src/main/java/com/wolt/osm/parallelpbf/parser/WayParser.java:48 | a `long` sum is the exact sum modulo 2^64, in the `long` range |
| JavaInt.WrapInt | src/main/java/akashihi/osm/parallelpbf/parser/NodeParser.java:114 | an `int` sum is the exact sum modulo 2^32, in the `int` range |
| JavaInt.ClampLongNearest | src/main/java/com/wolt/osm/parallelpbf/encoder/OsmEncoder.java:17-19 | `Math.round` to `long` gives the `long` nearest to the value: no `long` is closer |
| JavaInt.IntToBytes | src/main/java/com/wolt/osm/parallelpbf/blob/BlobWriter.java:63 | `putInt` gives four bytes |
| JavaInt.IntBytesRoundTrip | src/main/java/com/wolt/osm/parallelpbf/blob/BlobWriter.java:63 | the four big-endian bytes of an `int` read back as that `int` |
| WayEncoder.WayEncoder.constructor | src/main/java/com/wolt/osm/parallelpbf/encoder/WayEncoder.java:45-47 | a new encoder is unbuilt and empty, on the table it is given |
| WayEncoder.WayEncoder.Add | src/main/java/com/wolt/osm/parallelpbf/encoder/WayEncoder.java:53-75 | after `write` the call throws IllegalStateException and changes nothing. Otherwise exactly one way entry is appended, encoding the way's id, tags and delta-coded node references, and the earlier entries are kept |
| WayEncoder.EncodeWay | src/main/java/com/wolt/osm/parallelpbf/encoder/WayEncoder.java:57-74 | the message holds the way's id, its tags as table indices and its delta-coded node references; the table only grows |
| WayEncoder.EncodeRefs | src/main/java/com/wolt/osm/parallelpbf/encoder/WayEncoder.java:67-71 | the refs loop emits the delta coding of the node list |
| WayEncoder.WayEncoder.EstimateSize | src/main/java/com/wolt/osm/parallelpbf/encoder/WayEncoder.java:65-87 | the estimate is the string size plus 8 bytes per node reference, per tag and per way added |
| WayEncoder.WayEncoder.Write | src/main/java/com/wolt/osm/parallelpbf/encoder/WayEncoder.java:90-97 | `write` marks the encoder built and returns a block of the table and one group holding the ways |
| RelationEncoder.RelationEncoder.constructor | src/main/java/com/wolt/osm/parallelpbf/encoder/RelationEncoder.java:48-50 | a new encoder is unbuilt and empty, on the block-wide table |
| RelationEncoder.RelationEncoder.Add | src/main/java/com/wolt/osm/parallelpbf/encoder/OsmEntityEncoder.java:93-98 | after `write` the call throws IllegalStateException and changes nothing. Otherwise exactly one relation entry is appended, encoding the relation, and the earlier entries are kept |
| RelationEncoder.EncodeRelation | src/main/java/com/wolt/osm/parallelpbf/encoder/RelationEncoder.java:53-93 | the entry holds the id, the tags, the metadata (the default Info when there is none), the roles as table indices, the delta-coded member ids and the type numbers |
| RelationEncoder.EncodeInfo | src/main/java/com/wolt/osm/parallelpbf/encoder/RelationEncoder.java:64-72 | metadata is copied field by field with the username interned; no metadata gives the default Info message |
| RelationEncoder.MembersSoFarDone | src/main/java/com/wolt/osm/parallelpbf/encoder/RelationEncoder.java:83-89 | after the members loop the role indices hold the roles, the member ids are delta coded and the types are the protobuf numbers |
| RelationEncoder.EncodeMember | src/main/java/com/wolt/osm/parallelpbf/encoder/RelationEncoder.java:84-89 | one loop turn extends the role, member id and type arrays by the next member, the id delta taken against the previous member |
| RelationEncoder.EncodeMembers | src/main/java/com/wolt/osm/parallelpbf/encoder/RelationEncoder.java:83-89 | the roles are table indices of the members' roles, the member ids are delta coded and the types are the protobuf numbers |
| RelationEncoder.RelationEncoder.EstimateSize | src/main/java/com/wolt/osm/parallelpbf/encoder/RelationEncoder.java:62-98 | the estimate is 8 bytes per relation and per tag plus 13 bytes per member |
| RelationEncoder.RelationEncoder.Write | src/main/java/com/wolt/osm/parallelpbf/encoder/OsmEntityEncoder.java:111-114 | `write` marks the encoder built and hands out the group of relations |
| DenseNodesEncoder.GridUnitsNearest | src/main/java/com/wolt/osm/parallelpbf/encoder/DenseNodesEncoder.java:118-119 | a stored coordinate is the nearest 100-nanodegree grid point, halves rounding up, clamped to the `long` range |
| DenseNodesEncoder.GridUnitsOnGrid | src/main/java/com/wolt/osm/parallelpbf/encoder/DenseNodesEncoder.java:118-119 | a coordinate on the grid is stored exactly |
| DenseNodesEncoder.KeysValsLength | src/main/java/com/wolt/osm/parallelpbf/encoder/DenseNodesEncoder.java:109-113 | `keys_vals` has two entries per tag and one closing 0 per node |
| DenseNodesEncoder.Interleave | src/main/java/com/wolt/osm/parallelpbf/encoder/DenseNodesEncoder.java:109-112 | one key and one value entry per tag |
| DenseNodesEncoder.DenseNodesEncoder.constructor | src/main/java/com/wolt/osm/parallelpbf/encoder/DenseNodesEncoder.java:100-102 | a new encoder is empty, on the table it is given |
| DenseNodesEncoder.DenseNodesEncoder.AddNode | src/main/java/com/wolt/osm/parallelpbf/encoder/DenseNodesEncoder.java:108-125 | the node is appended and the encoder stays valid: `keys_vals` holds each node's tags as pairs closed by 0, and the id, lat and lon columns are the delta coding of all nodes so far. The three accumulators then hold this node's values (corrected; see Findings) |
| DenseNodesEncoder.EncodeNode | src/main/java/com/wolt/osm/parallelpbf/encoder/DenseNodesEncoder.java:108-125 | one more node extends every column and the tag column by the node's values (corrected; see Findings) |
| DenseNodesEncoder.ColumnStep | src/main/java/com/wolt/osm/parallelpbf/encoder/DenseNodesEncoder.java:115-124 | an accumulator holding the last value makes the next delta the difference to it (corrected; see Findings) |
| DenseNodesEncoder.DenseNodesEncoder.EstimateSize | src/main/java/com/wolt/osm/parallelpbf/encoder/DenseNodesEncoder.java:134-136 | the estimate is the string size plus 24 bytes per node plus 4 bytes per `keys_vals` entry |
| DenseNodesEncoder.DenseNodesEncoder.Write | src/main/java/com/wolt/osm/parallelpbf/encoder/DenseNodesEncoder.java:143-153 | the block holds the table, granularity 100 with zero offsets, and one group with the dense nodes; each column has one entry per node |
| DenseNodesEncoder.AsWrittenDeltasDiffer | src/main/java/com/wolt/osm/parallelpbf/encoder/DenseNodesEncoder.java:115-116 | as written, ids 3, 6, 2 are stored as 3, 3, -1 (read back as 3, 6, 5) where delta coding gives 3, 3, -4 |
| OsmHeaderEncoder.EncodeBoundBox | src/main/java/com/wolt/osm/parallelpbf/encoder/OsmHeaderEncoder.java:16-23 | a box that fits a `long` is kept exactly, each side in its own field |
| OsmHeaderEncoder.EncodeHeader | src/main/java/com/wolt/osm/parallelpbf/encoder/OsmHeaderEncoder.java:31-44 | the header has a bounding box exactly when one is given, requires OsmSchema-V0.6 and DenseNodes, has no optional features, names "parallelpbf" as writing program and has no source |
| OsmWriter.OsmWriter.constructor | src/main/java/com/wolt/osm/parallelpbf/io/OSMWriter.java:105-109 | a new writer has empty encoders on one new table and has written nothing |
| OsmWriter.OsmWriter.EncodersReset | src/main/java/com/wolt/osm/parallelpbf/io/OSMWriter.java:92-97 | a new table and three new empty encoders on it; written blocks are kept |
| OsmWriter.NewEncoders | src/main/java/com/wolt/osm/parallelpbf/io/OSMWriter.java:92-97 | a new table holding only the empty string, and three new empty encoders that all share it |
| OsmWriter.OsmWriter.Route | src/main/java/com/wolt/osm/parallelpbf/io/OSMWriter.java:116-125 | a node, way or relation goes to its own encoder only, so the pending batch gains exactly that entity; any other entity changes no encoder and no string. The shared table only grows |
| OsmWriter.OsmWriter.RouteNode | src/main/java/com/wolt/osm/parallelpbf/io/OSMWriter.java:117-118 | the node is appended to the nodes encoder's entries, the ways and relations encoders keep theirs, and the table only grows |
| OsmWriter.OsmWriter.RouteWay | src/main/java/com/wolt/osm/parallelpbf/io/OSMWriter.java:119-120 | the way is appended to the ways encoder's entries, the nodes and relations encoders keep theirs, and the table only grows |
| OsmWriter.OsmWriter.RouteRelation | src/main/java/com/wolt/osm/parallelpbf/io/OSMWriter.java:121-122 | the relation is appended to the relations encoder's entries, the nodes and ways encoders keep theirs, and the table only grows |
| OsmWriter.OsmWriter.BlobSize | src/main/java/com/wolt/osm/parallelpbf/io/OSMWriter.java:127-130 | the blob size is the three estimates plus the string size |
| OsmWriter.FlushedBlockShape | src/main/java/com/wolt/osm/parallelpbf/io/OSMWriter.java:68-82 | a flushed block carries the table, has the grid settings (granularity 100, offsets 0) and the nodes group exactly when the nodes estimate is positive, and a ways or relations group exactly when that estimate is positive, in this order; the nodes group holds the dense message, the ways group the ways encoder's entries and the relations group the relations encoder's |
| OsmWriter.FlushedWays | src/main/java/com/wolt/osm/parallelpbf/io/OSMWriter.java:77-79 | the block's ways are the ways encoder's entries when its estimate is positive, and none otherwise |
| OsmWriter.FlushedRelations | src/main/java/com/wolt/osm/parallelpbf/io/OSMWriter.java:80-82 | the block's relations are the relations encoder's entries when its estimate is positive, and none otherwise |
| OsmWriter.FlushedDense | src/main/java/com/wolt/osm/parallelpbf/io/OSMWriter.java:71-76 | the block has the encoder's one dense message when the nodes estimate is positive, and none otherwise |
| OsmWriter.FlushedBlockHolds | src/main/java/com/wolt/osm/parallelpbf/io/OSMWriter.java:68-82 | when every encoder holding entities has a positive estimate, the block holds exactly the pending nodes, ways and relations: its ways and relations encode them one for one against the block's table, and its one dense message encodes the nodes |
| OsmWriter.FlushAccounted | src/main/java/com/wolt/osm/parallelpbf/io/OSMWriter.java:68-86 | appending such a block, with the batch it was built from, keeps every written block holding exactly its own batch |
| OsmWriter.OsmWriter.BuildBlock | src/main/java/com/wolt/osm/parallelpbf/io/OSMWriter.java:69-82 | the block is the flushed block of the table and the encoders' messages for the given estimates |
| OsmWriter.OsmWriter.Flush | src/main/java/com/wolt/osm/parallelpbf/io/OSMWriter.java:68-87 | the block built from the current table and encoders is appended to the output and the pending batch recorded with it; every encoder is reset. When each encoder that holds entities has a positive size, every written block still holds exactly its batch |
| OsmWriter.OsmWriter.Step | src/main/java/com/wolt/osm/parallelpbf/io/OSMWriter.java:116-133 | after routing, a flush happens exactly when the blob estimate of the grown batch is strictly above 15·1024·1024. The entities written or pending gain exactly `e`, and every written block holds its batch. Without a flush nothing is written and the same encoders hold the grown batch; with one, exactly one block of the grown table is written, recording the grown batch, and the encoders are new and empty |
| OsmWriter.OsmWriter.CheckSize | src/main/java/com/wolt/osm/parallelpbf/io/OSMWriter.java:127-133 | the size is the blob estimate. At most the limit nothing changes; above it exactly one block of the current table and encoders is written, recording the whole pending batch, and the encoders are new. Either way the entities written or pending stay the same and every block holds its batch |
| OsmWriter.OsmWriter.FlushAll | src/main/java/com/wolt/osm/parallelpbf/io/OSMWriter.java:135 | given the encoders' own estimates, exactly one block is written, recording the whole pending batch, which it holds exactly; the encoders are new and the entities written or pending are unchanged |
| OsmWriter.OsmWriter.Drain | src/main/java/com/wolt/osm/parallelpbf/io/OSMWriter.java:114-133 | after the whole queue the nodes, ways and relations written or pending are the earlier ones followed by those of the queue, each once and in queue order; the output only grows and every written block holds exactly its batch |
| OsmWriter.OsmWriter.Turn | src/main/java/com/wolt/osm/parallelpbf/io/OSMWriter.java:114-133 | one loop turn appends the routed entity to those of its kind written or pending; earlier blocks are kept and every block holds its batch |
| OsmWriter.OsmWriter.Interrupt | src/main/java/com/wolt/osm/parallelpbf/io/OSMWriter.java:134-137 | on interrupt one block holding every pending entity is written and the encoders are empty; the written blocks' batches, one after another, are exactly the entities written or pending before |
| OsmWriter.OsmWriter.Run | src/main/java/com/wolt/osm/parallelpbf/io/OSMWriter.java:111-140 | after the queue and the interrupt, the nodes, ways and relations of the written blocks, block after block, are those written or pending before followed by those of the queue, each exactly once and in queue order; every block holds exactly its batch, earlier blocks are kept and at least one block is written |
| BlobWriter.BlobWriter.Write | src/main/java/com/wolt/osm/parallelpbf/blob/BlobWriter.java:26-77 | the stream and the result are those of the frame's three writes; an unsupported type writes nothing and fails. The whole zlib stream is framed (corrected; see Findings) |
| BlobWriter.BlobWriter.WriteData | src/main/java/com/wolt/osm/parallelpbf/blob/BlobWriter.java:22-24 | the one-argument write writes OSMData |
| BlobWriter.WriteOutcome | src/main/java/com/wolt/osm/parallelpbf/blob/BlobWriter.java:26-77 | an unsupported type fails and leaves the stream alone. A supported one succeeds exactly when the stream takes the whole frame, which is then appended; otherwise at most part of it is appended |
| BlobWriter.FrameLayout | src/main/java/com/wolt/osm/parallelpbf/blob/BlobWriter.java:37-70 | a frame is the header's length in four bytes, the header naming the type and the Blob's length, then the Blob; only OSMData is compressed |
| BlobWriter.EmittedPrefix | src/main/java/com/wolt/osm/parallelpbf/blob/BlobWriter.java:66-75 | three writes in a row either append everything or stop at the first that throws, leaving a prefix of the frame |
| BlobWriter.AsWrittenDataBlobTruncates | src/main/java/com/wolt/osm/parallelpbf/blob/BlobWriter.java:40-48 | as written, a one-byte block keeps only one byte of its zlib stream, so its Blob differs from the intended one |
| BlobWriter.BlobWriter.constructor | src/main/java/com/wolt/osm/parallelpbf/blob/BlobWriter.java:14-20 | the writer keeps its output stream |
| BlobWriter.OutputStream.Write | src/main/java/com/wolt/osm/parallelpbf/blob/BlobWriter.java:68-74 | a write either appends all the bytes or throws and appends nothing |
| BlobReader.InputStream.Read | src/main/java/com/wolt/osm/parallelpbf/blob/BlobReader.java:65 | a broken stream throws and does not move. Otherwise one read delivers at most the bytes asked for, from the current position, with -1 at the end of the stream and zeros in the rest of the buffer |
| BlobReader.InputStream.Skip | src/main/java/com/wolt/osm/parallelpbf/blob/BlobReader.java:154 | one skip moves forward by the count it returns |
| BlobReader.BlobReader.constructor | src/main/java/com/wolt/osm/parallelpbf/blob/BlobReader.java:34-54 | the reader keeps its input stream |
| BlobReader.BlobReader.ReadFromStream | src/main/java/com/wolt/osm/parallelpbf/blob/BlobReader.java:62-74 | the result and the new position are those of one read into a new buffer |
| BlobReader.ReadFromStreamExact | src/main/java/com/wolt/osm/parallelpbf/blob/BlobReader.java:62-74 | a negative length throws NegativeArraySizeException and reads nothing. Otherwise the buffer is present exactly when the stream works and one read delivers all `n` bytes, and it is then exactly the next `n` bytes |
| BlobReader.BlobReader.ReadBlobHeaderLength | src/main/java/com/wolt/osm/parallelpbf/blob/BlobReader.java:84-100 | the method gives the header length read back from four bytes |
| BlobReader.ReadBlobHeaderLengthValue | src/main/java/com/wolt/osm/parallelpbf/blob/BlobReader.java:84-100 | the length is present exactly when four bytes can be read and their big-endian signed value is at most 65536, and then it is that value |
| BlobReader.HeaderLengthLimit | src/main/java/com/wolt/osm/parallelpbf/blob/BlobReader.java:84-100 | the limit is inclusive and the length signed: 65536 passes, 65537 is refused, and the bytes DE AD CA FE read as a negative length that passes the check |
| BlobReader.BlobReader.ReadBlobHeader | src/main/java/com/wolt/osm/parallelpbf/blob/BlobReader.java:111-132 | the method gives the BlobHeader read back |
| BlobReader.ReadBlobHeaderValue | src/main/java/com/wolt/osm/parallelpbf/blob/BlobReader.java:111-132 | a negative length throws NegativeArraySizeException. Otherwise the header is present exactly when the bytes can be read, parse, and announce at most 33554432 bytes, and it then carries the parsed size and type |
| BlobReader.BlobReader.ReadBlob | src/main/java/com/wolt/osm/parallelpbf/blob/BlobReader.java:140-142 | reading a Blob is one read of its length |
| BlobReader.BlobReader.Skip | src/main/java/com/wolt/osm/parallelpbf/blob/BlobReader.java:150-162 | the stream moves forward exactly `offset` bytes and the offset is returned, or empty on IOException |
| BlobReader.FrameReadsBack | src/main/java/com/wolt/osm/parallelpbf/blob/BlobReader.java:84-142 | a frame the writer produced reads back as its header length, then its type and Blob size, then the Blob the writer built, within the reader's limits (corrected; see Findings) |
| OsmReader.DecompressExact | src/main/java/com/wolt/osm/parallelpbf/io/OSMReader.java:97-108 | decompression succeeds exactly when the size is not negative, zlib accepts the stream and the inflated length is `raw_size`, and then gives the whole stream (corrected; see Findings) |
| OsmReader.OsmReader.constructor | src/main/java/com/wolt/osm/parallelpbf/io/OSMReader.java:58-61 | the reader keeps the blob and the semaphore |
| OsmReader.OsmReader.Inflate | src/main/java/com/wolt/osm/parallelpbf/io/OSMReader.java:97-108 | the method gives the intended decompression (corrected; see Findings) |
| OsmReader.PayloadOfWrittenBlob | src/main/java/com/wolt/osm/parallelpbf/io/OSMReader.java:70-88 | a Blob the writer built gives back the block: OSMData through inflation, OSMHeader as raw data (corrected; see Findings) |
| OsmReader.OsmReader.Run | src/main/java/com/wolt/osm/parallelpbf/io/OSMReader.java:70-88 | `run` gives the decoder's result on the payload, or the parse, compression or size error; the permit is released exactly once either way |
| OsmReader.Semaphore.Release | src/main/java/com/wolt/osm/parallelpbf/io/OSMReader.java:86 | a release returns one permit |
| OsmReader.AsWrittenDecompressTruncates | src/main/java/com/wolt/osm/parallelpbf/io/OSMReader.java:101-106 | as written, a Blob declaring one byte that inflates to two gives its first byte and no error; the intended check refuses it |
| BaseParser.Sink.Accept | src/main/java/com/wolt/osm/parallelpbf/parser/WayParser.java:54 | a callback receives the event after everything it received before |
| BaseParser.ParseTags | src/main/java/com/wolt/osm/parallelpbf/parser/BaseParser.java:58-66 | tags parse exactly when every index lies in the table and in `vals`, and give the map the pairs build; otherwise IndexOutOfBounds |
| BaseParser.TagsOfLastWins | src/main/java/com/wolt/osm/parallelpbf/parser/BaseParser.java:58-66 | the map's keys are exactly the keys listed, and a repeated key keeps its last value |
| BaseParser.TagsOfSize | src/main/java/com/wolt/osm/parallelpbf/parser/BaseParser.java:58-66 | the map has at most one tag per entry |
| BaseParser.ConvertInfo | src/main/java/com/wolt/osm/parallelpbf/parser/BaseParser.java:74-128 | no Info message gives no metadata; a username index outside the table throws; visible is true unless set to false; the other fields are copied |
| WayParser.WayParser.constructor | src/main/java/com/wolt/osm/parallelpbf/parser/WayParser.java:37-39 | the parser keeps the callback and the table |
| WayParser.WayParser.Parse | src/main/java/com/wolt/osm/parallelpbf/parser/WayParser.java:42-55 | the callback receives the decoded way exactly once, or the exception propagates and it receives nothing |
| WayParser.SumRefs | src/main/java/com/wolt/osm/parallelpbf/parser/WayParser.java:43-50 | the refs loop gives the running sums of the refs |
| WayParser.ParsedNodes | src/main/java/com/wolt/osm/parallelpbf/parser/WayParser.java:47-50 | a parsed way has one node per ref, node `k` being the wrapped sum of the first `k + 1` refs |
| WayParser.WayRoundTrip | src/main/java/com/wolt/osm/parallelpbf/parser/WayParser.java:42-55 | parsing a way the encoder wrote gives back its id, tags and nodes, without metadata |
| RelationParser.RelationParser.constructor | src/main/java/akashihi/osm/parallelpbf/parser/RelationParser.java:39-41 | the parser keeps the callback and the table |
| RelationParser.RelationParser.Parse | src/main/java/akashihi/osm/parallelpbf/parser/RelationParser.java:44-59 | the callback receives the decoded relation exactly once, or the exception propagates and it receives nothing |
| RelationParser.DecodeMembers | src/main/java/akashihi/osm/parallelpbf/parser/RelationParser.java:45-55 | the members loop gives the members the running member id and the role and type lookups define, or the first exception |
| RelationParser.MembersRoundTrip | src/main/java/akashihi/osm/parallelpbf/parser/RelationParser.java:49-55 | the members the encoder wrote read back with their ids, roles and types, in order |
| RelationParser.RelationRoundTrip | src/main/java/akashihi/osm/parallelpbf/parser/RelationParser.java:44-59 | a relation the encoder wrote reads back with its id, tags and members. Its metadata comes back, and a relation written without metadata gets the default Info's values |
| NodeParser.NodeParser.constructor | src/main/java/akashihi/osm/parallelpbf/parser/NodeParser.java:54-65 | the parser keeps the callback, the table and the four grid settings |
| NodeParser.NodeParser.Parse | src/main/java/akashihi/osm/parallelpbf/parser/NodeParser.java:67-76 | the callback receives the decoded node exactly once, or the exception propagates and it receives nothing |
| NodeParser.CoordinateExact | src/main/java/akashihi/osm/parallelpbf/parser/NodeParser.java:69-70 | without overflow a coordinate is exactly offset plus granularity times the stored value |
| NodeParser.NodeParser.ParseDense | src/main/java/akashihi/osm/parallelpbf/parser/NodeParser.java:82-133 | the callback receives one node per decoded entry, in order. An exception ends the loop, the nodes before it having been delivered. The offset is added once (corrected; see Findings) |
| NodeParser.DecodeTagsFrom | src/main/java/akashihi/osm/parallelpbf/parser/NodeParser.java:98-111 | the tag loop throws only IndexOutOfBounds. On success the cursor ends just after a closing 0, an odd number of entries on; a leading 0 gives no tags |
| NodeParser.DecodeTags | src/main/java/akashihi/osm/parallelpbf/parser/NodeParser.java:99-110 | the method gives the tag loop's result |
| NodeParser.DecodeInfo | src/main/java/akashihi/osm/parallelpbf/parser/NodeParser.java:112-128 | the method gives the metadata step's result |
| NodeParser.DecodeDense | src/main/java/akashihi/osm/parallelpbf/parser/NodeParser.java:93-128 | the method gives one step of the dense loop |
| NodeParser.DenseStepSummed | src/main/java/akashihi/osm/parallelpbf/parser/NodeParser.java:93-128 | after each step every accumulator holds the wrapped sum of its column over one more entry, and the node agrees with the closed form |
| NodeParser.InfoStepSummed | src/main/java/akashihi/osm/parallelpbf/parser/NodeParser.java:112-128 | uid, username index, changeset and timestamp are running sums, the timestamp scaled by the date granularity; version is read as is; visible defaults to true |
| NodeParser.DenseNodesSummed | src/main/java/akashihi/osm/parallelpbf/parser/NodeParser.java:92-133 | a dense parse without exception delivers one node per id entry, node `k` being the running sums of the first `k + 1` entries on the grid (corrected; see Findings) |
| NodeParser.DenseNodesEmpty | src/main/java/akashihi/osm/parallelpbf/parser/NodeParser.java:92 | no id entries: nothing delivered, nothing thrown |
| NodeParser.DenseFromKeeps | src/main/java/akashihi/osm/parallelpbf/parser/NodeParser.java:92-133 | the dense parse never takes back earlier events and adds only nodes |
| NodeParser.DenseRoundTrip | src/main/java/akashihi/osm/parallelpbf/parser/NodeParser.java:82-133 | dense nodes the encoder wrote, read on the grid its block declares, come back in order with their ids and tags and their coordinates on the grid, without metadata and without exception (corrected; see Findings) |
| NodeParser.SnappedNearest | src/main/java/akashihi/osm/parallelpbf/parser/NodeParser.java:94-95 | coordinates that went through the writer come back within 50 nanodegrees |
| NodeParser.DenseAgreesWithPlain | src/main/java/akashihi/osm/parallelpbf/parser/NodeParser.java:67-133 | a one-node dense group decodes to the same node as the plain message with the same fields |
| NodeParser.AsWrittenOffsetRepeats | src/main/java/akashihi/osm/parallelpbf/parser/NodeParser.java:94-95 | as written, latitude offset 1 and deltas 1, 1 give 101 and 202; the intended closed form gives 101 and 201 |
| DataReader.DataReader.Read | src/main/java/com/wolt/osm/parallelpbf/io/OSMDataReader.java:94-133 | the events delivered and the exception thrown are those of `read`: a payload that does not parse throws first, then the groups are decoded in order |
| DataReader.DataReader.ReadGroup | src/main/java/com/wolt/osm/parallelpbf/io/OSMDataReader.java:105-131 | one group is decoded kind by kind: nodes (plain, then dense), ways, relations, changesets, each only when its callback is set |
| DataReader.ParseNodes | src/main/java/com/wolt/osm/parallelpbf/io/OSMDataReader.java:112 | `forEach(parser::parse)` delivers each node in order until the first exception |
| DataReader.ParseWays | src/main/java/com/wolt/osm/parallelpbf/io/OSMDataReader.java:119 | `forEach(parser::parse)` delivers each way in order until the first exception |
| DataReader.ParseRelations | src/main/java/com/wolt/osm/parallelpbf/io/OSMDataReader.java:123 | `forEach(parser::parse)` delivers each relation in order until the first exception |
| DataReader.AcceptChangesets | src/main/java/com/wolt/osm/parallelpbf/io/OSMDataReader.java:126-130 | each changeset's id goes to the callback, in order |
| DataReader.DeliverChangesets | src/main/java/com/wolt/osm/parallelpbf/io/OSMDataReader.java:126-130 | every changeset id is delivered in order after the earlier events, and nothing throws |
| DataReader.GroupInKindOrder | src/main/java/com/wolt/osm/parallelpbf/io/OSMDataReader.java:105-131 | within a group the events come in the order nodes, ways, relations, changesets, after the earlier ones |
| DataReader.StageInOrder | src/main/java/com/wolt/osm/parallelpbf/io/OSMDataReader.java:104-131 | each kind's stage only appends events of its own kind, so the order is kept |
| DataReader.UnsetCallbackSkips | src/main/java/com/wolt/osm/parallelpbf/io/OSMDataReader.java:105-131 | a kind whose callback is null is not decoded: its messages make no difference, exceptions included |
| DataReader.NoCallbacksNoEvents | src/main/java/com/wolt/osm/parallelpbf/io/OSMDataReader.java:104-132 | with no callback set the groups give no event and nothing throws |
| DataReader.GroupsKeep | src/main/java/com/wolt/osm/parallelpbf/io/OSMDataReader.java:104-132 | the groups loop never takes back events already delivered |
| DataReader.GroupErrors | src/main/java/com/wolt/osm/parallelpbf/io/OSMDataReader.java:105-131 | an exception inside a group is an index out of bounds or an unknown member type |
| DataReader.GroupsErrors | src/main/java/com/wolt/osm/parallelpbf/io/OSMDataReader.java:104-132 | an exception from the groups loop is an index out of bounds or an unknown member type |
| DataReader.ReadFailure | src/main/java/com/wolt/osm/parallelpbf/io/OSMDataReader.java:94-133 | InvalidProtocolBuffer is thrown exactly when the payload does not parse, and then before any callback. Any other exception comes from an entity parser, after the earlier events |
| DataReader.ChangesetsInOrder | src/main/java/com/wolt/osm/parallelpbf/io/OSMDataReader.java:104-131 | with only the changeset callback set, it receives every changeset id, group by group, in order, and nothing throws |
| DataReader.ReadChangesets | src/main/java/com/wolt/osm/parallelpbf/io/OSMDataReader.java:94-133 | a parsed block read for its changesets delivers exactly their ids, in order |
| DataReader.DenseOnlyGroup | src/main/java/com/wolt/osm/parallelpbf/io/OSMDataReader.java:105-116 | a group holding only dense nodes delivers what the dense parse does |
| DataReader.WrittenDenseReadsBack | src/main/java/com/wolt/osm/parallelpbf/io/OSMDataReader.java:94-133 | a block the writer flushed from the dense encoder delivers the encoder's nodes, snapped to the grid, in order, without exception: the block's grid is the parser's (corrected; see Findings) |
| DataReader.DataReader.constructor | src/main/java/com/wolt/osm/parallelpbf/io/OSMDataReader.java:71-82 | the reader keeps the four callbacks |
| HeaderReader.EqualsIgnoreCaseReflexive | src/main/java/com/wolt/osm/parallelpbf/io/OSMHeaderReader.java:80-82 | every string matches itself ignoring case |
| HeaderReader.EqualsIgnoreCaseSymmetric | src/main/java/com/wolt/osm/parallelpbf/io/OSMHeaderReader.java:80-82 | matching ignoring case does not depend on the order |
| HeaderReader.AsciiLettersMatch | src/main/java/com/wolt/osm/parallelpbf/io/OSMHeaderReader.java:80-82 | an ASCII letter matches its other case |
| HeaderReader.FindUnsupported | src/main/java/com/wolt/osm/parallelpbf/io/OSMHeaderReader.java:79-83 | an unsupported feature found is one that none of the three matches |
| HeaderReader.FindUnsupportedNone | src/main/java/com/wolt/osm/parallelpbf/io/OSMHeaderReader.java:79-83 | none is found exactly when every remaining feature is supported |
| HeaderReader.CheckRequiredFeatures | src/main/java/com/wolt/osm/parallelpbf/io/OSMHeaderReader.java:78-86 | true exactly when every feature equals, ignoring case, OsmSchema-V0.6, DenseNodes or HistoricalInformation |
| HeaderReader.EncodedHeaderPasses | src/main/java/com/wolt/osm/parallelpbf/encoder/OsmHeaderEncoder.java:38-39 | the features the library writes pass the gate |
| HeaderReader.OtherFeaturesRefused | src/main/java/com/wolt/osm/parallelpbf/io/OSMHeaderReader.java:78-86 | an unknown feature among known ones, or a truncated name, fails the gate |
| HeaderReader.DotlessIMatches | src/main/java/com/wolt/osm/parallelpbf/io/OSMHeaderReader.java:82 | a dotless ı in place of i still matches HistoricalInformation, as Java's case folding has it |
| HeaderReader.HeaderOf | src/main/java/com/wolt/osm/parallelpbf/io/OSMHeaderReader.java:111-117 | the header carries both feature lists, and the writing program and source exactly when the block has them |
| HeaderReader.ReadFailure | src/main/java/com/wolt/osm/parallelpbf/io/OSMHeaderReader.java:97-108 | InvalidProtocolBuffer exactly when the payload does not parse, UnsupportedFeatures exactly when the gate fails; in both cases before any callback |
| HeaderReader.ReadDelivers | src/main/java/com/wolt/osm/parallelpbf/io/OSMHeaderReader.java:110-129 | past the gate, the header arrives exactly when its callback is set, and first; the box arrives exactly when its callback is set and the block has one; both carry the block's values |
| HeaderReader.WrittenHeaderReadsBack | src/main/java/com/wolt/osm/parallelpbf/io/OSMHeaderReader.java:97-130 | the header the library writes reads back as its two features, "parallelpbf" and no source, with the bounding box side for side |
| HeaderReader.HeaderReader.constructor | src/main/java/com/wolt/osm/parallelpbf/io/OSMHeaderReader.java:63-70 | the reader keeps the two callbacks |
| HeaderReader.HeaderReader.Read | src/main/java/com/wolt/osm/parallelpbf/io/OSMHeaderReader.java:97-130 | the events delivered and the exception thrown are those of `read` |

## Left out

- Concurrency is not modelled. That covers the writer's blocking queue and threads, the reader thread pool,
  the semaphore waiting, and the `synchronized` output, whose writes are one sequence here.
- Logging is not modelled: every `log.*` call is left out, as is the writer's handling of entities of an
  unknown type beyond dropping them.
- Protobuf serialization and parsing, and zlib deflate and inflate, are collaborator functions. Their laws
  are stated only where a round trip needs them.
- Floating point is not modelled. The source's NANO scaling, its `double` coordinate accumulators and
  `doubleToNanoScaled` rounding become integer nanodegrees with round-half-up onto the 100-nanodegree grid.
  Floating-point error is not captured. `BoundBox` sides are nanodegrees, not the reader's division by 1e9.
- Java `String.equalsIgnoreCase` is modelled exactly when one side is one of the ASCII feature names. The
  case mappings of other non-ASCII characters are left out, since they cannot match an ASCII letter.
- HeaderReader.CheckRequiredFeatures: the error log of the rejected feature is left out.
- NodeParser.NodeParser.ParseDense: all the dense loop's failures are IndexOutOfBounds, so the model does not
  capture which of several missing entries in one step the Java code reports first.
- BlobReader.BlobReader.Skip: requires the offset to lie within the stream. Past its end the Java loop
  calls `skip` for ever.
- BlobReader.InputStream.Read: one read delivers up to a fixed chunk size. Streams whose reads vary in length
  are not modelled.
- OsmReader.OsmReader.Run: the decoder is a pure function. `read` is modelled for each reader subclass on
  its own.
- OsmReader.Decompress: a zero `raw_size` with a stream zlib rejects is reported as a DataFormatException.
  Java would give an empty payload without inflating.
- The Blob's `oneof` data field holds one kind of data, so the order Java tests zlib and raw data in is not
  observable.
- WayEncoder.WayEncoder.EstimateSize, RelationEncoder.RelationEncoder.EstimateSize and
  DenseNodesEncoder.DenseNodesEncoder.EstimateSize: estimates are unbounded integers. The wrap-around of the
  Java `int` counters is left out; it needs estimates beyond 2 GiB, far past the 15 MiB flush limit.
- RelationEncoder.RelationEncoder.EstimateSize: `RelationEncoder.java` reads a `MEMBER_ENTRY_SIZE` for the
  per-relation and per-tag charge, but neither it nor `OsmEntityEncoder.java` defines one. The model takes
  the 8 of `WayEncoder.java`. This value feeds `OsmWriter.BlobEstimate`, so the exact point at which the
  writer flushes rests on that choice.
- StringTable.StringTableEncoder.AddStringToTable and StringTable.StringTableEncoder.GetStringIndex: the
  `int` counters `stringTableSize` and `stringIndex` are unbounded integers. Their wrap-around needs more than
  2^31 UTF-16 units or strings in one table, far past the 15 MiB flush limit.
- A null role, tag key, tag value or username is not modelled: the entity datatypes have no null. In Java
  such a string reaches `getStringIndex(null)`, and `addStringToTable` then throws NullPointerException at
  `str.length()` (StringTableEncoder.java:47).
- Unknown member type numbers: protobuf 2 parsing moves an enum number it does not know into the unknown
  fields, so Java's `Type.get` only sees 0, 1 and 2 from a parsed message. The model's `types` field holds
  any `int`, so a type such as 5 reaches the IllegalArgumentException path of `RelationMember.Get`.
- The size estimates count one string per table for every encoder because the table is shared. A test of a
  later version expects per-encoder string sizes; the model follows the writer's shared table.
- Duplicate source snapshots of the same classes (the hcspak and org.akashihi trees and the older akashihi
  readers) are not modelled; the model follows the files named in the table.
- The entity holder classes (`Node`, `Way`, `Relation`, `Info`, `Header`, `BoundBox`) are datatypes. Their
  Lombok accessors and `toString` are left out.
- `ParallelBinaryParser`, `ParallelBinaryWriter` and partition handling are not part of this model.

## Findings

| source | as written | input that shows it | evidently intended | confidence | as-written member | corrected member |
|---|---|---|---|---|---|---|
| src/main/java/com/wolt/osm/parallelpbf/encoder/DenseNodesEncoder.java:115-124 | `id = node.getId() - id` stores the delta in the accumulator, so each delta is taken against the previous delta (lat and lon alike) | node ids 3, 6, 2 are stored as 3, 3, -1, which read back as 3, 6, 5 | delta coding against the previous node's value: 3, 3, -4, as DenseNodesEncoderTest expects | high, not executed | DenseNodesEncoder.AsWrittenDeltasDiffer | DenseNodesEncoder.DenseNodesEncoder.AddNode |
| src/main/java/akashihi/osm/parallelpbf/parser/NodeParser.java:94-95 | the dense loop adds `latOffset + granularity * delta` per node, so node `k` holds the offset `k + 1` times | latitude offset 1, granularity 100, deltas 1, 1: nodes at 101 and 202 nanodegrees | offset added once to the running sum on the grid: 101 and 201 | high, not executed | NodeParser.AsWrittenOffsetRepeats | NodeParser.DenseNodesSummed |
| src/main/java/com/wolt/osm/parallelpbf/blob/BlobWriter.java:40-48 | the deflate output buffer has the input's length, so a zlib stream longer than the input is cut short | a one-byte OSMData block: its zlib stream has at least six bytes, and one is kept | the whole zlib stream is stored, so the reader can inflate it | high, not executed | BlobWriter.AsWrittenDataBlobTruncates | OsmReader.PayloadOfWrittenBlob |
| src/main/java/com/wolt/osm/parallelpbf/io/OSMReader.java:101-106 | the inflate buffer has `raw_size` bytes, so a longer stream fills it and passes the size check | a Blob declaring 1 raw byte whose zlib data inflates to 2 bytes: the first byte is returned with no error | "RuntimeException if decompressed size differs from expected one" | medium, not executed | OsmReader.AsWrittenDecompressTruncates | OsmReader.DecompressExact |
