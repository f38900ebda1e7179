/**
 * DenseNodesEncoder: collects nodes for one PrimitiveBlock in the DenseNodes
 * layout. Ids and coordinates go into three parallel columns, each delta coded
 * against the previous node; every node's tags go into the shared `keys_vals`
 * column as key/value index pairs closed by a 0. Coordinates are stored on a
 * grid of 100 nanodegrees with offsets 0.
 */
module DenseNodesEncoder {
  import opened JavaInt
  import opened Wrappers
  import opened Entity
  import opened Osmformat
  import opened Delta
  import opened StringTable
  import opened OsmEntityEncoder

  /** The coordinate grid, in nanodegrees. */
  const GRANULARITY: nat := 100
  /** A node costs three `long`s in the estimate: id, lat and lon. */
  const NODE_ENTRY_SIZE: nat := 24
  /** Every `keys_vals` entry, the closing 0 included, costs one `int`. */
  const TAG_ENTRY_SIZE: nat := 4

  /** `doubleToNanoScaled(c / GRANULARITY)` for a coordinate of `nano` nanodegrees (Math.round). */
  function GridUnits(nano: int): Int64
  {
    ClampLong((nano + 50) / 100)
  }

  /**
   * The stored value is the nearest grid point, halves rounded up, or an end
   * of the `long` range where the point lies beyond it.
   */
  lemma GridUnitsNearest(nano: int)
    ensures var r := GridUnits(nano);
      && (-0x8000_0000_0000_0000 <= (nano + 50) / 100 < 0x8000_0000_0000_0000 ==>
            r as int * 100 - 50 <= nano < r as int * 100 + 50)
      && ((nano + 50) / 100 < -0x8000_0000_0000_0000 ==> r == -0x8000_0000_0000_0000)
      && ((nano + 50) / 100 >= 0x8000_0000_0000_0000 ==> r == 0x7FFF_FFFF_FFFF_FFFF)
  {
  }

  /** A coordinate that sits on the grid is stored exactly. */
  lemma GridUnitsOnGrid(g: Int64)
    ensures GridUnits(g as int * 100) == g
  {
    assert (g as int * 100 + 50) / 100 == g as int;
  }

  /** The tags of one node as `keys_vals` writes them: key, value, key, value, ... */
  function Interleave(keys: seq<int>, vals: seq<int>): (kv: seq<int>)
    requires |keys| == |vals|
    ensures |kv| == 2 * |keys|
    decreases |keys|
  {
    if keys == [] then [] else [keys[0], vals[0]] + Interleave(keys[1..], vals[1..])
  }

  /** The `keys_vals` column of the first `n` nodes: each node's pairs, then 0. */
  function KeysValsUpTo(tk: seq<seq<int>>, tv: seq<seq<int>>, n: nat): seq<int>
    requires n <= |tk| && n <= |tv|
    requires forall i :: 0 <= i < n ==> |tk[i]| == |tv[i]|
    decreases n
  {
    if n == 0 then [] else KeysValsUpTo(tk, tv, n - 1) + Interleave(tk[n - 1], tv[n - 1]) + [0]
  }

  /** The id, latitude and longitude columns of the first `n` nodes of `ns`, coordinates in grid units. */
  function IdsUpTo(ns: seq<Node>, n: nat): (xs: seq<Int64>)
    requires n <= |ns|
    ensures |xs| == n
    decreases n
  {
    if n == 0 then [] else IdsUpTo(ns, n - 1) + [ns[n - 1].id]
  }

  function LatsUpTo(ns: seq<Node>, n: nat): (xs: seq<Int64>)
    requires n <= |ns|
    ensures |xs| == n
    decreases n
  {
    if n == 0 then [] else LatsUpTo(ns, n - 1) + [GridUnits(ns[n - 1].lat)]
  }

  function LonsUpTo(ns: seq<Node>, n: nat): (xs: seq<Int64>)
    requires n <= |ns|
    ensures |xs| == n
    decreases n
  {
    if n == 0 then [] else LonsUpTo(ns, n - 1) + [GridUnits(ns[n - 1].lon)]
  }

  function IdColumn(ns: seq<Node>): seq<Int64> { IdsUpTo(ns, |ns|) }
  function LatColumn(ns: seq<Node>): seq<Int64> { LatsUpTo(ns, |ns|) }
  function LonColumn(ns: seq<Node>): seq<Int64> { LonsUpTo(ns, |ns|) }

  /** The last element of `xs`, or 0 when there is none: what a delta accumulator holds. */
  function Last(xs: seq<Int64>): Int64
  {
    if xs == [] then 0 else xs[|xs| - 1]
  }

  /** The number of tags over the first `n` nodes of `ns`. */
  function TagCount(ns: seq<Node>, n: nat): nat
    requires n <= |ns|
    decreases n
  {
    if n == 0 then 0 else TagCount(ns, n - 1) + |ns[n - 1].tags|
  }

  /** Node i's tags are encoded by `tk[i]` / `tv[i]`. */
  ghost predicate EncodesNodeTags(tk: seq<seq<int>>, tv: seq<seq<int>>, ns: seq<Node>, strings: seq<string>)
  {
    && |tk| == |tv| == |ns|
    && forall i :: 0 <= i < |ns| ==> EncodesTags(tk[i], tv[i], ns[i].tags, strings)
  }

  /**
   * The encoder's state stands for the nodes `ns`: the columns are the
   * delta-coded ids and grid coordinates, `keys_vals` their tags, nothing
   * else is set, and the accumulators hold the last node's values.
   */
  ghost predicate Collects(msg: DenseNodesMsg, ns: seq<Node>, tk: seq<seq<int>>, tv: seq<seq<int>>,
                           strings: seq<string>, id: Int64, lat: Int64, lon: Int64)
  {
    && EncodesNodeTags(tk, tv, ns, strings)
    && msg.keysVals == KeysValsUpTo(tk, tv, |ns|)
    && msg.denseinfo == None
    && ColumnsHold(msg, ns, id, lat, lon)
  }

  /** The id, lat and lon columns delta code those of `ns`; the accumulators hold their last values. */
  ghost predicate ColumnsHold(msg: DenseNodesMsg, ns: seq<Node>, id: Int64, lat: Int64, lon: Int64)
  {
    && msg.id == DeltaEncode(IdColumn(ns))
    && msg.lat == DeltaEncode(LatColumn(ns))
    && msg.lon == DeltaEncode(LonColumn(ns))
    && id == Last(IdColumn(ns)) && lat == Last(LatColumn(ns)) && lon == Last(LonColumn(ns))
  }

  /** `msg` is the DenseNodes message the encoder builds for `ns` against `strings`, for some tag indices. */
  ghost predicate EncodesNodes(msg: DenseNodesMsg, ns: seq<Node>, strings: seq<string>)
  {
    exists tk: seq<seq<int>>, tv: seq<seq<int>> ::
      Collects(msg, ns, tk, tv, strings, Last(IdColumn(ns)), Last(LatColumn(ns)), Last(LonColumn(ns)))
  }

  /** An encoder state stands for the message it has built. */
  lemma CollectsEncodes(msg: DenseNodesMsg, ns: seq<Node>, tk: seq<seq<int>>, tv: seq<seq<int>>,
                        strings: seq<string>, id: Int64, lat: Int64, lon: Int64)
    requires Collects(msg, ns, tk, tv, strings, id, lat, lon)
    ensures EncodesNodes(msg, ns, strings)
  {
    assert Collects(msg, ns, tk, tv, strings, Last(IdColumn(ns)), Last(LatColumn(ns)), Last(LonColumn(ns)));
  }

  /** `keys_vals` has two entries per tag and one closing 0 per node. */
  lemma {:induction false} KeysValsLength(tk: seq<seq<int>>, tv: seq<seq<int>>, ns: seq<Node>, strings: seq<string>, n: nat)
    requires EncodesNodeTags(tk, tv, ns, strings) && n <= |ns|
    ensures |KeysValsUpTo(tk, tv, n)| == 2 * TagCount(ns, n) + n
    decreases n
  {
    if n > 0 {
      KeysValsLength(tk, tv, ns, strings, n - 1);
      assert EncodesTags(tk[n - 1], tv[n - 1], ns[n - 1].tags, strings);
    }
  }

  /** Appending a node leaves the column of the first `n` nodes alone. */
  lemma {:induction false} KeysValsAppend(tk: seq<seq<int>>, tv: seq<seq<int>>, n: nat, keys: seq<int>, vals: seq<int>)
    requires n <= |tk| && n <= |tv| && forall i :: 0 <= i < n ==> |tk[i]| == |tv[i]|
    ensures KeysValsUpTo(tk + [keys], tv + [vals], n) == KeysValsUpTo(tk, tv, n)
    decreases n
  {
    if n > 0 {
      KeysValsAppend(tk, tv, n - 1, keys, vals);
      assert (tk + [keys])[n - 1] == tk[n - 1] && (tv + [vals])[n - 1] == tv[n - 1];
    }
  }

  lemma {:induction false} TagCountAppend(ns: seq<Node>, nd: Node, n: nat)
    requires n <= |ns|
    ensures TagCount(ns + [nd], n) == TagCount(ns, n)
    decreases n
  {
    if n > 0 {
      TagCountAppend(ns, nd, n - 1);
      assert (ns + [nd])[n - 1] == ns[n - 1];
    }
  }

  /** Appending a node leaves the columns of the first `n` nodes alone. */
  lemma {:induction false} ColumnsAppend(ns: seq<Node>, nd: Node, n: nat)
    requires n <= |ns|
    ensures IdsUpTo(ns + [nd], n) == IdsUpTo(ns, n)
    ensures LatsUpTo(ns + [nd], n) == LatsUpTo(ns, n)
    ensures LonsUpTo(ns + [nd], n) == LonsUpTo(ns, n)
    decreases n
  {
    if n > 0 {
      ColumnsAppend(ns, nd, n - 1);
      assert (ns + [nd])[n - 1] == ns[n - 1];
    }
  }

  /** The columns of `ns + [nd]` are those of `ns` with the values of `nd` appended. */
  lemma ColumnsSnoc(ns: seq<Node>, nd: Node)
    ensures IdColumn(ns + [nd]) == IdColumn(ns) + [nd.id]
    ensures LatColumn(ns + [nd]) == LatColumn(ns) + [GridUnits(nd.lat)]
    ensures LonColumn(ns + [nd]) == LonColumn(ns) + [GridUnits(nd.lon)]
  {
    ColumnsAppend(ns, nd, |ns|);
  }

  /** Growing the table at its end keeps every node's tags valid. */
  lemma EncodesNodeTagsExtend(tk: seq<seq<int>>, tv: seq<seq<int>>, ns: seq<Node>, strings: seq<string>, more: seq<string>)
    requires EncodesNodeTags(tk, tv, ns, strings) && Grows(strings, more)
    ensures EncodesNodeTags(tk, tv, ns, more)
  {
    forall i | 0 <= i < |ns|
      ensures EncodesTags(tk[i], tv[i], ns[i].tags, more)
    {
      EncodesTagsExtend(tk[i], tv[i], ns[i].tags, strings, more);
    }
  }

  lemma EncodesNodeTagsSnoc(tk: seq<seq<int>>, tv: seq<seq<int>>, ns: seq<Node>, strings: seq<string>,
                            keys: seq<int>, vals: seq<int>, nd: Node)
    requires EncodesNodeTags(tk, tv, ns, strings) && EncodesTags(keys, vals, nd.tags, strings)
    ensures EncodesNodeTags(tk + [keys], tv + [vals], ns + [nd], strings)
  {
    forall i | 0 <= i < |ns| + 1
      ensures EncodesTags((tk + [keys])[i], (tv + [vals])[i], (ns + [nd])[i].tags, strings)
    {
      if i < |ns| {
        assert (tk + [keys])[i] == tk[i] && (tv + [vals])[i] == tv[i] && (ns + [nd])[i] == ns[i];
      }
    }
  }

  /** The state stays valid when another encoder grows the shared table. */
  lemma CollectsExtend(msg: DenseNodesMsg, ns: seq<Node>, tk: seq<seq<int>>, tv: seq<seq<int>>,
                       strings: seq<string>, more: seq<string>, id: Int64, lat: Int64, lon: Int64)
    requires Collects(msg, ns, tk, tv, strings, id, lat, lon) && Grows(strings, more)
    ensures Collects(msg, ns, tk, tv, more, id, lat, lon)
  {
    EncodesNodeTagsExtend(tk, tv, ns, strings, more);
  }

  /** The keys_vals column after one more node. */
  lemma KeysValsStep(tk: seq<seq<int>>, tv: seq<seq<int>>, ns: seq<Node>, strings: seq<string>,
                     keys: seq<int>, vals: seq<int>, nd: Node)
    requires EncodesNodeTags(tk, tv, ns, strings) && EncodesTags(keys, vals, nd.tags, strings)
    ensures forall i :: 0 <= i < |ns| + 1 ==> |(tk + [keys])[i]| == |(tv + [vals])[i]|
    ensures KeysValsUpTo(tk + [keys], tv + [vals], |ns| + 1)
         == KeysValsUpTo(tk, tv, |ns|) + Interleave(keys, vals) + [0]
  {
    EncodesNodeTagsSnoc(tk, tv, ns, strings, keys, vals, nd);
    KeysValsAppend(tk, tv, |ns|, keys, vals);
    assert (tk + [keys])[|ns|] == keys && (tv + [vals])[|ns|] == vals;
  }

  /** One more value in a delta-coded column whose accumulator holds the last value. */
  lemma ColumnStep(xs: seq<Int64>, x: Int64, acc: Int64)
    requires acc == Last(xs)
    ensures DeltaEncode(xs + [x]) == DeltaEncode(xs) + [WrapLong(x as int - acc)]
    ensures Last(xs + [x]) == x
  {
    DeltaEncodeSnoc(xs, x);
  }

  /** `addNode`'s appends to the DenseNodes message. */
  function Appended(msg: DenseNodesMsg, id: Int64, lat: Int64, lon: Int64, nd: Node,
                    keys: seq<int>, vals: seq<int>): DenseNodesMsg
    requires |keys| == |vals|
  {
    DenseNodesMsg(msg.id + [WrapLong(nd.id as int - id)], None,
                  msg.lat + [WrapLong(GridUnits(nd.lat) as int - lat)],
                  msg.lon + [WrapLong(GridUnits(nd.lon) as int - lon)],
                  msg.keysVals + Interleave(keys, vals) + [0])
  }

  /** The three columns after one more node. */
  lemma ColumnsStep(msg: DenseNodesMsg, ns: seq<Node>, id: Int64, lat: Int64, lon: Int64, nd: Node,
                    keys: seq<int>, vals: seq<int>)
    requires |keys| == |vals|
    requires msg.id == DeltaEncode(IdColumn(ns)) && id == Last(IdColumn(ns))
    requires msg.lat == DeltaEncode(LatColumn(ns)) && lat == Last(LatColumn(ns))
    requires msg.lon == DeltaEncode(LonColumn(ns)) && lon == Last(LonColumn(ns))
    ensures var m := Appended(msg, id, lat, lon, nd, keys, vals);
      && m.id == DeltaEncode(IdColumn(ns + [nd])) && nd.id == Last(IdColumn(ns + [nd]))
      && m.lat == DeltaEncode(LatColumn(ns + [nd])) && GridUnits(nd.lat) == Last(LatColumn(ns + [nd]))
      && m.lon == DeltaEncode(LonColumn(ns + [nd])) && GridUnits(nd.lon) == Last(LonColumn(ns + [nd]))
  {
    ColumnsSnoc(ns, nd);
    ColumnStep(IdColumn(ns), nd.id, id);
    ColumnStep(LatColumn(ns), GridUnits(nd.lat), lat);
    ColumnStep(LonColumn(ns), GridUnits(nd.lon), lon);
  }

  /** What one `addNode` does to the state, the table having grown meanwhile. */
  lemma AddStep(msg: DenseNodesMsg, ns: seq<Node>, tk: seq<seq<int>>, tv: seq<seq<int>>,
                before: seq<string>, after: seq<string>, id: Int64, lat: Int64, lon: Int64,
                nd: Node, keys: seq<int>, vals: seq<int>)
    requires Collects(msg, ns, tk, tv, before, id, lat, lon) && Grows(before, after)
    requires EncodesTags(keys, vals, nd.tags, after)
    ensures Collects(Appended(msg, id, lat, lon, nd, keys, vals),
                     ns + [nd], tk + [keys], tv + [vals], after, nd.id, GridUnits(nd.lat), GridUnits(nd.lon))
  {
    EncodesNodeTagsExtend(tk, tv, ns, before, after);
    KeysValsStep(tk, tv, ns, after, keys, vals, nd);
    EncodesNodeTagsSnoc(tk, tv, ns, after, keys, vals, nd);
    ColumnsStep(msg, ns, id, lat, lon, nd, keys, vals);
  }

  class DenseNodesEncoder {
    /**
     * The string table the tag entries index. DenseNodesEncoder.java keeps a
     * private one (`new DenseNodesEncoder(new StringTableEncoder())` here);
     * OSMWriter passes its block-wide table.
     */
    const table: StringTableEncoder
    /** The id of the last node added, for delta coding. */
    var id: Int64
    /** The latitude of the last node added, in grid units. */
    var lat: Int64
    /** The longitude of the last node added, in grid units. */
    var lon: Int64
    /** The DenseNodes message being built. */
    var nodes: DenseNodesMsg
    /** The nodes passed to `addNode`, in order. */
    ghost var added: seq<Node>
    /** The key and value indices each added node's tags were given. */
    ghost var tagKeys: seq<seq<int>>
    ghost var tagVals: seq<seq<int>>

    ghost predicate Valid()
      reads this, table
    {
      && table.Valid()
      && Collects(nodes, added, tagKeys, tagVals, table.strings, id, lat, lon)
    }

    constructor (stringTable: StringTableEncoder)
      requires stringTable.Valid()
      ensures Valid() && table == stringTable && added == []
    {
      table := stringTable;
      id, lat, lon := 0, 0, 0;
      nodes := DenseNodesMsg([], None, [], [], []);
      added, tagKeys, tagVals := [], [], [];
    }

    /**
     * `addNode(n)`: the tags of `n`, then its id and grid coordinates, each as
     * the difference to the previous node's. Afterwards the accumulators hold
     * the values of `n` itself.
     */
    method AddNode(n: Node)
      requires Valid()
      modifies this, table
      ensures Valid() && added == old(added) + [n]
      ensures Grows(old(table.strings), table.strings)
      ensures id == n.id && lat == GridUnits(n.lat) && lon == GridUnits(n.lon)
    {
      var m; ghost var tk, tv;
      m, tk, tv := EncodeNode(table, nodes, added, tagKeys, tagVals, id, lat, lon, n);
      nodes, id, lat, lon, added, tagKeys, tagVals := m, n.id, GridUnits(n.lat), GridUnits(n.lon), added + [n], tk, tv;
    }

    /**
     * `estimateSize()`: the length of every table string, 24 bytes per node
     * and 4 per `keys_vals` entry, the closing zeros included.
     */
    function EstimateSize(): (r: nat)
      reads this, table
      requires Valid()
      ensures r == TotalLength(table.strings) + NODE_ENTRY_SIZE * |added|
                   + TAG_ENTRY_SIZE * (2 * TagCount(added, |added|) + |added|)
    {
      KeysValsLength(tagKeys, tagVals, added, table.strings, |added|);
      table.GetStringSize() + |nodes.id| * NODE_ENTRY_SIZE + |nodes.keysVals| * TAG_ENTRY_SIZE
    }

    /**
     * `write()`: the block with the string table and one group holding the
     * DenseNodes message, on a 100-nanodegree grid with both offsets 0.
     */
    function Write(): (block: PrimitiveBlock)
      reads this, table
      requires Valid()
      ensures block.stringtable == table.strings
      ensures block.Granularity() == GRANULARITY && block.LatOffset() == 0 && block.LonOffset() == 0
      ensures |block.groups| == 1 && block.groups[0].dense == Some(nodes)
      ensures block.groups[0].nodes == [] && block.groups[0].ways == [] && block.groups[0].relations == []
      ensures |nodes.id| == |nodes.lat| == |nodes.lon| == |added|
    {
      PrimitiveBlock(table.strings, [PrimitiveGroup([], Some(nodes), [], [], [])], Some(GRANULARITY as Int32), Some(0), Some(0), None)
    }
  }

  /** The body of `addNode`: the tags are interned, then the three columns extended. */
  method EncodeNode(t: StringTableEncoder, msg: DenseNodesMsg, ghost ns: seq<Node>, ghost tk: seq<seq<int>>,
                    ghost tv: seq<seq<int>>, id: Int64, lat: Int64, lon: Int64, n: Node)
    returns (msg': DenseNodesMsg, ghost tk': seq<seq<int>>, ghost tv': seq<seq<int>>)
    requires t.Valid() && Collects(msg, ns, tk, tv, t.strings, id, lat, lon)
    modifies t
    ensures t.Valid() && Grows(old(t.strings), t.strings)
    ensures Collects(msg', ns + [n], tk', tv', t.strings, n.id, GridUnits(n.lat), GridUnits(n.lon))
  {
    ghost var before := t.strings;
    var keys, vals := EncodeTags(t, n.tags);
    AddStep(msg, ns, tk, tv, before, t.strings, id, lat, lon, n, keys, vals);
    msg', tk', tv' := Appended(msg, id, lat, lon, n, keys, vals), tk + [keys], tv + [vals];
  }

  /**
   * The accumulators of DenseNodesEncoder.java as written: `id = node.getId() - id`
   * keeps the delta just emitted rather than the node's id, so each delta is
   * taken against the previous delta.
   */
  function AsWrittenDeltas(acc: Int64, xs: seq<Int64>): (ds: seq<Int64>)
    ensures |ds| == |xs|
    decreases |xs|
  {
    if xs == [] then []
    else
      var d := WrapLong(xs[0] as int - acc);
      [d] + AsWrittenDeltas(d, xs[1..])
  }

  /**
   * For the ids 3, 6, 2 the as-written accumulator emits 3, 3, -1, while delta
   * coding gives 3, 3, -4; a reader's running sums turn the former into 3, 6, 5.
   */
  lemma AsWrittenDeltasDiffer()
    ensures AsWrittenDeltas(0, [3, 6, 2]) == [3, 3, -1]
    ensures DeltaEncode([3, 6, 2]) == [3, 3, -4]
    ensures PrefixSums(AsWrittenDeltas(0, [3, 6, 2])) == [3, 6, 5]
  {
    var xs: seq<Int64> := [3, 6, 2];
    WrapLongOfLong(3);
    WrapLongOfLong(-1);
    WrapLongOfLong(-4);
    WrapLongOfLong(5);
    WrapLongOfLong(6);
    assert xs[1..] == [6, 2] && xs[1..][1..] == [2];
    var ds: seq<Int64> := [3, 3, -1];
    assert ds[1..] == [3, -1] && ds[1..][1..] == [-1];
  }
}
