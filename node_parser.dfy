/**
 * NodeParser: decodes plain Node messages and DenseNodes groups. Coordinates
 * come back in nanodegrees as `offset + granularity * value`; dense ids,
 * coordinates and the metadata columns other than version and visible are
 * restored from their deltas with running sums, and each node's tags are read
 * from the shared `keys_vals` column up to the node's closing 0. Every node
 * goes to the callback as soon as it is decoded.
 */
module NodeParser {
  import opened JavaInt
  import opened Wrappers
  import opened Entity
  import opened Osmformat
  import opened Delta
  import opened BaseParser
  import DenseNodesEncoder
  import OsmEntityEncoder

  /** The block's settings a parser is built with: the coordinate grid and the date unit. */
  datatype Grid = Grid(granularity: Int32, latOffset: Int64, lonOffset: Int64, dateGranularity: Int32)

  /** `offset + granularity * units` in `long` arithmetic: a coordinate in nanodegrees. */
  function Coordinate(offset: Int64, granularity: Int32, units: Int64): Int64
  {
    WrapLong(offset as int + WrapLong(granularity as int * units as int))
  }

  /** Where nothing overflows, a coordinate is exactly `offset + granularity * units`. */
  lemma CoordinateExact(offset: Int64, granularity: Int32, units: Int64)
    requires -0x8000_0000_0000_0000 <= granularity as int * units as int < 0x8000_0000_0000_0000
    requires -0x8000_0000_0000_0000 <= offset as int + granularity as int * units as int < 0x8000_0000_0000_0000
    ensures Coordinate(offset, granularity, units) == offset as int + granularity as int * units as int
  {
    WrapLongOfLong(granularity as int * units as int);
    WrapLongOfLong(offset as int + granularity as int * units as int);
  }

  /**
   * The node `parse(Node)` passes to the callback: id as stored, coordinates
   * on the block's grid, tags and metadata; or the exception the tags or the
   * metadata throw.
   */
  function ParseNodeResult(table: seq<string>, grid: Grid, m: NodeMsg): Result<Node>
  {
    var tags := TagsResult(table, m.keys, m.vals);
    if tags.Err? then Err(tags.error)
    else
      var info := ConvertInfo(table, m.info);
      if info.Err? then Err(info.error)
      else Ok(Node(m.id, Coordinate(grid.latOffset, grid.granularity, m.lat),
                   Coordinate(grid.lonOffset, grid.granularity, m.lon), tags.value, info.value))
  }

  /**
   * The tags loop of the dense `parse` from cursor `p`, the tags read so far
   * being `acc`: a key index of 0 ends the node's tags, any other is followed
   * by a value index; a cursor past the column or an index outside the table
   * throws IndexOutOfBounds. The result holds the tags and the cursor after
   * the closing 0, which lies an odd number of entries after `p`.
   */
  function DecodeTagsFrom(table: seq<string>, kv: seq<int>, p: nat, acc: Tags): (r: Result<(Tags, nat)>)
    ensures r.Err? ==> r.error == IndexOutOfBounds
    ensures r.Ok? ==> var q := r.value.1; p < q <= |kv| && kv[q - 1] == 0 && (q - p) % 2 == 1
    ensures r.Ok? && kv[p] == 0 ==> r.value == (acc, p + 1)
    decreases |kv| - p
  {
    if p >= |kv| then Err(IndexOutOfBounds)
    else if kv[p] == 0 then Ok((acc, p + 1))
    else if p + 1 >= |kv| || !(0 <= kv[p] < |table|) || !(0 <= kv[p + 1] < |table|) then Err(IndexOutOfBounds)
    else DecodeTagsFrom(table, kv, p + 2, acc[table[kv[p]] := table[kv[p + 1]]])
  }

  /** The accumulators of the dense `parse` loop: the tags cursor and every running sum. */
  datatype DenseState = DenseState(cursor: nat, id: Int64, lat: Int64, lon: Int64,
                                   timestamp: Int64, changeset: Int64, uid: Int32, userSid: Int32)

  /** Every accumulator starts at 0. */
  const START: DenseState := DenseState(0, 0, 0, 0, 0, 0, 0, 0)

  /** A node's tags from cursor `p`: none, the cursor unmoved, when `keys_vals` is empty. */
  function TagsAt(table: seq<string>, kv: seq<int>, p: nat): Result<(Tags, nat)>
  {
    if |kv| > 0 then DecodeTagsFrom(table, kv, p, map[]) else Ok((map[], p))
  }

  /**
   * Node `indx`'s metadata from the DenseInfo columns and the accumulators
   * `st`, with the metadata accumulators after it. A column without entry
   * `indx` (visible only when it is not empty) or a username index outside
   * the table throws IndexOutOfBounds.
   */
  function InfoStep(table: seq<string>, grid: Grid, di: DenseInfoMsg, indx: nat, st: DenseState): Result<(Info, DenseState)>
  {
    if indx >= |di.uid| || indx >= |di.userSid| then Err(IndexOutOfBounds)
    else
      var uid := WrapInt(st.uid as int + di.uid[indx]);
      var sid := WrapInt(st.userSid as int + di.userSid[indx]);
      if !(0 <= sid < |table|) || indx >= |di.changeset| || indx >= |di.timestamp| || indx >= |di.version| then
        Err(IndexOutOfBounds)
      else if |di.visible| > 0 && indx >= |di.visible| then Err(IndexOutOfBounds)
      else
        var changeset := WrapLong(st.changeset as int + di.changeset[indx]);
        var timestamp := WrapLong(st.timestamp as int + di.timestamp[indx]);
        var visible := if |di.visible| > 0 then di.visible[indx] else true;
        Ok((Info(uid, table[sid], di.version[indx], WrapLong(timestamp as int * grid.dateGranularity as int), changeset, visible),
            st.(timestamp := timestamp, changeset := changeset, uid := uid, userSid := sid)))
  }

  /**
   * Node `indx` of a DenseNodes message, decoded from the accumulators `st`,
   * and the accumulators after it; the loop body of the dense `parse`. An
   * entry missing from a column or an index outside the table throws
   * IndexOutOfBounds.
   */
  function DenseStep(table: seq<string>, grid: Grid, msg: DenseNodesMsg, indx: nat, st: DenseState): Result<(Node, DenseState)>
    requires indx < |msg.id|
  {
    if indx >= |msg.lat| || indx >= |msg.lon| then Err(IndexOutOfBounds)
    else
      var tags := TagsAt(table, msg.keysVals, st.cursor);
      if tags.Err? then Err(tags.error)
      else
        var moved := st.(cursor := tags.value.1, id := WrapLong(st.id as int + msg.id[indx]),
                         lat := WrapLong(st.lat as int + msg.lat[indx]), lon := WrapLong(st.lon as int + msg.lon[indx]));
        var node := Node(moved.id, Coordinate(grid.latOffset, grid.granularity, moved.lat),
                         Coordinate(grid.lonOffset, grid.granularity, moved.lon), tags.value.0, None);
        if msg.denseinfo.None? then Ok((node, moved))
        else
          var info := InfoStep(table, grid, msg.denseinfo.value, indx, moved);
          if info.Err? then Err(info.error) else Ok((node.(info := Some(info.value.0)), info.value.1))
  }

  /**
   * The dense `parse` loop from node `indx` on, the callback having received
   * `emitted` so far: the events the callback has received when the loop ends, and
   * the exception that ended it, if any. Nodes decoded before an exception
   * have already been delivered.
   */
  function DenseFrom(table: seq<string>, grid: Grid, msg: DenseNodesMsg, indx: nat, st: DenseState,
                     emitted: seq<Event>): (seq<Event>, Option<Error>)
    requires indx <= |msg.id|
    decreases |msg.id| - indx
  {
    if indx == |msg.id| then (emitted, None)
    else
      var step := DenseStep(table, grid, msg, indx, st);
      if step.Err? then (emitted, Some(step.error))
      else DenseFrom(table, grid, msg, indx + 1, step.value.1, emitted + [NodeEvent(step.value.0)])
  }

  /** `parse(DenseNodes)` on a callback that has received `before`. */
  function ParseDenseResult(table: seq<string>, grid: Grid, msg: DenseNodesMsg, before: seq<Event>): (seq<Event>, Option<Error>)
  {
    DenseFrom(table, grid, msg, 0, START, before)
  }

  /** The exception a `void` method ended in, if any. */
  function Thrown(r: Outcome): Option<Error>
  {
    if r.Fail? then Some(r.error) else None
  }

  // ---------------------------------------------------------------------
  // The closed form of the dense parse: running sums over the columns.
  // ---------------------------------------------------------------------

  /** The accumulators after `k` nodes: each running sum holds the sum of its column's first `k` entries. */
  ghost predicate Summed(msg: DenseNodesMsg, k: nat, st: DenseState)
  {
    && k <= |msg.id| && k <= |msg.lat| && k <= |msg.lon|
    && st.id == WrapLong(Sum(msg.id[..k]))
    && st.lat == WrapLong(Sum(msg.lat[..k]))
    && st.lon == WrapLong(Sum(msg.lon[..k]))
    && (msg.denseinfo.Some? ==> InfoSummed(msg.denseinfo.value, k, st))
  }

  ghost predicate InfoSummed(di: DenseInfoMsg, k: nat, st: DenseState)
  {
    && k <= |di.uid| && k <= |di.userSid| && k <= |di.changeset| && k <= |di.timestamp|
    && st.uid == WrapInt(Sum(di.uid[..k]))
    && st.userSid == WrapInt(Sum(di.userSid[..k]))
    && st.changeset == WrapLong(Sum(di.changeset[..k]))
    && st.timestamp == WrapLong(Sum(di.timestamp[..k]))
  }

  /**
   * Node `k` as the format defines it: id and grid coordinates are the sums
   * of the first `k + 1` deltas (in `long` arithmetic), placed on the grid
   * with the offset added once; an empty `keys_vals` gives no tags; with
   * DenseInfo, uid, username index, changeset and timestamp are running sums
   * too, the timestamp counted in units of the date granularity, version is
   * read as is, and visible is true unless a visible column says otherwise.
   */
  ghost predicate NodeSummed(table: seq<string>, grid: Grid, msg: DenseNodesMsg, k: nat, n: Node)
  {
    && k < |msg.id| && k < |msg.lat| && k < |msg.lon|
    && n.id == WrapLong(Sum(msg.id[..k + 1]))
    && n.lat == Coordinate(grid.latOffset, grid.granularity, WrapLong(Sum(msg.lat[..k + 1])))
    && n.lon == Coordinate(grid.lonOffset, grid.granularity, WrapLong(Sum(msg.lon[..k + 1])))
    && (|msg.keysVals| == 0 ==> n.tags == map[])
    && (msg.denseinfo.None? ==> n.info.None?)
    && (msg.denseinfo.Some? ==> n.info.Some? && InfoOfNode(table, grid, msg.denseinfo.value, k, n.info.value))
  }

  ghost predicate InfoOfNode(table: seq<string>, grid: Grid, di: DenseInfoMsg, k: nat, i: Info)
  {
    && k < |di.uid| && k < |di.userSid| && k < |di.changeset| && k < |di.timestamp| && k < |di.version|
    && i.uid == WrapInt(Sum(di.uid[..k + 1]))
    && 0 <= WrapInt(Sum(di.userSid[..k + 1])) < |table|
    && i.username == table[WrapInt(Sum(di.userSid[..k + 1]))]
    && i.changeset == WrapLong(Sum(di.changeset[..k + 1]))
    && i.timestamp == WrapLong(WrapLong(Sum(di.timestamp[..k + 1])) * grid.dateGranularity as int)
    && i.version == di.version[k]
    && (if |di.visible| > 0 then k < |di.visible| && i.visible == di.visible[k] else i.visible)
  }

  /** A running sum after one more entry. */
  lemma LongSumStep(xs: seq<Int64>, k: nat, acc: Int64)
    requires k < |xs| && acc == WrapLong(Sum(xs[..k]))
    ensures WrapLong(acc as int + xs[k]) == WrapLong(Sum(xs[..k + 1]))
  {
    SumPrefixStep(xs, k);
    WrapLongAddWrapped(Sum(xs[..k]), xs[k]);
  }

  lemma IntSumStep(xs: seq<Int32>, k: nat, acc: Int32)
    requires k < |xs| && acc == WrapInt(Sum(xs[..k]))
    ensures WrapInt(acc as int + xs[k]) == WrapInt(Sum(xs[..k + 1]))
  {
    SumPrefixStep(xs, k);
    WrapIntAddWrapped(Sum(xs[..k]), xs[k]);
  }

  /** The metadata of one node agrees with the closed form and leaves its accumulators summed over one more entry. */
  lemma InfoStepSummed(table: seq<string>, grid: Grid, di: DenseInfoMsg, k: nat, st: DenseState)
    requires InfoSummed(di, k, st) && InfoStep(table, grid, di, k, st).Ok?
    ensures InfoSummed(di, k + 1, InfoStep(table, grid, di, k, st).value.1)
    ensures InfoOfNode(table, grid, di, k, InfoStep(table, grid, di, k, st).value.0)
  {
    IntSumStep(di.uid, k, st.uid);
    IntSumStep(di.userSid, k, st.userSid);
    LongSumStep(di.changeset, k, st.changeset);
    LongSumStep(di.timestamp, k, st.timestamp);
  }

  /** One decoded node agrees with the closed form and leaves the accumulators summed over one more entry. */
  lemma DenseStepSummed(table: seq<string>, grid: Grid, msg: DenseNodesMsg, k: nat, st: DenseState)
    requires k < |msg.id| && Summed(msg, k, st)
    requires DenseStep(table, grid, msg, k, st).Ok?
    ensures Summed(msg, k + 1, DenseStep(table, grid, msg, k, st).value.1)
    ensures NodeSummed(table, grid, msg, k, DenseStep(table, grid, msg, k, st).value.0)
  {
    var tags := TagsAt(table, msg.keysVals, st.cursor).value;
    var moved := st.(cursor := tags.1, id := WrapLong(st.id as int + msg.id[k]),
                     lat := WrapLong(st.lat as int + msg.lat[k]), lon := WrapLong(st.lon as int + msg.lon[k]));
    var node := Node(moved.id, Coordinate(grid.latOffset, grid.granularity, moved.lat),
                     Coordinate(grid.lonOffset, grid.granularity, moved.lon), tags.0, None);
    LongSumStep(msg.id, k, st.id);
    LongSumStep(msg.lat, k, st.lat);
    LongSumStep(msg.lon, k, st.lon);
    if msg.denseinfo.None? {
      assert DenseStep(table, grid, msg, k, st) == Ok((node, moved));
    } else {
      var info := InfoStep(table, grid, msg.denseinfo.value, k, moved).value;
      assert DenseStep(table, grid, msg, k, st) == Ok((node.(info := Some(info.0)), info.1));
      InfoStepSummed(table, grid, msg.denseinfo.value, k, moved);
    }
  }

  /** Whatever happens, the events received before stay, and only nodes are added. */
  lemma {:induction false} DenseFromKeeps(table: seq<string>, grid: Grid, msg: DenseNodesMsg, indx: nat, st: DenseState,
                                          emitted: seq<Event>)
    requires indx <= |msg.id|
    ensures var r := DenseFrom(table, grid, msg, indx, st, emitted).0;
      && emitted <= r && |r| <= |emitted| + |msg.id| - indx
      && forall j :: |emitted| <= j < |r| ==> r[j].NodeEvent?
    decreases |msg.id| - indx
  {
    if indx < |msg.id| {
      var step := DenseStep(table, grid, msg, indx, st);
      if step.Ok? {
        var e := emitted + [NodeEvent(step.value.0)];
        DenseFromKeeps(table, grid, msg, indx + 1, step.value.1, e);
      }
    }
  }

  /** When the loop runs to the end, every node from `indx` on is delivered, in order, as the closed form says. */
  lemma {:induction false} DenseFromAt(table: seq<string>, grid: Grid, msg: DenseNodesMsg, indx: nat, st: DenseState,
                                       emitted: seq<Event>, k: nat)
    requires indx <= k < |msg.id| && Summed(msg, indx, st)
    requires DenseFrom(table, grid, msg, indx, st, emitted).1.None?
    ensures var r := DenseFrom(table, grid, msg, indx, st, emitted).0;
      && |r| == |emitted| + |msg.id| - indx
      && r[|emitted| + k - indx].NodeEvent?
      && NodeSummed(table, grid, msg, k, r[|emitted| + k - indx].node)
    decreases |msg.id| - indx
  {
    var step := DenseStep(table, grid, msg, indx, st);
    DenseStepSummed(table, grid, msg, indx, st);
    var e := emitted + [NodeEvent(step.value.0)];
    if k == indx {
      DenseFromKeeps(table, grid, msg, indx + 1, step.value.1, e);
      if indx + 1 < |msg.id| {
        DenseFromAt(table, grid, msg, indx + 1, step.value.1, e, indx + 1);
      }
      assert e[|emitted|] == NodeEvent(step.value.0);
    } else {
      DenseFromAt(table, grid, msg, indx + 1, step.value.1, e, k);
    }
  }

  /** Before the first node every running sum is 0. */
  lemma SummedStart(msg: DenseNodesMsg)
    ensures Summed(msg, 0, START)
  {
    WrapLongOfLong(0);
    WrapIntUnique(0, 0);
    assert msg.id[..0] == [] && msg.lat[..0] == [] && msg.lon[..0] == [];
    if msg.denseinfo.Some? {
      var di := msg.denseinfo.value;
      assert di.uid[..0] == [] && di.userSid[..0] == [] && di.changeset[..0] == [] && di.timestamp[..0] == [];
    }
  }

  /**
   * A dense group that parses without an exception delivers exactly one node
   * per id entry, in order, node `k` being the closed form's node `k`.
   */
  lemma DenseNodesSummed(table: seq<string>, grid: Grid, msg: DenseNodesMsg, k: nat)
    requires ParseDenseResult(table, grid, msg, []).1.None? && k < |msg.id|
    ensures var r := ParseDenseResult(table, grid, msg, []).0;
      && |r| == |msg.id| && r[k].NodeEvent? && NodeSummed(table, grid, msg, k, r[k].node)
  {
    SummedStart(msg);
    DenseFromAt(table, grid, msg, 0, START, [], k);
  }

  /** With no id entries the callback receives nothing and nothing is thrown. */
  lemma DenseNodesEmpty(table: seq<string>, grid: Grid, msg: DenseNodesMsg, before: seq<Event>)
    requires |msg.id| == 0
    ensures ParseDenseResult(table, grid, msg, before) == (before, None)
  {
  }

  // ---------------------------------------------------------------------
  // Reading back what DenseNodesEncoder writes.
  // ---------------------------------------------------------------------

  lemma {:induction false} InterleaveAt(keys: seq<int>, vals: seq<int>, j: nat)
    requires |keys| == |vals| && j < |keys|
    ensures DenseNodesEncoder.Interleave(keys, vals)[2 * j] == keys[j]
    ensures DenseNodesEncoder.Interleave(keys, vals)[2 * j + 1] == vals[j]
    decreases j
  {
    if j > 0 {
      InterleaveAt(keys[1..], vals[1..], j - 1);
    }
  }

  /**
   * A node's tags written as key/value pairs closed by a 0, from cursor `p`,
   * read back as the tags the pairs stand for, the cursor ending after the 0.
   */
  lemma {:induction false} DecodeInterleaved(table: seq<string>, kv: seq<int>, p: nat, keys: seq<int>, vals: seq<int>, j: nat)
    requires |keys| == |vals| && j <= |keys|
    requires forall i :: 0 <= i < |keys| ==> 1 <= keys[i] < |table| && 1 <= vals[i] < |table|
    requires p + |DenseNodesEncoder.Interleave(keys, vals)| < |kv|
    requires kv[p..p + |DenseNodesEncoder.Interleave(keys, vals)| + 1] == DenseNodesEncoder.Interleave(keys, vals) + [0]
    ensures TagIndicesIn(keys, vals, |keys|, table)
    ensures DecodeTagsFrom(table, kv, p + 2 * j, TagsOf(keys, vals, j, table))
         == Ok((TagsOf(keys, vals, |keys|, table), p + 2 * |keys| + 1))
    decreases |keys| - j
  {
    var window := kv[p..p + 2 * |keys| + 1];
    if j == |keys| {
      assert kv[p + 2 * j] == window[2 * j] == 0;
    } else {
      InterleaveAt(keys, vals, j);
      assert kv[p + 2 * j] == window[2 * j] == keys[j];
      assert kv[p + 2 * j + 1] == window[2 * j + 1] == vals[j];
      DecodeInterleaved(table, kv, p, keys, vals, j + 1);
      assert p + 2 * j + 2 == p + 2 * (j + 1);
    }
  }

  /**
   * Where node `i`'s tags begin in the encoder's `keys_vals`: every earlier
   * node takes two entries per tag and one closing 0.
   */
  function Cursor(tk: seq<seq<int>>, i: nat): nat
    requires i <= |tk|
    decreases i
  {
    if i == 0 then 0 else Cursor(tk, i - 1) + 2 * |tk[i - 1]| + 1
  }

  lemma {:induction false} CursorIsLength(tk: seq<seq<int>>, tv: seq<seq<int>>, i: nat)
    requires i <= |tk| && i <= |tv| && forall j :: 0 <= j < i ==> |tk[j]| == |tv[j]|
    ensures |DenseNodesEncoder.KeysValsUpTo(tk, tv, i)| == Cursor(tk, i)
    decreases i
  {
    if i > 0 {
      CursorIsLength(tk, tv, i - 1);
    }
  }

  /** Cursors only move forward. */
  lemma {:induction false} CursorGrows(tk: seq<seq<int>>, i: nat, n: nat)
    requires i <= n <= |tk|
    ensures Cursor(tk, i) <= Cursor(tk, n)
    decreases n
  {
    if i < n {
      CursorGrows(tk, i, n - 1);
    }
  }

  /** Node `i`'s pairs and closing 0 sit between its cursor and the next node's, in the whole column. */
  lemma {:induction false} KeysValsWindow(tk: seq<seq<int>>, tv: seq<seq<int>>, i: nat, n: nat)
    requires i < n <= |tk| && n <= |tv| && forall j :: 0 <= j < n ==> |tk[j]| == |tv[j]|
    ensures Cursor(tk, i + 1) <= |DenseNodesEncoder.KeysValsUpTo(tk, tv, n)|
    ensures DenseNodesEncoder.KeysValsUpTo(tk, tv, n)[Cursor(tk, i)..Cursor(tk, i + 1)]
         == DenseNodesEncoder.Interleave(tk[i], tv[i]) + [0]
    decreases n
  {
    if n == i + 1 {
      CursorIsLength(tk, tv, i);
      SliceAfter(DenseNodesEncoder.KeysValsUpTo(tk, tv, i), DenseNodesEncoder.Interleave(tk[i], tv[i]));
    } else {
      KeysValsWindow(tk, tv, i, n - 1);
      CursorIsLength(tk, tv, n - 1);
      CursorGrows(tk, i + 1, n - 1);
      SliceOfAppend(DenseNodesEncoder.KeysValsUpTo(tk, tv, n - 1), DenseNodesEncoder.Interleave(tk[n - 1], tv[n - 1]),
                    Cursor(tk, i), Cursor(tk, i + 1));
    }
  }

  /** What `a + w + [0]` holds after `a`. */
  lemma SliceAfter(a: seq<int>, w: seq<int>)
    ensures (a + w + [0])[|a|..|a| + |w| + 1] == w + [0]
  {
  }

  /** Appending leaves a slice of the front alone. */
  lemma SliceOfAppend(a: seq<int>, w: seq<int>, p: nat, q: nat)
    requires p <= q <= |a|
    ensures (a + w + [0])[p..q] == a[p..q]
  {
  }

  /** Element `i` of a column is node `i`'s value. */
  lemma {:induction false} ColumnsAt(ns: seq<Node>, n: nat, i: nat)
    requires i < n <= |ns|
    ensures DenseNodesEncoder.IdsUpTo(ns, n)[i] == ns[i].id
    ensures DenseNodesEncoder.LatsUpTo(ns, n)[i] == DenseNodesEncoder.GridUnits(ns[i].lat)
    ensures DenseNodesEncoder.LonsUpTo(ns, n)[i] == DenseNodesEncoder.GridUnits(ns[i].lon)
    decreases n
  {
    if i < n - 1 {
      ColumnsAt(ns, n - 1, i);
    }
  }

  /** A node as it reads back from the encoder's block: coordinates on the grid of 100 nanodegrees, no metadata. */
  function Snapped(nd: Node): Node
  {
    Node(nd.id, Coordinate(0, 100, DenseNodesEncoder.GridUnits(nd.lat)),
         Coordinate(0, 100, DenseNodesEncoder.GridUnits(nd.lon)), nd.tags, None)
  }

  /** The events of the first `n` nodes of `ns` read back. */
  function Restored(ns: seq<Node>, n: nat): (es: seq<Event>)
    requires n <= |ns|
    ensures |es| == n
    decreases n
  {
    if n == 0 then [] else Restored(ns, n - 1) + [NodeEvent(Snapped(ns[n - 1]))]
  }

  /** The value an accumulator holds after `i` entries of `xs`: the last of them, or 0. */
  function Upto(xs: seq<Int64>, i: nat): Int64
    requires i <= |xs|
  {
    if i == 0 then 0 else xs[i - 1]
  }

  /** One delta-coded column entry added to the accumulator gives the entry back. */
  lemma ColumnEntry(xs: seq<Int64>, i: nat)
    requires i < |xs|
    ensures WrapLong(Upto(xs, i) as int + DeltaEncode(xs)[i]) == xs[i]
  {
    DeltaEncodeAt(xs, i);
    AddWrappedDifference(Upto(xs, i), xs[i], DeltaEncode(xs)[i], WrapLong(Upto(xs, i) as int + DeltaEncode(xs)[i]));
  }

  /** The parser's accumulators after the first `i` nodes of the encoder's block, the tags cursor being `p`. */
  function Resume(ns: seq<Node>, tk: seq<seq<int>>, i: nat): DenseState
    requires i <= |ns| && i <= |tk|
  {
    DenseState(Cursor(tk, i), Upto(DenseNodesEncoder.IdColumn(ns), i), Upto(DenseNodesEncoder.LatColumn(ns), i),
               Upto(DenseNodesEncoder.LonColumn(ns), i), 0, 0, 0, 0)
  }

  /** One node's pairs and closing 0, found at cursor `p`, read back as the tags they encode. */
  lemma WindowReadBack(strings: seq<string>, kv: seq<int>, p: nat, q: nat, keys: seq<int>, vals: seq<int>, tags: Tags)
    requires OsmEntityEncoder.EncodesTags(keys, vals, tags, strings)
    requires p <= q <= |kv| && kv[p..q] == DenseNodesEncoder.Interleave(keys, vals) + [0]
    ensures TagsAt(strings, kv, p) == Ok((tags, q))
  {
    DecodeInterleaved(strings, kv, p, keys, vals, 0);
    assert p + 2 * 0 == p && TagsOf(keys, vals, 0, strings) == map[];
  }

  /** Node `i`'s tags read back from the encoder's `keys_vals`, the cursor moving to the next node's. */
  lemma TagsReadBack(strings: seq<string>, tk: seq<seq<int>>, tv: seq<seq<int>>, n: nat, i: nat, tags: Tags)
    requires i < n <= |tk| && n <= |tv| && forall j :: 0 <= j < n ==> |tk[j]| == |tv[j]|
    requires OsmEntityEncoder.EncodesTags(tk[i], tv[i], tags, strings)
    ensures TagsAt(strings, DenseNodesEncoder.KeysValsUpTo(tk, tv, n), Cursor(tk, i)) == Ok((tags, Cursor(tk, i + 1)))
  {
    KeysValsWindow(tk, tv, i, n);
    WindowReadBack(strings, DenseNodesEncoder.KeysValsUpTo(tk, tv, n), Cursor(tk, i), Cursor(tk, i + 1),
                   tk[i], tv[i], tags);
  }

  /** Node `i`'s id and grid coordinates read back from the encoder's columns. */
  lemma ColumnsReadBack(msg: DenseNodesMsg, ns: seq<Node>, tk: seq<seq<int>>, tv: seq<seq<int>>,
                        strings: seq<string>, id: Int64, lat: Int64, lon: Int64, i: nat)
    requires DenseNodesEncoder.Collects(msg, ns, tk, tv, strings, id, lat, lon)
    requires i < |ns|
    ensures |msg.id| == |msg.lat| == |msg.lon| == |ns| && msg.denseinfo.None?
    requires i < |tk|
    ensures var st := Resume(ns, tk, i);
      && WrapLong(st.id as int + msg.id[i]) == ns[i].id == Upto(DenseNodesEncoder.IdColumn(ns), i + 1)
      && WrapLong(st.lat as int + msg.lat[i]) == DenseNodesEncoder.GridUnits(ns[i].lat) == Upto(DenseNodesEncoder.LatColumn(ns), i + 1)
      && WrapLong(st.lon as int + msg.lon[i]) == DenseNodesEncoder.GridUnits(ns[i].lon) == Upto(DenseNodesEncoder.LonColumn(ns), i + 1)
  {
    ColumnEntry(DenseNodesEncoder.IdColumn(ns), i);
    ColumnEntry(DenseNodesEncoder.LatColumn(ns), i);
    ColumnEntry(DenseNodesEncoder.LonColumn(ns), i);
    ColumnsAt(ns, |ns|, i);
  }

  /** The dense loop body on a message without DenseInfo, the node's tags being known. */
  lemma DenseStepPlain(table: seq<string>, grid: Grid, msg: DenseNodesMsg, indx: nat, st: DenseState, tags: Tags, q: nat)
    requires indx < |msg.id| && indx < |msg.lat| && indx < |msg.lon| && msg.denseinfo.None?
    requires TagsAt(table, msg.keysVals, st.cursor) == Ok((tags, q))
    ensures var moved := st.(cursor := q, id := WrapLong(st.id as int + msg.id[indx]),
                             lat := WrapLong(st.lat as int + msg.lat[indx]), lon := WrapLong(st.lon as int + msg.lon[indx]));
      DenseStep(table, grid, msg, indx, st)
        == Ok((Node(moved.id, Coordinate(grid.latOffset, grid.granularity, moved.lat),
                    Coordinate(grid.lonOffset, grid.granularity, moved.lon), tags, None), moved))
  {
  }

  /** One node of the encoder's block reads back, leaving the accumulators on the next. */
  lemma DenseRoundTripStep(msg: DenseNodesMsg, ns: seq<Node>, tk: seq<seq<int>>, tv: seq<seq<int>>,
                           strings: seq<string>, grid: Grid, id: Int64, lat: Int64, lon: Int64, i: nat)
    requires DenseNodesEncoder.Collects(msg, ns, tk, tv, strings, id, lat, lon)
    requires grid.granularity == 100 && grid.latOffset == 0 && grid.lonOffset == 0
    requires i < |ns|
    ensures |msg.id| == |ns|
    ensures DenseStep(strings, grid, msg, i, Resume(ns, tk, i)) == Ok((Snapped(ns[i]), Resume(ns, tk, i + 1)))
  {
    var st := Resume(ns, tk, i);
    ColumnsReadBack(msg, ns, tk, tv, strings, id, lat, lon, i);
    assert OsmEntityEncoder.EncodesTags(tk[i], tv[i], ns[i].tags, strings);
    TagsReadBack(strings, tk, tv, |ns|, i, ns[i].tags);
    DenseStepPlain(strings, grid, msg, i, st, ns[i].tags, Cursor(tk, i + 1));
    var moved := st.(cursor := Cursor(tk, i + 1), id := WrapLong(st.id as int + msg.id[i]),
                     lat := WrapLong(st.lat as int + msg.lat[i]), lon := WrapLong(st.lon as int + msg.lon[i]));
    assert moved == Resume(ns, tk, i + 1);
    assert Node(moved.id, Coordinate(0, 100, moved.lat), Coordinate(0, 100, moved.lon), ns[i].tags, None) == Snapped(ns[i]);
  }

  /** From node `i` on, the encoder's block reads back node by node to the end without an exception. */
  lemma {:induction false} DenseRoundTripFrom(msg: DenseNodesMsg, ns: seq<Node>, tk: seq<seq<int>>, tv: seq<seq<int>>,
                                              strings: seq<string>, grid: Grid, id: Int64, lat: Int64, lon: Int64, i: nat)
    requires DenseNodesEncoder.Collects(msg, ns, tk, tv, strings, id, lat, lon)
    requires grid.granularity == 100 && grid.latOffset == 0 && grid.lonOffset == 0
    requires i <= |ns|
    ensures |msg.id| == |ns|
    ensures DenseFrom(strings, grid, msg, i, Resume(ns, tk, i), Restored(ns, i))
         == (Restored(ns, |ns|), None)
    decreases |ns| - i
  {
    if i < |ns| {
      DenseRoundTripStep(msg, ns, tk, tv, strings, grid, id, lat, lon, i);
      DenseRoundTripFrom(msg, ns, tk, tv, strings, grid, id, lat, lon, i + 1);
    }
  }

  /**
   * Parsing a DenseNodes group DenseNodesEncoder wrote, on the grid its block
   * declares (granularity 100, offsets 0), delivers every node once, in
   * order, with its id and tags and its coordinates on the grid; the encoder
   * writes no metadata, so none comes back.
   */
  lemma DenseRoundTrip(msg: DenseNodesMsg, ns: seq<Node>, tk: seq<seq<int>>, tv: seq<seq<int>>,
                       strings: seq<string>, grid: Grid, id: Int64, lat: Int64, lon: Int64)
    requires DenseNodesEncoder.Collects(msg, ns, tk, tv, strings, id, lat, lon)
    requires grid.granularity == 100 && grid.latOffset == 0 && grid.lonOffset == 0
    ensures ParseDenseResult(strings, grid, msg, []) == (Restored(ns, |ns|), None)
  {
    DenseRoundTripFrom(msg, ns, tk, tv, strings, grid, id, lat, lon, 0);
  }

  /** Grid coordinates within range come back within 50 nanodegrees of the node's. */
  lemma SnappedNearest(nd: Node)
    requires -0x1000_0000_0000_0000 <= nd.lat < 0x1000_0000_0000_0000
    requires -0x1000_0000_0000_0000 <= nd.lon < 0x1000_0000_0000_0000
    ensures Snapped(nd).lat - 50 <= nd.lat < Snapped(nd).lat + 50
    ensures Snapped(nd).lon - 50 <= nd.lon < Snapped(nd).lon + 50
  {
    var u, v := DenseNodesEncoder.GridUnits(nd.lat), DenseNodesEncoder.GridUnits(nd.lon);
    DenseNodesEncoder.GridUnitsNearest(nd.lat);
    DenseNodesEncoder.GridUnitsNearest(nd.lon);
    CoordinateExact(0, 100, u);
    CoordinateExact(0, 100, v);
  }

  /**
   * A one-node dense group and the plain Node message with the same fields
   * decode to the same node: the dense layout changes the encoding, not the
   * meaning.
   */
  lemma DenseAgreesWithPlain(table: seq<string>, grid: Grid, m: NodeMsg)
    requires |m.keys| == |m.vals| && m.info.None?
    requires forall i :: 0 <= i < |m.keys| ==> 1 <= m.keys[i] < |table| && 1 <= m.vals[i] < |table|
    ensures var dense := DenseNodesMsg([m.id], None, [m.lat], [m.lon], DenseNodesEncoder.Interleave(m.keys, m.vals) + [0]);
      && ParseNodeResult(table, grid, m).Ok?
      && ParseDenseResult(table, grid, dense, []) == ([NodeEvent(ParseNodeResult(table, grid, m).value)], None)
  {
    var kv := DenseNodesEncoder.Interleave(m.keys, m.vals) + [0];
    assert kv[0..0 + 2 * |m.keys| + 1] == kv;
    DecodeInterleaved(table, kv, 0, m.keys, m.vals, 0);
    assert TagsOf(m.keys, m.vals, 0, table) == map[];
    WrapLongOfLong(m.id);
    WrapLongOfLong(m.lat);
    WrapLongOfLong(m.lon);
    var dense := DenseNodesMsg([m.id], None, [m.lat], [m.lon], kv);
    var node := ParseNodeResult(table, grid, m).value;
    assert TagsAt(table, kv, 0) == Ok((node.tags, 2 * |m.keys| + 1));
    var step := DenseStep(table, grid, dense, 0, START);
    assert step.Ok? && step.value.0 == node;
    assert ParseDenseResult(table, grid, dense, []) == DenseFrom(table, grid, dense, 1, step.value.1, [] + [NodeEvent(node)]);
    assert [] + [NodeEvent(node)] == [NodeEvent(node)];
  }

  // ---------------------------------------------------------------------
  // The dense coordinates as written.
  // ---------------------------------------------------------------------

  /**
   * The coordinate column as the dense `parse` accumulates it: the double
   * accumulator receives `offset + granularity * delta` for every node, so it
   * holds the offset once per node decoded so far (rounding left out).
   */
  function AsWrittenCoordinates(offset: Int64, granularity: Int32, deltas: seq<Int64>, acc: int): (cs: seq<int>)
    ensures |cs| == |deltas|
    decreases |deltas|
  {
    if deltas == [] then []
    else
      var c := acc + Coordinate(offset, granularity, deltas[0]);
      [c] + AsWrittenCoordinates(offset, granularity, deltas[1..], c)
  }

  /**
   * With latitude offset 1 and granularity 100, grid deltas [1, 1] are grid
   * points 1 and 2: 101 and 201 nanodegrees. As written the second node comes
   * out at 202; the model's dense parse gives 201.
   */
  lemma AsWrittenOffsetRepeats(table: seq<string>)
    ensures AsWrittenCoordinates(1, 100, [1, 1], 0) == [101, 202]
    ensures var msg := DenseNodesMsg([5, 1], None, [1, 1], [0, 0], []);
      var r := ParseDenseResult(table, Grid(100, 1, 0, 1000), msg, []);
      r.1.None? && |r.0| == 2 && r.0[0].node.lat == 101 && r.0[1].node.lat == 201
  {
    WrapLongOfLong(100);
    WrapLongOfLong(101);
    WrapLongOfLong(200);
    WrapLongOfLong(201);
    var ds: seq<Int64> := [1, 1];
    assert ds[1..] == [1] && ds[1..][1..] == [];
    var msg := DenseNodesMsg([5, 1], None, [1, 1], [0, 0], []);
    var grid := Grid(100, 1, 0, 1000);
    assert msg.lat[..1] == [1] && msg.lat[..2] == [1, 1];
    assert Sum(msg.lat[..1]) == 1 && Sum(msg.lat[..2]) == 2 by {
      assert [1, 1][1..] == [1];
    }
    WrapLongOfLong(1);
    WrapLongOfLong(2);
    var step0 := DenseStep(table, grid, msg, 0, START);
    WrapLongOfLong(5);
    WrapLongOfLong(6);
    WrapLongOfLong(0);
    assert step0.Ok?;
    var step1 := DenseStep(table, grid, msg, 1, step0.value.1);
    assert step1.Ok?;
    DenseNodesSummed(table, grid, msg, 0);
    DenseNodesSummed(table, grid, msg, 1);
  }

  // ---------------------------------------------------------------------
  // The parser.
  // ---------------------------------------------------------------------

  class NodeParser {
    /** The callbacks. */
    const sink: Sink
    /** The block's string table. */
    const stringTable: seq<string>
    const granularity: Int32
    const latOffset: Int64
    const lonOffset: Int64
    const dateGranularity: Int32

    /** The parser's settings as one value. */
    function Settings(): Grid
    {
      Grid(granularity, latOffset, lonOffset, dateGranularity)
    }

    constructor (sink: Sink, stringTable: seq<string>, granularity: Int32, latOffset: Int64, lonOffset: Int64,
                 dateGranularity: Int32)
      ensures this.sink == sink && this.stringTable == stringTable
      ensures Settings() == Grid(granularity, latOffset, lonOffset, dateGranularity)
    {
      this.sink := sink;
      this.stringTable := stringTable;
      this.granularity := granularity;
      this.latOffset := latOffset;
      this.lonOffset := lonOffset;
      this.dateGranularity := dateGranularity;
    }

    /**
     * `parse(Node)`: the callback receives the decoded node once, or the
     * exception propagates and it receives nothing.
     */
    method Parse(m: NodeMsg) returns (r: Outcome)
      modifies sink
      ensures var n := ParseNodeResult(stringTable, Settings(), m);
        && (r.Pass? <==> n.Ok?)
        && (n.Err? ==> r == Fail(n.error))
        && sink.events == old(sink.events) + (if n.Ok? then [NodeEvent(n.value)] else [])
    {
      var latitude := Coordinate(latOffset, granularity, m.lat);
      var longitude := Coordinate(lonOffset, granularity, m.lon);
      var tags := ParseTags(stringTable, m.keys, m.vals);
      if tags.Err? {
        return Fail(tags.error);
      }
      var info := ConvertInfo(stringTable, m.info);
      if info.Err? {
        return Fail(info.error);
      }
      sink.Accept(NodeEvent(Node(m.id, latitude, longitude, tags.value, info.value)));
      r := Pass;
    }

    /**
     * `parse(DenseNodes)`: one callback per decoded node, in order; an
     * exception ends the loop, the nodes before it having been delivered.
     */
    method ParseDense(nodes: DenseNodesMsg) returns (r: Outcome)
      modifies sink
      ensures (sink.events, Thrown(r)) == ParseDenseResult(stringTable, Settings(), nodes, old(sink.events))
    {
      var st := START;
      var indx := 0;
      while indx < |nodes.id|
        invariant indx <= |nodes.id|
        invariant DenseFrom(stringTable, Settings(), nodes, indx, st, sink.events)
               == ParseDenseResult(stringTable, Settings(), nodes, old(sink.events))
        decreases |nodes.id| - indx
      {
        var step := DecodeDense(stringTable, Settings(), nodes, indx, st);
        if step.Err? {
          return Fail(step.error);
        }
        sink.Accept(NodeEvent(step.value.0));
        st := step.value.1;
        indx := indx + 1;
      }
      r := Pass;
    }
  }

  /** The tags loop of the dense `parse`, from cursor `p`. */
  method DecodeTags(table: seq<string>, kv: seq<int>, p: nat) returns (r: Result<(Tags, nat)>)
    ensures r == DecodeTagsFrom(table, kv, p, map[])
  {
    var tags: Tags := map[];
    var cursor := p;
    while true
      invariant DecodeTagsFrom(table, kv, cursor, tags) == DecodeTagsFrom(table, kv, p, map[])
      decreases |kv| - cursor
    {
      if cursor >= |kv| {
        return Err(IndexOutOfBounds);
      }
      var keyIndex := kv[cursor];
      cursor := cursor + 1;
      if keyIndex == 0 {
        return Ok((tags, cursor));
      }
      if cursor >= |kv| {
        return Err(IndexOutOfBounds);
      }
      var valueIndex := kv[cursor];
      cursor := cursor + 1;
      if !(0 <= keyIndex < |table|) || !(0 <= valueIndex < |table|) {
        return Err(IndexOutOfBounds);
      }
      tags := tags[table[keyIndex] := table[valueIndex]];
    }
  }

  /** The metadata part of the dense `parse` loop body. */
  method DecodeInfo(table: seq<string>, grid: Grid, info: DenseInfoMsg, indx: nat, st: DenseState)
    returns (r: Result<(Info, DenseState)>)
    ensures r == InfoStep(table, grid, info, indx, st)
  {
    if indx >= |info.uid| || indx >= |info.userSid| {
      return Err(IndexOutOfBounds);
    }
    var uid := WrapInt(st.uid as int + info.uid[indx]);
    var usernameStringId := WrapInt(st.userSid as int + info.userSid[indx]);
    if !(0 <= usernameStringId < |table|) || indx >= |info.changeset| || indx >= |info.timestamp| || indx >= |info.version| {
      return Err(IndexOutOfBounds);
    }
    var username := table[usernameStringId];
    var changeset := WrapLong(st.changeset as int + info.changeset[indx]);
    var timestamp := WrapLong(st.timestamp as int + info.timestamp[indx]);
    var version := info.version[indx];
    var visible: bool;
    if |info.visible| > 0 {
      if indx >= |info.visible| {
        return Err(IndexOutOfBounds);
      }
      visible := info.visible[indx];
    } else {
      visible := true;
    }
    r := Ok((Info(uid, username, version, WrapLong(timestamp as int * grid.dateGranularity as int), changeset, visible),
             st.(timestamp := timestamp, changeset := changeset, uid := uid, userSid := usernameStringId)));
  }

  /** One pass of the dense `parse` loop body: node `indx` and the accumulators after it. */
  method DecodeDense(table: seq<string>, grid: Grid, nodes: DenseNodesMsg, indx: nat, st: DenseState)
    returns (r: Result<(Node, DenseState)>)
    requires indx < |nodes.id|
    ensures r == DenseStep(table, grid, nodes, indx, st)
  {
    var id := WrapLong(st.id as int + nodes.id[indx]);
    if indx >= |nodes.lat| || indx >= |nodes.lon| {
      return Err(IndexOutOfBounds);
    }
    var latitude := WrapLong(st.lat as int + nodes.lat[indx]);
    var longitude := WrapLong(st.lon as int + nodes.lon[indx]);
    var tags: Tags := map[];
    var cursor := st.cursor;
    if |nodes.keysVals| > 0 {
      var decoded := DecodeTags(table, nodes.keysVals, cursor);
      if decoded.Err? {
        return Err(decoded.error);
      }
      tags, cursor := decoded.value.0, decoded.value.1;
    }
    var moved := st.(cursor := cursor, id := id, lat := latitude, lon := longitude);
    var node := Node(id, Coordinate(grid.latOffset, grid.granularity, latitude),
                     Coordinate(grid.lonOffset, grid.granularity, longitude), tags, None);
    if nodes.denseinfo.None? {
      return Ok((node, moved));
    }
    var info := DecodeInfo(table, grid, nodes.denseinfo.value, indx, moved);
    if info.Err? {
      return Err(info.error);
    }
    r := Ok((node.(info := Some(info.value.0)), info.value.1));
  }
}
