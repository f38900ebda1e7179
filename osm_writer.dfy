/**
 * OSMWriter: the writing thread. It takes entities from the queue, routes each
 * to the encoder of its kind, all three sharing one block-wide string table,
 * and flushes the encoders into one PrimitiveBlock whenever the estimated
 * size passes 15 MiB, and once more when the thread is interrupted.
 */
module OsmWriter {
  import opened JavaInt
  import opened Wrappers
  import opened Entity
  import opened Osmformat
  import opened StringTable
  import Dense = DenseNodesEncoder
  import Ways = WayEncoder
  import Relations = RelationEncoder

  /** Blocks may be 16 MiB; the estimates are rough, so the writer stops at 15. */
  const LIMIT_BLOB_SIZE: nat := 15 * 1024 * 1024

  /** The nodes a queue entry contributes: the node itself, or nothing. */
  function NodesOf(e: OsmEntity): seq<Node>
  {
    if e.NodeEntity? then [e.node] else []
  }

  function WaysOf(e: OsmEntity): seq<Way>
  {
    if e.WayEntity? then [e.way] else []
  }

  function RelationsOf(e: OsmEntity): seq<Relation>
  {
    if e.RelationEntity? then [e.relation] else []
  }

  /** The nodes, ways and relations among the first `n` queue entries, in queue order. */
  function QueueNodes(q: seq<OsmEntity>, n: nat): seq<Node>
    requires n <= |q|
    decreases n
  {
    if n == 0 then [] else QueueNodes(q, n - 1) + NodesOf(q[n - 1])
  }

  function QueueWays(q: seq<OsmEntity>, n: nat): seq<Way>
    requires n <= |q|
    decreases n
  {
    if n == 0 then [] else QueueWays(q, n - 1) + WaysOf(q[n - 1])
  }

  function QueueRelations(q: seq<OsmEntity>, n: nat): seq<Relation>
    requires n <= |q|
    decreases n
  {
    if n == 0 then [] else QueueRelations(q, n - 1) + RelationsOf(q[n - 1])
  }

  /** What one flush takes from the encoders: their pending nodes, ways and relations, in order. */
  datatype Batch = Batch(nodes: seq<Node>, ways: seq<Way>, relations: seq<Relation>)

  /** `b` with the queue entry `e` appended to the entities of its kind. */
  function Add(b: Batch, e: OsmEntity): Batch
  {
    Batch(b.nodes + NodesOf(e), b.ways + WaysOf(e), b.relations + RelationsOf(e))
  }

  /** `b` followed by the first `n` queue entries, one `Add` each. */
  function Extend(b: Batch, q: seq<OsmEntity>, n: nat): Batch
    requires n <= |q|
    decreases n
  {
    if n == 0 then b else Add(Extend(b, q, n - 1), q[n - 1])
  }

  /** Extending by a queue prefix appends its nodes, ways and relations, each kind in queue order. */
  lemma {:induction false} ExtendParts(b: Batch, q: seq<OsmEntity>, n: nat)
    requires n <= |q|
    ensures Extend(b, q, n) == Batch(b.nodes + QueueNodes(q, n), b.ways + QueueWays(q, n),
                                     b.relations + QueueRelations(q, n))
    decreases n
  {
    if n == 0 {
      assert b.nodes + [] == b.nodes && b.ways + [] == b.ways && b.relations + [] == b.relations;
    } else {
      ExtendParts(b, q, n - 1);
      AppendAssoc(b.nodes, QueueNodes(q, n - 1), NodesOf(q[n - 1]));
      AppendAssoc(b.ways, QueueWays(q, n - 1), WaysOf(q[n - 1]));
      AppendAssoc(b.relations, QueueRelations(q, n - 1), RelationsOf(q[n - 1]));
    }
  }

  /** The nodes, ways and relations of the first `n` batches, batch after batch. */
  function BatchNodes(bs: seq<Batch>, n: nat): seq<Node>
    requires n <= |bs|
    decreases n
  {
    if n == 0 then [] else BatchNodes(bs, n - 1) + bs[n - 1].nodes
  }

  function BatchWays(bs: seq<Batch>, n: nat): seq<Way>
    requires n <= |bs|
    decreases n
  {
    if n == 0 then [] else BatchWays(bs, n - 1) + bs[n - 1].ways
  }

  function BatchRelations(bs: seq<Batch>, n: nat): seq<Relation>
    requires n <= |bs|
    decreases n
  {
    if n == 0 then [] else BatchRelations(bs, n - 1) + bs[n - 1].relations
  }

  /** Appending a batch leaves what the first `n` batches hold alone. */
  lemma {:induction false} BatchesAppend(bs: seq<Batch>, b: Batch, n: nat)
    requires n <= |bs|
    ensures BatchNodes(bs + [b], n) == BatchNodes(bs, n)
    ensures BatchWays(bs + [b], n) == BatchWays(bs, n)
    ensures BatchRelations(bs + [b], n) == BatchRelations(bs, n)
    decreases n
  {
    if n > 0 {
      BatchesAppend(bs, b, n - 1);
      assert (bs + [b])[n - 1] == bs[n - 1];
    }
  }

  lemma BatchesSnoc(bs: seq<Batch>, b: Batch)
    ensures BatchNodes(bs + [b], |bs| + 1) == BatchNodes(bs, |bs|) + b.nodes
    ensures BatchWays(bs + [b], |bs| + 1) == BatchWays(bs, |bs|) + b.ways
    ensures BatchRelations(bs + [b], |bs| + 1) == BatchRelations(bs, |bs|) + b.relations
  {
    BatchesAppend(bs, b, |bs|);
  }

  /** What has been seen: the batches `fs` flushed, block after block, followed by the pending batch `p`. */
  function SeenOf(fs: seq<Batch>, p: Batch): Batch
  {
    Batch(BatchNodes(fs, |fs|) + p.nodes, BatchWays(fs, |fs|) + p.ways, BatchRelations(fs, |fs|) + p.relations)
  }

  /** Routing an entity into the pending batch adds it to what has been seen. */
  lemma SeenAdd(fs: seq<Batch>, p: Batch, e: OsmEntity)
    ensures SeenOf(fs, Add(p, e)) == Add(SeenOf(fs, p), e)
  {
    AppendAssoc(BatchNodes(fs, |fs|), p.nodes, NodesOf(e));
    AppendAssoc(BatchWays(fs, |fs|), p.ways, WaysOf(e));
    AppendAssoc(BatchRelations(fs, |fs|), p.relations, RelationsOf(e));
  }

  /** Flushing the pending batch changes nothing in what has been seen. */
  lemma SeenFlush(fs: seq<Batch>, p: Batch)
    ensures SeenOf(fs + [p], Batch([], [], [])) == SeenOf(fs, p)
  {
    BatchesSnoc(fs, p);
    var s := SeenOf(fs + [p], Batch([], [], []));
    assert s.nodes == BatchNodes(fs + [p], |fs| + 1) + [];
    assert s.ways == BatchWays(fs + [p], |fs| + 1) + [];
    assert s.relations == BatchRelations(fs + [p], |fs| + 1) + [];
  }

  /** With nothing pending, what has been seen is what has been flushed. */
  lemma SeenFlushed(fs: seq<Batch>)
    ensures SeenOf(fs, Batch([], [], [])) == Batch(BatchNodes(fs, |fs|), BatchWays(fs, |fs|), BatchRelations(fs, |fs|))
  {
    var s := SeenOf(fs, Batch([], [], []));
    assert s.nodes == BatchNodes(fs, |fs|) + [];
  }

  /** The ways of the first `n` groups of `gs`, group after group; likewise the relations and the dense messages set. */
  function GroupsWays(gs: seq<PrimitiveGroup>, n: nat): seq<WayMsg>
    requires n <= |gs|
    decreases n
  {
    if n == 0 then [] else GroupsWays(gs, n - 1) + gs[n - 1].ways
  }

  function GroupsRelations(gs: seq<PrimitiveGroup>, n: nat): seq<RelationMsg>
    requires n <= |gs|
    decreases n
  {
    if n == 0 then [] else GroupsRelations(gs, n - 1) + gs[n - 1].relations
  }

  function GroupsDense(gs: seq<PrimitiveGroup>, n: nat): seq<DenseNodesMsg>
    requires n <= |gs|
    decreases n
  {
    if n == 0 then [] else GroupsDense(gs, n - 1) + (if gs[n - 1].dense.Some? then [gs[n - 1].dense.value] else [])
  }

  /** Appending groups leaves the contents of the first `n` groups alone. */
  lemma {:induction false} GroupsPrefix(gs: seq<PrimitiveGroup>, more: seq<PrimitiveGroup>, n: nat)
    requires n <= |gs|
    ensures GroupsWays(gs + more, n) == GroupsWays(gs, n)
    ensures GroupsRelations(gs + more, n) == GroupsRelations(gs, n)
    ensures GroupsDense(gs + more, n) == GroupsDense(gs, n)
    decreases n
  {
    if n > 0 {
      GroupsPrefix(gs, more, n - 1);
      assert (gs + more)[n - 1] == gs[n - 1];
    }
  }

  /** Putting two group lists together puts their ways together; likewise relations and dense messages. */
  lemma {:induction false} GroupsWaysConcat(gs: seq<PrimitiveGroup>, more: seq<PrimitiveGroup>, n: nat)
    requires n <= |more|
    ensures GroupsWays(gs + more, |gs| + n) == GroupsWays(gs, |gs|) + GroupsWays(more, n)
    decreases n
  {
    if n == 0 {
      GroupsPrefix(gs, more, |gs|);
    } else {
      GroupsWaysConcat(gs, more, n - 1);
      assert (gs + more)[|gs| + n - 1] == more[n - 1];
      AppendAssoc(GroupsWays(gs, |gs|), GroupsWays(more, n - 1), more[n - 1].ways);
    }
  }

  lemma {:induction false} GroupsRelationsConcat(gs: seq<PrimitiveGroup>, more: seq<PrimitiveGroup>, n: nat)
    requires n <= |more|
    ensures GroupsRelations(gs + more, |gs| + n) == GroupsRelations(gs, |gs|) + GroupsRelations(more, n)
    decreases n
  {
    if n == 0 {
      GroupsPrefix(gs, more, |gs|);
    } else {
      GroupsRelationsConcat(gs, more, n - 1);
      assert (gs + more)[|gs| + n - 1] == more[n - 1];
      AppendAssoc(GroupsRelations(gs, |gs|), GroupsRelations(more, n - 1), more[n - 1].relations);
    }
  }

  lemma {:induction false} GroupsDenseConcat(gs: seq<PrimitiveGroup>, more: seq<PrimitiveGroup>, n: nat)
    requires n <= |more|
    ensures GroupsDense(gs + more, |gs| + n) == GroupsDense(gs, |gs|) + GroupsDense(more, n)
    decreases n
  {
    if n == 0 {
      GroupsPrefix(gs, more, |gs|);
    } else {
      GroupsDenseConcat(gs, more, n - 1);
      var g := more[n - 1];
      assert (gs + more)[|gs| + n - 1] == g;
      AppendAssoc(GroupsDense(gs, |gs|), GroupsDense(more, n - 1), if g.dense.Some? then [g.dense.value] else []);
    }
  }

  /**
   * Block `b` holds exactly the entities of `batch`, encoded against its own
   * table: its groups' ways encode the batch's ways one for one, their
   * relations the batch's relations, and the one DenseNodes message (none
   * or one without entries when the batch has no nodes) the batch's nodes.
   */
  ghost predicate Holds(b: PrimitiveBlock, batch: Batch)
  {
    HoldsWays(b, batch.ways) && HoldsRelations(b, batch.relations) && HoldsNodes(b, batch.nodes)
  }

  ghost predicate HoldsWays(b: PrimitiveBlock, ws: seq<Way>)
  {
    Ways.EncodesWays(GroupsWays(b.groups, |b.groups|), ws, b.stringtable)
  }

  ghost predicate HoldsRelations(b: PrimitiveBlock, rs: seq<Relation>)
  {
    Relations.EncodesRelations(GroupsRelations(b.groups, |b.groups|), rs, b.stringtable)
  }

  ghost predicate HoldsNodes(b: PrimitiveBlock, ns: seq<Node>)
  {
    var ds := GroupsDense(b.groups, |b.groups|);
    && |ds| <= 1 && (ns != [] ==> |ds| == 1)
    && forall i :: 0 <= i < |ds| ==> Dense.EncodesNodes(ds[i], ns, b.stringtable)
  }

  /** Each of the first `n` blocks of `bs` holds the batch of `fs` at its position. */
  ghost predicate HoldUpTo(bs: seq<PrimitiveBlock>, fs: seq<Batch>, n: nat)
    requires n <= |bs| && n <= |fs|
    decreases n
  {
    n == 0 || (HoldUpTo(bs, fs, n - 1) && Holds(bs[n - 1], fs[n - 1]))
  }

  /** Block k of `bs` holds batch k of `fs`, for every k. */
  ghost predicate AllHold(bs: seq<PrimitiveBlock>, fs: seq<Batch>)
  {
    |bs| == |fs| && HoldUpTo(bs, fs, |bs|)
  }

  lemma {:induction false} HoldUpToAppend(bs: seq<PrimitiveBlock>, fs: seq<Batch>, b: PrimitiveBlock, f: Batch, n: nat)
    requires n <= |bs| && n <= |fs|
    ensures HoldUpTo(bs + [b], fs + [f], n) == HoldUpTo(bs, fs, n)
    decreases n
  {
    if n > 0 {
      HoldUpToAppend(bs, fs, b, f, n - 1);
      assert (bs + [b])[n - 1] == bs[n - 1] && (fs + [f])[n - 1] == fs[n - 1];
    }
  }

  /** A block appended with the batch it holds keeps every block holding its batch. */
  lemma AllHoldSnoc(bs: seq<PrimitiveBlock>, fs: seq<Batch>, b: PrimitiveBlock, f: Batch)
    requires AllHold(bs, fs) && Holds(b, f)
    ensures AllHold(bs + [b], fs + [f])
  {
    HoldUpToAppend(bs, fs, b, f, |bs|);
    assert (bs + [b])[|bs|] == b && (fs + [f])[|fs|] == f;
  }

  /** Block k holds batch k: `AllHold` read at one position. */
  lemma {:induction false} AllHoldAt(bs: seq<PrimitiveBlock>, fs: seq<Batch>, n: nat, k: nat)
    requires n <= |bs| && n <= |fs| && HoldUpTo(bs, fs, n) && k < n
    ensures Holds(bs[k], fs[k])
    decreases n
  {
    if k < n - 1 {
      AllHoldAt(bs, fs, n - 1, k);
    }
  }

  /** Concatenation is associative. */
  lemma AppendAssoc<T>(a: seq<T>, b: seq<T>, c: seq<T>)
    ensures (a + b) + c == a + (b + c)
  {
  }

  /** The group `flush` adds for an encoder whose estimate is `size`: one group if positive, none otherwise. */
  function NodesPart(dense: DenseNodesMsg, size: int): seq<PrimitiveGroup>
  {
    if size > 0 then [PrimitiveGroup([], Some(dense), [], [], [])] else []
  }

  function WaysPart(ways: seq<WayMsg>, size: int): seq<PrimitiveGroup>
  {
    if size > 0 then [PrimitiveGroup([], None, ways, [], [])] else []
  }

  function RelationsPart(relations: seq<RelationMsg>, size: int): seq<PrimitiveGroup>
  {
    if size > 0 then [PrimitiveGroup([], None, [], relations, [])] else []
  }

  /**
   * The block `flush(nodesSize, waysSize, relationSize)` builds: the table,
   * then the dense group with the grid settings if nodesSize > 0, the ways
   * group if waysSize > 0 and the relations group if relationSize > 0.
   */
  function FlushedBlock(strings: seq<string>, dense: DenseNodesMsg, ways: seq<WayMsg>, relations: seq<RelationMsg>,
                        nodesSize: int, waysSize: int, relationSize: int): PrimitiveBlock
  {
    PrimitiveBlock(strings, NodesPart(dense, nodesSize) + WaysPart(ways, waysSize) + RelationsPart(relations, relationSize),
                   if nodesSize > 0 then Some(Dense.GRANULARITY as Int32) else None,
                   if nodesSize > 0 then Some(0) else None,
                   if nodesSize > 0 then Some(0) else None,
                   None)
  }

  /**
   * The flushed block holds one group per positive estimate, in the order
   * nodes, ways, relations, and has the grid settings exactly when the nodes
   * estimate is positive.
   */
  lemma FlushedBlockShape(strings: seq<string>, dense: DenseNodesMsg, ways: seq<WayMsg>, relations: seq<RelationMsg>,
                          nodesSize: int, waysSize: int, relationSize: int)
    ensures var b := FlushedBlock(strings, dense, ways, relations, nodesSize, waysSize, relationSize);
      && b.stringtable == strings
      && |b.groups| == (if nodesSize > 0 then 1 else 0) + (if waysSize > 0 then 1 else 0) + (if relationSize > 0 then 1 else 0)
      && (b.granularity.Some? <==> nodesSize > 0) && (b.latOffset.Some? <==> nodesSize > 0)
      && (b.lonOffset.Some? <==> nodesSize > 0)
      && (nodesSize > 0 ==> b.Granularity() == 100 && b.LatOffset() == 0 && b.LonOffset() == 0
                            && b.groups[0].dense == Some(dense))
      && (waysSize > 0 ==> b.groups[if nodesSize > 0 then 1 else 0].ways == ways)
      && (relationSize > 0 ==> b.groups[|b.groups| - 1].relations == relations)
  {
  }

  /**
   * The flushed block's ways are the ways encoder's entries when its estimate
   * is positive, and none otherwise; likewise its relations and its dense
   * messages.
   */
  /** The nodes part contributes its dense message, if any, and nothing else. */
  lemma NodesPartGroups(dense: DenseNodesMsg, size: int)
    ensures var np := NodesPart(dense, size);
      && GroupsWays(np, |np|) == [] && GroupsRelations(np, |np|) == []
      && GroupsDense(np, |np|) == (if size > 0 then [dense] else [])
  {
    if size > 0 {
      var np := NodesPart(dense, size);
      assert GroupsWays(np, 0) == [] && GroupsRelations(np, 0) == [] && GroupsDense(np, 0) == [];
    }
  }

  /** The ways part contributes its ways, if any, and nothing else. */
  lemma WaysPartGroups(ways: seq<WayMsg>, size: int)
    ensures var wp := WaysPart(ways, size);
      && GroupsWays(wp, |wp|) == (if size > 0 then ways else [])
      && GroupsRelations(wp, |wp|) == [] && GroupsDense(wp, |wp|) == []
  {
    if size > 0 {
      var wp := WaysPart(ways, size);
      assert GroupsWays(wp, 0) == [] && GroupsRelations(wp, 0) == [] && GroupsDense(wp, 0) == [];
      assert [] + ways == ways;
    }
  }

  /** The relations part contributes its relations, if any, and nothing else. */
  lemma RelationsPartGroups(relations: seq<RelationMsg>, size: int)
    ensures var rp := RelationsPart(relations, size);
      && GroupsWays(rp, |rp|) == [] && GroupsDense(rp, |rp|) == []
      && GroupsRelations(rp, |rp|) == (if size > 0 then relations else [])
  {
    if size > 0 {
      var rp := RelationsPart(relations, size);
      assert GroupsWays(rp, 0) == [] && GroupsRelations(rp, 0) == [] && GroupsDense(rp, 0) == [];
      assert [] + relations == relations;
    }
  }

  /** The contents of three group lists put together are theirs, put together. */
  lemma GroupsWays3(a: seq<PrimitiveGroup>, b: seq<PrimitiveGroup>, c: seq<PrimitiveGroup>)
    ensures GroupsWays(a + b + c, |a + b + c|) == GroupsWays(a, |a|) + GroupsWays(b, |b|) + GroupsWays(c, |c|)
  {
    GroupsWaysConcat(a, b, |b|);
    GroupsWaysConcat(a + b, c, |c|);
  }

  lemma GroupsRelations3(a: seq<PrimitiveGroup>, b: seq<PrimitiveGroup>, c: seq<PrimitiveGroup>)
    ensures GroupsRelations(a + b + c, |a + b + c|)
            == GroupsRelations(a, |a|) + GroupsRelations(b, |b|) + GroupsRelations(c, |c|)
  {
    GroupsRelationsConcat(a, b, |b|);
    GroupsRelationsConcat(a + b, c, |c|);
  }

  lemma GroupsDense3(a: seq<PrimitiveGroup>, b: seq<PrimitiveGroup>, c: seq<PrimitiveGroup>)
    ensures GroupsDense(a + b + c, |a + b + c|) == GroupsDense(a, |a|) + GroupsDense(b, |b|) + GroupsDense(c, |c|)
  {
    GroupsDenseConcat(a, b, |b|);
    GroupsDenseConcat(a + b, c, |c|);
  }

  lemma FlushedWays(strings: seq<string>, dense: DenseNodesMsg, ways: seq<WayMsg>, relations: seq<RelationMsg>,
                    nodesSize: int, waysSize: int, relationSize: int)
    ensures var gs := FlushedBlock(strings, dense, ways, relations, nodesSize, waysSize, relationSize).groups;
      GroupsWays(gs, |gs|) == (if waysSize > 0 then ways else [])
  {
    var np, wp, rp := NodesPart(dense, nodesSize), WaysPart(ways, waysSize), RelationsPart(relations, relationSize);
    NodesPartGroups(dense, nodesSize);
    WaysPartGroups(ways, waysSize);
    RelationsPartGroups(relations, relationSize);
    GroupsWays3(np, wp, rp);
    var w := GroupsWays(wp, |wp|);
    assert [] + w + [] == w;
  }

  lemma FlushedRelations(strings: seq<string>, dense: DenseNodesMsg, ways: seq<WayMsg>, relations: seq<RelationMsg>,
                         nodesSize: int, waysSize: int, relationSize: int)
    ensures var gs := FlushedBlock(strings, dense, ways, relations, nodesSize, waysSize, relationSize).groups;
      GroupsRelations(gs, |gs|) == (if relationSize > 0 then relations else [])
  {
    var np, wp, rp := NodesPart(dense, nodesSize), WaysPart(ways, waysSize), RelationsPart(relations, relationSize);
    NodesPartGroups(dense, nodesSize);
    WaysPartGroups(ways, waysSize);
    RelationsPartGroups(relations, relationSize);
    GroupsRelations3(np, wp, rp);
    var r := GroupsRelations(rp, |rp|);
    assert [] + [] + r == r;
  }

  lemma FlushedDense(strings: seq<string>, dense: DenseNodesMsg, ways: seq<WayMsg>, relations: seq<RelationMsg>,
                     nodesSize: int, waysSize: int, relationSize: int)
    ensures var gs := FlushedBlock(strings, dense, ways, relations, nodesSize, waysSize, relationSize).groups;
      GroupsDense(gs, |gs|) == (if nodesSize > 0 then [dense] else [])
  {
    var np, wp, rp := NodesPart(dense, nodesSize), WaysPart(ways, waysSize), RelationsPart(relations, relationSize);
    NodesPartGroups(dense, nodesSize);
    WaysPartGroups(ways, waysSize);
    RelationsPartGroups(relations, relationSize);
    GroupsDense3(np, wp, rp);
    var d := GroupsDense(np, |np|);
    assert d + [] + [] == d;
  }

  /**
   * Nothing is lost or added in a flush: when every encoder that holds
   * entities has a positive estimate, the block holds exactly the batch the
   * encoders stand for.
   */
  lemma FlushedBlockHolds(strings: seq<string>, dense: DenseNodesMsg, ways: seq<WayMsg>, relations: seq<RelationMsg>,
                          nodesSize: int, waysSize: int, relationSize: int, batch: Batch)
    requires Dense.EncodesNodes(dense, batch.nodes, strings)
    requires Ways.EncodesWays(ways, batch.ways, strings)
    requires Relations.EncodesRelations(relations, batch.relations, strings)
    requires nodesSize > 0 || batch.nodes == []
    requires waysSize > 0 || batch.ways == []
    requires relationSize > 0 || batch.relations == []
    ensures Holds(FlushedBlock(strings, dense, ways, relations, nodesSize, waysSize, relationSize), batch)
  {
    FlushedHoldsWays(strings, dense, ways, relations, nodesSize, waysSize, relationSize, batch.ways);
    FlushedHoldsRelations(strings, dense, ways, relations, nodesSize, waysSize, relationSize, batch.relations);
    FlushedHoldsNodes(strings, dense, ways, relations, nodesSize, waysSize, relationSize, batch.nodes);
  }

  lemma FlushedHoldsWays(strings: seq<string>, dense: DenseNodesMsg, ways: seq<WayMsg>, relations: seq<RelationMsg>,
                         nodesSize: int, waysSize: int, relationSize: int, ws: seq<Way>)
    requires Ways.EncodesWays(ways, ws, strings) && (waysSize > 0 || ws == [])
    ensures HoldsWays(FlushedBlock(strings, dense, ways, relations, nodesSize, waysSize, relationSize), ws)
  {
    FlushedWays(strings, dense, ways, relations, nodesSize, waysSize, relationSize);
  }

  lemma FlushedHoldsRelations(strings: seq<string>, dense: DenseNodesMsg, ways: seq<WayMsg>, relations: seq<RelationMsg>,
                              nodesSize: int, waysSize: int, relationSize: int, rs: seq<Relation>)
    requires Relations.EncodesRelations(relations, rs, strings) && (relationSize > 0 || rs == [])
    ensures HoldsRelations(FlushedBlock(strings, dense, ways, relations, nodesSize, waysSize, relationSize), rs)
  {
    FlushedRelations(strings, dense, ways, relations, nodesSize, waysSize, relationSize);
  }

  lemma FlushedHoldsNodes(strings: seq<string>, dense: DenseNodesMsg, ways: seq<WayMsg>, relations: seq<RelationMsg>,
                          nodesSize: int, waysSize: int, relationSize: int, ns: seq<Node>)
    requires Dense.EncodesNodes(dense, ns, strings) && (nodesSize > 0 || ns == [])
    ensures HoldsNodes(FlushedBlock(strings, dense, ways, relations, nodesSize, waysSize, relationSize), ns)
  {
    FlushedDense(strings, dense, ways, relations, nodesSize, waysSize, relationSize);
  }

  /**
   * A flush keeps every written block holding its batch: the encoder states
   * stand for the pending batch, and each encoder that holds entities is
   * given a positive size.
   */
  lemma FlushAccounted(w0: seq<PrimitiveBlock>, f0: seq<Batch>, strings: seq<string>, dense: DenseNodesMsg,
                       tk: seq<seq<int>>, tv: seq<seq<int>>, id: Int64, lat: Int64, lon: Int64,
                       ways: seq<WayMsg>, relations: seq<RelationMsg>,
                       nodesSize: int, waysSize: int, relationSize: int, batch: Batch)
    requires AllHold(w0, f0)
    requires Dense.Collects(dense, batch.nodes, tk, tv, strings, id, lat, lon)
    requires Ways.EncodesWays(ways, batch.ways, strings)
    requires Relations.EncodesRelations(relations, batch.relations, strings)
    requires nodesSize > 0 || batch.nodes == []
    requires waysSize > 0 || batch.ways == []
    requires relationSize > 0 || batch.relations == []
    ensures AllHold(w0 + [FlushedBlock(strings, dense, ways, relations, nodesSize, waysSize, relationSize)], f0 + [batch])
  {
    Dense.CollectsEncodes(dense, batch.nodes, tk, tv, strings, id, lat, lon);
    FlushedBlockHolds(strings, dense, ways, relations, nodesSize, waysSize, relationSize, batch);
    AllHoldSnoc(w0, f0, FlushedBlock(strings, dense, ways, relations, nodesSize, waysSize, relationSize), batch);
  }

  /**
   * The sum `run` compares with the limit, for a table `strings` and the
   * pending entities: the three estimates, in each of which the shared table
   * is counted, plus the table once more.
   */
  function BlobEstimate(strings: seq<string>, ns: seq<Node>, ws: seq<Way>, rs: seq<Relation>): nat
  {
    (TotalLength(strings) + Dense.NODE_ENTRY_SIZE * |ns| + Dense.TAG_ENTRY_SIZE * (2 * Dense.TagCount(ns, |ns|) + |ns|))
    + (TotalLength(strings) + Ways.MEMBER_ENTRY_SIZE * (Ways.NodeCount(ws, |ws|) + Ways.TagCount(ws, |ws|) + |ws|))
    + (Relations.MEMBER_ENTRY_SIZE * (|rs| + Relations.TagCount(rs, |rs|)) + Relations.RELATION_ENTRY_SIZE * Relations.MemberCount(rs, |rs|))
    + TotalLength(strings)
  }

  /** A new string table and the three encoders on it, all empty. */
  method NewEncoders() returns (se: StringTableEncoder, ne: Dense.DenseNodesEncoder, we: Ways.WayEncoder,
                                re: Relations.RelationEncoder)
    ensures fresh(se) && fresh(ne) && fresh(we) && fresh(re)
    ensures ne.table == se && we.table == se && re.stringEncoder == se
    ensures ne.Valid() && we.Valid() && re.Valid() && !we.built && !re.built
    ensures se.strings == [""] && ne.added == [] && we.added == [] && re.added == []
  {
    se := new StringTableEncoder();
    ne := new Dense.DenseNodesEncoder(se);
    we := new Ways.WayEncoder(se);
    re := new Relations.RelationEncoder(se);
  }

  class OsmWriter {
    /** The block-wide string table. */
    var stringEncoder: StringTableEncoder
    /** The current encoders, all on `stringEncoder`. */
    var nodesEncoder: Dense.DenseNodesEncoder
    var wayEncoder: Ways.WayEncoder
    var relationEncoder: Relations.RelationEncoder
    /** The blocks passed to `writer.writeData`, in order (before serialization). */
    var written: seq<PrimitiveBlock>
    /** The entities each written block took from the encoders, block by block. */
    ghost var flushed: seq<Batch>

    /** All three encoders use the block-wide table, are valid and still accept entities. */
    ghost predicate Valid()
      reads this, stringEncoder, nodesEncoder, wayEncoder, relationEncoder
    {
      && nodesEncoder.table == stringEncoder && wayEncoder.table == stringEncoder
      && relationEncoder.stringEncoder == stringEncoder
      && nodesEncoder.Valid() && wayEncoder.Valid() && relationEncoder.Valid()
      && !wayEncoder.built && !relationEncoder.built
    }

    /** Every written block holds exactly the batch recorded for it. */
    ghost predicate Accounted()
      reads this
    {
      AllHold(written, flushed)
    }

    /** Nothing is pending: the table holds only its reserved entry and the encoders nothing. */
    ghost predicate Empty()
      reads this, stringEncoder, nodesEncoder, wayEncoder, relationEncoder
    {
      && stringEncoder.strings == [""]
      && nodesEncoder.added == [] && wayEncoder.added == [] && relationEncoder.added == []
    }

    /** The nodes, ways and relations written so far, block after block, each kind followed by those pending. */
    ghost function Seen(): Batch
      reads this, nodesEncoder, wayEncoder, relationEncoder
    {
      SeenOf(flushed, Pending())
    }

    /** The output only grows: the blocks of `w0`, and the batches `f0` they hold, are still the first ones. */
    ghost predicate Extends(w0: seq<PrimitiveBlock>, f0: seq<Batch>)
      reads this
    {
      w0 <= written && f0 <= flushed
    }

    /** Each current object is either the given one or new since the start of the method. */
    twostate predicate Renewed(se: StringTableEncoder, ne: Dense.DenseNodesEncoder, we: Ways.WayEncoder,
                               re: Relations.RelationEncoder)
      reads this
    {
      && (stringEncoder == se || fresh(stringEncoder)) && (nodesEncoder == ne || fresh(nodesEncoder))
      && (wayEncoder == we || fresh(wayEncoder)) && (relationEncoder == re || fresh(relationEncoder))
    }

    /**
     * Since the start of the method the first `n` entities of `queue` have
     * been routed: the writer is valid, the output has only grown, the
     * encoders are the old ones or new, and the nodes, ways and relations
     * written or pending are the earlier ones followed by those of the queue,
     * each once and in queue order.
     */
    twostate predicate Drained(queue: seq<OsmEntity>, n: nat)
      reads this, stringEncoder, nodesEncoder, wayEncoder, relationEncoder
    {
      && n <= |queue| && Valid() && Accounted() && Extends(old(written), old(flushed))
      && Renewed(old(stringEncoder), old(nodesEncoder), old(wayEncoder), old(relationEncoder))
      && Seen() == Extend(old(Seen()), queue, n)
    }

    /** The constructor runs `encodersReset` on an empty output. */
    constructor ()
      ensures Valid() && Accounted() && Empty() && written == [] && flushed == []
    {
      var se, ne, we, re := NewEncoders();
      stringEncoder, nodesEncoder, wayEncoder, relationEncoder := se, ne, we, re;
      written, flushed := [], [];
    }

    /** `encodersReset()`: a new table first, then the three encoders on it. */
    method EncodersReset()
      modifies this
      ensures Valid() && Empty() && written == old(written) && flushed == old(flushed)
      ensures fresh(stringEncoder) && fresh(nodesEncoder) && fresh(wayEncoder) && fresh(relationEncoder)
    {
      var se, ne, we, re := NewEncoders();
      stringEncoder, nodesEncoder, wayEncoder, relationEncoder := se, ne, we, re;
    }

    /**
     * The routing of `run`: a node to the nodes encoder, a way to the ways
     * encoder, a relation to the relations encoder; any other entity is only
     * logged. The shared table grows at its end; nothing else changes.
     */
    method Route(e: OsmEntity)
      requires Valid()
      modifies stringEncoder, nodesEncoder, wayEncoder, relationEncoder
      ensures Valid()
      ensures Grows(old(stringEncoder.strings), stringEncoder.strings)
      ensures nodesEncoder.added == old(nodesEncoder.added) + NodesOf(e)
      ensures wayEncoder.added == old(wayEncoder.added) + WaysOf(e)
      ensures relationEncoder.added == old(relationEncoder.added) + RelationsOf(e)
      ensures Pending() == Add(old(Pending()), e)
      ensures e.OtherEntity? ==> stringEncoder.strings == old(stringEncoder.strings)
    {
      match e {
        case NodeEntity(n) => RouteNode(n);
        case WayEntity(w) => RouteWay(w);
        case RelationEntity(r) => RouteRelation(r);
        case OtherEntity(_) =>
      }
    }

    /** A node goes to the nodes encoder; the other two keep their entries under the grown table. */
    method RouteNode(n: Node)
      requires Valid()
      modifies stringEncoder, nodesEncoder
      ensures Valid()
      ensures Grows(old(stringEncoder.strings), stringEncoder.strings)
      ensures nodesEncoder.added == old(nodesEncoder.added) + [n]
      ensures wayEncoder.added == old(wayEncoder.added) && relationEncoder.added == old(relationEncoder.added)
    {
      ghost var before := stringEncoder.strings;
      nodesEncoder.AddNode(n);
      Ways.CollectsExtend(wayEncoder.ways, wayEncoder.added, before, stringEncoder.strings,
                          wayEncoder.tagsLength, wayEncoder.membersLength);
      Relations.CollectsExtend(relationEncoder.relations, relationEncoder.added, before, stringEncoder.strings,
                               relationEncoder.tagsLength, relationEncoder.membersLength);
    }

    /** A way goes to the ways encoder; the other two keep their entries under the grown table. */
    method RouteWay(w: Way)
      requires Valid()
      modifies stringEncoder, wayEncoder
      ensures Valid()
      ensures Grows(old(stringEncoder.strings), stringEncoder.strings)
      ensures wayEncoder.added == old(wayEncoder.added) + [w]
      ensures nodesEncoder.added == old(nodesEncoder.added) && relationEncoder.added == old(relationEncoder.added)
    {
      ghost var before := stringEncoder.strings;
      var _ := wayEncoder.Add(w);
      Dense.CollectsExtend(nodesEncoder.nodes, nodesEncoder.added, nodesEncoder.tagKeys, nodesEncoder.tagVals,
                           before, stringEncoder.strings, nodesEncoder.id, nodesEncoder.lat, nodesEncoder.lon);
      Relations.CollectsExtend(relationEncoder.relations, relationEncoder.added, before, stringEncoder.strings,
                               relationEncoder.tagsLength, relationEncoder.membersLength);
    }

    /** A relation goes to the relations encoder; the other two keep their entries under the grown table. */
    method RouteRelation(r: Relation)
      requires Valid()
      modifies stringEncoder, relationEncoder
      ensures Valid()
      ensures Grows(old(stringEncoder.strings), stringEncoder.strings)
      ensures relationEncoder.added == old(relationEncoder.added) + [r]
      ensures nodesEncoder.added == old(nodesEncoder.added) && wayEncoder.added == old(wayEncoder.added)
    {
      ghost var before := stringEncoder.strings;
      var _ := relationEncoder.Add(r);
      Dense.CollectsExtend(nodesEncoder.nodes, nodesEncoder.added, nodesEncoder.tagKeys, nodesEncoder.tagVals,
                           before, stringEncoder.strings, nodesEncoder.id, nodesEncoder.lat, nodesEncoder.lon);
      Ways.CollectsExtend(wayEncoder.ways, wayEncoder.added, before, stringEncoder.strings,
                          wayEncoder.tagsLength, wayEncoder.membersLength);
    }

    /** The sum `run` computes after routing an entity. */
    function BlobSize(): (r: nat)
      reads this, stringEncoder, nodesEncoder, wayEncoder, relationEncoder
      requires Valid()
      ensures r == BlobEstimate(stringEncoder.strings, nodesEncoder.added, wayEncoder.added, relationEncoder.added)
    {
      nodesEncoder.EstimateSize() + wayEncoder.EstimateSize() + relationEncoder.EstimateSize() + stringEncoder.GetStringSize()
    }

    /** The pending entities, as the next flush takes them. */
    ghost function Pending(): Batch
      reads this, nodesEncoder, wayEncoder, relationEncoder
    {
      Batch(nodesEncoder.added, wayEncoder.added, relationEncoder.added)
    }

    /**
     * The block `flush` builds before handing it out: the table, and the
     * group `write()` gives for each encoder whose estimate is positive.
     */
    method BuildBlock(nodesSize: int, waysSize: int, relationSize: int) returns (block: PrimitiveBlock)
      requires Valid()
      modifies wayEncoder, relationEncoder
      ensures block == FlushedBlock(old(stringEncoder.strings), old(nodesEncoder.nodes), old(wayEncoder.ways),
                                    old(relationEncoder.relations), nodesSize, waysSize, relationSize)
    {
      var strings := stringEncoder.strings;
      var nodesPart, waysPart, relationsPart: seq<PrimitiveGroup> := [], [], [];
      var granularity: Option<Int32>, latOffset: Option<Int64>, lonOffset: Option<Int64> := None, None, None;
      if nodesSize > 0 {
        var b := nodesEncoder.Write();
        granularity, latOffset, lonOffset := Some(Dense.GRANULARITY as Int32), Some(0), Some(0);
        nodesPart := [b.groups[0]];
      }
      if waysSize > 0 {
        var b := wayEncoder.Write();
        waysPart := [b.groups[0]];
      }
      if relationSize > 0 {
        var g := relationEncoder.Write();
        relationsPart := [g];
      }
      block := PrimitiveBlock(strings, nodesPart + waysPart + relationsPart, granularity, latOffset, lonOffset, None);
    }

    /**
     * `flush(nodesSize, waysSize, relationSize)`: one more block handed to the
     * blob writer, built from the current table and encoders, then
     * `encodersReset`. The block holds every pending entity when each encoder
     * that holds some is given a positive size.
     */
    method Flush(nodesSize: int, waysSize: int, relationSize: int)
      requires Valid() && Accounted()
      modifies this, nodesEncoder, wayEncoder, relationEncoder
      ensures Valid() && Empty()
      ensures fresh(stringEncoder) && fresh(nodesEncoder) && fresh(wayEncoder) && fresh(relationEncoder)
      ensures written == old(written) + [FlushedBlock(old(stringEncoder.strings), old(nodesEncoder.nodes),
                                                      old(wayEncoder.ways), old(relationEncoder.relations),
                                                      nodesSize, waysSize, relationSize)]
      ensures flushed == old(flushed) + [Batch(old(nodesEncoder.added), old(wayEncoder.added), old(relationEncoder.added))]
      ensures ((nodesSize > 0 || old(nodesEncoder.added) == []) && (waysSize > 0 || old(wayEncoder.added) == [])
               && (relationSize > 0 || old(relationEncoder.added) == [])) ==> Accounted()
    {
      ghost var strings, batch := stringEncoder.strings, Pending();
      ghost var w0, f0 := written, flushed;
      if (nodesSize > 0 || batch.nodes == []) && (waysSize > 0 || batch.ways == []) && (relationSize > 0 || batch.relations == []) {
        FlushAccounted(w0, f0, strings, nodesEncoder.nodes, nodesEncoder.tagKeys, nodesEncoder.tagVals,
                       nodesEncoder.id, nodesEncoder.lat, nodesEncoder.lon, wayEncoder.ways, relationEncoder.relations,
                       nodesSize, waysSize, relationSize, batch);
      }
      var block := BuildBlock(nodesSize, waysSize, relationSize);
      written, flushed := written + [block], flushed + [batch];
      EncodersReset();
    }

    /**
     * One turn of `run`'s loop on the entity `e` taken from the queue: route
     * it, then flush if the estimated size `blobSize` exceeds the limit.
     * `strings` is the table after routing, `block` the block a flush writes.
     */
    method Step(e: OsmEntity) returns (blobSize: nat, ghost strings: seq<string>, ghost block: PrimitiveBlock)
      requires Valid() && Accounted()
      modifies this, stringEncoder, nodesEncoder, wayEncoder, relationEncoder
      ensures Valid() && Accounted()
      ensures Grows(old(stringEncoder.strings), strings)
      ensures var p := Add(old(Pending()), e); blobSize == BlobEstimate(strings, p.nodes, p.ways, p.relations)
      ensures Seen() == Add(old(Seen()), e)
      ensures blobSize <= LIMIT_BLOB_SIZE ==>
        && written == old(written) && flushed == old(flushed)
        && stringEncoder == old(stringEncoder) && stringEncoder.strings == strings
        && nodesEncoder == old(nodesEncoder) && wayEncoder == old(wayEncoder) && relationEncoder == old(relationEncoder)
        && Pending() == Add(old(Pending()), e)
      ensures blobSize > LIMIT_BLOB_SIZE ==>
        && Empty() && fresh(stringEncoder) && fresh(nodesEncoder) && fresh(wayEncoder) && fresh(relationEncoder)
        && written == old(written) + [block] && block.stringtable == strings
        && flushed == old(flushed) + [Add(old(Pending()), e)]
    {
      ghost var f0, p0 := flushed, Pending();
      Route(e);
      SeenAdd(f0, p0, e);
      strings := stringEncoder.strings;
      block := FlushedBlock(strings, nodesEncoder.nodes, wayEncoder.ways, relationEncoder.relations,
                            nodesEncoder.EstimateSize(), wayEncoder.EstimateSize(), relationEncoder.EstimateSize());
      blobSize := CheckSize();
    }

    /**
     * The second half of a turn of `run`'s loop: the three estimates and the
     * table's size are added up, and the encoders are flushed (with those
     * estimates) when the sum `blobSize` exceeds the limit.
     */
    method CheckSize() returns (blobSize: nat)
      requires Valid() && Accounted()
      modifies this, nodesEncoder, wayEncoder, relationEncoder
      ensures Valid() && Accounted() && blobSize == old(BlobSize()) && Seen() == old(Seen())
      ensures blobSize <= LIMIT_BLOB_SIZE ==>
        && written == old(written) && flushed == old(flushed) && stringEncoder == old(stringEncoder)
        && nodesEncoder == old(nodesEncoder) && wayEncoder == old(wayEncoder) && relationEncoder == old(relationEncoder)
        && Pending() == old(Pending())
      ensures blobSize > LIMIT_BLOB_SIZE ==>
        && Empty() && fresh(stringEncoder) && fresh(nodesEncoder) && fresh(wayEncoder) && fresh(relationEncoder)
        && written == old(written) + [FlushedBlock(old(stringEncoder.strings), old(nodesEncoder.nodes),
                                                   old(wayEncoder.ways), old(relationEncoder.relations),
                                                   old(nodesEncoder.EstimateSize()), old(wayEncoder.EstimateSize()),
                                                   old(relationEncoder.EstimateSize()))]
        && flushed == old(flushed) + [old(Pending())]
    {
      var nodesSize := nodesEncoder.EstimateSize();
      var waysSize := wayEncoder.EstimateSize();
      var relationSize := relationEncoder.EstimateSize();
      blobSize := nodesSize + waysSize + relationSize + stringEncoder.GetStringSize();
      if blobSize > LIMIT_BLOB_SIZE {
        FlushAll(nodesSize, waysSize, relationSize);
      }
    }

    /**
     * `Step` as the loop sees it: the output only grows, the encoders are the
     * same or new ones, and the routed entity is appended to those of its
     * kind written or pending.
     */
    method Turn(e: OsmEntity)
      requires Valid() && Accounted()
      modifies this, stringEncoder, nodesEncoder, wayEncoder, relationEncoder
      ensures Valid() && Accounted() && Extends(old(written), old(flushed))
      ensures Renewed(old(stringEncoder), old(nodesEncoder), old(wayEncoder), old(relationEncoder))
      ensures Seen() == Add(old(Seen()), e)
    {
      var _, _, _ := Step(e);
    }

    /**
     * `flush` with the encoders' own estimates, as `run` calls it: every
     * pending node, way and relation lands in the one new block, which holds
     * nothing else.
     */
    method FlushAll(nodesSize: int, waysSize: int, relationSize: int)
      requires Valid() && Accounted()
      requires nodesSize == nodesEncoder.EstimateSize() && waysSize == wayEncoder.EstimateSize()
      requires relationSize == relationEncoder.EstimateSize()
      modifies this, nodesEncoder, wayEncoder, relationEncoder
      ensures Valid() && Accounted() && Empty()
      ensures fresh(stringEncoder) && fresh(nodesEncoder) && fresh(wayEncoder) && fresh(relationEncoder)
      ensures written == old(written) + [FlushedBlock(old(stringEncoder.strings), old(nodesEncoder.nodes),
                                                      old(wayEncoder.ways), old(relationEncoder.relations),
                                                      nodesSize, waysSize, relationSize)]
      ensures flushed == old(flushed) + [old(Pending())]
      ensures Seen() == old(Seen())
    {
      ghost var f0, p0 := flushed, Pending();
      Flush(nodesSize, waysSize, relationSize);
      SeenFlush(f0, p0);
    }

    /**
     * `run()`'s loop over the entities `queue` taken from the queue, one
     * `Step` each: every node, way and relation is accounted for once, in
     * order, either in a written block or still pending.
     */
    method Drain(queue: seq<OsmEntity>)
      requires Valid() && Accounted()
      modifies this, stringEncoder, nodesEncoder, wayEncoder, relationEncoder
      ensures Drained(queue, |queue|)
    {
      ghost var seen0 := Seen();
      var i := 0;
      while i < |queue|
        invariant i <= |queue| && Valid() && Accounted() && Extends(old(written), old(flushed))
        invariant Renewed(old(stringEncoder), old(nodesEncoder), old(wayEncoder), old(relationEncoder))
        invariant Seen() == Extend(seen0, queue, i)
        modifies this, stringEncoder, nodesEncoder, wayEncoder, relationEncoder
      {
        Turn(queue[i]);
        i := i + 1;
      }
    }

    /**
     * `run()` on the entities `queue` taken before the interrupt: the loop,
     * then the one flush the interrupt causes. The written blocks hold, block
     * after block, the entities pending before, then every node, way and
     * relation of the queue, each exactly once and in queue order; other
     * entities are dropped.
     */
    method Run(queue: seq<OsmEntity>)
      requires Valid() && Accounted()
      modifies this, stringEncoder, nodesEncoder, wayEncoder, relationEncoder
      ensures Valid() && Accounted() && Empty()
      ensures |written| > |old(written)| && Extends(old(written), old(flushed))
      ensures BatchNodes(flushed, |flushed|) == old(Seen()).nodes + QueueNodes(queue, |queue|)
      ensures BatchWays(flushed, |flushed|) == old(Seen()).ways + QueueWays(queue, |queue|)
      ensures BatchRelations(flushed, |flushed|) == old(Seen()).relations + QueueRelations(queue, |queue|)
    {
      ghost var seen0 := Seen();
      Drain(queue);
      ExtendParts(seen0, queue, |queue|);
      Interrupt();
    }

    /** The `InterruptedException` handler: one flush with the current estimates, then `run` ends. */
    method Interrupt()
      requires Valid() && Accounted()
      modifies this, nodesEncoder, wayEncoder, relationEncoder
      ensures Valid() && Accounted() && Empty()
      ensures written == old(written) + [FlushedBlock(old(stringEncoder.strings), old(nodesEncoder.nodes),
                                                      old(wayEncoder.ways), old(relationEncoder.relations),
                                                      old(nodesEncoder.EstimateSize()), old(wayEncoder.EstimateSize()),
                                                      old(relationEncoder.EstimateSize()))]
      ensures flushed == old(flushed) + [old(Pending())]
      ensures Batch(BatchNodes(flushed, |flushed|), BatchWays(flushed, |flushed|), BatchRelations(flushed, |flushed|))
              == old(Seen())
    {
      FlushAll(nodesEncoder.EstimateSize(), wayEncoder.EstimateSize(), relationEncoder.EstimateSize());
      SeenFlushed(flushed);
    }
  }
}
