/**
 * OSMDataReader: decodes one OSMData payload into a PrimitiveBlock and walks
 * its groups in order. In each group the plain nodes and the dense nodes go to
 * the node callback, then the ways, the relations and the changeset ids to
 * theirs; a kind whose callback is null is not decoded at all.
 */
module DataReader {
  import opened JavaInt
  import opened Wrappers
  import opened Entity
  import opened Osmformat
  import opened Collaborators
  import opened BaseParser
  import NodeParser
  import WayParser
  import RelationParser
  import DenseNodesEncoder
  import OsmWriter

  /** Which of the four callbacks are set (non-null). */
  datatype Callbacks = Callbacks(nodes: bool, ways: bool, relations: bool, changesets: bool)

  /** What a run of callbacks has received so far, and the exception it ended in, if any. */
  type Delivery = (seq<Event>, Option<Error>)

  /** The grid the block's node parser is built with: the block's settings, with their defaults. */
  function BlockGrid(b: PrimitiveBlock): NodeParser.Grid
  {
    NodeParser.Grid(b.Granularity(), b.LatOffset(), b.LonOffset(), b.DateGranularity())
  }

  /** The order the callbacks fire in within a group. */
  function Rank(e: Event): nat
  {
    match e
    case NodeEvent(_) => 0
    case WayEvent(_) => 1
    case RelationEvent(_) => 2
    case ChangesetEvent(_) => 3
    case HeaderEvent(_) => 4
    case BoundBoxEvent(_) => 5
  }

  /**
   * `forEach(parser::parse)` from message `i` on, over what parsing each
   * message gives: every parsed entity goes to the callback in order, and the
   * first exception ends the walk.
   */
  function DeliverFrom(rs: seq<Result<Event>>, i: nat, emitted: seq<Event>): Delivery
    requires i <= |rs|
    decreases |rs| - i
  {
    if i == |rs| then (emitted, None)
    else if rs[i].Err? then (emitted, Some(rs[i].error))
    else DeliverFrom(rs, i + 1, emitted + [rs[i].value])
  }

  function NodeResults(table: seq<string>, grid: NodeParser.Grid, ms: seq<NodeMsg>): seq<Result<Event>>
  {
    seq(|ms|, i requires 0 <= i < |ms| =>
      var n := NodeParser.ParseNodeResult(table, grid, ms[i]);
      if n.Ok? then Ok(NodeEvent(n.value)) else Err(n.error))
  }

  function WayResults(table: seq<string>, ms: seq<WayMsg>): seq<Result<Event>>
  {
    seq(|ms|, i requires 0 <= i < |ms| =>
      var w := WayParser.ParseWayResult(table, ms[i]);
      if w.Ok? then Ok(WayEvent(w.value)) else Err(w.error))
  }

  function RelationResults(table: seq<string>, ms: seq<RelationMsg>): seq<Result<Event>>
  {
    seq(|ms|, i requires 0 <= i < |ms| =>
      var r := RelationParser.ParseRelationResult(table, ms[i]);
      if r.Ok? then Ok(RelationEvent(r.value)) else Err(r.error))
  }

  /** The changeset callback receives each changeset's id. */
  function ChangesetResults(cs: seq<ChangeSetMsg>): seq<Result<Event>>
  {
    seq(|cs|, i requires 0 <= i < |cs| => Ok(ChangesetEvent(cs[i].id)))
  }

  /** One kind's `forEach`, run only if its callback is set and nothing before it threw. */
  function Stage(rs: seq<Result<Event>>, run: bool, prev: Delivery): Delivery
  {
    if prev.1.None? && run then DeliverFrom(rs, 0, prev.0) else prev
  }

  /** The node callback's part of a group: the plain nodes, then the dense nodes if the group has them. */
  function NodesStage(table: seq<string>, grid: NodeParser.Grid, cbs: Callbacks, g: PrimitiveGroup,
                      before: seq<Event>): Delivery
  {
    var plain := Stage(NodeResults(table, grid, g.nodes), cbs.nodes, (before, None));
    if plain.1.None? && cbs.nodes && g.dense.Some?
    then NodeParser.ParseDenseResult(table, grid, g.dense.value, plain.0) else plain
  }

  /**
   * One group of the `read` loop: the plain nodes and then the dense nodes if
   * the node callback is set, then the ways, the relations and the changesets
   * if theirs are; each stage runs only if the ones before it threw nothing.
   */
  function GroupResult(table: seq<string>, grid: NodeParser.Grid, cbs: Callbacks, g: PrimitiveGroup,
                       before: seq<Event>): Delivery
  {
    var nodes := NodesStage(table, grid, cbs, g, before);
    var ways := Stage(WayResults(table, g.ways), cbs.ways, nodes);
    var relations := Stage(RelationResults(table, g.relations), cbs.relations, ways);
    Stage(ChangesetResults(g.changesets), cbs.changesets, relations)
  }

  /** The groups loop from group `i` on; an exception in a group ends the loop. */
  function GroupsFrom(b: PrimitiveBlock, cbs: Callbacks, i: nat, emitted: seq<Event>): Delivery
    requires i <= |b.groups|
    decreases |b.groups| - i
  {
    if i == |b.groups| then (emitted, None)
    else
      var r := GroupResult(b.stringtable, BlockGrid(b), cbs, b.groups[i], emitted);
      if r.1.Some? then r else GroupsFrom(b, cbs, i + 1, r.0)
  }

  /**
   * `read(message)` on callbacks that have received `before`: a payload that
   * does not parse as a PrimitiveBlock throws before any callback; otherwise
   * its groups are walked in order.
   */
  function ReadDataResult(pb: Protobuf, cbs: Callbacks, message: seq<Byte>, before: seq<Event>): Delivery
  {
    var block := pb.parseBlock(message);
    if block.None? then (before, Some(InvalidProtocolBuffer))
    else GroupsFrom(block.value, cbs, 0, before)
  }

  // ---------------------------------------------------------------------
  // What the callbacks receive, and in what order.
  // ---------------------------------------------------------------------

  /** Delivering never takes back what was received, and adds only events of rank `k` when every parse gives one. */
  lemma {:induction false} DeliverKeeps(rs: seq<Result<Event>>, i: nat, emitted: seq<Event>, k: nat)
    requires i <= |rs|
    requires forall j :: i <= j < |rs| && rs[j].Ok? ==> Rank(rs[j].value) == k
    ensures var r := DeliverFrom(rs, i, emitted).0;
      emitted <= r && forall j :: |emitted| <= j < |r| ==> Rank(r[j]) == k
    decreases |rs| - i
  {
    if i < |rs| && rs[i].Ok? {
      DeliverKeeps(rs, i + 1, emitted + [rs[i].value], k);
    }
  }

  /** Events from position `from` on are in callback order. */
  ghost predicate InOrder(s: seq<Event>, from: nat)
  {
    forall i, j :: from <= i < j < |s| ==> Rank(s[i]) <= Rank(s[j])
  }

  /** Events from position `from` on come no later than callback `k`. */
  ghost predicate NoLaterThan(s: seq<Event>, from: nat, k: nat)
  {
    forall i :: from <= i < |s| ==> Rank(s[i]) <= k
  }

  /** Appending events of rank `k` after events of rank at most `k` keeps the order. */
  lemma InOrderExtend(s: seq<Event>, t: seq<Event>, from: nat, k: nat)
    requires from <= |s| && s <= t
    requires InOrder(s, from) && NoLaterThan(s, from, k)
    requires forall j :: |s| <= j < |t| ==> Rank(t[j]) == k
    ensures InOrder(t, from) && NoLaterThan(t, from, k)
  {
    forall i, j | from <= i < j < |t|
      ensures Rank(t[i]) <= Rank(t[j])
    {
      if j < |s| {
        assert t[i] == s[i] && t[j] == s[j];
      } else if i < |s| {
        assert t[i] == s[i];
      }
    }
    forall i | from <= i < |t|
      ensures Rank(t[i]) <= k
    {
      if i < |s| {
        assert t[i] == s[i];
      }
    }
  }

  /** A stage that leaves the events alone keeps them in order, whatever later rank it stands for. */
  lemma NoLaterThanWeaken(s: seq<Event>, from: nat, k: nat, k': nat)
    requires NoLaterThan(s, from, k) && k <= k'
    ensures NoLaterThan(s, from, k')
  {
  }

  /** A stage of rank `k` after events of rank at most `k` keeps them in order. */
  lemma StageInOrder(rs: seq<Result<Event>>, run: bool, prev: Delivery, from: nat, k: nat)
    requires from <= |prev.0| && InOrder(prev.0, from) && NoLaterThan(prev.0, from, k)
    requires forall j :: 0 <= j < |rs| && rs[j].Ok? ==> Rank(rs[j].value) == k
    ensures var next := Stage(rs, run, prev).0;
      prev.0 <= next && InOrder(next, from) && NoLaterThan(next, from, k)
  {
    var next := Stage(rs, run, prev).0;
    if prev.1.None? && run {
      DeliverKeeps(rs, 0, prev.0, k);
    }
    InOrderExtend(prev.0, next, from, k);
  }

  /** The node callback's part of a group holds node events only. */
  lemma NodesStageInOrder(table: seq<string>, grid: NodeParser.Grid, cbs: Callbacks, g: PrimitiveGroup,
                          before: seq<Event>)
    ensures var r := NodesStage(table, grid, cbs, g, before).0;
      before <= r && InOrder(r, |before|) && NoLaterThan(r, |before|, 0)
  {
    var plain := Stage(NodeResults(table, grid, g.nodes), cbs.nodes, (before, None));
    StageInOrder(NodeResults(table, grid, g.nodes), cbs.nodes, (before, None), |before|, 0);
    if plain.1.None? && cbs.nodes && g.dense.Some? {
      NodeParser.DenseFromKeeps(table, grid, g.dense.value, 0, NodeParser.START, plain.0);
      InOrderExtend(plain.0, NodesStage(table, grid, cbs, g, before).0, |before|, 0);
    }
  }

  /**
   * Within one group the callbacks fire in the order nodes (plain, then
   * dense), ways, relations, changesets, after whatever came before.
   */
  lemma GroupInKindOrder(table: seq<string>, grid: NodeParser.Grid, cbs: Callbacks, g: PrimitiveGroup,
                         before: seq<Event>)
    ensures var r := GroupResult(table, grid, cbs, g, before).0;
      before <= r && InOrder(r, |before|)
  {
    var nodes := NodesStage(table, grid, cbs, g, before);
    NodesStageInOrder(table, grid, cbs, g, before);
    NoLaterThanWeaken(nodes.0, |before|, 0, 1);
    var ways := Stage(WayResults(table, g.ways), cbs.ways, nodes);
    StageInOrder(WayResults(table, g.ways), cbs.ways, nodes, |before|, 1);
    NoLaterThanWeaken(ways.0, |before|, 1, 2);
    var relations := Stage(RelationResults(table, g.relations), cbs.relations, ways);
    StageInOrder(RelationResults(table, g.relations), cbs.relations, ways, |before|, 2);
    NoLaterThanWeaken(relations.0, |before|, 2, 3);
    StageInOrder(ChangesetResults(g.changesets), cbs.changesets, relations, |before|, 3);
  }

  /** A kind whose callback is null is not decoded: its messages make no difference to the group. */
  lemma UnsetCallbackSkips(table: seq<string>, grid: NodeParser.Grid, cbs: Callbacks, g: PrimitiveGroup,
                           before: seq<Event>)
    ensures !cbs.nodes ==>
      GroupResult(table, grid, cbs, g, before) == GroupResult(table, grid, cbs, g.(nodes := [], dense := None), before)
    ensures !cbs.ways ==>
      GroupResult(table, grid, cbs, g, before) == GroupResult(table, grid, cbs, g.(ways := []), before)
    ensures !cbs.relations ==>
      GroupResult(table, grid, cbs, g, before) == GroupResult(table, grid, cbs, g.(relations := []), before)
    ensures !cbs.changesets ==>
      GroupResult(table, grid, cbs, g, before) == GroupResult(table, grid, cbs, g.(changesets := []), before)
  {
  }

  /** With no callback set nothing is decoded, and nothing can throw. */
  lemma NoCallbacksNoEvents(b: PrimitiveBlock, i: nat, emitted: seq<Event>)
    requires i <= |b.groups|
    ensures GroupsFrom(b, Callbacks(false, false, false, false), i, emitted) == (emitted, None)
    decreases |b.groups| - i
  {
    if i < |b.groups| {
      NoCallbacksNoEvents(b, i + 1, emitted);
    }
  }

  /** The groups loop never takes back what the callbacks received. */
  lemma {:induction false} GroupsKeep(b: PrimitiveBlock, cbs: Callbacks, i: nat, emitted: seq<Event>)
    requires i <= |b.groups|
    ensures emitted <= GroupsFrom(b, cbs, i, emitted).0
    decreases |b.groups| - i
  {
    if i < |b.groups| {
      var r := GroupResult(b.stringtable, BlockGrid(b), cbs, b.groups[i], emitted);
      GroupInKindOrder(b.stringtable, BlockGrid(b), cbs, b.groups[i], emitted);
      if r.1.None? {
        GroupsKeep(b, cbs, i + 1, r.0);
      }
    }
  }

  // ---------------------------------------------------------------------
  // Which exceptions come from where.
  // ---------------------------------------------------------------------

  /** The exceptions the entity parsers throw: a bad index, or an unknown member type. */
  predicate ParserError(e: Error)
  {
    e == IndexOutOfBounds || e == IllegalArgument
  }

  lemma {:induction false} DeliverErrors(rs: seq<Result<Event>>, i: nat, emitted: seq<Event>)
    requires i <= |rs|
    requires forall j :: i <= j < |rs| && rs[j].Err? ==> ParserError(rs[j].error)
    ensures var r := DeliverFrom(rs, i, emitted).1;
      r.Some? ==> ParserError(r.value)
    decreases |rs| - i
  {
    if i < |rs| && rs[i].Ok? {
      DeliverErrors(rs, i + 1, emitted + [rs[i].value]);
    }
  }

  lemma {:induction false} DenseErrors(table: seq<string>, grid: NodeParser.Grid, msg: DenseNodesMsg, indx: nat,
                                       st: NodeParser.DenseState, emitted: seq<Event>)
    requires indx <= |msg.id|
    ensures var r := NodeParser.DenseFrom(table, grid, msg, indx, st, emitted).1;
      r.Some? ==> r.value == IndexOutOfBounds
    decreases |msg.id| - indx
  {
    if indx < |msg.id| {
      var step := NodeParser.DenseStep(table, grid, msg, indx, st);
      if step.Ok? {
        DenseErrors(table, grid, msg, indx + 1, step.value.1, emitted + [NodeEvent(step.value.0)]);
      }
    }
  }

  lemma {:induction false} RelationMembersErrors(table: seq<string>, m: RelationMsg, acc: Int64, i: nat)
    requires i <= |m.rolesSid|
    ensures var r := RelationParser.ParseMembers(table, m, acc, i);
      r.Err? ==> ParserError(r.error)
    decreases |m.rolesSid| - i
  {
    if i < |m.rolesSid| && 0 <= m.rolesSid[i] < |table| && i < |m.memids| && i < |m.types| {
      RelationMembersErrors(table, m, WrapLong(acc as int + m.memids[i]), i + 1);
    }
  }

  lemma StageErrors(rs: seq<Result<Event>>, run: bool, prev: Delivery)
    requires prev.1.Some? ==> ParserError(prev.1.value)
    requires forall j :: 0 <= j < |rs| && rs[j].Err? ==> ParserError(rs[j].error)
    ensures var r := Stage(rs, run, prev).1;
      r.Some? ==> ParserError(r.value)
  {
    if prev.1.None? && run {
      DeliverErrors(rs, 0, prev.0);
    }
  }

  lemma GroupErrors(table: seq<string>, grid: NodeParser.Grid, cbs: Callbacks, g: PrimitiveGroup, before: seq<Event>)
    ensures var r := GroupResult(table, grid, cbs, g, before).1;
      r.Some? ==> ParserError(r.value)
  {
    var plain := Stage(NodeResults(table, grid, g.nodes), cbs.nodes, (before, None));
    StageErrors(NodeResults(table, grid, g.nodes), cbs.nodes, (before, None));
    if plain.1.None? && cbs.nodes && g.dense.Some? {
      DenseErrors(table, grid, g.dense.value, 0, NodeParser.START, plain.0);
    }
    var nodes := NodesStage(table, grid, cbs, g, before);
    StageErrors(WayResults(table, g.ways), cbs.ways, nodes);
    var ways := Stage(WayResults(table, g.ways), cbs.ways, nodes);
    var rr := RelationResults(table, g.relations);
    forall j | 0 <= j < |rr| && rr[j].Err?
      ensures ParserError(rr[j].error)
    {
      RelationMembersErrors(table, g.relations[j], 0, 0);
    }
    StageErrors(rr, cbs.relations, ways);
    StageErrors(ChangesetResults(g.changesets), cbs.changesets, Stage(rr, cbs.relations, ways));
  }

  lemma {:induction false} GroupsErrors(b: PrimitiveBlock, cbs: Callbacks, i: nat, emitted: seq<Event>)
    requires i <= |b.groups|
    ensures var r := GroupsFrom(b, cbs, i, emitted).1;
      r.Some? ==> ParserError(r.value)
    decreases |b.groups| - i
  {
    if i < |b.groups| {
      var r := GroupResult(b.stringtable, BlockGrid(b), cbs, b.groups[i], emitted);
      GroupErrors(b.stringtable, BlockGrid(b), cbs, b.groups[i], emitted);
      if r.1.None? {
        GroupsErrors(b, cbs, i + 1, r.0);
      }
    }
  }

  /**
   * `read` throws InvalidProtocolBuffer exactly when the payload is not a
   * PrimitiveBlock, and then before any callback fires; otherwise whatever it
   * throws comes from an entity parser, after the callbacks' earlier events.
   */
  lemma ReadFailure(pb: Protobuf, cbs: Callbacks, message: seq<Byte>, before: seq<Event>)
    ensures var r := ReadDataResult(pb, cbs, message, before);
      && (r.1 == Some(InvalidProtocolBuffer) <==> pb.parseBlock(message).None?)
      && (pb.parseBlock(message).None? ==> r.0 == before)
      && before <= r.0
      && (r.1.Some? && pb.parseBlock(message).Some? ==> ParserError(r.1.value))
  {
    if pb.parseBlock(message).Some? {
      GroupsErrors(pb.parseBlock(message).value, cbs, 0, before);
      GroupsKeep(pb.parseBlock(message).value, cbs, 0, before);
    }
  }

  // ---------------------------------------------------------------------
  // Changeset ids.
  // ---------------------------------------------------------------------

  /** The changeset ids of the groups from `i` on, in order. */
  function ChangesetIds(gs: seq<PrimitiveGroup>, i: nat): seq<Event>
    requires i <= |gs|
    decreases |gs| - i
  {
    if i == |gs| then []
    else seq(|gs[i].changesets|, j requires 0 <= j < |gs[i].changesets| => ChangesetEvent(gs[i].changesets[j].id))
         + ChangesetIds(gs, i + 1)
  }

  lemma {:induction false} DeliverChangesets(cs: seq<ChangeSetMsg>, i: nat, emitted: seq<Event>)
    requires i <= |cs|
    ensures DeliverFrom(ChangesetResults(cs), i, emitted)
         == (emitted + seq(|cs| - i, j requires 0 <= j < |cs| - i => ChangesetEvent(cs[i + j].id)), None)
    decreases |cs| - i
  {
    var ids := seq(|cs| - i, j requires 0 <= j < |cs| - i => ChangesetEvent(cs[i + j].id));
    if i == |cs| {
      assert emitted + ids == emitted;
    } else {
      DeliverChangesets(cs, i + 1, emitted + [ChangesetEvent(cs[i].id)]);
      var rest := seq(|cs| - (i + 1), j requires 0 <= j < |cs| - (i + 1) => ChangesetEvent(cs[i + 1 + j].id));
      assert ids == [ChangesetEvent(cs[i].id)] + rest;
      assert emitted + [ChangesetEvent(cs[i].id)] + rest == emitted + ids;
    }
  }

  /**
   * With only the changeset callback set, it receives every changeset id of
   * the remaining groups, group by group, in order, and nothing throws.
   */
  lemma {:induction false} ChangesetsInOrder(b: PrimitiveBlock, i: nat, emitted: seq<Event>)
    requires i <= |b.groups|
    ensures GroupsFrom(b, Callbacks(false, false, false, true), i, emitted) == (emitted + ChangesetIds(b.groups, i), None)
    decreases |b.groups| - i
  {
    if i == |b.groups| {
      assert emitted + [] == emitted;
    } else {
      var cs := b.groups[i].changesets;
      DeliverChangesets(cs, 0, emitted);
      var ids := seq(|cs| - 0, j requires 0 <= j < |cs| - 0 => ChangesetEvent(cs[0 + j].id));
      var here := seq(|cs|, j requires 0 <= j < |cs| => ChangesetEvent(cs[j].id));
      assert ids == here;
      ChangesetsInOrder(b, i + 1, emitted + here);
      assert emitted + here + ChangesetIds(b.groups, i + 1) == emitted + ChangesetIds(b.groups, i);
    }
  }

  /** A block read for its changesets only gives back each changeset's id, in order. */
  lemma ReadChangesets(pb: Protobuf, message: seq<Byte>, before: seq<Event>)
    requires pb.parseBlock(message).Some?
    ensures ReadDataResult(pb, Callbacks(false, false, false, true), message, before)
         == (before + ChangesetIds(pb.parseBlock(message).value.groups, 0), None)
  {
    ChangesetsInOrder(pb.parseBlock(message).value, 0, before);
  }

  // ---------------------------------------------------------------------
  // Reading back what OSMWriter writes.
  // ---------------------------------------------------------------------

  /**
   * The node callback of a reader given the block `flush` builds from the
   * dense encoder receives the encoder's nodes, snapped to the writer's grid,
   * in order, and nothing is thrown: the block's granularity and offsets are
   * the ones the node parser uses.
   */
  lemma WrittenDenseReadsBack(pb: Protobuf, message: seq<Byte>, cbs: Callbacks, msg: DenseNodesMsg, ns: seq<Node>,
                              tk: seq<seq<int>>, tv: seq<seq<int>>, strings: seq<string>, id: Int64, lat: Int64,
                              lon: Int64, nodesSize: int)
    requires DenseNodesEncoder.Collects(msg, ns, tk, tv, strings, id, lat, lon)
    requires nodesSize > 0 && cbs.nodes
    requires pb.parseBlock(message) == Some(OsmWriter.FlushedBlock(strings, msg, [], [], nodesSize, 0, 0))
    ensures ReadDataResult(pb, cbs, message, []) == (NodeParser.Restored(ns, |ns|), None)
  {
    var b := OsmWriter.FlushedBlock(strings, msg, [], [], nodesSize, 0, 0);
    var g := PrimitiveGroup([], Some(msg), [], [], []);
    assert b.groups == [g];
    var grid := BlockGrid(b);
    assert grid.granularity == 100 && grid.latOffset == 0 && grid.lonOffset == 0;
    NodeParser.DenseRoundTrip(msg, ns, tk, tv, strings, grid, id, lat, lon);
    DenseOnlyGroup(strings, grid, cbs, msg, []);
    assert GroupsFrom(b, cbs, 1, NodeParser.Restored(ns, |ns|)) == (NodeParser.Restored(ns, |ns|), None);
  }

  /** A group holding only dense nodes delivers what the dense parse does. */
  lemma DenseOnlyGroup(table: seq<string>, grid: NodeParser.Grid, cbs: Callbacks, msg: DenseNodesMsg, before: seq<Event>)
    requires cbs.nodes
    ensures GroupResult(table, grid, cbs, PrimitiveGroup([], Some(msg), [], [], []), before)
         == NodeParser.ParseDenseResult(table, grid, msg, before)
  {
    var g := PrimitiveGroup([], Some(msg), [], [], []);
    assert NodeResults(table, grid, []) == [];
    assert Stage(NodeResults(table, grid, g.nodes), cbs.nodes, (before, None)) == (before, None);
    var nodes := NodesStage(table, grid, cbs, g, before);
    assert nodes == NodeParser.ParseDenseResult(table, grid, msg, before);
    assert WayResults(table, []) == [] && RelationResults(table, []) == [] && ChangesetResults([]) == [];
  }

  // ---------------------------------------------------------------------
  // The reader.
  // ---------------------------------------------------------------------

  class DataReader {
    /** The callbacks, as one observer. */
    const sink: Sink
    const pb: Protobuf
    /** Which callbacks are set. */
    const callbacks: Callbacks

    constructor (sink: Sink, pb: Protobuf, callbacks: Callbacks)
      ensures this.sink == sink && this.pb == pb && this.callbacks == callbacks
    {
      this.sink := sink;
      this.pb := pb;
      this.callbacks := callbacks;
    }

    /** `read(message)`: the callbacks receive what the groups of the block hold, until an exception. */
    method Read(message: seq<Byte>) returns (r: Outcome)
      modifies sink
      ensures (sink.events, NodeParser.Thrown(r)) == ReadDataResult(pb, callbacks, message, old(sink.events))
    {
      var parsed := pb.parseBlock(message);
      if parsed.None? {
        return Fail(InvalidProtocolBuffer);
      }
      var primitives := parsed.value;
      var i := 0;
      while i < |primitives.groups|
        invariant i <= |primitives.groups|
        invariant GroupsFrom(primitives, callbacks, i, sink.events) == ReadDataResult(pb, callbacks, message, old(sink.events))
        decreases |primitives.groups| - i
      {
        var outcome := ReadGroup(primitives, primitives.groups[i]);
        if outcome.Fail? {
          return outcome;
        }
        i := i + 1;
      }
      r := Pass;
    }

    /** One pass of the groups loop. */
    method ReadGroup(primitives: PrimitiveBlock, group: PrimitiveGroup) returns (r: Outcome)
      modifies sink
      ensures (sink.events, NodeParser.Thrown(r))
           == GroupResult(primitives.stringtable, BlockGrid(primitives), callbacks, group, old(sink.events))
    {
      var table := primitives.stringtable;
      if callbacks.nodes {
        var parser := new NodeParser.NodeParser(sink, table, primitives.Granularity(), primitives.LatOffset(),
                                                primitives.LonOffset(), primitives.DateGranularity());
        r := ParseNodes(parser, group.nodes);
        if r.Fail? {
          return;
        }
        if group.dense.Some? {
          r := parser.ParseDense(group.dense.value);
          if r.Fail? {
            return;
          }
        }
      }
      if callbacks.ways {
        var parser := new WayParser.WayParser(sink, table);
        r := ParseWays(parser, group.ways);
        if r.Fail? {
          return;
        }
      }
      if callbacks.relations {
        var parser := new RelationParser.RelationParser(sink, table);
        r := ParseRelations(parser, group.relations);
        if r.Fail? {
          return;
        }
      }
      if callbacks.changesets {
        AcceptChangesets(sink, group.changesets);
      }
      r := Pass;
    }
  }

  /** `getNodesList().forEach(parser::parse)`. */
  method ParseNodes(parser: NodeParser.NodeParser, ms: seq<NodeMsg>) returns (r: Outcome)
    modifies parser.sink
    ensures (parser.sink.events, NodeParser.Thrown(r))
         == DeliverFrom(NodeResults(parser.stringTable, parser.Settings(), ms), 0, old(parser.sink.events))
  {
    var rs := NodeResults(parser.stringTable, parser.Settings(), ms);
    var i := 0;
    while i < |ms|
      invariant i <= |ms|
      invariant DeliverFrom(rs, i, parser.sink.events) == DeliverFrom(rs, 0, old(parser.sink.events))
      decreases |ms| - i
    {
      ghost var pre := parser.sink.events;
      r := parser.Parse(ms[i]);
      if r.Fail? {
        assert rs[i] == Err(r.error) && parser.sink.events == pre + [] == pre;
        return;
      }
      assert rs[i].Ok? && rs[i].value == parser.sink.events[|parser.sink.events| - 1];
      i := i + 1;
    }
    r := Pass;
  }

  /** `getWaysList().forEach(parser::parse)`. */
  method ParseWays(parser: WayParser.WayParser, ms: seq<WayMsg>) returns (r: Outcome)
    modifies parser.sink
    ensures (parser.sink.events, NodeParser.Thrown(r))
         == DeliverFrom(WayResults(parser.stringTable, ms), 0, old(parser.sink.events))
  {
    var rs := WayResults(parser.stringTable, ms);
    var i := 0;
    while i < |ms|
      invariant i <= |ms|
      invariant DeliverFrom(rs, i, parser.sink.events) == DeliverFrom(rs, 0, old(parser.sink.events))
      decreases |ms| - i
    {
      ghost var pre := parser.sink.events;
      r := parser.Parse(ms[i]);
      if r.Fail? {
        assert rs[i] == Err(r.error) && parser.sink.events == pre + [] == pre;
        return;
      }
      assert rs[i].Ok? && rs[i].value == parser.sink.events[|parser.sink.events| - 1];
      i := i + 1;
    }
    r := Pass;
  }

  /** `getRelationsList().forEach(parser::parse)`. */
  method ParseRelations(parser: RelationParser.RelationParser, ms: seq<RelationMsg>) returns (r: Outcome)
    modifies parser.sink
    ensures (parser.sink.events, NodeParser.Thrown(r))
         == DeliverFrom(RelationResults(parser.stringTable, ms), 0, old(parser.sink.events))
  {
    var rs := RelationResults(parser.stringTable, ms);
    var i := 0;
    while i < |ms|
      invariant i <= |ms|
      invariant DeliverFrom(rs, i, parser.sink.events) == DeliverFrom(rs, 0, old(parser.sink.events))
      decreases |ms| - i
    {
      ghost var pre := parser.sink.events;
      r := parser.Parse(ms[i]);
      if r.Fail? {
        assert rs[i] == Err(r.error) && parser.sink.events == pre + [] == pre;
        return;
      }
      assert rs[i].Ok? && rs[i].value == parser.sink.events[|parser.sink.events| - 1];
      i := i + 1;
    }
    r := Pass;
  }

  /** `getChangesetsList().forEach(...)`: each changeset's id to the callback. */
  method AcceptChangesets(sink: Sink, cs: seq<ChangeSetMsg>)
    modifies sink
    ensures (sink.events, None) == DeliverFrom(ChangesetResults(cs), 0, old(sink.events))
  {
    var rs := ChangesetResults(cs);
    var i := 0;
    while i < |cs|
      invariant i <= |cs|
      invariant DeliverFrom(rs, i, sink.events) == DeliverFrom(rs, 0, old(sink.events))
      decreases |cs| - i
    {
      sink.Accept(ChangesetEvent(cs[i].id));
      i := i + 1;
    }
  }
}
