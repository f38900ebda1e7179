/**
 * WayParser: decodes one Way message, restoring its node references from
 * their deltas with a running sum, and hands the way to the callback.
 */
module WayParser {
  import opened JavaInt
  import opened Wrappers
  import opened Entity
  import opened Osmformat
  import opened Delta
  import opened BaseParser
  import WayEncoder

  /**
   * The way `parse(message)` passes to the callback: the message's id, its
   * tags and metadata, and the running sums of its refs; or the exception
   * the tags or the metadata throw.
   */
  function ParseWayResult(table: seq<string>, m: WayMsg): Result<Way>
  {
    var tags := TagsResult(table, m.keys, m.vals);
    if tags.Err? then Err(tags.error)
    else
      var info := ConvertInfo(table, m.info);
      if info.Err? then Err(info.error)
      else Ok(Way(m.id, tags.value, info.value, PrefixSums(m.refs)))
  }

  /**
   * Parsing what WayEncoder wrote gives back the way's id, tags and node
   * list; the encoder writes no metadata, so none comes back.
   */
  lemma WayRoundTrip(m: WayMsg, w: Way, strings: seq<string>)
    requires WayEncoder.EncodesWay(m, w, strings)
    ensures ParseWayResult(strings, m) == Ok(Way(w.id, w.tags, None, w.nodes))
  {
    DecodeEncode(w.nodes);
  }

  /**
   * Node `k` of a parsed way is the sum, in `long` arithmetic, of the first
   * `k + 1` refs, and there is one node per ref.
   */
  lemma ParsedNodes(table: seq<string>, m: WayMsg, k: nat)
    requires ParseWayResult(table, m).Ok? && k < |m.refs|
    ensures |ParseWayResult(table, m).value.nodes| == |m.refs|
    ensures ParseWayResult(table, m).value.nodes[k] == WrapLong(Sum(m.refs[..k + 1]))
  {
    PrefixSumsAt(m.refs, k);
  }

  class WayParser {
    /** The callbacks. */
    const sink: Sink
    /** The block's string table. */
    const stringTable: seq<string>

    constructor (sink: Sink, stringTable: seq<string>)
      ensures this.sink == sink && this.stringTable == stringTable
    {
      this.sink := sink;
      this.stringTable := stringTable;
    }

    /**
     * `parse(message)`: the callback receives the decoded way once, or the
     * exception propagates and it receives nothing.
     */
    method Parse(m: WayMsg) returns (r: Outcome)
      modifies sink
      ensures var w := ParseWayResult(stringTable, m);
        && (r.Pass? <==> w.Ok?)
        && (w.Err? ==> r == Fail(w.error))
        && sink.events == old(sink.events) + (if w.Ok? then [WayEvent(w.value)] else [])
    {
      var tags := ParseTags(stringTable, m.keys, m.vals);
      if tags.Err? {
        return Fail(tags.error);
      }
      var info := ConvertInfo(stringTable, m.info);
      if info.Err? {
        return Fail(info.error);
      }
      var nodes := SumRefs(m.refs);
      sink.Accept(WayEvent(Way(m.id, tags.value, info.value, nodes)));
      r := Pass;
    }
  }

  /** The refs loop of `parse`: `nodeId += node`, appending each sum. */
  method SumRefs(refs: seq<Int64>) returns (nodes: seq<Int64>)
    ensures nodes == PrefixSums(refs)
  {
    nodes := [];
    var nodeId: Int64 := 0;
    var i := 0;
    while i < |refs|
      invariant 0 <= i <= |refs|
      invariant nodes + SumsFrom(nodeId, refs[i..]) == PrefixSums(refs)
    {
      SumsFromStep(nodeId, refs, i);
      nodeId := WrapLong(nodeId as int + refs[i]);
      nodes := nodes + [nodeId];
      i := i + 1;
    }
  }
}
