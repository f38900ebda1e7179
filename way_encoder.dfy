/**
 * WayEncoder: collects ways for one PrimitiveBlock. Each way keeps its id,
 * its tags as string-table indices and its node references delta coded; the
 * encoder refuses new ways once `write` has been called.
 */
module WayEncoder {
  import opened JavaInt
  import opened Wrappers
  import opened Entity
  import opened Osmformat
  import opened Delta
  import opened StringTable
  import opened OsmEntityEncoder

  /** A way entry is eight bytes: the estimate charges this per way, per tag and per node. */
  const MEMBER_ENTRY_SIZE: nat := 8

  /** How `add` writes `w`: same id, its tags, its node ids delta coded, no metadata. */
  ghost predicate EncodesWay(m: WayMsg, w: Way, strings: seq<string>)
  {
    && m.id == w.id
    && EncodesTags(m.keys, m.vals, w.tags, strings)
    && m.refs == DeltaEncode(w.nodes)
    && m.info == None
  }

  /** Entry i of `ms` encodes `ws[i]`. */
  ghost predicate EncodesWays(ms: seq<WayMsg>, ws: seq<Way>, strings: seq<string>)
  {
    |ms| == |ws| && forall i :: 0 <= i < |ms| ==> EncodesWay(ms[i], ws[i], strings)
  }

  /** Appending an entry extends the group. */
  lemma EncodesWaysSnoc(ms: seq<WayMsg>, ws: seq<Way>, strings: seq<string>, m: WayMsg, w: Way)
    requires EncodesWays(ms, ws, strings) && EncodesWay(m, w, strings)
    ensures EncodesWays(ms + [m], ws + [w], strings)
  {
    forall i | 0 <= i < |ms| + 1
      ensures EncodesWay((ms + [m])[i], (ws + [w])[i], strings)
    {
      if i < |ms| {
        assert (ms + [m])[i] == ms[i] && (ws + [w])[i] == ws[i];
      }
    }
  }

  /** Growing the table at its end keeps every entry valid. */
  lemma EncodesWaysExtend(ms: seq<WayMsg>, ws: seq<Way>, strings: seq<string>, more: seq<string>)
    requires EncodesWays(ms, ws, strings) && Grows(strings, more)
    ensures EncodesWays(ms, ws, more)
  {
    forall i | 0 <= i < |ms|
      ensures EncodesWay(ms[i], ws[i], more)
    {
      EncodesTagsExtend(ms[i].keys, ms[i].vals, ws[i].tags, strings, more);
    }
  }

  /** The number of tags over the first `n` ways of `ws`. */
  function TagCount(ws: seq<Way>, n: nat): nat
    requires n <= |ws|
    decreases n
  {
    if n == 0 then 0 else TagCount(ws, n - 1) + |ws[n - 1].tags|
  }

  /** The number of node references over the first `n` ways of `ws`. */
  function NodeCount(ws: seq<Way>, n: nat): nat
    requires n <= |ws|
    decreases n
  {
    if n == 0 then 0 else NodeCount(ws, n - 1) + |ws[n - 1].nodes|
  }

  /** Appending a way leaves the counts over the first `n` ways alone. */
  lemma {:induction false} CountsAppend(ws: seq<Way>, w: Way, n: nat)
    requires n <= |ws|
    ensures TagCount(ws + [w], n) == TagCount(ws, n)
    ensures NodeCount(ws + [w], n) == NodeCount(ws, n)
    decreases n
  {
    if n > 0 {
      CountsAppend(ws, w, n - 1);
      assert (ws + [w])[n - 1] == ws[n - 1];
    }
  }

  lemma CountsSnoc(ws: seq<Way>, w: Way)
    ensures TagCount(ws + [w], |ws| + 1) == TagCount(ws, |ws|) + |w.tags|
    ensures NodeCount(ws + [w], |ws| + 1) == NodeCount(ws, |ws|) + |w.nodes|
  {
    CountsAppend(ws, w, |ws|);
  }

  /**
   * The encoder's state stands for the ways `ws`: entry i of the group encodes
   * `ws[i]`, and the two counters are eight bytes per tag and per node reference.
   */
  ghost predicate Collects(ms: seq<WayMsg>, ws: seq<Way>, strings: seq<string>, tagsLength: nat, membersLength: nat)
  {
    && EncodesWays(ms, ws, strings)
    && tagsLength == MEMBER_ENTRY_SIZE * TagCount(ws, |ws|)
    && membersLength == MEMBER_ENTRY_SIZE * NodeCount(ws, |ws|)
  }

  /** What one `add` does to the state, the table having grown meanwhile. */
  lemma AddStep(ms: seq<WayMsg>, ws: seq<Way>, before: seq<string>, after: seq<string>,
                tagsLength: nat, membersLength: nat, m: WayMsg, w: Way)
    requires Collects(ms, ws, before, tagsLength, membersLength) && Grows(before, after) && EncodesWay(m, w, after)
    ensures Collects(ms + [m], ws + [w], after,
                     tagsLength + |w.tags| * MEMBER_ENTRY_SIZE, membersLength + |w.nodes| * MEMBER_ENTRY_SIZE)
  {
    EncodesWaysExtend(ms, ws, before, after);
    EncodesWaysSnoc(ms, ws, after, m, w);
    CountsSnoc(ws, w);
  }

  /** The state stays valid when another encoder grows the shared table. */
  lemma CollectsExtend(ms: seq<WayMsg>, ws: seq<Way>, strings: seq<string>, more: seq<string>,
                       tagsLength: nat, membersLength: nat)
    requires Collects(ms, ws, strings, tagsLength, membersLength) && Grows(strings, more)
    ensures Collects(ms, ws, more, tagsLength, membersLength)
  {
    EncodesWaysExtend(ms, ws, strings, more);
  }

  class WayEncoder {
    /** Set by `write`; `add` refuses to run afterwards. */
    var built: bool
    /**
     * The string table the way entries index. WayEncoder.java creates a private
     * one (`new WayEncoder(new StringTableEncoder())` here); OSMWriter passes
     * its block-wide table.
     */
    const table: StringTableEncoder
    /** MEMBER_ENTRY_SIZE times the number of node references added. */
    var membersLength: nat
    /** MEMBER_ENTRY_SIZE times the number of tags added. */
    var tagsLength: nat
    /** The `ways` group being built. */
    var ways: seq<WayMsg>
    /** The ways passed to `add`, in order. */
    ghost var added: seq<Way>

    /** Entry i of the group encodes the i-th added way, and the counters count them. */
    ghost predicate Valid()
      reads this, table
    {
      && table.Valid()
      && Collects(ways, added, table.strings, tagsLength, membersLength)
    }

    constructor (stringTable: StringTableEncoder)
      requires stringTable.Valid()
      ensures Valid() && table == stringTable
      ensures !built && ways == [] && added == []
    {
      built := false;
      table := stringTable;
      membersLength := 0;
      tagsLength := 0;
      ways := [];
      added := [];
    }

    /**
     * `add(w)`: IllegalStateException after `write`; otherwise one more way
     * in the group, encoding `w`, with the earlier entries kept.
     */
    method Add(w: Way) returns (r: Outcome)
      requires Valid()
      modifies this, table
      ensures Valid()
      ensures old(built) ==> r == Fail(IllegalState) && ways == old(ways) && added == old(added)
                             && table.strings == old(table.strings)
      ensures !old(built) ==> && r == Pass && added == old(added) + [w]
                              && |ways| == |old(ways)| + 1 && ways == old(ways) + [ways[|old(ways)|]]
                              && EncodesWay(ways[|old(ways)|], w, table.strings)
      ensures Grows(old(table.strings), table.strings)
      ensures built == old(built)
    {
      if built {
        return Fail(IllegalState);
      }
      ghost var before := table.strings;
      var m := EncodeWay(table, w);
      AddStep(ways, added, before, table.strings, tagsLength, membersLength, m, w);
      tagsLength, membersLength := tagsLength + |w.tags| * MEMBER_ENTRY_SIZE, membersLength + |w.nodes| * MEMBER_ENTRY_SIZE;
      ways, added := ways + [m], added + [w];
      r := Pass;
    }

    /**
     * `estimateSize()`: the length of every table string plus eight bytes per
     * node reference, per tag and per way.
     */
    function EstimateSize(): (r: nat)
      reads this, table
      requires Valid()
      ensures r == TotalLength(table.strings) + MEMBER_ENTRY_SIZE * (NodeCount(added, |added|) + TagCount(added, |added|) + |added|)
    {
      table.GetStringSize() + membersLength + tagsLength + |ways| * MEMBER_ENTRY_SIZE
    }

    /**
     * `write()`: marks the encoder as built and returns the block holding the
     * string table and one group with the collected ways (before serialization).
     */
    method Write() returns (block: PrimitiveBlock)
      requires Valid()
      modifies this
      ensures Valid() && built && ways == old(ways) && added == old(added)
      ensures block == PrimitiveBlock(table.strings, [PrimitiveGroup([], None, ways, [], [])], None, None, None, None)
    {
      built := true;
      block := PrimitiveBlock(table.strings, [PrimitiveGroup([], None, ways, [], [])], None, None, None, None);
    }
  }

  /** The body of `add` once the built check has passed: tags first, then the refs. */
  method EncodeWay(t: StringTableEncoder, w: Way) returns (m: WayMsg)
    requires t.Valid()
    modifies t
    ensures t.Valid()
    ensures Grows(old(t.strings), t.strings)
    ensures EncodesWay(m, w, t.strings)
  {
    var keys, vals := EncodeTags(t, w.tags);
    var refs := EncodeRefs(w.nodes);
    m := WayMsg(w.id, keys, vals, None, refs);
  }

  /** The refs loop of `add`: `addRefs(node - member); member = node`. */
  method EncodeRefs(nodes: seq<Int64>) returns (refs: seq<Int64>)
    ensures refs == DeltaEncode(nodes)
  {
    refs := [];
    var member: Int64 := 0;
    var i := 0;
    while i < |nodes|
      invariant 0 <= i <= |nodes|
      invariant member == if i == 0 then 0 else nodes[i - 1]
      invariant refs + DeltaFrom(member, nodes[i..]) == DeltaEncode(nodes)
    {
      DeltaFromStep(nodes, i);
      refs := refs + [WrapLong(nodes[i] as int - member)];
      member := nodes[i];
      i := i + 1;
    }
  }
}
