/**
 * RelationParser: decodes one Relation message. Member ids are restored from
 * their deltas with a running sum, roles looked up in the string table and
 * member types mapped from their protobuf numbers; the relation then goes to
 * the callback.
 */
module RelationParser {
  import opened JavaInt
  import opened Wrappers
  import opened Entity
  import opened Osmformat
  import opened Delta
  import opened BaseParser
  import RelationMember
  import RelationEncoder

  /**
   * The members loop from index `i` on, the running member id being `acc`:
   * one member per role entry, each reading its role, then its id delta, then
   * its type, and throwing at the first that is missing or invalid.
   */
  function ParseMembers(table: seq<string>, m: RelationMsg, acc: Int64, i: nat): Result<seq<RelationMember.Member>>
    requires i <= |m.rolesSid|
    decreases |m.rolesSid| - i
  {
    if i == |m.rolesSid| then Ok([])
    else if !(0 <= m.rolesSid[i] < |table|) || i >= |m.memids| || i >= |m.types| then Err(IndexOutOfBounds)
    else
      var memberId := WrapLong(acc as int + m.memids[i]);
      var memberType := RelationMember.Get(m.types[i]);
      if memberType.Err? then Err(memberType.error)
      else
        var rest := ParseMembers(table, m, memberId, i + 1);
        if rest.Err? then rest
        else Ok([RelationMember.Member(memberId, table[m.rolesSid[i]], memberType.value)] + rest.value)
  }

  /**
   * The relation `parse(message)` passes to the callback: the message's id,
   * tags, metadata and members; or the first exception thrown on the way.
   */
  function ParseRelationResult(table: seq<string>, m: RelationMsg): Result<Relation>
  {
    var tags := TagsResult(table, m.keys, m.vals);
    if tags.Err? then Err(tags.error)
    else
      var info := ConvertInfo(table, m.info);
      if info.Err? then Err(info.error)
      else
        var members := ParseMembers(table, m, 0, 0);
        if members.Err? then Err(members.error)
        else Ok(Relation(m.id, tags.value, info.value, members.value))
  }

  /** `ms` in front of a successful result; an exception stays as it is. */
  function Prepend(ms: seq<RelationMember.Member>, r: Result<seq<RelationMember.Member>>): Result<seq<RelationMember.Member>>
  {
    if r.Ok? then Ok(ms + r.value) else r
  }

  lemma PrependEmpty(r: Result<seq<RelationMember.Member>>)
    ensures Prepend([], r) == r
  {
    if r.Ok? {
      assert [] + r.value == r.value;
    }
  }

  lemma PrependSnoc(ms: seq<RelationMember.Member>, x: RelationMember.Member, r: Result<seq<RelationMember.Member>>)
    ensures Prepend(ms, Prepend([x], r)) == Prepend(ms + [x], r)
  {
    if r.Ok? {
      assert ms + ([x] + r.value) == (ms + [x]) + r.value;
    }
  }

  /**
   * Parsing the members RelationEncoder wrote, from member `i` on, gives back
   * those members: ids, roles and types, in order.
   */
  lemma {:induction false} MembersRoundTrip(strings: seq<string>, m: RelationMsg, members: seq<RelationMember.Member>, i: nat)
    requires RelationEncoder.EncodesRoles(m.rolesSid, members, |members|, strings)
    requires m.memids == DeltaEncode(RelationEncoder.Ids(members))
    requires m.types == RelationEncoder.TypeNumbers(members)
    requires i <= |members|
    ensures ParseMembers(strings, m, if i == 0 then 0 else members[i - 1].id, i) == Ok(members[i..])
    decreases |members| - i
  {
    if i < |members| {
      var ids := RelationEncoder.Ids(members);
      DeltaEncodeAt(ids, i);
      MemberStep(strings, m, members[i], i, if i == 0 then 0 else members[i - 1].id);
      MembersRoundTrip(strings, m, members, i + 1);
      assert members[i..] == [members[i]] + members[i + 1..];
    }
  }

  /**
   * One turn of the members loop over an entry the encoder wrote: role index,
   * id delta against the running id `acc` and type number read back `member`.
   */
  lemma MemberStep(strings: seq<string>, m: RelationMsg, member: RelationMember.Member, i: nat, acc: Int64)
    requires i < |m.rolesSid| && i < |m.memids| && i < |m.types|
    requires 0 <= m.rolesSid[i] < |strings| && strings[m.rolesSid[i]] == member.role
    requires m.memids[i] == WrapLong(member.id as int - acc)
    requires m.types[i] == RelationMember.Ordinal(member.memberType) as Int32
    ensures ParseMembers(strings, m, acc, i) == Prepend([member], ParseMembers(strings, m, member.id, i + 1))
  {
    AddWrappedDifference(acc, member.id, m.memids[i], WrapLong(acc as int + m.memids[i]));
    RelationMember.OrdinalIsValue(member.memberType);
    RelationMember.GetOfValue(member.memberType);
  }

  /**
   * Parsing what RelationEncoder wrote gives back the relation: id, tags and
   * members, and its metadata; a relation written without metadata carries
   * the default Info message, which reads back as uid 0, the empty username,
   * version -1, timestamp and changeset 0, visible.
   */
  lemma RelationRoundTrip(m: RelationMsg, r: Relation, strings: seq<string>)
    requires RelationEncoder.EncodesRelation(m, r, strings)
    requires |strings| > 0 && strings[0] == ""
    ensures ParseRelationResult(strings, m)
         == Ok(Relation(r.id, r.tags, Some(if r.info.Some? then r.info.value else Info(0, "", -1, 0, 0, true)), r.members))
  {
    MembersRoundTrip(strings, m, r.members, 0);
    assert r.members[0..] == r.members;
  }

  class RelationParser {
    /** The callbacks. */
    const sink: Sink
    /** The block's string table. */
    const stringTable: seq<string>

    constructor (sink: Sink, stringTable: seq<string>)
      ensures this.sink == sink && this.stringTable == stringTable
    {
      this.sink := sink;
      this.stringTable := stringTable;
    }

    /**
     * `parse(message)`: the callback receives the decoded relation once, or
     * the exception propagates and it receives nothing.
     */
    method Parse(m: RelationMsg) returns (r: Outcome)
      modifies sink
      ensures var rel := ParseRelationResult(stringTable, m);
        && (r.Pass? <==> rel.Ok?)
        && (rel.Err? ==> r == Fail(rel.error))
        && sink.events == old(sink.events) + (if rel.Ok? then [RelationEvent(rel.value)] else [])
    {
      var tags := ParseTags(stringTable, m.keys, m.vals);
      if tags.Err? {
        return Fail(tags.error);
      }
      var info := ConvertInfo(stringTable, m.info);
      if info.Err? {
        return Fail(info.error);
      }
      var members := DecodeMembers(stringTable, m);
      if members.Err? {
        return Fail(members.error);
      }
      sink.Accept(RelationEvent(Relation(m.id, tags.value, info.value, members.value)));
      r := Pass;
    }
  }

  /** The members loop of `parse`: `memberId += memids[indx]`, one member per role entry. */
  method DecodeMembers(table: seq<string>, m: RelationMsg) returns (r: Result<seq<RelationMember.Member>>)
    ensures r == ParseMembers(table, m, 0, 0)
  {
    var members: seq<RelationMember.Member> := [];
    var memberId: Int64 := 0;
    var indx := 0;
    PrependEmpty(ParseMembers(table, m, 0, 0));
    while indx < |m.rolesSid|
      invariant indx <= |m.rolesSid|
      invariant Prepend(members, ParseMembers(table, m, memberId, indx)) == ParseMembers(table, m, 0, 0)
      decreases |m.rolesSid| - indx
    {
      if !(0 <= m.rolesSid[indx] < |table|) || indx >= |m.memids| || indx >= |m.types| {
        return Err(IndexOutOfBounds);
      }
      var role := table[m.rolesSid[indx]];
      memberId := WrapLong(memberId as int + m.memids[indx]);
      var memberType := RelationMember.Get(m.types[indx]);
      if memberType.Err? {
        return Err(memberType.error);
      }
      var member := RelationMember.Member(memberId, role, memberType.value);
      PrependSnoc(members, member, ParseMembers(table, m, memberId, indx + 1));
      members := members + [member];
      indx := indx + 1;
    }
    assert members + [] == members;
    r := Ok(members);
  }
}
