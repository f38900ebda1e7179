/**
 * RelationEncoder: collects relations for one PrimitiveBlock, interning their
 * strings into the block-wide string table shared with the writer. Per relation
 * it interns the tags, then the username of the metadata, then every member's
 * role; member ids are delta coded and member types stored by enumeration ordinal.
 */
module RelationEncoder {
  import opened JavaInt
  import opened Wrappers
  import opened Entity
  import opened Osmformat
  import opened Delta
  import opened StringTable
  import opened OsmEntityEncoder
  import RelationMember

  /** A member entry: an int role index, a long member id and a one-byte type. */
  const RELATION_ENTRY_SIZE: nat := 13

  /**
   * The per-relation and per-tag charge of the estimate. The code reads a
   * MEMBER_ENTRY_SIZE its base class does not define; the model uses the 8 of
   * the sibling WayEncoder.
   */
  const MEMBER_ENTRY_SIZE: nat := 8

  /** The member ids of `ms`, in order. */
  function Ids(ms: seq<RelationMember.Member>): (ids: seq<Int64>)
    ensures |ids| == |ms|
  {
    seq(|ms|, i requires 0 <= i < |ms| => ms[i].id)
  }

  /** The wire numbers of the member types of `ms`: `MemberType.valueOf(type.ordinal())`. */
  function TypeNumbers(ms: seq<RelationMember.Member>): (ts: seq<Int32>)
    ensures |ts| == |ms|
  {
    seq(|ms|, i requires 0 <= i < |ms| => RelationMember.Ordinal(ms[i].memberType) as Int32)
  }

  /** Entry j of `sids` is a non-reserved index of `strings` holding the role of member j, for the first `n` members. */
  ghost predicate EncodesRoles(sids: seq<int>, members: seq<RelationMember.Member>, n: nat, strings: seq<string>)
  {
    && |sids| == n <= |members|
    && forall j :: 0 <= j < n ==> 1 <= sids[j] < |strings| && strings[sids[j]] == members[j].role
  }

  /** Growing the table at its end keeps the role indices valid. */
  lemma EncodesRolesExtend(sids: seq<int>, members: seq<RelationMember.Member>, n: nat,
                           strings: seq<string>, more: seq<string>)
    requires EncodesRoles(sids, members, n, strings) && Grows(strings, more)
    ensures EncodesRoles(sids, members, n, more)
  {
    forall j | 0 <= j < n
      ensures more[sids[j]] == strings[sids[j]]
    {
    }
  }

  /**
   * How the metadata is written: no metadata becomes the default Info message;
   * otherwise the username is a table index and the other fields are copied.
   */
  ghost predicate EncodesInfo(m: InfoMsg, info: Option<Info>, strings: seq<string>)
  {
    match info
    case None => m == DEFAULT_INFO
    case Some(i) =>
      && m.version == i.version && m.timestamp == i.timestamp && m.changeset == i.changeset
      && m.uid == i.uid && m.visible == Some(i.visible)
      && 1 <= m.userSid < |strings| && strings[m.userSid] == i.username
  }

  lemma EncodesInfoExtend(m: InfoMsg, info: Option<Info>, strings: seq<string>, more: seq<string>)
    requires EncodesInfo(m, info, strings) && Grows(strings, more)
    ensures EncodesInfo(m, info, more)
  {
  }

  /**
   * How `addImpl` writes `r`: same id, its tags, its metadata (always present),
   * one role index, one delta-coded id and one type number per member, in order.
   */
  ghost predicate EncodesRelation(m: RelationMsg, r: Relation, strings: seq<string>)
  {
    && m.id == r.id
    && EncodesTags(m.keys, m.vals, r.tags, strings)
    && m.info.Some? && EncodesInfo(m.info.value, r.info, strings)
    && EncodesRoles(m.rolesSid, r.members, |r.members|, strings)
    && m.memids == DeltaEncode(Ids(r.members))
    && m.types == TypeNumbers(r.members)
  }

  lemma EncodesRelationExtend(m: RelationMsg, r: Relation, strings: seq<string>, more: seq<string>)
    requires EncodesRelation(m, r, strings) && Grows(strings, more)
    ensures EncodesRelation(m, r, more)
  {
    EncodesTagsExtend(m.keys, m.vals, r.tags, strings, more);
    EncodesInfoExtend(m.info.value, r.info, strings, more);
    EncodesRolesExtend(m.rolesSid, r.members, |r.members|, strings, more);
  }

  /** Entry i of `ms` encodes `rs[i]`. */
  ghost predicate EncodesRelations(ms: seq<RelationMsg>, rs: seq<Relation>, strings: seq<string>)
  {
    |ms| == |rs| && forall i :: 0 <= i < |ms| ==> EncodesRelation(ms[i], rs[i], strings)
  }

  lemma EncodesRelationsSnoc(ms: seq<RelationMsg>, rs: seq<Relation>, strings: seq<string>, m: RelationMsg, r: Relation)
    requires EncodesRelations(ms, rs, strings) && EncodesRelation(m, r, strings)
    ensures EncodesRelations(ms + [m], rs + [r], strings)
  {
    forall i | 0 <= i < |ms| + 1
      ensures EncodesRelation((ms + [m])[i], (rs + [r])[i], strings)
    {
      if i < |ms| {
        assert (ms + [m])[i] == ms[i] && (rs + [r])[i] == rs[i];
      }
    }
  }

  /** Growing the table at its end keeps every entry valid. */
  lemma EncodesRelationsExtend(ms: seq<RelationMsg>, rs: seq<Relation>, strings: seq<string>, more: seq<string>)
    requires EncodesRelations(ms, rs, strings) && Grows(strings, more)
    ensures EncodesRelations(ms, rs, more)
  {
    forall i | 0 <= i < |ms|
      ensures EncodesRelation(ms[i], rs[i], more)
    {
      EncodesRelationExtend(ms[i], rs[i], strings, more);
    }
  }

  /** The number of tags over the first `n` relations of `rs`. */
  function TagCount(rs: seq<Relation>, n: nat): nat
    requires n <= |rs|
    decreases n
  {
    if n == 0 then 0 else TagCount(rs, n - 1) + |rs[n - 1].tags|
  }

  /** The number of members over the first `n` relations of `rs`. */
  function MemberCount(rs: seq<Relation>, n: nat): nat
    requires n <= |rs|
    decreases n
  {
    if n == 0 then 0 else MemberCount(rs, n - 1) + |rs[n - 1].members|
  }

  /** Appending a relation leaves the counts over the first `n` relations alone. */
  lemma {:induction false} CountsAppend(rs: seq<Relation>, r: Relation, n: nat)
    requires n <= |rs|
    ensures TagCount(rs + [r], n) == TagCount(rs, n)
    ensures MemberCount(rs + [r], n) == MemberCount(rs, n)
    decreases n
  {
    if n > 0 {
      CountsAppend(rs, r, n - 1);
      assert (rs + [r])[n - 1] == rs[n - 1];
    }
  }

  /**
   * The encoder's state stands for the relations `rs`: entry i of the group
   * encodes `rs[i]`, eight bytes are counted per tag and 13 per member.
   */
  ghost predicate Collects(ms: seq<RelationMsg>, rs: seq<Relation>, strings: seq<string>,
                           tagsLength: nat, membersLength: nat)
  {
    && EncodesRelations(ms, rs, strings)
    && tagsLength == MEMBER_ENTRY_SIZE * TagCount(rs, |rs|)
    && membersLength == RELATION_ENTRY_SIZE * MemberCount(rs, |rs|)
  }

  /** What one `add` does to the state, the table having grown meanwhile. */
  lemma AddStep(ms: seq<RelationMsg>, rs: seq<Relation>, before: seq<string>, after: seq<string>,
                tagsLength: nat, membersLength: nat, m: RelationMsg, r: Relation)
    requires Collects(ms, rs, before, tagsLength, membersLength) && Grows(before, after)
    requires EncodesRelation(m, r, after)
    ensures Collects(ms + [m], rs + [r], after,
                     tagsLength + |r.tags| * MEMBER_ENTRY_SIZE, membersLength + |r.members| * RELATION_ENTRY_SIZE)
  {
    EncodesRelationsExtend(ms, rs, before, after);
    EncodesRelationsSnoc(ms, rs, after, m, r);
    CountsAppend(rs, r, |rs|);
  }

  /** The state stays valid when another encoder grows the shared table. */
  lemma CollectsExtend(ms: seq<RelationMsg>, rs: seq<Relation>, strings: seq<string>, more: seq<string>,
                       tagsLength: nat, membersLength: nat)
    requires Collects(ms, rs, strings, tagsLength, membersLength) && Grows(strings, more)
    ensures Collects(ms, rs, more, tagsLength, membersLength)
  {
    EncodesRelationsExtend(ms, rs, strings, more);
  }

  class RelationEncoder {
    /** Set by `write`; `add` refuses to run afterwards. */
    var built: bool
    /** The block-wide string table, shared with the writer. */
    const stringEncoder: StringTableEncoder
    /** RELATION_ENTRY_SIZE times the number of members added. */
    var membersLength: nat
    /** MEMBER_ENTRY_SIZE times the number of tags added. */
    var tagsLength: nat
    /** The `relations` group being built. */
    var relations: seq<RelationMsg>
    /** The relations passed to `add`, in order. */
    ghost var added: seq<Relation>

    ghost predicate Valid()
      reads this, stringEncoder
    {
      && stringEncoder.Valid()
      && Collects(relations, added, stringEncoder.strings, tagsLength, membersLength)
    }

    constructor (stringTableEncoder: StringTableEncoder)
      requires stringTableEncoder.Valid()
      ensures Valid() && stringEncoder == stringTableEncoder
      ensures !built && relations == [] && added == []
    {
      built := false;
      stringEncoder := stringTableEncoder;
      membersLength := 0;
      tagsLength := 0;
      relations := [];
      added := [];
    }

    /**
     * `add(r)`: IllegalStateException after `write`; otherwise one more
     * relation in the group, encoding `r`, with the earlier entries kept.
     */
    method Add(r: Relation) returns (o: Outcome)
      requires Valid()
      modifies this, stringEncoder
      ensures Valid()
      ensures old(built) ==> o == Fail(IllegalState) && relations == old(relations) && added == old(added)
                             && stringEncoder.strings == old(stringEncoder.strings)
      ensures !old(built) ==> && o == Pass && added == old(added) + [r]
                              && |relations| == |old(relations)| + 1
                              && relations == old(relations) + [relations[|old(relations)|]]
                              && EncodesRelation(relations[|old(relations)|], r, stringEncoder.strings)
      ensures Grows(old(stringEncoder.strings), stringEncoder.strings)
      ensures built == old(built)
    {
      if built {
        return Fail(IllegalState);
      }
      ghost var before := stringEncoder.strings;
      var m := EncodeRelation(stringEncoder, r);
      AddStep(relations, added, before, stringEncoder.strings, tagsLength, membersLength, m, r);
      tagsLength, membersLength := tagsLength + |r.tags| * MEMBER_ENTRY_SIZE, membersLength + |r.members| * RELATION_ENTRY_SIZE;
      relations, added := relations + [m], added + [r];
      o := Pass;
    }

    /** `estimateSize()`: MEMBER_ENTRY_SIZE per relation and per tag, 13 bytes per member. */
    function EstimateSize(): (n: nat)
      reads this, stringEncoder
      requires Valid()
      ensures n == MEMBER_ENTRY_SIZE * (|added| + TagCount(added, |added|)) + RELATION_ENTRY_SIZE * MemberCount(added, |added|)
    {
      |relations| * MEMBER_ENTRY_SIZE + membersLength + tagsLength
    }

    /** `write()`: marks the encoder as built and hands out the group of relations. */
    method Write() returns (group: PrimitiveGroup)
      requires Valid()
      modifies this
      ensures Valid() && built && relations == old(relations) && added == old(added)
      ensures group == PrimitiveGroup([], None, [], relations, [])
    {
      built := true;
      group := PrimitiveGroup([], None, [], relations, []);
    }
  }

  /** The body of `addImpl`: tags, then the metadata, then the members. */
  method EncodeRelation(t: StringTableEncoder, r: Relation) returns (m: RelationMsg)
    requires t.Valid()
    modifies t
    ensures t.Valid()
    ensures Grows(old(t.strings), t.strings)
    ensures EncodesRelation(m, r, t.strings)
  {
    var keys, vals := EncodeTags(t, r.tags);
    ghost var s1 := t.strings;
    var info := EncodeInfo(t, r.info);
    ghost var s2 := t.strings;
    var rolesSid, memids, types := EncodeMembers(t, r.members);
    EncodesTagsExtend(keys, vals, r.tags, s1, s2);
    EncodesTagsExtend(keys, vals, r.tags, s2, t.strings);
    EncodesInfoExtend(info, r.info, s2, t.strings);
    m := RelationMsg(r.id, keys, vals, Some(info), rolesSid, memids, types);
  }

  /** The Info builder chain, or `Info.getDefaultInstance()` when there is no metadata. */
  method EncodeInfo(t: StringTableEncoder, info: Option<Info>) returns (m: InfoMsg)
    requires t.Valid()
    modifies t
    ensures t.Valid()
    ensures Grows(old(t.strings), t.strings)
    ensures EncodesInfo(m, info, t.strings)
  {
    if info.None? {
      return DEFAULT_INFO;
    }
    var i := info.value;
    var userSid := Intern(t, i.username);
    m := InfoMsg(i.version, i.timestamp, i.changeset, i.uid, userSid, Some(i.visible));
  }

  /**
   * The members loop after `i` members: its arrays hold the encoding of the
   * first `i` members and `member` is the id of the last of them (0 before any).
   */
  ghost predicate MembersSoFar(rolesSid: seq<int>, memids: seq<Int64>, types: seq<Int32>, member: Int64,
                               members: seq<RelationMember.Member>, i: nat, strings: seq<string>)
  {
    && i <= |members|
    && EncodesRoles(rolesSid, members, i, strings)
    && member == (if i == 0 then 0 else members[i - 1].id)
    && memids + DeltaFrom(member, Ids(members)[i..]) == DeltaEncode(Ids(members))
    && |types| == i
    && forall j :: 0 <= j < i ==> types[j] == RelationMember.Ordinal(members[j].memberType) as Int32
  }

  lemma MembersSoFarStart(members: seq<RelationMember.Member>, strings: seq<string>)
    ensures MembersSoFar([], [], [], 0, members, 0, strings)
  {
    assert Ids(members)[0..] == Ids(members);
  }

  /** One turn of the members loop. */
  lemma MembersSoFarStep(rolesSid: seq<int>, memids: seq<Int64>, types: seq<Int32>, member: Int64,
                         members: seq<RelationMember.Member>, i: nat, strings: seq<string>, sid: int)
    requires MembersSoFar(rolesSid, memids, types, member, members, i, strings) && i < |members|
    requires 1 <= sid < |strings| && strings[sid] == members[i].role
    ensures MembersSoFar(rolesSid + [sid], memids + [WrapLong(members[i].id as int - member)],
                         types + [RelationMember.Ordinal(members[i].memberType) as Int32],
                         members[i].id, members, i + 1, strings)
  {
    DeltaFromStep(Ids(members), i);
  }

  lemma MembersSoFarExtend(rolesSid: seq<int>, memids: seq<Int64>, types: seq<Int32>, member: Int64,
                           members: seq<RelationMember.Member>, i: nat, strings: seq<string>, more: seq<string>)
    requires MembersSoFar(rolesSid, memids, types, member, members, i, strings) && Grows(strings, more)
    ensures MembersSoFar(rolesSid, memids, types, member, members, i, more)
  {
    EncodesRolesExtend(rolesSid, members, i, strings, more);
  }

  lemma MembersSoFarDone(rolesSid: seq<int>, memids: seq<Int64>, types: seq<Int32>, member: Int64,
                         members: seq<RelationMember.Member>, strings: seq<string>)
    requires MembersSoFar(rolesSid, memids, types, member, members, |members|, strings)
    ensures EncodesRoles(rolesSid, members, |members|, strings)
    ensures memids == DeltaEncode(Ids(members))
    ensures types == TypeNumbers(members)
  {
  }

  /** One turn of the members loop, for member `i`. */
  method EncodeMember(t: StringTableEncoder, rolesSid: seq<int>, memids: seq<Int64>, types: seq<Int32>, member: Int64,
                      members: seq<RelationMember.Member>, i: nat)
    returns (rolesSid': seq<int>, memids': seq<Int64>, types': seq<Int32>, member': Int64)
    requires t.Valid() && i < |members|
    requires MembersSoFar(rolesSid, memids, types, member, members, i, t.strings)
    modifies t
    ensures t.Valid() && Grows(old(t.strings), t.strings)
    ensures MembersSoFar(rolesSid', memids', types', member', members, i + 1, t.strings)
  {
    var rm := members[i];
    ghost var before := t.strings;
    var sid := Intern(t, rm.role);
    MembersSoFarExtend(rolesSid, memids, types, member, members, i, before, t.strings);
    MembersSoFarStep(rolesSid, memids, types, member, members, i, t.strings, sid);
    rolesSid', memids', types' := rolesSid + [sid], memids + [WrapLong(rm.id as int - member)],
                                  types + [RelationMember.Ordinal(rm.memberType) as Int32];
    member' := rm.id;
  }

  /** The members loop: `addRolesSid(index(role)); addMemids(id - member); member = id; addTypes(ordinal)`. */
  method EncodeMembers(t: StringTableEncoder, members: seq<RelationMember.Member>)
    returns (rolesSid: seq<int>, memids: seq<Int64>, types: seq<Int32>)
    requires t.Valid()
    modifies t
    ensures t.Valid()
    ensures Grows(old(t.strings), t.strings)
    ensures EncodesRoles(rolesSid, members, |members|, t.strings)
    ensures memids == DeltaEncode(Ids(members))
    ensures types == TypeNumbers(members)
  {
    rolesSid, memids, types := [], [], [];
    var member: Int64 := 0;
    MembersSoFarStart(members, t.strings);
    var i := 0;
    while i < |members|
      invariant t.Valid()
      invariant Grows(old(t.strings), t.strings)
      invariant MembersSoFar(rolesSid, memids, types, member, members, i, t.strings)
      decreases |members| - i
    {
      rolesSid, memids, types, member := EncodeMember(t, rolesSid, memids, types, member, members, i);
      i := i + 1;
    }
    MembersSoFarDone(rolesSid, memids, types, member, members, t.strings);
  }
}
