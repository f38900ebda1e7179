/**
 * A relation participant and its type. The type enumeration carries the number
 * the protobuf MemberType uses for it; `Get` maps a number back by searching the
 * enumeration in declaration order.
 */
module RelationMember {
  import opened JavaInt
  import opened Wrappers

  datatype Type = Node | Way | Relation

  /** `Type.values()`: the enumeration in declaration order. */
  const Values: seq<Type> := [Node, Way, Relation]

  /** The protobuf member-type number each enumeration entry is constructed with. */
  function Value(t: Type): Int32
  {
    match t
    case Node => 0
    case Way => 1
    case Relation => 2
  }

  /** Java's `ordinal()`: the position of the entry in declaration order. */
  function Ordinal(t: Type): (i: nat)
    ensures i < |Values| && Values[i] == t
  {
    match t
    case Node => 0
    case Way => 1
    case Relation => 2
  }

  /** The loop of `Type.get` over `ts`: the first entry whose value is `v`. */
  function Search(ts: seq<Type>, v: int): (r: Result<Type>)
    ensures r.Ok? <==> exists i :: 0 <= i < |ts| && Value(ts[i]) == v
    ensures r.Ok? ==> Value(r.value) == v && r.value in ts
    ensures r.Err? ==> r.error == IllegalArgument
  {
    if ts == [] then Err(IllegalArgument)
    else if Value(ts[0]) == v then Ok(ts[0])
    else
      var r := Search(ts[1..], v);
      assert r.Ok? ==> r.value in ts[1..];
      assert forall i :: 1 <= i < |ts| ==> ts[i] == ts[1..][i - 1];
      r
  }

  /** `Type.get`: the entry for a protobuf number; IllegalArgumentException for any other number. */
  function Get(v: int): (r: Result<Type>)
    ensures r.Ok? <==> 0 <= v <= 2
    ensures r.Ok? ==> Value(r.value) == v
    ensures r.Err? ==> r.error == IllegalArgument
  {
    var r := Search(Values, v);
    assert Value(Values[0]) == 0 && Value(Values[1]) == 1 && Value(Values[2]) == 2;
    r
  }

  /** Looking up an entry's own number finds that entry. */
  lemma GetOfValue(t: Type)
    ensures Get(Value(t)) == Ok(t)
  {
    var r := Get(Value(t));
    assert Value(r.value) == Value(t);
  }

  /** Declaration order agrees with the protobuf numbers, so encoding by ordinal is encoding by value. */
  lemma OrdinalIsValue(t: Type)
    ensures Ordinal(t) == Value(t)
  {
  }

  /** A participant of a relation: the referenced id, its role and its type. */
  datatype Member = Member(id: Int64, role: string, memberType: Type)
}
