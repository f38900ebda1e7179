/**
 * BaseParser: what every entity parser shares. A parser holds the block's
 * string table and the callback its entities go to; tags are zipped from the
 * parallel key and value index arrays, and the optional Info message becomes
 * the entity's metadata.
 */
module BaseParser {
  import opened JavaInt
  import opened Wrappers
  import opened Entity
  import opened Osmformat

  /** What the callbacks receive, tagged by the callback that receives it. */
  datatype Event =
    | NodeEvent(node: Node)
    | WayEvent(way: Way)
    | RelationEvent(relation: Relation)
    | ChangesetEvent(id: Int64)
    | HeaderEvent(header: Header)
    | BoundBoxEvent(bbox: BoundBox)

  /**
   * The callbacks as one observer: every `accept` on any of them appends to
   * `events`, so the order across callbacks is visible.
   */
  class Sink {
    var events: seq<Event>

    constructor ()
      ensures events == []
    {
      events := [];
    }

    /** One `accept` call. */
    method Accept(e: Event)
      modifies this
      ensures events == old(events) + [e]
    {
      events := events + [e];
    }
  }

  /** The tags of `keys` / `vals`, or IndexOutOfBounds for an index outside the lists or the table. */
  function TagsResult(table: seq<string>, keys: seq<int>, vals: seq<int>): Result<Tags>
  {
    if TagIndicesIn(keys, vals, |keys|, table) then Ok(TagsOf(keys, vals, |keys|, table)) else Err(IndexOutOfBounds)
  }

  /**
   * `parseTags(keys, values)`: `put(table[keys[i]], table[vals[i]])` for every
   * `i` of `keys`, so a later key replaces an earlier one; an index outside
   * `vals` or the table throws IndexOutOfBounds.
   */
  method ParseTags(table: seq<string>, keys: seq<int>, vals: seq<int>) returns (r: Result<Tags>)
    ensures r.Ok? <==> TagIndicesIn(keys, vals, |keys|, table)
    ensures r.Ok? ==> r.value == TagsOf(keys, vals, |keys|, table)
    ensures r.Err? ==> r.error == IndexOutOfBounds
  {
    var result: Tags := map[];
    var indx := 0;
    while indx < |keys|
      invariant indx <= |keys| && TagIndicesIn(keys, vals, indx, table)
      invariant result == TagsOf(keys, vals, indx, table)
    {
      if !(0 <= keys[indx] < |table|) || indx >= |vals| || !(0 <= vals[indx] < |table|) {
        return Err(IndexOutOfBounds);
      }
      result := result[table[keys[indx]] := table[vals[indx]]];
      indx := indx + 1;
    }
    r := Ok(result);
  }

  /**
   * The keys of the first `n` entries are exactly the keys the map has, and
   * each key maps to the value of its last entry.
   */
  lemma {:induction false} TagsOfLastWins(keys: seq<int>, vals: seq<int>, n: nat, table: seq<string>)
    requires TagIndicesIn(keys, vals, n, table)
    ensures forall k :: k in TagsOf(keys, vals, n, table) <==> exists j :: 0 <= j < n && table[keys[j]] == k
    ensures forall j :: 0 <= j < n && (forall l :: j < l < n ==> table[keys[l]] != table[keys[j]]) ==>
              TagsOf(keys, vals, n, table)[table[keys[j]]] == table[vals[j]]
    decreases n
  {
    if n > 0 {
      TagsOfLastWins(keys, vals, n - 1, table);
      var prev := TagsOf(keys, vals, n - 1, table);
      var m := TagsOf(keys, vals, n, table);
      assert m == prev[table[keys[n - 1]] := table[vals[n - 1]]];
      forall k
        ensures k in m <==> exists j :: 0 <= j < n && table[keys[j]] == k
      {
        if k in m && k != table[keys[n - 1]] {
          assert k in prev;
        }
      }
    }
  }

  /** The map has at most one tag per entry. */
  lemma {:induction false} TagsOfSize(keys: seq<int>, vals: seq<int>, n: nat, table: seq<string>)
    requires TagIndicesIn(keys, vals, n, table)
    ensures |TagsOf(keys, vals, n, table)| <= n
    decreases n
  {
    if n > 0 {
      TagsOfSize(keys, vals, n - 1, table);
      var m := TagsOf(keys, vals, n - 1, table);
      var k := table[keys[n - 1]];
      if k in m {
        assert m[k := table[vals[n - 1]]].Keys == m.Keys;
      } else {
        assert m[k := table[vals[n - 1]]].Keys == m.Keys + {k};
      }
    }
  }

  /**
   * `parseInfo(message)` and `convertInfo`: no Info message gives no
   * metadata; otherwise the username is looked up in the table (an index
   * outside it throws IndexOutOfBounds), `visible` is true unless the message
   * sets it to false, and the other fields are copied.
   */
  function ConvertInfo(table: seq<string>, info: Option<InfoMsg>): (r: Result<Option<Info>>)
    ensures r == Ok(None) <==> info.None?
    ensures r.Err? <==> info.Some? && !(0 <= info.value.userSid < |table|)
    ensures r.Ok? && r.value.Some? ==>
      var i := r.value.value;
      var m := info.value;
      && i.username == table[m.userSid]
      && (i.visible <==> m.visible != Some(false))
      && i.uid == m.uid && i.version == m.version && i.timestamp == m.timestamp && i.changeset == m.changeset
  {
    match info
    case None => Ok(None)
    case Some(m) =>
      if 0 <= m.userSid < |table| then
        Ok(Some(Info(m.uid, table[m.userSid], m.version, m.timestamp, m.changeset, m.visible.None? || m.visible.value)))
      else Err(IndexOutOfBounds)
  }
}
