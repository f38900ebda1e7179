/**
 * What every entity encoder does with an entity's tags: each key and then its
 * value is interned into a string table, and the two indices are appended to
 * parallel `keys` / `vals` arrays. The source iterates a hash map, whose order
 * is unspecified, so the model picks the keys in an arbitrary order and states
 * the result as a relation between the arrays, the table and the map.
 */
module OsmEntityEncoder {
  import opened Entity
  import opened Osmformat
  import opened StringTable

  /**
   * `keys` / `vals` hold exactly the tags of `tags`, one entry per tag, as
   * indices into `strings` that are never the reserved index 0.
   */
  ghost predicate EncodesTags(keys: seq<int>, vals: seq<int>, tags: Tags, strings: seq<string>)
  {
    && |keys| == |vals| == |tags|
    && (forall j :: 0 <= j < |keys| ==> 1 <= keys[j] < |strings| && 1 <= vals[j] < |strings|)
    && TagsOf(keys, vals, |keys|, strings) == tags
  }

  /** The arrays encode the tags of `tags` whose keys are not in `rest`. */
  ghost predicate EncodesTagsExcept(keys: seq<int>, vals: seq<int>, tags: Tags, rest: set<string>,
                                    strings: seq<string>)
  {
    && |keys| == |vals| == |tags - rest|
    && (forall j :: 0 <= j < |keys| ==> 1 <= keys[j] < |strings| && 1 <= vals[j] < |strings|)
    && TagsOf(keys, vals, |keys|, strings) == tags - rest
  }

  /** Appending one entry leaves the tags of the first `n` entries alone. */
  lemma {:induction false} TagsOfAppend(keys: seq<int>, vals: seq<int>, n: nat, table: seq<string>, k: int, v: int)
    requires TagIndicesIn(keys, vals, n, table)
    ensures TagIndicesIn(keys + [k], vals + [v], n, table)
    ensures TagsOf(keys + [k], vals + [v], n, table) == TagsOf(keys, vals, n, table)
    decreases n
  {
    if n > 0 {
      TagsOfAppend(keys, vals, n - 1, table, k, v);
      assert (keys + [k])[n - 1] == keys[n - 1] && (vals + [v])[n - 1] == vals[n - 1];
    }
  }

  /** Growing the table at its end leaves the tags the entries stand for alone. */
  lemma {:induction false} TagsOfGrows(keys: seq<int>, vals: seq<int>, n: nat, table: seq<string>, more: seq<string>)
    requires TagIndicesIn(keys, vals, n, table) && Grows(table, more)
    ensures TagIndicesIn(keys, vals, n, more)
    ensures TagsOf(keys, vals, n, more) == TagsOf(keys, vals, n, table)
    decreases n
  {
    if n > 0 {
      TagsOfGrows(keys, vals, n - 1, table, more);
      assert more[keys[n - 1]] == table[keys[n - 1]] && more[vals[n - 1]] == table[vals[n - 1]];
    }
  }

  lemma EncodesTagsExtend(keys: seq<int>, vals: seq<int>, tags: Tags, strings: seq<string>, more: seq<string>)
    requires EncodesTags(keys, vals, tags, strings) && Grows(strings, more)
    ensures EncodesTags(keys, vals, tags, more)
  {
    TagsOfGrows(keys, vals, |keys|, strings, more);
  }

  lemma EncodesTagsExceptExtend(keys: seq<int>, vals: seq<int>, tags: Tags, rest: set<string>,
                                strings: seq<string>, more: seq<string>)
    requires EncodesTagsExcept(keys, vals, tags, rest, strings) && Grows(strings, more)
    ensures EncodesTagsExcept(keys, vals, tags, rest, more)
  {
    TagsOfGrows(keys, vals, |keys|, strings, more);
  }

  /** One `forEach` step: encoding tag `k` takes it out of the tags still to do. */
  lemma EncodesTagsExceptStep(keys: seq<int>, vals: seq<int>, tags: Tags, rest: set<string>, strings: seq<string>,
                              k: string, ki: int, vi: int)
    requires EncodesTagsExcept(keys, vals, tags, rest, strings)
    requires k in rest && k in tags
    requires 1 <= ki < |strings| && 1 <= vi < |strings| && strings[ki] == k && strings[vi] == tags[k]
    ensures EncodesTagsExcept(keys + [ki], vals + [vi], tags, rest - {k}, strings)
  {
    var n := |keys|;
    TagsOfAppend(keys, vals, n, strings, ki, vi);
    var keys', vals' := keys + [ki], vals + [vi];
    assert keys'[n] == ki && vals'[n] == vi;
    assert TagsOf(keys', vals', n + 1, strings) == (tags - rest)[k := tags[k]];
    RestrictStep(tags, rest, k);
  }

  /** Taking `k` out of the keys still to do adds exactly the tag of `k`. */
  lemma RestrictStep(tags: Tags, rest: set<string>, k: string)
    requires k in rest && k in tags
    ensures (tags - rest)[k := tags[k]] == tags - (rest - {k})
    ensures |tags - (rest - {k})| == |tags - rest| + 1
  {
    var a, b := (tags - rest)[k := tags[k]], tags - (rest - {k});
    assert a.Keys == b.Keys;
    assert k !in (tags - rest);
  }

  lemma EncodesTagsExceptStart(tags: Tags, strings: seq<string>)
    ensures EncodesTagsExcept([], [], tags, tags.Keys, strings)
  {
    assert tags - tags.Keys == map[];
  }

  lemma EncodesTagsExceptDone(keys: seq<int>, vals: seq<int>, tags: Tags, strings: seq<string>)
    requires EncodesTagsExcept(keys, vals, tags, {}, strings)
    ensures EncodesTags(keys, vals, tags, strings)
  {
    assert tags - {} == tags;
  }

  /**
   * `tags.forEach((k, v) -> { addKeys(getStringIndex(k)); addVals(getStringIndex(v)); })`.
   * The table only grows, at its end.
   */
  method EncodeTags(t: StringTableEncoder, tags: Tags) returns (keys: seq<int>, vals: seq<int>)
    requires t.Valid()
    modifies t
    ensures t.Valid() && Grows(old(t.strings), t.strings)
    ensures EncodesTags(keys, vals, tags, t.strings)
  {
    keys, vals := [], [];
    var rest := tags.Keys;
    EncodesTagsExceptStart(tags, t.strings);
    while rest != {}
      invariant t.Valid() && Grows(old(t.strings), t.strings)
      invariant rest <= tags.Keys
      invariant EncodesTagsExcept(keys, vals, tags, rest, t.strings)
      decreases rest
    {
      var k :| k in rest;
      ghost var before := t.strings;
      var ki := Intern(t, k);
      var vi := Intern(t, tags[k]);
      assert t.strings[ki] == k;
      EncodesTagsExceptExtend(keys, vals, tags, rest, before, t.strings);
      EncodesTagsExceptStep(keys, vals, tags, rest, t.strings, k, ki, vi);
      keys, vals, rest := keys + [ki], vals + [vi], rest - {k};
    }
    EncodesTagsExceptDone(keys, vals, tags, t.strings);
  }
}
