/**
 * The block-wide string table on the write side: strings are interned into
 * consecutive indices starting at 1, index 0 being the pre-seeded empty string,
 * and the total length of the interned strings is kept for size estimates.
 * OsmEntityEncoder and DenseNodesEncoder carry private copies of the same
 * logic; the model uses this one class for all three.
 */
module StringTable {
  import opened JavaInt

  /**
   * `String.length()`: the number of UTF-16 code units of `s`. A character
   * beyond U+FFFF takes two (a surrogate pair), any other one.
   */
  function Utf16Length(s: string): (r: nat)
    ensures |s| <= r <= 2 * |s|
    decreases |s|
  {
    if s == [] then 0 else (if s[0] as int > 0xFFFF then 2 else 1) + Utf16Length(s[1..])
  }

  /** `length()` counts characters exactly when none of them lies beyond U+FFFF. */
  lemma {:induction false} Utf16LengthExact(s: string)
    ensures Utf16Length(s) == |s| <==> forall i :: 0 <= i < |s| ==> s[i] as int <= 0xFFFF
    decreases |s|
  {
    if s != [] {
      Utf16LengthExact(s[1..]);
      assert forall i :: 1 <= i < |s| ==> s[i] == s[1..][i - 1];
    }
  }

  /** The summed `length()` of the first `n` entries of `ss`. */
  function LengthUpTo(ss: seq<string>, n: nat): nat
    requires n <= |ss|
    decreases n
  {
    if n == 0 then 0 else LengthUpTo(ss, n - 1) + Utf16Length(ss[n - 1])
  }

  /** The summed `length()` of `ss`. */
  function TotalLength(ss: seq<string>): nat
  {
    LengthUpTo(ss, |ss|)
  }

  /** `after` is `before` with zero or more entries appended. */
  ghost predicate Grows(before: seq<string>, after: seq<string>)
  {
    |before| <= |after| && forall i :: 0 <= i < |before| ==> after[i] == before[i]
  }

  /**
   * The reverse index the first `n` entries of `ss` define: every entry after
   * the reserved entry 0 mapped to its position (a later entry wins).
   */
  ghost function IndexUpTo(ss: seq<string>, n: nat): map<string, nat>
    requires n <= |ss|
    decreases n
  {
    if n <= 1 then map[] else IndexUpTo(ss, n - 1)[ss[n - 1] := n - 1]
  }

  /** The reverse index of the whole table. */
  ghost function IndexOf(ss: seq<string>): map<string, nat>
  {
    IndexUpTo(ss, |ss|)
  }

  /** Among the first `n` entries, none after the reserved one repeats an earlier one. */
  ghost predicate FreshUpTo(ss: seq<string>, n: nat)
    requires n <= |ss|
    decreases n
  {
    n <= 1 || (ss[n - 1] !in IndexUpTo(ss, n - 1) && FreshUpTo(ss, n - 1))
  }

  /** No entry after the reserved one repeats an earlier entry. */
  ghost predicate Fresh(ss: seq<string>)
  {
    FreshUpTo(ss, |ss|)
  }

  /** Appending to a table leaves whatever its first `n` entries define unchanged. */
  lemma {:induction false} UpToAppend(ss: seq<string>, s: string, n: nat)
    requires n <= |ss|
    ensures LengthUpTo(ss + [s], n) == LengthUpTo(ss, n)
    ensures IndexUpTo(ss + [s], n) == IndexUpTo(ss, n)
    ensures FreshUpTo(ss + [s], n) == FreshUpTo(ss, n)
    decreases n
  {
    if n > 0 {
      UpToAppend(ss, s, n - 1);
      assert (ss + [s])[n - 1] == ss[n - 1];
    }
  }

  lemma TotalLengthSnoc(ss: seq<string>, s: string)
    ensures TotalLength(ss + [s]) == TotalLength(ss) + Utf16Length(s)
  {
    UpToAppend(ss, s, |ss|);
  }

  lemma IndexOfSnoc(ss: seq<string>, s: string)
    requires |ss| >= 1
    ensures IndexOf(ss + [s]) == IndexOf(ss)[s := |ss|]
  {
    UpToAppend(ss, s, |ss|);
  }

  lemma FreshSnoc(ss: seq<string>, s: string)
    requires |ss| >= 1 && Fresh(ss) && s !in IndexOf(ss)
    ensures Fresh(ss + [s])
  {
    UpToAppend(ss, s, |ss|);
  }

  /** Every string of the reverse index sits at its index, which is never the reserved 0. */
  lemma {:induction false} IndexUpToSound(ss: seq<string>, n: nat, s: string)
    requires n <= |ss| && s in IndexUpTo(ss, n)
    ensures 1 <= IndexUpTo(ss, n)[s] < n && ss[IndexUpTo(ss, n)[s]] == s
    decreases n
  {
    if s != ss[n - 1] {
      IndexUpToSound(ss, n - 1, s);
    }
  }

  lemma IndexOfSound(ss: seq<string>, s: string)
    requires s in IndexOf(ss)
    ensures 1 <= IndexOf(ss)[s] < |ss| && ss[IndexOf(ss)[s]] == s
  {
    IndexUpToSound(ss, |ss|, s);
  }

  /** Without repeats every entry after the reserved one is indexed at its position. */
  lemma {:induction false} IndexUpToComplete(ss: seq<string>, n: nat, i: nat)
    requires n <= |ss| && FreshUpTo(ss, n) && 1 <= i < n
    ensures ss[i] in IndexUpTo(ss, n) && IndexUpTo(ss, n)[ss[i]] == i
    decreases n
  {
    if i < n - 1 {
      IndexUpToComplete(ss, n - 1, i);
      assert ss[n - 1] != ss[i];
    }
  }

  lemma IndexOfComplete(ss: seq<string>, i: nat)
    requires Fresh(ss) && 1 <= i < |ss|
    ensures ss[i] in IndexOf(ss) && IndexOf(ss)[ss[i]] == i
  {
    IndexUpToComplete(ss, |ss|, i);
  }

  class StringTableEncoder {
    /** The largest index handed out so far. */
    var stringIndex: nat
    /** The summed `length()` of the strings added by addStringToTable. */
    var stringTableSize: nat
    /** Reverse index: each interned string to its index. */
    var indexMap: map<string, nat>
    /** The string table being built; entry i is the string with index i. */
    var strings: seq<string>

    /**
     * The table has one entry per index 0..stringIndex, entry 0 is empty, no
     * string is interned twice, indexMap is the table's reverse index, and the
     * size counter is the summed length of the entries.
     */
    ghost predicate Valid()
      reads this
    {
      && |strings| == stringIndex + 1
      && strings[0] == ""
      && Fresh(strings)
      && indexMap == IndexOf(strings)
      && stringTableSize == TotalLength(strings)
    }

    constructor ()
      ensures Valid()
      ensures strings == [""] && indexMap == map[] && stringIndex == 0 && stringTableSize == 0
    {
      stringIndex := 0;
      stringTableSize := 0;
      indexMap := map[];
      strings := [""];
    }

    /** Appends a string the table does not hold yet and hands out the next index. */
    method AddStringToTable(str: string) returns (i: nat)
      requires Valid() && str !in indexMap
      modifies this
      ensures strings == old(strings) + [str] && indexMap == old(indexMap)
      ensures stringTableSize == old(stringTableSize) + Utf16Length(str)
      ensures i == stringIndex == old(stringIndex) + 1
    {
      TotalLengthSnoc(strings, str);
      stringTableSize := stringTableSize + Utf16Length(str);
      strings := strings + [str];
      stringIndex := stringIndex + 1;
      i := stringIndex;
    }

    /**
     * `indexMap.computeIfAbsent(s, addStringToTable)`: the index already given
     * to `s`, or a new one appended to the table.
     */
    method GetStringIndex(s: string) returns (i: nat)
      requires Valid()
      modifies this
      ensures Valid()
      ensures 1 <= i < |strings| && strings[i] == s && s in indexMap && indexMap[s] == i
      ensures old(s in indexMap) ==>
        i == old(indexMap[s]) && strings == old(strings) && indexMap == old(indexMap)
        && stringIndex == old(stringIndex) && stringTableSize == old(stringTableSize)
      ensures old(s !in indexMap) ==>
        i == old(stringIndex) + 1 && strings == old(strings) + [s] && indexMap == old(indexMap)[s := i]
        && stringIndex == i && stringTableSize == old(stringTableSize) + Utf16Length(s)
    {
      if s in indexMap {
        i := indexMap[s];
        IndexOfSound(strings, s);
      } else {
        ghost var before := strings;
        FreshSnoc(before, s);
        IndexOfSnoc(before, s);
        TotalLengthSnoc(before, s);
        i := AddStringToTable(s);
        indexMap := indexMap[s := i];
        assert strings[0] == before[0];
      }
    }

    /** `getStringSize`: the summed `length()`, in UTF-16 code units, of every entry of the table. */
    function GetStringSize(): (r: nat)
      reads this
      requires Valid()
      ensures r == TotalLength(strings)
    {
      stringTableSize
    }
  }

  /** indexMap is a bijection between the interned strings and the indices 1..stringIndex. */
  lemma IndexIsBijection(t: StringTableEncoder, s: string, i: nat)
    requires t.Valid()
    ensures s in t.indexMap ==> 1 <= t.indexMap[s] <= t.stringIndex && t.strings[t.indexMap[s]] == s
    ensures 1 <= i <= t.stringIndex ==> t.strings[i] in t.indexMap && t.indexMap[t.strings[i]] == i
  {
    if s in t.indexMap {
      IndexOfSound(t.strings, s);
    }
    if 1 <= i <= t.stringIndex {
      IndexOfComplete(t.strings, i);
    }
  }

  /** Distinct indices 1..stringIndex hold distinct strings. */
  lemma InternedStringsDistinct(t: StringTableEncoder, i: nat, j: nat)
    requires t.Valid()
    requires 1 <= i < j < |t.strings|
    ensures t.strings[i] != t.strings[j]
  {
    IndexOfComplete(t.strings, i);
    IndexOfComplete(t.strings, j);
  }

  /** `getStringIndex` as the encoders use it: an index of `s` in a table that only grows at its end. */
  method Intern(t: StringTableEncoder, s: string) returns (i: int)
    requires t.Valid()
    modifies t
    ensures t.Valid()
    ensures Grows(old(t.strings), t.strings)
    ensures 1 <= i < |t.strings| && t.strings[i] == s
  {
    i := t.GetStringIndex(s);
  }
}
