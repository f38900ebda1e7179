/**
 * Delta coding of `long` sequences, as the PBF format stores way refs, relation
 * member ids and dense-node columns: the encoder writes each value minus the
 * previous one (the first minus 0), the decoder keeps a running sum. Both sides
 * use Java `long` arithmetic, so differences and sums wrap around.
 */
module Delta {
  import opened JavaInt

  /** The deltas of `xs` when the value before its first element is `prev`. */
  function DeltaFrom(prev: Int64, xs: seq<Int64>): (ds: seq<Int64>)
    ensures |ds| == |xs|
    decreases |xs|
  {
    if xs == [] then [] else [WrapLong(xs[0] as int - prev)] + DeltaFrom(xs[0], xs[1..])
  }

  /** What the encoders' loops emit: `x - member; member = x`, starting from `member = 0`. */
  function DeltaEncode(xs: seq<Int64>): (ds: seq<Int64>)
    ensures |ds| == |xs|
  {
    DeltaFrom(0, xs)
  }

  /** The running sums of `ds` when the accumulator starts at `acc`. */
  function SumsFrom(acc: Int64, ds: seq<Int64>): (xs: seq<Int64>)
    ensures |xs| == |ds|
    decreases |ds|
  {
    if ds == [] then []
    else
      var next := WrapLong(acc as int + ds[0]);
      [next] + SumsFrom(next, ds[1..])
  }

  /** What the decoders' loops emit: `acc += d`, starting from `acc = 0`. */
  function PrefixSums(ds: seq<Int64>): (xs: seq<Int64>)
    ensures |xs| == |ds|
  {
    SumsFrom(0, ds)
  }

  /** The value delta i is taken against: the previous element, or 0 for the first. */
  function Previous(xs: seq<Int64>, i: nat): Int64
    requires i < |xs|
  {
    if i == 0 then 0 else xs[i - 1]
  }

  /** Running sums started at `prev` undo deltas taken against `prev`. */
  lemma {:induction false} SumsOfDeltas(prev: Int64, xs: seq<Int64>)
    ensures SumsFrom(prev, DeltaFrom(prev, xs)) == xs
    decreases |xs|
  {
    if xs != [] {
      var d := WrapLong(xs[0] as int - prev);
      var ds := DeltaFrom(prev, xs);
      assert ds[0] == d && ds[1..] == DeltaFrom(xs[0], xs[1..]);
      AddWrappedDifference(prev, xs[0], d, WrapLong(prev as int + d));
      SumsOfDeltas(xs[0], xs[1..]);
      assert xs == [xs[0]] + xs[1..];
    }
  }

  /** Deltas taken against `acc` undo running sums started at `acc`. */
  lemma {:induction false} DeltasOfSums(acc: Int64, ds: seq<Int64>)
    ensures DeltaFrom(acc, SumsFrom(acc, ds)) == ds
    decreases |ds|
  {
    if ds != [] {
      var next := WrapLong(acc as int + ds[0]);
      var xs := SumsFrom(acc, ds);
      assert xs[0] == next && xs[1..] == SumsFrom(next, ds[1..]);
      SubtractWrappedSum(acc, ds[0], next, WrapLong(next as int - acc));
      DeltasOfSums(next, ds[1..]);
      assert ds == [ds[0]] + ds[1..];
    }
  }

  /** Decoding inverts encoding: the running sums of the deltas are the input, exactly. */
  lemma DecodeEncode(xs: seq<Int64>)
    ensures PrefixSums(DeltaEncode(xs)) == xs
  {
    SumsOfDeltas(0, xs);
  }

  /** Encoding inverts decoding: every delta sequence is the encoding of its running sums. */
  lemma EncodeDecode(ds: seq<Int64>)
    ensures DeltaEncode(PrefixSums(ds)) == ds
  {
    DeltasOfSums(0, ds);
  }

  /** Delta i is element i minus the element before it (minus `prev` for the first). */
  lemma {:induction false} DeltaFromAt(prev: Int64, xs: seq<Int64>, i: nat)
    requires i < |xs|
    ensures DeltaFrom(prev, xs)[i] == WrapLong(xs[i] as int - if i == 0 then prev else xs[i - 1])
    decreases |xs|
  {
    if i > 0 {
      DeltaFromAt(xs[0], xs[1..], i - 1);
      assert xs[1..][i - 1] == xs[i];
      if i > 1 {
        assert xs[1..][i - 2] == xs[i - 1];
      }
    }
  }

  /** The reference reading of delta coding: delta i is `xs[i] - xs[i - 1]`, the first is `xs[0]`. */
  lemma DeltaEncodeAt(xs: seq<Int64>, i: nat)
    requires i < |xs|
    ensures DeltaEncode(xs)[i] == WrapLong(xs[i] as int - Previous(xs, i))
  {
    DeltaFromAt(0, xs, i);
  }

  /** One encoder loop step: the deltas of `xs[i..]` begin with that of `xs[i]`. */
  lemma DeltaFromStep(xs: seq<Int64>, i: nat)
    requires i < |xs|
    ensures DeltaFrom(Previous(xs, i), xs[i..])
         == [WrapLong(xs[i] as int - Previous(xs, i))] + DeltaFrom(xs[i], xs[i + 1..])
  {
    assert xs[i..][1..] == xs[i + 1..];
  }

  /** One decoder loop step: the running sums of `ds[i..]` begin with `acc + ds[i]`. */
  lemma SumsFromStep(acc: Int64, ds: seq<Int64>, i: nat)
    requires i < |ds|
    ensures SumsFrom(acc, ds[i..])
         == [WrapLong(acc as int + ds[i])] + SumsFrom(WrapLong(acc as int + ds[i]), ds[i + 1..])
  {
    assert ds[i..][1..] == ds[i + 1..];
  }

  /** Appending an element appends its delta against the last element (or `prev`). */
  lemma {:induction false} DeltaFromSnoc(prev: Int64, xs: seq<Int64>, x: Int64)
    ensures DeltaFrom(prev, xs + [x]) == DeltaFrom(prev, xs) + [WrapLong(x as int - if xs == [] then prev else xs[|xs| - 1])]
    decreases |xs|
  {
    if xs != [] {
      assert (xs + [x])[1..] == xs[1..] + [x];
      DeltaFromSnoc(xs[0], xs[1..], x);
      if |xs| > 1 {
        assert xs[1..][|xs[1..]| - 1] == xs[|xs| - 1];
      }
    }
  }

  lemma DeltaEncodeSnoc(xs: seq<Int64>, x: Int64)
    ensures DeltaEncode(xs + [x]) == DeltaEncode(xs) + [WrapLong(x as int - if xs == [] then 0 else xs[|xs| - 1])]
  {
    DeltaFromSnoc(0, xs, x);
  }

  /** The plain sum of `xs`, with no wrap-around. */
  function Sum(xs: seq<int>): int
    decreases |xs|
  {
    if xs == [] then 0 else xs[0] + Sum(xs[1..])
  }

  lemma {:induction false} SumAppend(a: seq<int>, b: seq<int>)
    ensures Sum(a + b) == Sum(a) + Sum(b)
    decreases |a|
  {
    if a == [] {
      assert a + b == b;
    } else {
      assert (a + b)[1..] == a[1..] + b;
      SumAppend(a[1..], b);
    }
  }

  /** The sum of the first `k + 1` elements adds element `k` to that of the first `k`. */
  lemma SumPrefixStep(xs: seq<int>, k: nat)
    requires k < |xs|
    ensures Sum(xs[..k + 1]) == Sum(xs[..k]) + xs[k]
  {
    assert xs[..k + 1] == xs[..k] + [xs[k]];
    SumAppend(xs[..k], [xs[k]]);
    assert [xs[k]][1..] == [];
  }

  /** Running sum k, started at `acc`, is `acc` plus the first `k + 1` deltas, wrapped into a `long`. */
  lemma {:induction false} SumsFromAt(acc: Int64, ds: seq<Int64>, k: nat)
    requires k < |ds|
    ensures SumsFrom(acc, ds)[k] == WrapLong(acc as int + Sum(ds[..k + 1]))
    decreases k
  {
    var next := WrapLong(acc as int + ds[0]);
    assert ds[..k + 1][1..] == ds[1..][..k];
    if k == 0 {
      assert ds[..1][1..] == [];
    } else {
      SumsFromAt(next, ds[1..], k - 1);
      WrapLongAddWrapped(acc as int + ds[0], Sum(ds[1..][..k]));
    }
  }

  /** Decoded element k is the sum of the first `k + 1` deltas, wrapped into a `long`. */
  lemma PrefixSumsAt(ds: seq<Int64>, k: nat)
    requires k < |ds|
    ensures PrefixSums(ds)[k] == WrapLong(Sum(ds[..k + 1]))
  {
    SumsFromAt(0, ds, k);
  }
}
