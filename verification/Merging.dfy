/** Merging what a run of messages carries, column by column. */
module Merging {
  import opened Types
  import opened CompletionStates

  /** The lists f finds in the items, concatenated in order. */
  function Collect<T, U>(items: seq<T>, f: T -> seq<U>): seq<U> {
    if items == [] then [] else Collect(items[..|items| - 1], f) + f(items[|items| - 1])
  }

  lemma {:induction false} CollectAppend<T, U>(a: seq<T>, b: seq<T>, f: T -> seq<U>)
    ensures Collect(a + b, f) == Collect(a, f) + Collect(b, f)
    decreases |b|
  {
    if b == [] {
      assert a + b == a;
    } else {
      var init, last := b[..|b| - 1], b[|b| - 1];
      CollectAppend(a, init, f);
      assert (a + b)[..|a + b| - 1] == a + init;
      assert Collect(a, f) + (Collect(init, f) + f(last)) == (Collect(a, f) + Collect(init, f)) + f(last);
    }
  }

  /** Collecting is concatenating the lists found in the items, one per item. */
  lemma {:induction false} CollectIsFlatten<T, U>(items: seq<T>, f: T -> seq<U>, lists: seq<seq<U>>)
    requires |lists| == |items| && forall i :: 0 <= i < |items| ==> lists[i] == f(items[i])
    ensures Collect(items, f) == Flatten(lists)
    decreases |items|
  {
    if items != [] {
      var k := |items| - 1;
      CollectIsFlatten(items[..k], f, lists[..k]);
      assert lists == lists[..k] + [lists[k]];
      FlattenAppend(lists[..k], [lists[k]]);
      FlattenSingleton(lists[k]);
    }
  }

  /** The inclusive ranges follow one another from lo on, and every key from lo on lies in one of them. */
  ghost predicate Tiles<T>(m: map<nat, T>, ranges: seq<(nat, nat)>, lo: nat)
    decreases |ranges|
  {
    if ranges == [] then forall i :: i in m ==> i < lo
    else
      && lo <= ranges[0].0 <= ranges[0].1
      && (forall i :: lo <= i < ranges[0].0 ==> i !in m)
      && Tiles(m, ranges[1..], ranges[0].1 + 1)
  }

  /** The concatenation, range by range, of what f finds in each. */
  function CollectRanges<T, U>(m: map<nat, T>, ranges: seq<(nat, nat)>, f: T -> seq<U>): seq<U> {
    if ranges == [] then []
    else Collect(Range(m, ranges[0].0, ranges[0].1 + 1), f) + CollectRanges(m, ranges[1..], f)
  }

  /** A range that holds all keys of a longer one is the same. */
  lemma RangeIgnoresGaps<T>(m: map<nat, T>, lo: nat, s: nat, e: nat, hi: nat)
    requires lo <= s <= e <= hi
    requires forall i :: lo <= i < s || e <= i < hi ==> i !in m
    ensures Range(m, lo, hi) == Range(m, s, e)
  {
    RangeSplits(m, lo, s, hi);
    RangeSplits(m, s, e, hi);
    RangeWithoutKeys(m, lo, s);
    RangeWithoutKeys(m, e, hi);
  }

  lemma {:induction false} TilesCollectTheRest<T, U>(m: map<nat, T>, ranges: seq<(nat, nat)>, lo: nat, hi: nat, f: T -> seq<U>)
    requires Tiles(m, ranges, lo) && lo <= hi && forall i :: i in m ==> i < hi
    ensures CollectRanges(m, ranges, f) == Collect(Range(m, lo, hi), f)
    decreases |ranges|
  {
    if ranges == [] {
      RangeWithoutKeys(m, lo, hi);
    } else {
      var s, e := ranges[0].0, ranges[0].1 + 1;
      var top := if hi < e then e else hi;
      TilesCollectTheRest(m, ranges[1..], e, top, f);
      RangeIgnoresGaps(m, lo, lo, hi, top);
      RangeIgnoresGaps(m, lo, s, top, top);
      RangeSplits(m, s, e, top);
      CollectAppend(Range(m, s, e), Range(m, e, top), f);
    }
  }

  /** Merging batch by batch and then concatenating is merging everything. */
  lemma TilesCollectEverything<T, U>(m: map<nat, T>, ranges: seq<(nat, nat)>, f: T -> seq<U>)
    requires Tiles(m, ranges, 0)
    ensures CollectRanges(m, ranges, f) == Collect(Values(m), f)
  {
    var hi := if m == map[] then 0 else LastIndex(m) + 1;
    ValuesAreAnyLongEnoughRange(m, hi);
    TilesCollectTheRest(m, ranges, 0, hi, f);
  }
}
