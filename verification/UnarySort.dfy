/** The final sort of the unary path: it is stable, so only the order among equal starts can show. */
module UnarySort {
  import opened Types
  import opened UnaryDetection

  // ---------------------------------------------------------------------------------------------
  // The sort

  ghost predicate Sorted(ds: seq<Detection>) {
    forall i, j :: 0 <= i < j < |ds| ==> StartsNoLater(ds[i], ds[j])
  }

  /** The detections that start at k, in order. */
  function Group(ds: seq<Detection>, k: Option<nat>): seq<Detection> {
    if ds == [] then []
    else
      var before := Group(ds[..|ds| - 1], k);
      if ds[|ds| - 1].start == k then before + [ds[|ds| - 1]] else before
  }

  lemma GroupAppend(ds: seq<Detection>, d: Detection, k: Option<nat>)
    ensures Group(ds + [d], k) == if d.start == k then Group(ds, k) + [d] else Group(ds, k)
  {
    assert (ds + [d])[..|ds|] == ds;
  }

  lemma {:induction false} GroupMembers(ds: seq<Detection>, k: Option<nat>, d: Detection)
    ensures d in Group(ds, k) <==> d in ds && d.start == k
    decreases |ds|
  {
    if ds != [] {
      var init, last := ds[..|ds| - 1], ds[|ds| - 1];
      GroupMembers(init, k, d);
      assert ds == init + [last];
    }
  }

  lemma SortedExtends(sorted: seq<Detection>, d: Detection)
    requires Sorted(sorted) && forall x | x in sorted :: StartsNoLater(x, d)
    ensures Sorted(sorted + [d])
  {
  }

  lemma {:induction false} InsertAdds(d: Detection, sorted: seq<Detection>)
    ensures multiset(Insert(d, sorted)) == multiset(sorted) + multiset{d}
    decreases |sorted|
  {
    if sorted != [] && !StartsNoLater(sorted[|sorted| - 1], d) {
      InsertAdds(d, sorted[..|sorted| - 1]);
      assert sorted == sorted[..|sorted| - 1] + [sorted[|sorted| - 1]];
    }
  }

  lemma {:induction false} InsertSorts(d: Detection, sorted: seq<Detection>)
    requires Sorted(sorted)
    ensures Sorted(Insert(d, sorted))
    decreases |sorted|
  {
    if sorted == [] || StartsNoLater(sorted[|sorted| - 1], d) {
      SortedExtends(sorted, d);
    } else {
      var init, last := sorted[..|sorted| - 1], sorted[|sorted| - 1];
      InsertSorts(d, init);
      InsertAdds(d, init);
      forall x | x in Insert(d, init)
        ensures StartsNoLater(x, last)
      {
        assert x in multiset(Insert(d, init));
      }
      SortedExtends(Insert(d, init), last);
    }
  }

  lemma {:induction false} InsertIsStable(d: Detection, sorted: seq<Detection>, k: Option<nat>)
    requires Sorted(sorted)
    ensures Group(Insert(d, sorted), k) == Group(sorted + [d], k)
    decreases |sorted|
  {
    if sorted != [] && !StartsNoLater(sorted[|sorted| - 1], d) {
      var init, last := sorted[..|sorted| - 1], sorted[|sorted| - 1];
      InsertIsStable(d, init, k);
      GroupAppend(Insert(d, init), last, k);
      GroupAppend(init, d, k);
      GroupAppend(init, last, k);
      assert sorted == init + [last];
      GroupAppend(sorted, d, k);
    }
  }

  lemma {:induction false} SortByStartSorts(ds: seq<Detection>)
    ensures Sorted(SortByStart(ds)) && multiset(SortByStart(ds)) == multiset(ds)
    decreases |ds|
  {
    if ds != [] {
      var init, last := ds[..|ds| - 1], ds[|ds| - 1];
      SortByStartSorts(init);
      InsertSorts(last, SortByStart(init));
      InsertAdds(last, SortByStart(init));
      assert ds == init + [last];
    }
  }

  /** In numbers: starts do not decrease, and detections without a start come first. */
  lemma SortedByNumbers(ds: seq<Detection>)
    ensures var r := SortByStart(ds);
            forall i, j :: 0 <= i < j < |r| ==>
              && (r[j].start.None? ==> r[i].start.None?)
              && (r[i].start.Some? ==> r[j].start.Some? && r[i].start.value <= r[j].start.value)
  {
    SortByStartSorts(ds);
  }

  lemma {:induction false} SortByStartIsStable(ds: seq<Detection>, k: Option<nat>)
    ensures Group(SortByStart(ds), k) == Group(ds, k)
    decreases |ds|
  {
    if ds != [] {
      var init, last := ds[..|ds| - 1], ds[|ds| - 1];
      SortByStartIsStable(init, k);
      SortByStartSorts(init);
      InsertIsStable(last, SortByStart(init), k);
      GroupAppend(SortByStart(init), last, k);
    }
  }

  ghost predicate SameGroups(x: seq<Detection>, y: seq<Detection>) {
    forall k :: Group(x, k) == Group(y, k)
  }

  lemma LastStartIsLargest(x: seq<Detection>, y: seq<Detection>)
    requires Sorted(y) && x != [] && SameGroups(x, y)
    ensures y != [] && StartsNoLater(x[|x| - 1], y[|y| - 1])
  {
    var last := x[|x| - 1];
    assert Group(x, last.start) == Group(y, last.start);
    GroupMembers(x, last.start, last);
    GroupMembers(y, last.start, last);
  }

  lemma EqualLastsCancel(x: seq<Detection>, y: seq<Detection>, d: Detection)
    requires SameGroups(x + [d], y + [d])
    ensures SameGroups(x, y)
  {
    forall k
      ensures Group(x, k) == Group(y, k)
    {
      assert Group(x + [d], k) == Group(y + [d], k);
      GroupAppend(x, d, k);
      GroupAppend(y, d, k);
      assert (Group(x, k) + [d])[..|Group(x, k)|] == Group(x, k);
    }
  }

  /** A sorted sequence is determined by the order among detections with the same start. */
  lemma {:induction false} SortedIsDeterminedByGroups(x: seq<Detection>, y: seq<Detection>)
    requires Sorted(x) && Sorted(y) && SameGroups(x, y)
    ensures x == y
    decreases |x|
  {
    if x == [] {
      if y != [] {
        LastStartIsLargest(y, x);
      }
    } else {
      LastStartIsLargest(x, y);
      LastStartIsLargest(y, x);
      var initX, initY, k := x[..|x| - 1], y[..|y| - 1], x[|x| - 1].start;
      assert x == initX + [x[|x| - 1]] && y == initY + [y[|y| - 1]];
      assert Group(x, k) == Group(initX, k) + [x[|x| - 1]] && Group(y, k) == Group(initY, k) + [y[|y| - 1]];
      assert Group(x, k)[|Group(x, k)| - 1] == Group(y, k)[|Group(y, k)| - 1];
      EqualLastsCancel(initX, initY, x[|x| - 1]);
      SortedIsDeterminedByGroups(initX, initY);
    }
  }

  /** Two lists sort to the same sequence exactly if they agree on the order of every group of detections with
      the same start. */
  lemma SortsAlikeIffSameGroups(x: seq<Detection>, y: seq<Detection>)
    ensures SortByStart(x) == SortByStart(y) <==> SameGroups(x, y)
  {
    forall k
      ensures Group(SortByStart(x), k) == Group(x, k) && Group(SortByStart(y), k) == Group(y, k)
    {
      SortByStartIsStable(x, k);
      SortByStartIsStable(y, k);
    }
    SortByStartSorts(x);
    SortByStartSorts(y);
    if SameGroups(x, y) {
      SortedIsDeterminedByGroups(SortByStart(x), SortByStart(y));
    }
  }

  ghost predicate DistinctStarts(ds: multiset<Detection>) {
    forall a, b :: a in ds && b in ds && a.start == b.start ==> a == b && ds[a] == 1
  }

  lemma {:induction false} GroupMultiset(ds: seq<Detection>, k: Option<nat>, d: Detection)
    ensures multiset(Group(ds, k))[d] == if d.start == k then multiset(ds)[d] else 0
    decreases |ds|
  {
    if ds != [] {
      var init, last := ds[..|ds| - 1], ds[|ds| - 1];
      GroupMultiset(init, k, d);
      assert ds == init + [last];
    }
  }

  lemma RepeatedHead<T>(s: seq<T>)
    requires |s| >= 2 && s[0] == s[1]
    ensures multiset(s)[s[0]] >= 2
  {
    assert s == [s[0], s[1]] + s[2..];
  }

  lemma ShortSequencesWithEqualContents<T>(a: seq<T>, b: seq<T>)
    requires |a| <= 1 && |b| <= 1 && multiset(a) == multiset(b)
    ensures a == b
  {
    assert |multiset(a)| == |a| && |multiset(b)| == |b|;
    if a != [] {
      assert a[0] in multiset(b);
    }
  }

  lemma GroupOfDistinctStarts(ds: seq<Detection>, k: Option<nat>)
    requires DistinctStarts(multiset(ds))
    ensures |Group(ds, k)| <= 1
  {
    var g := Group(ds, k);
    if |g| >= 2 {
      GroupMembers(ds, k, g[0]);
      GroupMembers(ds, k, g[1]);
      GroupMultiset(ds, k, g[0]);
      RepeatedHead(g);
    }
  }

  lemma DistinctStartsGroupAlike(x: seq<Detection>, y: seq<Detection>, k: Option<nat>)
    requires multiset(x) == multiset(y) && DistinctStarts(multiset(x))
    ensures Group(x, k) == Group(y, k)
  {
    GroupOfDistinctStarts(x, k);
    GroupOfDistinctStarts(y, k);
    forall d
      ensures multiset(Group(x, k))[d] == multiset(Group(y, k))[d]
    {
      GroupMultiset(x, k, d);
      GroupMultiset(y, k, d);
    }
    ShortSequencesWithEqualContents(Group(x, k), Group(y, k));
  }

  lemma DistinctStartsSortAlike(x: seq<Detection>, y: seq<Detection>)
    requires multiset(x) == multiset(y) && DistinctStarts(multiset(x))
    ensures SortByStart(x) == SortByStart(y)
  {
    forall k
      ensures Group(x, k) == Group(y, k)
    {
      DistinctStartsGroupAlike(x, y, k);
    }
    SortsAlikeIffSameGroups(x, y);
  }
}
