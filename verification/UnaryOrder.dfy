/** How far the unary result depends on the order in which requests complete. */
module UnaryOrder {
  import opened Types
  import opened Merging
  import opened Masks
  import opened UnaryDetection
  import opened UnarySort

  // ---------------------------------------------------------------------------------------------
  // Concatenating in another order

  lemma CollectAround<T, U>(before: seq<T>, x: T, after: seq<T>, f: T -> seq<U>)
    ensures multiset(Collect(before + ([x] + after), f)) == multiset(Collect(before + after, f)) + multiset(f(x))
  {
    CollectAppend(before, [x] + after, f);
    CollectAppend(before, after, f);
    CollectOne(x, after, f);
  }

  lemma {:induction false} CollectPermuted<T, U>(a: seq<T>, b: seq<T>, f: T -> seq<U>)
    requires multiset(a) == multiset(b)
    ensures multiset(Collect(a, f)) == multiset(Collect(b, f))
    decreases |b|
  {
    PermutedLength(a, b);
    if b != [] {
      var m: nat := |b| - 1;
      var j := TakeOutOfBoth(a, b, m);
      assert b[..m] + b[m + 1..] == b[..m];
      CollectPermuted(a[..j] + a[j + 1..], b[..m], f);
      CollectAround(a[..j], b[m], a[j + 1..], f);
    }
  }

  lemma CollectOne<T, U>(x: T, after: seq<T>, f: T -> seq<U>)
    ensures Collect([x] + after, f) == f(x) + Collect(after, f)
  {
    CollectAppend([x], after, f);
    assert [x][..0] == [];
    assert Collect([x], f) == Collect([], f) + f(x);
  }

  lemma {:induction false} FirstErrorIsOne<T, U>(completed: seq<T>, f: T -> Result<U, Error>)
    ensures FirstError(completed, f).None? <==> forall x | x in completed :: f(x).Ok?
    ensures FirstError(completed, f).Some? ==> exists x :: x in completed && f(x) == Err(FirstError(completed, f).value)
  {
    if completed != [] {
      FirstErrorIsOne(completed[1..], f);
      assert completed == [completed[0]] + completed[1..];
    }
  }

  // ---------------------------------------------------------------------------------------------
  // Detector requests in any order

  /** Detectors that completed are the detectors that were asked. */
  ghost predicate Completes(detectors: seq<Detector>, completed: seq<Detector>) {
    multiset(completed) == multiset(detectors)
  }

  ghost predicate SomeRequestFails(w: Chunking, detectors: seq<Detector>) {
    exists d :: d in detectors && Request(w)(d).Err?
  }

  /** Some detector's text cannot be chunked; then no detector is asked. */
  ghost predicate SomeChunkingFails(w: Chunking, detectors: seq<Detector>) {
    exists d :: d in detectors && ChunksFor(w, d.chunkerId).Err?
  }

  /** What a detector found, before its threshold. */
  function Found(w: Chunking, d: Detector): seq<Detection> {
    match ChunksFor(w, d.chunkerId)
    case Err(_) => []
    case Ok(chunks) =>
      match DetectTextContents(d, chunks)
      case Err(_) => []
      case Ok(ds) => ds
  }

  /** How often x is found by detectors whose threshold it reaches. */
  function Occurrences(w: Chunking, detectors: seq<Detector>, x: Detection): nat {
    if detectors == [] then 0
    else
      var last := detectors[|detectors| - 1];
      Occurrences(w, detectors[..|detectors| - 1], x) + (if x.score >= last.threshold then multiset(Found(w, last))[x] else 0)
  }

  lemma {:induction false} AtOrAboveKeeps(ds: seq<Detection>, threshold: real, x: Detection)
    ensures multiset(AtOrAbove(ds, threshold))[x] == if x.score >= threshold then multiset(ds)[x] else 0
  {
    if ds != [] {
      AtOrAboveKeeps(ds[1..], threshold, x);
      assert ds == [ds[0]] + ds[1..];
    }
  }

  lemma {:induction false} CollectedOccurrences(w: Chunking, detectors: seq<Detector>, x: Detection)
    ensures multiset(Collect(detectors, ValueOrNothing(Request(w))))[x] == Occurrences(w, detectors, x)
    decreases |detectors|
  {
    if detectors != [] {
      var last := detectors[|detectors| - 1];
      CollectedOccurrences(w, detectors[..|detectors| - 1], x);
      AtOrAboveKeeps(Found(w, last), last.threshold, x);
    }
  }

  /** The result is an error exactly if a chunk request or a detector request fails, and then it is one of
      those failures, a chunk request's if one fails. Otherwise it is sorted by start and holds exactly what the detectors found at or above
      their thresholds. None of this depends on the order of completion. */
  lemma ResultIsSortedAndExact(w: Chunking, detectors: seq<Detector>, completed: seq<Detector>)
    requires Completes(detectors, completed)
    ensures var r := TextContentsDetections(w, detectors, completed);
            && (r.Err? <==> SomeRequestFails(w, detectors))
            && (r.Err? ==> exists d :: d in detectors && Request(w)(d) == Err(r.error))
            && (SomeChunkingFails(w, detectors) ==>
                  exists d :: d in detectors && ChunksFor(w, d.chunkerId).Err? && r == Err(ChunksFor(w, d.chunkerId).error))
            && (r.Ok? ==> Sorted(r.value))
            && (r.Ok? ==> forall i, j :: 0 <= i < j < |r.value| && r.value[i].start.Some? && r.value[j].start.Some? ==>
                  r.value[i].start.value <= r.value[j].start.value)
            && (r.Ok? ==> forall x :: multiset(r.value)[x] == Occurrences(w, detectors, x))
  {
    FirstErrorIsOne(detectors, ChunkRequest(w));
    FirstErrorIsOne(completed, Request(w));
    forall d
      ensures d in completed <==> d in detectors
    {
      assert d in multiset(completed) <==> d in multiset(detectors);
    }
    var r := TextContentsDetections(w, detectors, completed);
    if r.Ok? {
      var f := ValueOrNothing(Request(w));
      SortByStartSorts(Collect(completed, f));
      SortedByNumbers(Collect(completed, f));
      CollectPermuted(completed, detectors, f);
      forall x
        ensures multiset(r.value)[x] == Occurrences(w, detectors, x)
      {
        CollectedOccurrences(w, detectors, x);
      }
    }
  }

  /** The detections in the order in which they arrive, before the sort. */
  function Arrived(w: Chunking, completed: seq<Detector>): seq<Detection> {
    Collect(completed, ValueOrNothing(Request(w)))
  }

  /** Two orders of completion give equal results exactly if the detections sharing a start arrive in the same
      order; in particular always if no two detections share one. */
  lemma OrdersAgreeIffTiesDo(w: Chunking, detectors: seq<Detector>, one: seq<Detector>, other: seq<Detector>)
    requires Completes(detectors, one) && Completes(detectors, other) && !SomeRequestFails(w, detectors)
    ensures TextContentsDetections(w, detectors, one) == TextContentsDetections(w, detectors, other)
       <==> SameGroups(Arrived(w, one), Arrived(w, other))
    ensures multiset(Arrived(w, one)) == multiset(Arrived(w, other))
    ensures DistinctStarts(multiset(Arrived(w, one))) ==>
              TextContentsDetections(w, detectors, one) == TextContentsDetections(w, detectors, other)
  {
    ResultIsSortedAndExact(w, detectors, one);
    ResultIsSortedAndExact(w, detectors, other);
    CollectPermuted(one, other, ValueOrNothing(Request(w)));
    SortsAlikeIffSameGroups(Arrived(w, one), Arrived(w, other));
    if DistinctStarts(multiset(Arrived(w, one))) {
      DistinctStartsSortAlike(Arrived(w, one), Arrived(w, other));
    }
  }

  // ---------------------------------------------------------------------------------------------
  // Chunk requests in any order

  /** The same chunkers; only the order in which their requests complete differs. */
  ghost predicate SameRequests(v: Chunking, w: Chunking) {
    v.chunkers == w.chunkers && forall id :: multiset(v.completed(id)) == multiset(w.completed(id))
  }

  function Each(contents: seq<string>, analyze: string -> seq<Analysis>): seq<seq<Analysis>> {
    if contents == [] then [] else [analyze(contents[0])] + Each(contents[1..], analyze)
  }

  /** The detector judges every content on its own. */
  ghost predicate Pointwise(d: Detector, analyze: string -> seq<Analysis>) {
    forall contents :: contents != [] ==> d.analyze(contents) == Ok(Each(contents, analyze))
  }

  function InChunk(d: Detector, analyze: string -> seq<Analysis>): Chunk -> seq<Detection> {
    (c: Chunk) => AllLocated(d.id, c.start, analyze(c.text))
  }

  lemma {:induction false} AttributedPointwise(d: Detector, analyze: string -> seq<Analysis>, chunks: seq<Chunk>)
    ensures Attributed(d.id, chunks, Each(Contents(chunks), analyze)) == Collect(chunks, InChunk(d, analyze))
  {
    if chunks != [] {
      AttributedPointwise(d, analyze, chunks[1..]);
      CollectOne(chunks[0], chunks[1..], InChunk(d, analyze));
      assert [chunks[0]] + chunks[1..] == chunks;
    }
  }

  lemma ChunksPermuted(v: Chunking, w: Chunking, id: string)
    requires SameRequests(v, w)
    ensures ChunksFor(v, id).Ok? <==> ChunksFor(w, id).Ok?
    ensures ChunksFor(v, id).Ok? ==> multiset(ChunksFor(v, id).value) == multiset(ChunksFor(w, id).value)
  {
    if id in v.chunkers {
      var f := (input: Input) => ChunkInput(w.chunkers[id], input);
      FirstErrorIsOne(v.completed(id), f);
      FirstErrorIsOne(w.completed(id), f);
      assert multiset(v.completed(id)) == multiset(w.completed(id));
      forall input
        ensures input in v.completed(id) <==> input in w.completed(id)
      {
        assert input in multiset(v.completed(id)) <==> input in multiset(w.completed(id));
      }
      CollectPermuted(v.completed(id), w.completed(id), ValueOrNothing(f));
    }
  }

  lemma FoundPermuted(v: Chunking, w: Chunking, d: Detector, analyze: string -> seq<Analysis>)
    requires SameRequests(v, w) && Pointwise(d, analyze)
    ensures Request(v)(d).Ok? <==> Request(w)(d).Ok?
    ensures multiset(Found(v, d)) == multiset(Found(w, d))
  {
    ChunksPermuted(v, w, d.chunkerId);
    if ChunksFor(v, d.chunkerId).Ok? {
      var a, b := ChunksFor(v, d.chunkerId).value, ChunksFor(w, d.chunkerId).value;
      assert |multiset(a)| == |a| && |multiset(b)| == |b|;
      AttributedPointwise(d, analyze, a);
      AttributedPointwise(d, analyze, b);
      CollectPermuted(a, b, InChunk(d, analyze));
      assert a != [] ==> Contents(a) != [] && Contents(b) != [];
    }
  }

  lemma {:induction false} OccurrencesPermuted(v: Chunking, w: Chunking, detectors: seq<Detector>, x: Detection)
    requires forall d | d in detectors :: multiset(Found(v, d)) == multiset(Found(w, d))
    ensures Occurrences(v, detectors, x) == Occurrences(w, detectors, x)
    decreases |detectors|
  {
    if detectors != [] {
      OccurrencesPermuted(v, w, detectors[..|detectors| - 1], x);
      assert detectors[|detectors| - 1] in detectors;
    }
  }

  /** With detectors that judge each content on its own, chunk requests may complete in any order too: the result
      fails or succeeds alike and holds the same detections, in the same sequence if no two share a start. */
  lemma ChunkOrderDoesNotMatter(
      v: Chunking, w: Chunking, detectors: seq<Detector>, one: seq<Detector>, other: seq<Detector>,
      analyze: Detector -> (string -> seq<Analysis>))
    requires SameRequests(v, w) && Completes(detectors, one) && Completes(detectors, other)
    requires forall d | d in detectors :: Pointwise(d, analyze(d))
    ensures var r, s := TextContentsDetections(v, detectors, one), TextContentsDetections(w, detectors, other);
            && (r.Ok? <==> s.Ok?)
            && (r.Ok? ==> Sorted(r.value) && Sorted(s.value) && multiset(r.value) == multiset(s.value))
            && (r.Ok? && DistinctStarts(multiset(r.value)) ==> r == s)
  {
    forall d | d in detectors
      ensures (Request(v)(d).Ok? <==> Request(w)(d).Ok?) && multiset(Found(v, d)) == multiset(Found(w, d))
    {
      FoundPermuted(v, w, d, analyze(d));
    }
    ResultIsSortedAndExact(v, detectors, one);
    ResultIsSortedAndExact(w, detectors, other);
    var r, s := TextContentsDetections(v, detectors, one), TextContentsDetections(w, detectors, other);
    if r.Ok? {
      forall x
        ensures multiset(r.value)[x] == multiset(s.value)[x]
      {
        OccurrencesPermuted(v, w, detectors, x);
      }
      SortedOnceMore(r.value);
      SortedOnceMore(s.value);
      if DistinctStarts(multiset(r.value)) {
        DistinctStartsSortAlike(r.value, s.value);
      }
    }
  }

  lemma SortedOnceMore(ds: seq<Detection>)
    requires Sorted(ds)
    ensures SortByStart(ds) == ds
  {
    SortByStartSorts(ds);
    forall k
      ensures Group(SortByStart(ds), k) == Group(ds, k)
    {
      SortByStartIsStable(ds, k);
    }
    SortedIsDeterminedByGroups(SortByStart(ds), ds);
  }

  /** A tie shows the order of completion: of two detections with the same start, the one whose detector
      answers first comes first. */
  lemma TiesKeepTheOrderOfCompletion(w: Chunking, a: Detector, b: Detector, x: Detection, y: Detection)
    requires Request(w)(a) == Ok([x]) && Request(w)(b) == Ok([y]) && x.start == y.start
    ensures TextContentsDetections(w, [a, b], [a, b]) == Ok([x, y])
    ensures TextContentsDetections(w, [a, b], [b, a]) == Ok([y, x])
  {
    PairArrives(w, a, b, x, y);
    PairArrives(w, b, a, y, x);
    TiedPairIsSorted(x, y);
    TiedPairIsSorted(y, x);
    FirstErrorIsOne([a, b], ChunkRequest(w));
    assert ChunkRequest(w)(a).Ok? && ChunkRequest(w)(b).Ok?;
  }

  lemma PairArrives(w: Chunking, a: Detector, b: Detector, x: Detection, y: Detection)
    requires Request(w)(a) == Ok([x]) && Request(w)(b) == Ok([y])
    ensures TryCollect([a, b], Request(w)) == Ok([x, y])
  {
    FirstErrorIsOne([a, b], Request(w));
    var f := ValueOrNothing(Request(w));
    CollectOne(a, [b], f);
    CollectOne(b, [], f);
    assert [a] + [b] == [a, b] && [b] + [] == [b] && [x] + [y] == [x, y];
    var none: seq<Detector> := [];
    assert Collect(none, f) == [];
    assert Collect([a, b], f) == [x] + ([y] + []) == [x, y];
  }

  lemma TiedPairIsSorted(x: Detection, y: Detection)
    requires x.start == y.start
    ensures SortByStart([x, y]) == [x, y]
  {
    assert Sorted([x, y]);
    SortedOnceMore([x, y]);
  }
}
