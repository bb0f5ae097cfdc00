/** The three coordinate systems of the unary path: positions in a content, in a masked input, in the text. */
module UnaryCoordinates {
  import opened Types
  import opened Merging
  import opened Masks
  import opened UnaryDetection
  import opened UnarySort
  import opened UnaryOrder

  /** The part is what the text has between the two positions. Positions past the end of the text are possible
      only for an empty part. */
  ghost predicate Placed(text: string, start: nat, end: nat, part: string) {
    && start <= end && |part| == end - start
    && (part != "" ==> end <= |text| && part == text[start..end])
  }

  /** Detections carry the text at their positions. */
  ghost predicate InText(text: string, x: Detection) {
    x.start.Some? && x.end.Some? && x.text.Some? && Placed(text, x.start.value, x.end.value, x.text.value)
  }

  /** The chunker returns parts of what it is given, with their positions. */
  ghost predicate FaithfulChunker(k: Chunker) {
    k.Service? ==>
      forall text :: k.chunk(text).Ok? ==>
        forall c | c in k.chunk(text).value :: Placed(text, c.start, c.end, c.text)
  }

  /** The detector reports parts of the contents it is given, with their positions. */
  ghost predicate FaithfulDetector(d: Detector) {
    forall contents :: d.analyze(contents).Ok? ==> InContents(contents, d.analyze(contents).value)
  }

  ghost predicate InContents(contents: seq<string>, responses: seq<seq<Analysis>>) {
    forall i :: 0 <= i < |contents| && i < |responses| ==> AllIn(contents[i], responses[i])
  }

  ghost predicate AllIn(content: string, found: seq<Analysis>) {
    forall a | a in found :: Placed(content, a.start, a.end, a.text)
  }

  /** A masked input: a part of the text, from its offset on. */
  ghost predicate FromText(text: string, input: Input) {
    Placed(text, input.0, input.0 + |input.1|, input.1)
  }

  lemma SliceOfSlice(text: string, from: nat, to: nat, start: nat, end: nat)
    requires from <= to <= |text| && start <= end <= to - from
    ensures text[from..to][start..end] == text[start + from..end + from]
  {
    var a, b := text[from..to][start..end], text[start + from..end + from];
    assert |a| == |b|;
    assert forall k :: 0 <= k < |a| ==> a[k] == text[k + start + from] == b[k];
  }

  lemma PlacedWithin(text: string, offset: nat, whole: string, start: nat, end: nat, part: string)
    requires FromText(text, (offset, whole)) && Placed(whole, start, end, part)
    ensures Placed(text, start + offset, end + offset, part)
  {
    if part != "" {
      assert whole != "";
      SliceOfSlice(text, offset, offset + |whole|, start, end);
    }
  }

  lemma {:induction false} SliceAllFromText(text: string, masks: seq<Mask>)
    requires |text| < WORD
    ensures forall input | input in SliceAll(text, masks) :: FromText(text, input)
  {
    if masks != [] {
      SliceAllFromText(text, masks[1..]);
      SliceIsTheTextBetween(text, masks[0].0, masks[0].1);
    }
  }

  /** Whatever the masks, accepted by validation or not, every input is the text from its offset on. */
  lemma MaskedInputsAreFromText(text: string, masks: Option<seq<Mask>>)
    requires |text| < WORD
    ensures forall input | input in ApplyMasks(text, masks) :: FromText(text, input)
    ensures ApplyMasks(text, masks) != []
  {
    if masks.Some? {
      SliceAllFromText(text, masks.value);
    }
  }

  ghost predicate ChunksInText(text: string, chunks: seq<Chunk>) {
    forall c | c in chunks :: Placed(text, c.start, c.end, c.text)
  }

  lemma {:induction false} MovedChunksInText(text: string, input: Input, chunks: seq<Chunk>)
    requires FromText(text, input) && ChunksInText(input.1, chunks)
    ensures ChunksInText(text, AllMoved(chunks, input.0))
  {
    if chunks != [] {
      PlacedWithin(text, input.0, input.1, chunks[0].start, chunks[0].end, chunks[0].text);
      assert chunks == [chunks[0]] + chunks[1..];
      MovedChunksInText(text, input, chunks[1..]);
    }
  }

  lemma ChunkedInputInText(text: string, k: Chunker, input: Input)
    requires FaithfulChunker(k) && FromText(text, input) && ChunkInput(k, input).Ok?
    ensures ChunksInText(text, ChunkInput(k, input).value)
  {
    if k.Service? {
      MovedChunksInText(text, input, k.chunk(input.1).value);
    }
  }

  lemma {:induction false} CollectedIn<T, U>(items: seq<T>, f: T -> seq<U>, u: U)
    requires u in Collect(items, f)
    ensures exists x :: x in items && u in f(x)
    decreases |items|
  {
    var init, last := items[..|items| - 1], items[|items| - 1];
    assert items == init + [last];
    if u in Collect(init, f) {
      CollectedIn(init, f, u);
    }
  }

  /** Every request was for one of the inputs. */
  ghost predicate Requests(w: Chunking, inputs: seq<Input>) {
    forall id, input :: input in w.completed(id) ==> input in inputs
  }

  ghost predicate AllFaithful(w: Chunking) {
    forall id | id in w.chunkers :: FaithfulChunker(w.chunkers[id])
  }

  lemma AllChunksInText(text: string, w: Chunking, inputs: seq<Input>, id: string)
    requires AllFaithful(w) && Requests(w, inputs) && ChunksFor(w, id).Ok?
    requires forall input | input in inputs :: FromText(text, input)
    ensures ChunksInText(text, ChunksFor(w, id).value)
  {
    var f := (input: Input) => ChunkInput(w.chunkers[id], input);
    FirstErrorIsOne(w.completed(id), f);
    forall c | c in ChunksFor(w, id).value
      ensures Placed(text, c.start, c.end, c.text)
    {
      CollectedIn(w.completed(id), ValueOrNothing(f), c);
      var input :| input in w.completed(id) && c in ValueOrNothing(f)(input);
      ChunkedInputInText(text, w.chunkers[id], input);
    }
  }

  ghost predicate DetectionsInText(text: string, ds: seq<Detection>) {
    forall x | x in ds :: InText(text, x)
  }

  lemma {:induction false} LocatedInText(text: string, detectorId: string, c: Chunk, found: seq<Analysis>)
    requires Placed(text, c.start, c.end, c.text) && AllIn(c.text, found)
    ensures DetectionsInText(text, AllLocated(detectorId, c.start, found))
  {
    if found != [] {
      PlacedWithin(text, c.start, c.text, found[0].start, found[0].end, found[0].text);
      LocatedInText(text, detectorId, c, found[1..]);
    }
  }

  lemma {:induction false} AttributedInText(text: string, detectorId: string, chunks: seq<Chunk>, responses: seq<seq<Analysis>>)
    requires ChunksInText(text, chunks) && InContents(Contents(chunks), responses)
    ensures DetectionsInText(text, Attributed(detectorId, chunks, responses))
  {
    if chunks != [] && responses != [] {
      var contents, rest := Contents(chunks), Contents(chunks[1..]);
      assert contents == [chunks[0].text] + rest && AllIn(contents[0], responses[0]);
      forall i | 0 <= i < |rest| && i < |responses[1..]|
        ensures AllIn(rest[i], responses[1..][i])
      {
        assert rest[i] == contents[i + 1];
      }
      LocatedInText(text, detectorId, chunks[0], responses[0]);
      AttributedInText(text, detectorId, chunks[1..], responses[1..]);
    }
  }

  lemma {:induction false} AtOrAboveAreFound(ds: seq<Detection>, threshold: real)
    ensures forall x | x in AtOrAbove(ds, threshold) :: x in ds
  {
    if ds != [] {
      AtOrAboveAreFound(ds[1..], threshold);
    }
  }

  lemma RequestInText(text: string, w: Chunking, inputs: seq<Input>, d: Detector)
    requires AllFaithful(w) && FaithfulDetector(d) && Requests(w, inputs) && Request(w)(d).Ok?
    requires forall input | input in inputs :: FromText(text, input)
    ensures DetectionsInText(text, Request(w)(d).value)
  {
    AllChunksInText(text, w, inputs, d.chunkerId);
    var chunks := ChunksFor(w, d.chunkerId).value;
    AtOrAboveAreFound(DetectTextContents(d, chunks).value, d.threshold);
    if chunks != [] {
      AttributedInText(text, d.id, chunks, d.analyze(Contents(chunks)).value);
    }
  }

  /** Coordinates compose: with any masks, any faithful chunkers and detectors and any order of completion, the
      text between the positions of a returned detection is the detection's text. */
  lemma DetectionsCarryTheTextAtTheirPositions(
      text: string, masks: Option<seq<Mask>>, w: Chunking, detectors: seq<Detector>, completed: seq<Detector>)
    requires |text| < WORD
    requires Requests(w, ApplyMasks(text, masks)) && AllFaithful(w) && Completes(detectors, completed)
    requires forall d | d in detectors :: FaithfulDetector(d)
    requires TextContentsDetections(w, detectors, completed).Ok?
    ensures DetectionsInText(text, TextContentsDetections(w, detectors, completed).value)
  {
    MaskedInputsAreFromText(text, masks);
    FirstErrorIsOne(completed, Request(w));
    var arrived := Arrived(w, completed);
    SortByStartSorts(arrived);
    forall x | x in TextContentsDetections(w, detectors, completed).value
      ensures InText(text, x)
    {
      assert x in multiset(SortByStart(arrived));
      CollectedIn(completed, ValueOrNothing(Request(w)), x);
      var d :| d in completed && x in ValueOrNothing(Request(w))(d);
      assert d in multiset(completed);
      RequestInText(text, w, ApplyMasks(text, masks), d);
    }
  }
}
