/** What the unary path finds, exactly: which chunks are made, and which detections come of them. */
module UnaryFindings {
  import opened Types
  import opened Merging
  import opened Masks
  import opened UnaryDetection
  import opened UnaryOrder

  /** The chunks a service returned for an input at this offset, in the text's coordinates. */
  function Shifted(chunks: seq<Chunk>, offset: nat): seq<Chunk> {
    seq(|chunks|, i requires 0 <= i < |chunks| =>
      Chunk(chunks[i].inputStartIndex, chunks[i].inputEndIndex, chunks[i].start + offset, chunks[i].end + offset, chunks[i].text))
  }

  lemma {:induction false} AllMovedAreShifted(chunks: seq<Chunk>, offset: nat)
    ensures AllMoved(chunks, offset) == Shifted(chunks, offset)
  {
    if chunks != [] {
      AllMovedAreShifted(chunks[1..], offset);
      assert Shifted(chunks, offset) == [Shifted(chunks, offset)[0]] + Shifted(chunks[1..], offset);
    }
  }

  predicate Chunkable(k: Chunker, input: Input) {
    k.Service? ==> k.chunk(input.1).Ok?
  }

  /** One chunk that is the whole input, or what the service returned, shifted. */
  function ChunksOfInput(k: Chunker, input: Input): seq<Chunk>
    requires Chunkable(k, input)
  {
    match k
    case WholeDoc => [Chunk(0, 0, input.0, input.0 + |input.1|, input.1)]
    case Service(chunk) => Shifted(chunk(input.1).value, input.0)
  }

  function ChunkLists(k: Chunker, inputs: seq<Input>): seq<seq<Chunk>>
    requires forall input :: input in inputs ==> Chunkable(k, input)
  {
    seq(|inputs|, i requires 0 <= i < |inputs| => ChunksOfInput(k, inputs[i]))
  }

  lemma ChunkInputIs(k: Chunker, input: Input)
    ensures ChunkInput(k, input).Ok? <==> Chunkable(k, input)
    ensures Chunkable(k, input) ==> ChunkInput(k, input).value == ChunksOfInput(k, input)
  {
    if k.Service? && k.chunk(input.1).Ok? {
      AllMovedAreShifted(k.chunk(input.1).value, input.0);
    }
  }

  lemma {:induction false} CollectedChunks(k: Chunker, inputs: seq<Input>, f: Input -> Result<seq<Chunk>, Error>)
    requires forall input :: input in inputs ==> Chunkable(k, input) && f(input) == ChunkInput(k, input)
    ensures Collect(inputs, ValueOrNothing(f)) == Flatten(ChunkLists(k, inputs))
    decreases |inputs|
  {
    if inputs != [] {
      var init, last := inputs[..|inputs| - 1], inputs[|inputs| - 1];
      CollectedChunks(k, init, f);
      ChunkInputIs(k, last);
      assert ChunkLists(k, inputs) == ChunkLists(k, init) + [ChunksOfInput(k, last)];
      FlattenAppend(ChunkLists(k, init), [ChunksOfInput(k, last)]);
      FlattenSingleton(ChunksOfInput(k, last));
    }
  }

  /** Every input is chunked and nothing else: the chunks of a chunker are those of its inputs, in the order in which its
      requests complete. It fails exactly if the chunker is missing or fails on some input. */
  lemma ChunksAreThoseOfAllInputs(w: Chunking, id: string)
    ensures ChunksFor(w, id).Ok? <==>
              id in w.chunkers && forall input :: input in w.completed(id) ==> Chunkable(w.chunkers[id], input)
    ensures ChunksFor(w, id).Err? && id in w.chunkers ==>
              exists input :: input in w.completed(id) && !Chunkable(w.chunkers[id], input)
                              && w.chunkers[id].chunk(input.1).error == ChunksFor(w, id).error
    ensures ChunksFor(w, id).Ok? ==> ChunksFor(w, id).value == Flatten(ChunkLists(w.chunkers[id], w.completed(id)))
  {
    if id in w.chunkers {
      var f := (input: Input) => ChunkInput(w.chunkers[id], input);
      FirstErrorIsOne(w.completed(id), f);
      forall input
        ensures f(input).Ok? <==> Chunkable(w.chunkers[id], input)
      {
        ChunkInputIs(w.chunkers[id], input);
      }
      if ChunksFor(w, id).Ok? {
        CollectedChunks(w.chunkers[id], w.completed(id), f);
      }
    }
  }

  // ---------------------------------------------------------------------------------------------
  // Detections

  /** What a detector said about a chunk, in the text's coordinates. */
  function AsDetections(d: Detector, c: Chunk, found: seq<Analysis>): seq<Detection> {
    seq(|found|, j requires 0 <= j < |found| =>
      Detection(Some(found[j].start + c.start), Some(found[j].end + c.start), Some(found[j].text), Some(d.id),
                found[j].detectionType, found[j].detection, found[j].score))
  }

  lemma {:induction false} AllLocatedAreDetections(d: Detector, c: Chunk, found: seq<Analysis>)
    ensures AllLocated(d.id, c.start, found) == AsDetections(d, c, found)
  {
    if found != [] {
      AllLocatedAreDetections(d, c, found[1..]);
      assert AsDetections(d, c, found) == [AsDetections(d, c, found)[0]] + AsDetections(d, c, found[1..]);
    }
  }

  function TextsOf(chunks: seq<Chunk>): seq<string> {
    seq(|chunks|, i requires 0 <= i < |chunks| => chunks[i].text)
  }

  lemma {:induction false} ContentsAreTexts(chunks: seq<Chunk>)
    ensures Contents(chunks) == TextsOf(chunks)
  {
    if chunks != [] {
      ContentsAreTexts(chunks[1..]);
      assert TextsOf(chunks) == [chunks[0].text] + TextsOf(chunks[1..]);
    }
  }

  /** The i-th response is about the i-th chunk; responses without a chunk and chunks without a response yield nothing. */
  function DetectionLists(d: Detector, chunks: seq<Chunk>, responses: seq<seq<Analysis>>): seq<seq<Detection>> {
    seq(Min(|chunks|, |responses|), i requires 0 <= i < Min(|chunks|, |responses|) => AsDetections(d, chunks[i], responses[i]))
  }

  lemma {:induction false} AttributedAreLists(d: Detector, chunks: seq<Chunk>, responses: seq<seq<Analysis>>)
    ensures Attributed(d.id, chunks, responses) == Flatten(DetectionLists(d, chunks, responses))
  {
    if chunks != [] && responses != [] {
      AttributedAreLists(d, chunks[1..], responses[1..]);
      AllLocatedAreDetections(d, chunks[0], responses[0]);
      assert DetectionLists(d, chunks, responses)
          == [AsDetections(d, chunks[0], responses[0])] + DetectionLists(d, chunks[1..], responses[1..]);
    }
  }

  /** A detector finds exactly what it answers about the texts of all its chunks, each answer moved to its chunk; without
      chunks it is not asked. */
  lemma FoundIsWhatTheDetectorSaid(w: Chunking, d: Detector)
    requires ChunksFor(w, d.chunkerId).Ok?
    ensures var chunks := ChunksFor(w, d.chunkerId).value;
            var answer := d.analyze(TextsOf(chunks));
            && (Request(w)(d).Ok? <==> chunks == [] || answer.Ok?)
            && (Request(w)(d).Err? ==> Request(w)(d).error == answer.error)
            && Found(w, d) == if chunks != [] && answer.Ok? then Flatten(DetectionLists(d, chunks, answer.value)) else []
  {
    var chunks := ChunksFor(w, d.chunkerId).value;
    ContentsAreTexts(chunks);
    if chunks != [] && d.analyze(TextsOf(chunks)).Ok? {
      AttributedAreLists(d, chunks, d.analyze(TextsOf(chunks)).value);
    }
  }

  /** x is the j-th answer about the i-th chunk. */
  ghost predicate SaidAbout(d: Detector, chunks: seq<Chunk>, responses: seq<seq<Analysis>>, x: Detection, i: nat, j: nat) {
    && i < |chunks| && i < |responses| && j < |responses[i]|
    && var a := responses[i][j];
    && x == Detection(Some(a.start + chunks[i].start), Some(a.end + chunks[i].start), Some(a.text), Some(d.id),
                      a.detectionType, a.detection, a.score)
  }

  ghost predicate Said(w: Chunking, d: Detector, x: Detection, i: nat, j: nat)
    requires ChunksFor(w, d.chunkerId).Ok?
  {
    var chunks := ChunksFor(w, d.chunkerId).value;
    chunks != [] && d.analyze(TextsOf(chunks)).Ok? && SaidAbout(d, chunks, d.analyze(TextsOf(chunks)).value, x, i, j)
  }

  lemma {:induction false} InFlattened<T>(lists: seq<seq<T>>, x: T)
    ensures x in Flatten(lists) <==> exists i :: 0 <= i < |lists| && x in lists[i]
  {
    if lists != [] {
      InFlattened(lists[1..], x);
      assert forall i :: 0 < i < |lists| ==> lists[i] == lists[1..][i - 1];
      if x in Flatten(lists[1..]) {
        var i :| 0 <= i < |lists[1..]| && x in lists[1..][i];
        assert x in lists[i + 1];
      }
    }
  }

  lemma ListedMeansSaid(d: Detector, chunks: seq<Chunk>, responses: seq<seq<Analysis>>, x: Detection)
    ensures x in Flatten(DetectionLists(d, chunks, responses))
       <==> exists i: nat, j: nat :: SaidAbout(d, chunks, responses, x, i, j)
  {
    var lists := DetectionLists(d, chunks, responses);
    InFlattened(lists, x);
    if x in Flatten(lists) {
      var i :| 0 <= i < |lists| && x in lists[i];
      var j :| 0 <= j < |lists[i]| && lists[i][j] == x;
      assert SaidAbout(d, chunks, responses, x, i, j);
    }
    if i: nat, j: nat :| SaidAbout(d, chunks, responses, x, i, j) {
      assert lists[i][j] == x;
    }
  }

  lemma FoundMeansSaid(w: Chunking, d: Detector, x: Detection)
    requires ChunksFor(w, d.chunkerId).Ok?
    ensures x in Found(w, d) <==> exists i: nat, j: nat :: Said(w, d, x, i, j)
  {
    var chunks := ChunksFor(w, d.chunkerId).value;
    FoundIsWhatTheDetectorSaid(w, d);
    if chunks != [] && d.analyze(TextsOf(chunks)).Ok? {
      var responses := d.analyze(TextsOf(chunks)).value;
      ListedMeansSaid(d, chunks, responses, x);
      assert forall i: nat, j: nat :: Said(w, d, x, i, j) <==> SaidAbout(d, chunks, responses, x, i, j);
    }
  }

  lemma {:induction false} OccurrencesPositive(w: Chunking, detectors: seq<Detector>, x: Detection)
    ensures Occurrences(w, detectors, x) > 0 <==>
              exists i :: 0 <= i < |detectors| && x.score >= detectors[i].threshold && x in Found(w, detectors[i])
    decreases |detectors|
  {
    if detectors != [] {
      OccurrencesPositive(w, detectors[..|detectors| - 1], x);
    }
  }

  /** The result holds exactly what some detector said about some chunk of some input, with a score that reaches the
      detector's threshold: nothing more, and nothing is left out. */
  lemma ResultHoldsWhatTheDetectorsSaid(w: Chunking, detectors: seq<Detector>, completed: seq<Detector>, x: Detection)
    requires Completes(detectors, completed) && !SomeRequestFails(w, detectors)
    ensures TextContentsDetections(w, detectors, completed).Ok?
    ensures forall d :: d in detectors ==> ChunksFor(w, d.chunkerId).Ok?
    ensures x in TextContentsDetections(w, detectors, completed).value <==>
              exists d :: d in detectors && x.score >= d.threshold && exists i: nat, j: nat :: Said(w, d, x, i, j)
  {
    ResultIsSortedAndExact(w, detectors, completed);
    var r := TextContentsDetections(w, detectors, completed).value;
    assert x in r <==> multiset(r)[x] > 0;
    OccurrencesPositive(w, detectors, x);
    forall d | d in detectors
      ensures ChunksFor(w, d.chunkerId).Ok?
      ensures x in Found(w, d) <==> exists i: nat, j: nat :: Said(w, d, x, i, j)
    {
      assert Request(w)(d).Ok?;
      FoundMeansSaid(w, d, x);
    }
  }
}
