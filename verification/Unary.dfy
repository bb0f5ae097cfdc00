/** Masking: which parts of an input text are chunked, and under which offsets. */
module Masks {
  import opened Types

  const WORD: nat := 0x1_0000_0000_0000_0000

  type Usize = n: nat | n < WORD

  type Mask = (Usize, Usize)

  type Input = (nat, string)

  /** Subtraction as an optimised build does it: it wraps around. A build with overflow checks panics instead
      when b is greater. */
  function WrappingSub(a: Usize, b: Usize): Usize {
    if b <= a then a - b else WORD + a - b
  }

  function Skip(text: string, n: nat): string {
    if n <= |text| then text[n..] else ""
  }

  function Take(text: string, n: nat): string {
    if n <= |text| then text[..n] else text
  }

  function SliceCodepoints(text: string, start: Usize, end: Usize): string {
    Take(Skip(text, start), WrappingSub(end, start))
  }

  function SliceAll(text: string, masks: seq<Mask>): seq<Input> {
    if masks == [] then []
    else [(masks[0].0, SliceCodepoints(text, masks[0].0, masks[0].1))] + SliceAll(text, masks[1..])
  }

  function ApplyMasks(text: string, masks: Option<seq<Mask>>): seq<Input> {
    if masks.None? || masks.value == [] then [(0, text)] else SliceAll(text, masks.value)
  }

  function Min(a: nat, b: nat): nat {
    if a <= b then a else b
  }

  /** The text between two positions, as far as the text reaches. */
  function Between(text: string, start: nat, end: nat): string
    requires start <= end
  {
    text[Min(start, |text|)..Min(end, |text|)]
  }

  /** Every masked text is the text between the mask's positions, cut off at the end of the text; an inverted
      mask selects everything from its start on. */
  lemma SliceIsTheTextBetween(text: string, start: Usize, end: Usize)
    requires |text| < WORD
    ensures SliceCodepoints(text, start, end) == Between(text, start, if start <= end then end else start + |text|)
  {
  }

  /** Every mask is applied: with masks there is one input per mask, in their order; its offset is the mask's start, and its
      text is the one between the mask's positions, or everything from the start on if the mask is inverted. Without masks
      the whole text is the only input. */
  lemma MasksAreApplied(text: string, masks: seq<Mask>)
    requires |text| < WORD
    ensures ApplyMasks(text, None) == ApplyMasks(text, Some([])) == [(0, text)]
    ensures masks != [] ==> |ApplyMasks(text, Some(masks))| == |masks|
    ensures masks != [] ==> forall i :: 0 <= i < |masks| ==>
              var (start, end) := masks[i];
              ApplyMasks(text, Some(masks))[i]
              == (start, Between(text, start, if start <= end then end else start + |text|))
  {
    if masks != [] {
      SliceAllAt(text, masks, 0);
      forall i | 0 <= i < |masks|
        ensures SliceAll(text, masks)[i]
             == (masks[i].0, Between(text, masks[i].0, if masks[i].0 <= masks[i].1 then masks[i].1 else masks[i].0 + |text|))
      {
        SliceAllAt(text, masks, i);
        SliceIsTheTextBetween(text, masks[i].0, masks[i].1);
      }
    }
  }

  lemma {:induction false} SliceAllAt(text: string, masks: seq<Mask>, i: nat)
    requires i < |masks|
    ensures |SliceAll(text, masks)| == |masks|
    ensures SliceAll(text, masks)[i] == (masks[i].0, SliceCodepoints(text, masks[i].0, masks[i].1))
    decreases |masks|
  {
    if |masks| > 1 {
      SliceAllAt(text, masks[1..], if i == 0 then 0 else i - 1);
    }
  }

  /** Position p of the text is read by an input. */
  ghost predicate Reads(input: Input, p: nat) {
    input.0 <= p < input.0 + |input.1|
  }

  lemma BetweenReads(text: string, start: nat, end: nat, p: nat)
    requires start <= end && p < |text|
    ensures Reads((start, Between(text, start, end)), p) <==> start <= p < end
    ensures start <= p < end ==> Between(text, start, end)[p - start] == text[p]
  {
    assert |Between(text, start, end)| == Min(end, |text|) - Min(start, |text|);
  }

  /** With regular masks, exactly the positions inside some mask are read, and each as it is in the text: nothing outside
      all masks is seen, and nothing inside one is left out. */
  lemma OnlyAndAllMaskedPositionsAreRead(text: string, masks: seq<Mask>, p: nat)
    requires |text| < WORD && masks != [] && p < |text|
    requires forall i :: 0 <= i < |masks| ==> masks[i].0 <= masks[i].1
    ensures (exists i :: 0 <= i < |ApplyMasks(text, Some(masks))| && Reads(ApplyMasks(text, Some(masks))[i], p))
       <==> (exists i :: 0 <= i < |masks| && masks[i].0 <= p < masks[i].1)
    ensures forall i :: 0 <= i < |ApplyMasks(text, Some(masks))| && Reads(ApplyMasks(text, Some(masks))[i], p) ==>
              var input := ApplyMasks(text, Some(masks))[i];
              input.1[p - input.0] == text[p]
  {
    MasksAreApplied(text, masks);
    var inputs := ApplyMasks(text, Some(masks));
    forall i | 0 <= i < |masks|
      ensures Reads(inputs[i], p) <==> masks[i].0 <= p < masks[i].1
      ensures Reads(inputs[i], p) ==> inputs[i].1[p - inputs[i].0] == text[p]
    {
      BetweenReads(text, masks[i].0, masks[i].1, p);
    }
  }

  /** The length of a character in UTF-8, section 3 of RFC 3629. */
  function Utf8Width(c: char): nat {
    if c as int < 0x80 then 1 else if c as int < 0x800 then 2 else if c as int < 0x1_0000 then 3 else 4
  }

  function Utf8Length(text: string): nat {
    if text == "" then 0 else Utf8Width(text[0]) + Utf8Length(text[1..])
  }

  /** Request validation compares masks with the length in bytes, although they count characters. */
  predicate Accepted(text: string, m: Mask) {
    m.0 <= Utf8Length(text) && m.1 <= Utf8Length(text) && m.0 < m.1
  }

  predicate Ascii(text: string) {
    forall i :: 0 <= i < |text| ==> text[i] as int < 0x80
  }

  lemma {:induction false} Utf8LengthBounds(text: string)
    ensures |text| <= Utf8Length(text)
    ensures |text| == Utf8Length(text) <==> Ascii(text)
  {
    if text != "" {
      Utf8LengthBounds(text[1..]);
      assert Ascii(text) <==> text[0] as int < 0x80 && Ascii(text[1..]);
    }
  }

  /** The mask selects as many characters as it spans. */
  predicate TakenInFull(text: string, m: Mask)
    requires m.0 <= m.1
  {
    |SliceCodepoints(text, m.0, m.1)| == m.1 - m.0
  }

  /** Validation accepts exactly the masks that select a part, not empty, in full, if and only if the text is ASCII: for any
      other text it accepts a mask that is then shortened. */
  lemma AcceptedMasksFitIffAscii(text: string)
    requires Utf8Length(text) < WORD
    ensures (forall m: Mask :: Accepted(text, m) <==> m.0 < m.1 && TakenInFull(text, m)) <==> Ascii(text)
    ensures forall m: Mask :: m.0 < m.1 && TakenInFull(text, m) ==> Accepted(text, m)
  {
    Utf8LengthBounds(text);
    if !Ascii(text) {
      var whole: Mask := (0, Utf8Length(text));
      assert Accepted(text, whole) && !TakenInFull(text, whole);
    }
  }
}

/** The unary detection path: chunk requests, detector requests, thresholds and the final sort. */
module UnaryDetection {
  import opened Types
  import opened Merging
  import opened Masks

  type Error = string

  /** What a detector reports about one content. */
  datatype Analysis = Analysis(start: nat, end: nat, text: string, detectionType: string, detection: string, score: real)

  /** Either the built-in whole-document chunker or a service, which may answer anything. */
  datatype Chunker = WholeDoc | Service(chunk: string -> Result<seq<Chunk>, Error>)

  datatype Detector = Detector(
    id: string, chunkerId: string, threshold: real, analyze: seq<string> -> Result<seq<seq<Analysis>>, Error>)

  // ---------------------------------------------------------------------------------------------
  // Concurrent requests

  /** The first error, in the order the requests complete. */
  function FirstError<T, U>(completed: seq<T>, f: T -> Result<U, Error>): Option<Error> {
    if completed == [] then None
    else if f(completed[0]).Err? then Some(f(completed[0]).error)
    else FirstError(completed[1..], f)
  }

  function ValueOrNothing<T, U>(f: T -> Result<seq<U>, Error>): T -> seq<U> {
    x => match f(x) case Ok(value) => value case Err(_) => []
  }

  /** Runs the requests; the first to fail decides, and otherwise the results are concatenated in the order of
      completion. */
  function TryCollect<T, U>(completed: seq<T>, f: T -> Result<seq<U>, Error>): Result<seq<U>, Error> {
    match FirstError(completed, f)
    case Some(e) => Err(e)
    case None => Ok(Collect(completed, ValueOrNothing(f)))
  }

  // ---------------------------------------------------------------------------------------------
  // Chunks

  function Moved(c: Chunk, offset: nat): Chunk {
    c.(start := c.start + offset, end := c.end + offset)
  }

  function AllMoved(chunks: seq<Chunk>, offset: nat): seq<Chunk> {
    if chunks == [] then [] else [Moved(chunks[0], offset)] + AllMoved(chunks[1..], offset)
  }

  function WholeDocChunk(offset: nat, text: string): Chunk {
    Chunk(0, 0, offset, |text| + offset, text)
  }

  function ChunkInput(k: Chunker, input: Input): Result<seq<Chunk>, Error> {
    match k
    case WholeDoc => Ok([WholeDocChunk(input.0, input.1)])
    case Service(chunk) =>
      match chunk(input.1) {
        case Ok(chunks) => Ok(AllMoved(chunks, input.0))
        case Err(e) => Err(e)
      }
  }

  /** The chunkers by id, and for each id the order in which its requests for the inputs complete. */
  datatype Chunking = Chunking(chunkers: map<string, Chunker>, completed: string -> seq<Input>)

  function ChunksFor(w: Chunking, id: string): Result<seq<Chunk>, Error> {
    if id !in w.chunkers then Err("chunker not found: " + id)
    else TryCollect(w.completed(id), (input: Input) => ChunkInput(w.chunkers[id], input))
  }

  // ---------------------------------------------------------------------------------------------
  // Detections

  function Located(detectorId: string, offset: nat, a: Analysis): Detection {
    Detection(Some(a.start + offset), Some(a.end + offset), Some(a.text), Some(detectorId), a.detectionType, a.detection, a.score)
  }

  function AllLocated(detectorId: string, offset: nat, found: seq<Analysis>): seq<Detection> {
    if found == [] then [] else [Located(detectorId, offset, found[0])] + AllLocated(detectorId, offset, found[1..])
  }

  /** Pairs chunks with responses, as far as both reach. */
  function Attributed(detectorId: string, chunks: seq<Chunk>, responses: seq<seq<Analysis>>): seq<Detection> {
    if chunks == [] || responses == [] then []
    else AllLocated(detectorId, chunks[0].start, responses[0]) + Attributed(detectorId, chunks[1..], responses[1..])
  }

  function Contents(chunks: seq<Chunk>): seq<string> {
    if chunks == [] then [] else [chunks[0].text] + Contents(chunks[1..])
  }

  function DetectTextContents(d: Detector, chunks: seq<Chunk>): Result<seq<Detection>, Error> {
    if chunks == [] then Ok([])
    else
      match d.analyze(Contents(chunks))
      case Ok(responses) => Ok(Attributed(d.id, chunks, responses))
      case Err(e) => Err(e)
  }

  function AtOrAbove(ds: seq<Detection>, threshold: real): seq<Detection> {
    if ds == [] then []
    else
      var rest := AtOrAbove(ds[1..], threshold);
      if ds[0].score >= threshold then [ds[0]] + rest else rest
  }

  /** One detector's request on the chunks it is given, thresholded. */
  function Request(w: Chunking): Detector -> Result<seq<Detection>, Error> {
    (d: Detector) =>
      match ChunksFor(w, d.chunkerId)
      case Err(e) => Err(e)
      case Ok(chunks) =>
        match DetectTextContents(d, chunks)
        case Err(e) => Err(e)
        case Ok(ds) => Ok(AtOrAbove(ds, d.threshold))
  }

  function ChunkRequest(w: Chunking): Detector -> Result<seq<Chunk>, Error> {
    (d: Detector) => ChunksFor(w, d.chunkerId)
  }

  // ---------------------------------------------------------------------------------------------
  // The stable sort by start

  /** Absent starts come first. */
  predicate StartsNoLater(a: Detection, b: Detection) {
    a.start.None? || (b.start.Some? && a.start.value <= b.start.value)
  }

  /** Puts d after everything that starts no later. */
  function Insert(d: Detection, sorted: seq<Detection>): seq<Detection> {
    if sorted == [] || StartsNoLater(sorted[|sorted| - 1], d) then sorted + [d]
    else Insert(d, sorted[..|sorted| - 1]) + [sorted[|sorted| - 1]]
  }

  function SortByStart(ds: seq<Detection>): seq<Detection> {
    if ds == [] then [] else Insert(ds[|ds| - 1], SortByStart(ds[..|ds| - 1]))
  }

  /** All detections on the inputs. A chunk request that fails fails everything, before any detector is asked;
      the detectors' requests complete in the order given. */
  function TextContentsDetections(w: Chunking, detectors: seq<Detector>, completed: seq<Detector>): Result<seq<Detection>, Error> {
    match FirstError(detectors, ChunkRequest(w))
    case Some(e) => Err(e)
    case None =>
      match TryCollect(completed, Request(w))
      case Err(e) => Err(e)
      case Ok(ds) => Ok(SortByStart(ds))
  }
}
