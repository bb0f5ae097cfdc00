/** The streaming completions handler: from the checks of a request to the end marker of its response stream. */
module CompletionsRequest {
  import opened Types
  import opened CompletionStates
  import opened Producers
  import opened ProducerProperties
  import opened Completions
  import opened CompletionsHandler

  type WholeDocResult = Result<(CompletionDetections, seq<Warning>), string>

  /** Detection on chunks. The producer runs while the batches are consumed; it feeds the chunkers of these choices.
      moments says how far it is when the k-th result of the batch stream is handled, flushAt how far at the flush,
      endAt how far when the final part is sent. wholeDoc: None without whole-document detectors. */
  datatype ChunkedRun = ChunkedRun(
    streamErrors: seq<string>,
    choices: set<nat>,
    results: seq<Result<Batch, string>>,
    moments: seq<nat>,
    flushAt: nat,
    endAt: nat,
    wholeDoc: Option<WholeDocResult>)

  /** The output detectors: some use a chunker, or all look at the whole document. */
  datatype Output = Chunks(run: ChunkedRun) | WholeDocument(result: WholeDocResult)

  datatype Request = Request(
    inputError: Option<string>,                             // the input detectors are invalid
    outputError: Option<string>,                            // the output detectors are invalid
    input: Option<Result<Option<Completion>, string>>,      // None without input detectors
    upstream: Result<Upstream<Completion>, string>,         // the completions stream
    output: Option<Output>,                                 // None without output detectors
    patience: nat)                                          // messages the client takes before it hangs up

  const FORWARD_ONLY := Wiring(false, None, true, true)
  const RECORD_AND_FORWARD := Wiring(true, None, true, true)

  function Pipeline(run: ChunkedRun): Wiring {
    Wiring(true, Some(run.choices), false, true)
  }

  function PipelineActions(run: ChunkedRun, stream: Upstream<Completion>): seq<Action<Completion>> {
    AllActions(CompletionView, Pipeline(run), stream, 0)
  }

  function At(run: ChunkedRun, stream: Upstream<Completion>, n: nat): World<Completion>
    requires n <= |PipelineActions(run, stream)|
  {
    Moment(CompletionView, Pipeline(run), stream, 0, n)
  }

  /** The moments are moments of the producer's run, in order. */
  predicate Scheduled(run: ChunkedRun, stream: Upstream<Completion>) {
    && |run.moments| == |run.results|
    && (forall i, j :: 0 <= i <= j < |run.moments| ==> run.moments[i] <= run.moments[j])
    && (forall i :: 0 <= i < |run.moments| ==> run.moments[i] <= run.flushAt)
    && run.flushAt <= run.endAt <= |PipelineActions(run, stream)|
  }

  predicate WellFormed(r: Request) {
    r.upstream.Ok? && r.output.Some? && r.output.value.Chunks? ==> Scheduled(r.output.value.run, r.upstream.value)
  }

  /** The state as it is when each result is handled. */
  function Views(run: ChunkedRun, stream: Upstream<Completion>): (r: seq<Store<Completion>>)
    requires Scheduled(run, stream)
    ensures |r| == |run.results|
    ensures forall k :: 0 <= k < |r| ==> r[k] == At(run, stream, run.moments[k]).store
  {
    seq(|run.moments|, k requires 0 <= k < |run.moments| => At(run, stream, run.moments[k]).store)
  }

  function BatchLoop(run: ChunkedRun, stream: Upstream<Completion>, patience: nat): Main
    requires Scheduled(run, stream)
  {
    MainLoop(OutcomesOf(Views(run, stream), run.results), 0, patience)
  }

  /** The text fed to the chunkers for choice c, by the time the producer is done. */
  function FedText(run: ChunkedRun, stream: Upstream<Completion>, c: nat): string {
    var inputs := At(run, stream, |PipelineActions(run, stream)|).inputs;
    if c in inputs then Concat(Texts(inputs[c])) else ""
  }

  /** When the producer is done, the text it fed for a choice is the text it stored. */
  lemma PipelineAgrees(run: ChunkedRun, stream: Upstream<Completion>, c: nat)
    requires c in run.choices
    ensures FedText(run, stream, c)
         == StoredTexts(CompletionView, Values(Of(At(run, stream, |PipelineActions(run, stream)|).store, c)))
  {
    BothPathsSeeTheSameText(CompletionView, Pipeline(run), stream, 0, c);
    var all := PipelineActions(run, stream);
    assert all[..|all|] == all;
  }

  // ---------------------------------------------------------------------------------------------
  // The final part

  /** A final message is sent with whole-document detections, usage, or a warning about empty output. */
  predicate FinalMessageNeeded(store: Store<Completion>, flagged: bool, wholeDoc: Option<WholeDocResult>) {
    wholeDoc.Some? || store.usage.Some? || flagged
  }

  /** What the final part of the response consists of: nothing, the error of the whole-document detection, or one
      message with the metadata, the usage, and the whole-document detections with their warnings. Without such
      detections it warns about empty output; with them that warning is lost. */
  ghost predicate IsFinalPart(sent: Responses, store: Store<Completion>, flagged: bool, wholeDoc: Option<WholeDocResult>) {
    if !FinalMessageNeeded(store, flagged, wholeDoc) then sent == []
    else if store.metadata.None? then false
    else if wholeDoc.Some? && wholeDoc.value.Err? then sent == [Err(wholeDoc.value.error)]
    else
      && |sent| == 1 && sent[0].Ok? && sent[0].value.Some?
      && var c := sent[0].value.value;
      && Metadata(c.id, c.created, c.model) == store.metadata.value
      && c.usage == store.usage && c.choices == []
      && c.detections == (if wholeDoc.Some? then Some(wholeDoc.value.value.0) else None)
      && c.warnings == if wholeDoc.Some? then wholeDoc.value.value.1 else if flagged then [EmptyOutput] else []
  }

  /** Sends the final part; the metadata are unwrapped. */
  method SendFinalPart(store: Store<Completion>, flagged: bool, wholeDoc: Option<WholeDocResult>, sent: Responses)
    returns (sent': Responses, panicked: bool, ghost out: Responses)
    ensures sent' == sent + out && Ok(None) !in out
    ensures panicked <==> FinalMessageNeeded(store, flagged, wholeDoc) && store.metadata.None?
    ensures !panicked ==> IsFinalPart(out, store, flagged, wholeDoc)
  {
    sent', panicked, out := sent, false, [];
    if wholeDoc.Some? || store.usage.Some? || flagged {
      if store.metadata.None? {
        panicked := true;
        return;
      }
      var metadata := store.metadata.value;
      var completion := Completion(metadata.id, metadata.created, metadata.model, [], store.usage, None, []);
      if flagged {
        completion := completion.(warnings := completion.warnings + [EmptyOutput]);
      }
      if wholeDoc.Some? {
        match wholeDoc.value {
          case Ok(found) =>
            completion := completion.(detections := Some(found.0), warnings := found.1);
          case Err(e) =>
            out := [Err(e)];
            sent' := sent + [Err(e)];
            return;
        }
      }
      out := [Ok(Some(completion))];
      sent' := sent + [Ok(Some(completion))];
    }
  }

  // ---------------------------------------------------------------------------------------------
  // Output detection

  /** A response to a batch panics. */
  ghost predicate BatchPanics(run: ChunkedRun, stream: Upstream<Completion>, patience: nat)
    requires Scheduled(run, stream)
  {
    BatchLoop(run, stream, patience).ending == Some(Panic)
  }

  /** The final part is due, but the stream did not open with a message that stores metadata, or the producer has not
      even handled that message. */
  predicate FinalPartPanics(run: ChunkedRun, stream: Upstream<Completion>)
    requires Scheduled(run, stream)
  {
    && FinalMessageNeeded(At(run, stream, run.endAt).store, At(run, stream, run.endAt).flagged, run.wholeDoc)
    && !(OpensWithMetadata(CompletionView, stream) && run.endAt > 0)
  }

  /** The flush never panics: a choice with a response had an entry, and entries stay. */
  lemma FlushFindsEveryEntry(run: ChunkedRun, stream: Upstream<Completion>, out: Responses)
    requires Scheduled(run, stream) && AllAnswered(Views(run, stream), run.results, out)
    ensures !FlushPanics(At(run, stream, run.flushAt).store, run.results)
  {
    var views := Views(run, stream);
    forall c: nat | LastBatchEnd(run.results, c).Some?
      ensures Of(At(run, stream, run.flushAt).store, c) != map[]
    {
      var k := LastBatchExists(run.results, c);
      var i := StoredForResponse(views[k], c, run.results[k].value.chunk, run.results[k].value.detections);
      EntriesStay(CompletionView, Pipeline(run), stream, 0, run.moments[k], run.flushAt, c, i);
    }
  }

  lemma StoredForResponse(store: Store<Completion>, c: nat, chunk: Chunk, detections: seq<Detection>) returns (i: nat)
    requires OutputDetectionResponse(store, c, chunk, detections).Built?
    ensures i in Of(store, c) && chunk.inputStartIndex <= i <= chunk.inputEndIndex
  {
    LastKeyOrNone(Of(store, c), chunk.inputStartIndex, chunk.inputEndIndex + 1);
    if forall i :: chunk.inputStartIndex <= i < chunk.inputEndIndex + 1 ==> i !in Of(store, c) {
      RangeWithoutKeys(Of(store, c), chunk.inputStartIndex, chunk.inputEndIndex + 1);
    }
    i :| IsLastKeyIn(Of(store, c), chunk.inputStartIndex, chunk.inputEndIndex + 1, i);
  }

  /** The chunk of the batch does not start after its end, and ends with a message whose text had been sent; or it is
      made from the empty text sent for a silent choice, and the choice's message 0 is stored. */
  ghost predicate BackedBatch(world: World<Completion>, b: Batch) {
    && b.chunk.inputStartIndex <= b.chunk.inputEndIndex
    && ((exists text :: SentText(world, b.choice, b.chunk.inputEndIndex, text)) || FromEmptyText(world, b))
  }

  ghost predicate FromEmptyText(world: World<Completion>, b: Batch) {
    SentEmpty(world, b.choice) && b.chunk.inputEndIndex == 0 && 0 in Of(world.store, b.choice)
  }

  /** Every batch comes from texts the producer had sent when the batch was handled. */
  ghost predicate Backed(run: ChunkedRun, stream: Upstream<Completion>)
    requires Scheduled(run, stream)
  {
    forall k :: 0 <= k < |run.results| && run.results[k].Ok? ==>
      BackedBatch(At(run, stream, run.moments[k]), run.results[k].value)
  }

  lemma BackedBatchIsAnswered(run: ChunkedRun, stream: Upstream<Completion>, k: nat)
    requires Scheduled(run, stream) && Backed(run, stream) && k < |run.results| && run.results[k].Ok?
    ensures Respond(Views(run, stream), run.results, k).Built?
  {
    BackedBatchIsFinal(run, stream, k, 0);
    OutcomeAt(run, stream, k);
  }

  /** A backed batch finds, in any range that ends where its chunk does, what any later look finds; and its end index is
      stored. */
  lemma BackedBatchIsFinal(run: ChunkedRun, stream: Upstream<Completion>, k: nat, lo: nat)
    requires Scheduled(run, stream) && Backed(run, stream) && k < |run.results| && run.results[k].Ok?
    ensures var b := run.results[k].value;
            var now, later := At(run, stream, run.moments[k]).store, At(run, stream, run.flushAt).store;
            && b.chunk.inputStartIndex <= b.chunk.inputEndIndex
            && b.chunk.inputEndIndex in Of(now, b.choice) && b.chunk.inputEndIndex in Of(later, b.choice)
            && Range(Of(now, b.choice), lo, b.chunk.inputEndIndex + 1) == Range(Of(later, b.choice), lo, b.chunk.inputEndIndex + 1)
  {
    var b, n := run.results[k].value, run.moments[k];
    assert BackedBatch(At(run, stream, n), b);
    if FromEmptyText(At(run, stream, n), b) {
      EmptyTextComesLast(CompletionView, Pipeline(run), stream, 0, n, b.choice);
    } else {
      var text :| SentText(At(run, stream, n), b.choice, b.chunk.inputEndIndex, text);
      EntriesUpToSentTextAreFinal(CompletionView, Pipeline(run), stream, 0, n, run.flushAt, b.choice, b.chunk.inputEndIndex, text, lo);
    }
  }

  lemma {:induction false} LoopPanicsOnlyInAResponse(outcomes: Outcomes, k: nat, patience: nat)
    requires k <= |outcomes| && forall j :: 0 <= j < |outcomes| && outcomes[j].Ok? ==> !outcomes[j].value.Panicked?
    ensures MainLoop(outcomes, k, patience).ending != Some(Panic)
    decreases |outcomes| - k
  {
    if k < |outcomes| && outcomes[k].Ok? && outcomes[k].value.Built? && patience > 0 {
      LoopPanicsOnlyInAResponse(outcomes, k + 1, patience - 1);
    }
  }

  lemma BackedBatchesDoNotPanic(run: ChunkedRun, stream: Upstream<Completion>, patience: nat)
    requires Scheduled(run, stream) && Backed(run, stream)
    ensures !BatchPanics(run, stream, patience)
  {
    var outcomes := OutcomesOf(Views(run, stream), run.results);
    forall j | 0 <= j < |outcomes| && outcomes[j].Ok?
      ensures !outcomes[j].value.Panicked?
    {
      BackedBatchIsAnswered(run, stream, j);
    }
    LoopPanicsOnlyInAResponse(outcomes, 0, patience);
  }

  lemma {:induction false} LoopPanicsIff(outcomes: Outcomes, k: nat, patience: nat)
    requires k <= |outcomes|
    ensures MainLoop(outcomes, k, patience).ending == Some(Panic) <==> exists j: nat :: StopsAt(outcomes, k, patience, j)
    decreases |outcomes| - k
  {
    if k < |outcomes| {
      if outcomes[k] == Ok(Panicked) {
        assert StopsAt(outcomes, k, patience, k);
      } else if outcomes[k].Ok? && outcomes[k].value.Built? && patience > 0 {
        var next, left: nat := k + 1, patience - 1;
        LoopPanicsIff(outcomes, next, left);
        forall j: nat
          ensures StopsAt(outcomes, k, patience, j) <==> StopsAt(outcomes, next, left, j)
        {
        }
      }
    }
  }

  /** From k on, the j-th outcome is the first that is not a response, and it is a panic. */
  ghost predicate StopsAt(outcomes: Outcomes, k: nat, patience: nat, j: nat) {
    && k <= j < |outcomes| && j - k <= patience && outcomes[j] == Ok(Panicked)
    && forall i :: k <= i < j ==> outcomes[i].Ok? && outcomes[i].value.Built?
  }

  /** The batch has a response: its choice has an entry, and a message is stored in the range of its chunk. */
  ghost predicate Answerable(store: Store<Completion>, b: Batch) {
    exists i :: b.chunk.inputStartIndex <= i <= b.chunk.inputEndIndex && i in Of(store, b.choice)
  }

  /** The j-th batch panics, and the client is still there: its choice has no entry or its chunk is inverted, and all
      batches before it have responses. */
  ghost predicate PanicsAtBatch(run: ChunkedRun, stream: Upstream<Completion>, patience: nat, j: nat)
    requires Scheduled(run, stream)
  {
    && j < |run.results| && j <= patience && run.results[j].Ok?
    && (run.results[j].value.choice !in At(run, stream, run.moments[j]).store.completions
        || run.results[j].value.chunk.inputStartIndex > run.results[j].value.chunk.inputEndIndex)
    && forall i :: 0 <= i < j ==>
         run.results[i].Ok? && Answerable(At(run, stream, run.moments[i]).store, run.results[i].value)
  }

  lemma OutcomeAt(run: ChunkedRun, stream: Upstream<Completion>, k: nat)
    requires Scheduled(run, stream) && k < |run.results| && run.results[k].Ok?
    ensures var b, store := run.results[k].value, At(run, stream, run.moments[k]).store;
            var outcome := Respond(Views(run, stream), run.results, k);
            && (outcome.Panicked? <==>
                  b.choice !in store.completions || b.chunk.inputStartIndex > b.chunk.inputEndIndex)
            && (outcome.Built? <==> Answerable(store, b))
  {
    var b, world := run.results[k].value, At(run, stream, run.moments[k]);
    RecordBeforeSend(CompletionView, Pipeline(run), stream, 0, run.moments[k]);
    RecordedMeansWellStored(world, |stream|);
    ResponseOutcome(world.store, b.choice, b.chunk, b.detections);
  }

  /** The batches panic exactly if, for some j, the j-th one does. */
  lemma BatchPanicsIff(run: ChunkedRun, stream: Upstream<Completion>, patience: nat)
    requires Scheduled(run, stream)
    ensures BatchPanics(run, stream, patience) <==> exists j: nat :: PanicsAtBatch(run, stream, patience, j)
  {
    var outcomes := OutcomesOf(Views(run, stream), run.results);
    LoopPanicsIff(outcomes, 0, patience);
    forall j: nat
      ensures StopsAt(outcomes, 0, patience, j) <==> PanicsAtBatch(run, stream, patience, j)
    {
      forall k: nat | k < |run.results| && run.results[k].Ok?
        ensures outcomes[k].value.Built? <==> Answerable(At(run, stream, run.moments[k]).store, run.results[k].value)
        ensures outcomes[k].value.Panicked? <==>
                  || run.results[k].value.choice !in At(run, stream, run.moments[k]).store.completions
                  || run.results[k].value.chunk.inputStartIndex > run.results[k].value.chunk.inputEndIndex
      {
        OutcomeAt(run, stream, k);
      }
    }
  }

  // ---------------------------------------------------------------------------------------------
  // What a run sends

  /** The responses to the batches, and if they all succeeded and the client stayed, the flushed messages. */
  ghost predicate BatchContent(run: ChunkedRun, stream: Upstream<Completion>, patience: nat, main: Responses, order: seq<nat>)
    requires Scheduled(run, stream)
  {
    var loop := BatchLoop(run, stream, patience);
    var views, final := Views(run, stream), At(run, stream, run.flushAt).store;
    if loop.ending.Some? then main == loop.out
    else Flushing(views, final, run.results, main, order)
         && (|main| == patience || RegularEnd(views, final, run.results, main, order))
  }

  /** What output detection on chunks sends: the errors of setting up the streams, what the batches amount to, and the
      final part. */
  ghost predicate ChunkedContent(out: Responses, run: ChunkedRun, stream: Upstream<Completion>, patience: nat,
                                 main: Responses, order: seq<nat>, last: Responses)
    requires Scheduled(run, stream)
  {
    var end := At(run, stream, run.endAt);
    && out == Errors(run.streamErrors) + main + last
    && BatchContent(run, stream, patience, main, order)
    && IsFinalPart(last, end.store, end.flagged, run.wholeDoc)
  }

  ghost predicate SentForChunks(out: Responses, run: ChunkedRun, stream: Upstream<Completion>, patience: nat)
    requires Scheduled(run, stream)
  {
    exists main, order, last :: ChunkedContent(out, run, stream, patience, main, order, last)
  }

  lemma PartsOfContent(out: Responses, run: ChunkedRun, stream: Upstream<Completion>, patience: nat)
    returns (main: Responses, order: seq<nat>, last: Responses)
    requires Scheduled(run, stream) && SentForChunks(out, run, stream, patience)
    ensures ChunkedContent(out, run, stream, patience, main, order, last)
  {
    main, order, last :| ChunkedContent(out, run, stream, patience, main, order, last);
  }

  function Errors(errors: seq<string>): (r: Responses)
    ensures Ok(None) !in r && |r| == |errors| && forall i :: 0 <= i < |r| ==> r[i] == Err(errors[i])
  {
    seq(|errors|, i requires 0 <= i < |errors| => Err(errors[i]))
  }

  method SendErrors(errors: seq<string>, sent: Responses) returns (sent': Responses)
    ensures sent' == sent + Errors(errors)
  {
    sent' := sent;
    for k := 0 to |errors|
      invariant sent' == sent + Errors(errors)[..k]
    {
      sent' := sent' + [Err(errors[k])];
    }
  }

  /** Sends the responses and the flushed messages; only a response to a batch can panic. */
  method HandleBatches(run: ChunkedRun, stream: Upstream<Completion>, sent: Responses, patience: nat)
    returns (sent': Responses, panicked: bool, ghost main: Responses, ghost order: seq<nat>)
    requires Scheduled(run, stream)
    ensures sent' == sent + main && Ok(None) !in main
    ensures panicked <==> BatchPanics(run, stream, patience)
    ensures !panicked ==> BatchContent(run, stream, patience, main, order)
  {
    var ending;
    sent', ending, order := ProcessDetectionBatchStream(
      Views(run, stream), At(run, stream, run.flushAt).store, run.results, sent, patience);
    main := sent'[|sent|..];
    assert sent' == sent + main;
    if BatchLoop(run, stream, patience).ending.None? && ending.Panic? {
      FlushFindsEveryEntry(run, stream, main);
    }
    panicked := ending.Panic?;
  }

  method FinishRun(run: ChunkedRun, stream: Upstream<Completion>, sent: Responses)
    returns (sent': Responses, panicked: bool, ghost last: Responses)
    requires Scheduled(run, stream)
    ensures sent' == sent + last && Ok(None) !in last
    ensures panicked <==> FinalPartPanics(run, stream)
    ensures !panicked ==> IsFinalPart(last, At(run, stream, run.endAt).store, At(run, stream, run.endAt).flagged, run.wholeDoc)
  {
    var end := At(run, stream, run.endAt);
    MetadataAtMoment(CompletionView, Pipeline(run), stream, 0, run.endAt);
    sent', panicked, last := SendFinalPart(end.store, end.flagged, run.wholeDoc, sent);
  }

  /** Output detection on chunks panics exactly if a response to a batch does or the final part lacks the metadata; if
      every batch is backed, only the final part can. */
  method HandleChunks(run: ChunkedRun, stream: Upstream<Completion>, sent: Responses, patience: nat)
    returns (sent': Responses, panicked: bool, ghost out: Responses, ghost main: Responses, ghost order: seq<nat>,
             ghost last: Responses)
    requires Scheduled(run, stream)
    ensures sent' == sent + out && Ok(None) !in out
    ensures panicked <==> BatchPanics(run, stream, patience) || FinalPartPanics(run, stream)
    ensures Backed(run, stream) ==> (panicked <==> FinalPartPanics(run, stream))
    ensures !panicked ==> ChunkedContent(out, run, stream, patience, main, order, last)
  {
    if Backed(run, stream) {
      BackedBatchesDoNotPanic(run, stream, patience);
    }
    sent', panicked, out, main, order, last := SendRun(run, stream, sent, patience);
  }

  lemma Joined(sent: Responses, a: Responses, b: Responses)
    ensures (sent + a) + b == sent + (a + b)
    ensures Ok(None) !in a && Ok(None) !in b ==> Ok(None) !in a + b
  {
  }

  method SendRun(run: ChunkedRun, stream: Upstream<Completion>, sent: Responses, patience: nat)
    returns (sent': Responses, panicked: bool, ghost out: Responses, ghost main: Responses, ghost order: seq<nat>,
             ghost last: Responses)
    requires Scheduled(run, stream)
    ensures sent' == sent + out && Ok(None) !in out
    ensures panicked <==> BatchPanics(run, stream, patience) || FinalPartPanics(run, stream)
    ensures !panicked ==> ChunkedContent(out, run, stream, patience, main, order, last)
  {
    last := [];
    sent' := SendErrors(run.streamErrors, sent);
    sent', panicked, main, order := HandleBatches(run, stream, sent', patience);
    Joined(sent, Errors(run.streamErrors), main);
    out := Errors(run.streamErrors) + main;
    if panicked {
      return;
    }
    sent', panicked, last := FinishRun(run, stream, sent');
    Joined(sent, out, last);
    out := out + last;
  }

  /** With whole-document detectors only, the client gets the stream as it is, then the final part. */
  method HandleWholeDocument(result: WholeDocResult, stream: Upstream<Completion>, sent: Responses, patience: nat)
    returns (sent': Responses, panicked: bool, ghost out: Responses, ghost last: Responses)
    ensures sent' == sent + out && Ok(None) !in out
    ensures panicked <==> !(OpensWithMetadata(CompletionView, stream) && patience > 0)
    ensures !panicked ==>
              var end := Replay(Start<Completion>(RECORD_AND_FORWARD), AllActions(CompletionView, RECORD_AND_FORWARD, stream, patience));
              out == PassedOn(stream, patience) + last && IsFinalPart(last, end.store, end.flagged, Some(result))
  {
    var state := new CompletionState<Completion>();
    var flagged;
    var _, responses, flag := ProcessStream(CompletionView, RECORD_AND_FORWARD, stream, state, sent, patience);
    flagged := flag;
    MetadataKnownIffFirstMessageStoresIt(CompletionView, RECORD_AND_FORWARD, stream, patience);
    ProducerNeverSendsTheEndMarker(CompletionView, RECORD_AND_FORWARD, stream, patience);
    ForwardingPassesTheStreamOn(CompletionView, RECORD_AND_FORWARD, stream, 0, {}, patience);
    assert stream[0..] == stream;
    sent', panicked, last := SendFinalPart(Store(state.metadata, state.completions, state.usage), flagged, Some(result), responses);
    out := PassedOn(stream, patience) + last;
    assert (sent + PassedOn(stream, patience)) + last == sent + out;
  }

  // ---------------------------------------------------------------------------------------------
  // The final flush on a run

  lemma BackedLookupsAreFinal(run: ChunkedRun, stream: Upstream<Completion>)
    requires Scheduled(run, stream) && Backed(run, stream)
    ensures LookupsAreFinal(Views(run, stream), At(run, stream, run.flushAt).store, run.results)
  {
    var views, final := Views(run, stream), At(run, stream, run.flushAt).store;
    forall k | 0 <= k < |run.results| && run.results[k].Ok?
      ensures var b := run.results[k].value;
              && b.choice in final.completions
              && Range(Of(views[k], b.choice), b.chunk.inputStartIndex, b.chunk.inputEndIndex + 1)
                 == Range(Of(final, b.choice), b.chunk.inputStartIndex, b.chunk.inputEndIndex + 1)
    {
      BackedBatchIsFinal(run, stream, k, run.results[k].value.chunk.inputStartIndex);
    }
  }

  lemma MomentsAreWellStored(run: ChunkedRun, stream: Upstream<Completion>)
    requires Scheduled(run, stream)
    ensures WellStored(At(run, stream, run.flushAt).store)
    ensures forall k :: 0 <= k < |run.results| ==> WellStored(Views(run, stream)[k])
  {
    RecordBeforeSend(CompletionView, Pipeline(run), stream, 0, run.flushAt);
    RecordedMeansWellStored(At(run, stream, run.flushAt), |stream|);
    forall k | 0 <= k < |run.results|
      ensures WellStored(Views(run, stream)[k])
    {
      RecordBeforeSend(CompletionView, Pipeline(run), stream, 0, run.moments[k]);
      RecordedMeansWellStored(At(run, stream, run.moments[k]), |stream|);
    }
  }

  /** The final flush. On a run whose batches come from texts the producer had sent and that ends regularly, the last
      message of every choice that had a batch carries what the choice's highest-index completion carries at the flush,
      finish reason included, and at most one message per choice is added to the responses. */
  lemma FlushClosesEveryChoice(run: ChunkedRun, stream: Upstream<Completion>, main: Responses, order: seq<nat>, c: nat)
    requires Scheduled(run, stream) && Backed(run, stream)
    requires RegularEnd(Views(run, stream), At(run, stream, run.flushAt).store, run.results, main, order)
    requires LastBatchEnd(run.results, c).Some?
    ensures Of(At(run, stream, run.flushAt).store, c) != map[]
    ensures exists j: nat :: EndsChoice(main, At(run, stream, run.flushAt).store, c, j)
    ensures multiset(order)[c] <= 1
  {
    FlushFindsEveryEntry(run, stream, main);
    BackedLookupsAreFinal(run, stream);
    MomentsAreWellStored(run, stream);
    LastMessageClosesEveryChoice(Views(run, stream), At(run, stream, run.flushAt).store, run.results, main, order, c);
  }

  // ---------------------------------------------------------------------------------------------
  // Requests

  /** The messages before the end marker of a request that ends before its completions are processed. */
  function EarlyEnd(r: Request): Option<Responses> {
    if r.inputError.Some? then Some([Err(r.inputError.value)])
    else if r.outputError.Some? then Some([Err(r.outputError.value)])
    else if r.input.Some? && r.input.value.Err? then Some([Err(r.input.value.error)])
    else if r.input.Some? && r.input.value.value.Some? then Some([Ok(r.input.value.value)])
    else if r.upstream.Err? then Some([Err(r.upstream.error)])
    else None
  }

  /** What the client gets before the end marker. */
  ghost predicate Content(r: Request, sent: Responses)
    requires WellFormed(r)
  {
    if EarlyEnd(r).Some? then sent == EarlyEnd(r).value
    else if r.output.None? then sent == PassedOn(r.upstream.value, r.patience)
    else if r.output.value.Chunks? then SentForChunks(sent, r.output.value.run, r.upstream.value, r.patience)
    else
      var end := Replay(Start<Completion>(RECORD_AND_FORWARD),
                        AllActions(CompletionView, RECORD_AND_FORWARD, r.upstream.value, r.patience));
      exists last ::
        && sent == PassedOn(r.upstream.value, r.patience) + last
        && IsFinalPart(last, end.store, end.flagged, Some(r.output.value.result))
  }

  /** When handling the request panics. */
  ghost predicate Panics(r: Request)
    requires WellFormed(r)
  {
    && EarlyEnd(r).None? && r.output.Some?
    && match r.output.value {
         case Chunks(run) => BatchPanics(run, r.upstream.value, r.patience) || FinalPartPanics(run, r.upstream.value)
         case WholeDocument(_) => !(OpensWithMetadata(CompletionView, r.upstream.value) && r.patience > 0)
       }
  }

  /** Every batch is backed, and the final part is sent when the producer is done. */
  ghost predicate Completes(run: ChunkedRun, stream: Upstream<Completion>)
    requires Scheduled(run, stream)
  {
    Backed(run, stream) && run.endAt == |PipelineActions(run, stream)|
  }

  /** If every batch is backed, handling the request panics exactly if the final part does; and if the final part is sent
      when the producer is done, exactly if it is due and the stream did not open with a message that stores metadata. */
  lemma BackedRequestsPanicIffMetadataIsMissing(r: Request, run: ChunkedRun)
    requires WellFormed(r) && EarlyEnd(r).None? && r.output == Some(Chunks(run)) && Backed(run, r.upstream.value)
    ensures Panics(r) <==> FinalPartPanics(run, r.upstream.value)
    ensures run.endAt == |PipelineActions(run, r.upstream.value)| ==>
              var end := At(run, r.upstream.value, run.endAt);
              Panics(r) <==> FinalMessageNeeded(end.store, end.flagged, run.wholeDoc)
                             && !OpensWithMetadata(CompletionView, r.upstream.value)
  {
    var stream := r.upstream.value;
    BackedBatchesDoNotPanic(run, stream, r.patience);
    if OpensWithMetadata(CompletionView, stream) {
      var now := MessageActions(CompletionView, Pipeline(run), 0, stream[0]);
      assert now[0].PutMetadata?;
      assert now <= PipelineActions(run, stream);
    }
  }

  /** Two requests that panic: whole-document detection on a stream that is one error; and a failed detector stream
      before the producer has handled anything, whatever the stream holds. */
  lemma MissingMetadataPanics(result: WholeDocResult, error: string, stream: Upstream<Completion>, choices: set<nat>, patience: nat)
    ensures Panics(Request(None, None, None, Ok([Err(error)]), Some(WholeDocument(result)), patience))
    ensures var run := ChunkedRun([], choices, [Err(error)], [0], 0, 0, Some(result));
            Scheduled(run, stream) && Panics(Request(None, None, None, Ok(stream), Some(Chunks(run)), patience))
  {
    var run := ChunkedRun([], choices, [Err(error)], [0], 0, 0, Some(result));
    assert Scheduled(run, stream);
    assert FinalPartPanics(run, stream);
  }

  /** The end marker is sent once, at the end. */
  ghost predicate EndsOnce(sent: Responses) {
    |sent| > 0 && sent[|sent| - 1] == Ok(None) && Ok(None) !in sent[..|sent| - 1]
  }

  /** What is sent is what handling the request sends when it does not panic. */
  ghost predicate Handles(r: Request, sent: Responses)
    requires WellFormed(r)
  {
    EndsOnce(sent) && Content(r, sent[..|sent| - 1])
  }

  lemma MarkedOnce(sent: Responses)
    requires Ok(None) !in sent
    ensures EndsOnce(sent + [Ok(None)]) && (sent + [Ok(None)])[..|sent|] == sent
  {
  }

  /** The checks before the completions are requested, and the request itself. Each failure is reported and ends the
      response stream at its own place. */
  method BeginRequest(r: Request) returns (sent: Responses, ended: bool)
    ensures ended <==> EarlyEnd(r).Some?
    ensures ended ==> Ok(None) !in EarlyEnd(r).value && sent == EarlyEnd(r).value + [Ok(None)]
    ensures !ended ==> sent == []
  {
    sent, ended := [], true;
    if r.inputError.Some? {
      sent := sent + [Err(r.inputError.value)];
      sent := sent + [Ok(None)];
      return;
    }
    if r.outputError.Some? {
      sent := sent + [Err(r.outputError.value)];
      sent := sent + [Ok(None)];
      return;
    }
    if r.input.Some? {
      match r.input.value {
        case Ok(Some(completion)) =>
          sent := sent + [Ok(Some(completion))];
          sent := sent + [Ok(None)];
          return;
        case Ok(None) =>
        case Err(error) =>
          sent := sent + [Err(error)];
          sent := sent + [Ok(None)];
          return;
      }
    }
    if r.upstream.Err? {
      sent := sent + [Err(r.upstream.error)];
      sent := sent + [Ok(None)];
      return;
    }
    ended := false;
  }

  /** Exactly one end marker. Every path that does not panic sends Ok(None) once and last; a run that panics, which is
      exactly if Panics(r), never sends it. With every batch backed and the producer done, it panics exactly if a final
      message is due and the stream did not open with a message that stores metadata. */
  method HandleStreaming(r: Request) returns (sent: Responses, panicked: bool)
    requires WellFormed(r)
    ensures panicked <==> Panics(r)
    ensures EarlyEnd(r).None? && r.output.Some? && r.output.value.Chunks? && Completes(r.output.value.run, r.upstream.value) ==>
              var run := r.output.value.run;
              var end := At(run, r.upstream.value, run.endAt);
              panicked <==> FinalMessageNeeded(end.store, end.flagged, run.wholeDoc)
                            && !OpensWithMetadata(CompletionView, r.upstream.value)
    ensures !panicked ==> EndsOnce(sent) && Content(r, sent[..|sent| - 1])
    ensures panicked ==> Ok(None) !in sent
    ensures r.inputError.Some? ==> sent == [Err(r.inputError.value), Ok(None)]
    ensures r.inputError.None? && r.outputError.Some? ==> sent == [Err(r.outputError.value), Ok(None)]
    ensures r.inputError.None? && r.outputError.None? && r.input.Some? ==>
              && (r.input.value.Err? ==> sent == [Err(r.input.value.error), Ok(None)])
              && (r.input.value.Ok? && r.input.value.value.Some? ==> sent == [Ok(r.input.value.value), Ok(None)])
    ensures r.inputError.None? && r.outputError.None? && (r.input.None? || r.input.value == Ok(None)) && r.upstream.Err? ==>
              sent == [Err(r.upstream.error), Ok(None)]
  {
    if EarlyEnd(r).None? && r.output.Some? && r.output.value.Chunks? && Completes(r.output.value.run, r.upstream.value) {
      BackedRequestsPanicIffMetadataIsMissing(r, r.output.value.run);
    }
    var ended;
    panicked := false;
    sent, ended := BeginRequest(r);
    if ended {
      MarkedOnce(EarlyEnd(r).value);
      return;
    }
    if r.output.None? {
      sent := HandleForwarding(r.upstream.value, sent, r.patience);
      assert Content(r, sent);
    } else {
      sent, panicked := HandleOutputDetection(r, sent);
      if panicked {
        return;
      }
    }
    MarkedOnce(sent);
    sent := sent + [Ok(None)];
  }

  /** Without output detectors the stream is passed on. */
  method HandleForwarding(stream: Upstream<Completion>, sent: Responses, patience: nat) returns (sent': Responses)
    ensures sent' == sent + PassedOn(stream, patience) && Ok(None) !in PassedOn(stream, patience)
  {
    var _, responses, _ := ProcessStream(CompletionView, FORWARD_ONLY, stream, null, sent, patience);
    sent' := responses;
    ProducerNeverSendsTheEndMarker(CompletionView, FORWARD_ONLY, stream, patience);
    ForwardingPassesTheStreamOn(CompletionView, FORWARD_ONLY, stream, 0, {}, patience);
    assert stream[0..] == stream;
  }

  /** Everything output detection sends, after what was sent before, on a request that reaches it. */
  method HandleOutputDetection(r: Request, sent: Responses) returns (sent': Responses, panicked: bool)
    requires WellFormed(r) && EarlyEnd(r).None? && r.output.Some? && sent == []
    ensures panicked <==> Panics(r)
    ensures Ok(None) !in sent'
    ensures !panicked ==> Content(r, sent')
  {
    ghost var out, last;
    match r.output.value {
      case Chunks(run) =>
        ghost var main, order;
        sent', panicked, out, main, order, last := HandleChunks(run, r.upstream.value, sent, r.patience);
      case WholeDocument(result) =>
        sent', panicked, out, last := HandleWholeDocument(result, r.upstream.value, sent, r.patience);
    }
    assert sent + out == out;
  }
}
