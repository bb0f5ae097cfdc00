/** The final message of a request, in terms of the stream it is about. */
module FinalMessage {
  import opened Types
  import opened CompletionStates
  import opened Producers
  import opened ProducerProperties
  import opened ProducerOutcome
  import opened StreamedMessages
  import opened Completions
  import opened CompletionsHandler
  import R = CompletionsRequest

  ghost predicate IsFirstUsageMessage(stream: Upstream<Completion>, k: nat, j: nat)
    requires k <= |stream|
  {
    j < k && UsageMessage(stream[j]) && forall l :: 0 <= l < j ==> !UsageMessage(stream[l])
  }

  ghost predicate HasUsage(stream: Upstream<Completion>, k: nat)
    requires k <= |stream|
  {
    exists j :: 0 <= j < k && UsageMessage(stream[j])
  }

  /** What comes last, after the first k items of the stream. Nothing, if there are no whole-document detectors, no usage
      message came and no choice finished without text. Otherwise the error of the whole-document detection; or one message
      with the identity of the first message, no choices, the usage of the first usage message if there is one, and the
      whole-document detections with their warnings, or else a warning if a choice finished without text. */
  ghost predicate FinalSays(final: Responses, stream: Upstream<Completion>, k: nat, empty: bool, wholeDoc: Option<R.WholeDocResult>)
    requires k <= |stream|
  {
    if wholeDoc.None? && !HasUsage(stream, k) && !empty then final == []
    else if wholeDoc.Some? && wholeDoc.value.Err? then final == [Err(wholeDoc.value.error)]
    else
      && |final| == 1 && final[0].Ok? && final[0].value.Some?
      && k > 0 && stream[0].Ok? && stream[0].value.Some?
      && var m, first := final[0].value.value, stream[0].value.value;
      && m.id == first.id && m.created == first.created && m.model == first.model && m.choices == []
      && (!HasUsage(stream, k) ==> m.usage == None)
      && (forall j :: 0 <= j < k && IsFirstUsageMessage(stream, k, j) ==> m.usage == stream[j].value.value.usage)
      && match wholeDoc {
           case None => m.detections == None && m.warnings == (if empty then [EmptyOutput] else [])
           case Some(found) => m.detections == Some(found.value.0) && m.warnings == found.value.1
         }
  }

  lemma UsageIsThatOfTheFirst(store: Store<Completion>, stream: Upstream<Completion>, k: nat)
    requires k <= |stream| && StoresCompletions(store, stream, k)
    ensures store.usage.Some? <==> HasUsage(stream, k)
    ensures forall j :: 0 <= j < k && IsFirstUsageMessage(stream, k, j) ==> store.usage == stream[j].value.value.usage
  {
    if store.usage.Some? {
      var j :| 0 <= j < k && UsageMessage(stream[j]) && stream[j].value.value.usage == store.usage
               && forall l :: 0 <= l < j ==> !UsageMessage(stream[l]);
      forall i | 0 <= i < k && IsFirstUsageMessage(stream, k, i)
        ensures i == j
      {
        assert UsageMessage(stream[i]);
      }
    }
  }

  lemma FinalPartSays(final: Responses, store: Store<Completion>, stream: Upstream<Completion>, k: nat, flagged: bool,
                      wholeDoc: Option<R.WholeDocResult>)
    requires k <= |stream| && StoresCompletions(store, stream, k) && R.IsFinalPart(final, store, flagged, wholeDoc)
    ensures FinalSays(final, stream, k, flagged, wholeDoc)
  {
    UsageIsThatOfTheFirst(store, stream, k);
  }

  /** Detection on chunks: the errors of setting up the streams come first, and when the producer is done before the final
      part, the last message before the end marker says what the stream said. */
  lemma FinalMessageOfChunks(r: R.Request, run: R.ChunkedRun, sent: Responses) returns (before: Responses, final: Responses)
    requires R.WellFormed(r) && R.EarlyEnd(r).None? && r.output == Some(R.Chunks(run)) && R.Handles(r, sent)
    requires run.endAt == |R.PipelineActions(run, r.upstream.value)|
    ensures sent == before + final + [Ok(None)]
    ensures |before| >= |run.streamErrors| && forall i :: 0 <= i < |run.streamErrors| ==> before[i] == Err(run.streamErrors[i])
    ensures var stream := r.upstream.value;
            FinalSays(final, stream, |stream|, exists j :: 0 <= j < |stream| && FinishesEmpty(stream[j], run.choices), run.wholeDoc)
  {
    var stream := r.upstream.value;
    var end := R.At(run, stream, run.endAt);
    var main, order;
    main, order, final := R.PartsOfContent(sent[..|sent| - 1], run, stream, r.patience);
    before := R.Errors(run.streamErrors) + main;
    var all := R.PipelineActions(run, stream);
    assert all[..|all|] == all;
    CompletionsPipelineOutcome(run.choices, stream, 0);
    FinalPartSays(final, end.store, stream, |stream|, end.flagged, run.wholeDoc);
    assert sent == sent[..|sent| - 1] + [sent[|sent| - 1]];
  }

  /** Whole-document detection only: after the stream as the client took it, the same about the items it took. */
  lemma FinalMessageOfWholeDocuments(r: R.Request, result: R.WholeDocResult, sent: Responses) returns (final: Responses)
    requires R.WellFormed(r) && R.EarlyEnd(r).None? && r.output == Some(R.WholeDocument(result)) && R.Handles(r, sent)
    ensures sent == PassedOn(r.upstream.value, r.patience) + final + [Ok(None)]
    ensures var stream := r.upstream.value;
            FinalSays(final, stream, Handled(R.RECORD_AND_FORWARD, stream, 0, r.patience), false, Some(result))
  {
    var stream, w := r.upstream.value, R.RECORD_AND_FORWARD;
    var k := Handled(w, stream, 0, r.patience);
    var end := Replay(Start<Completion>(w), AllActions(CompletionView, w, stream, r.patience));
    final :| sent[..|sent| - 1] == PassedOn(stream, r.patience) + final
             && R.IsFinalPart(final, end.store, end.flagged, Some(result));
    StreamDeterminesTheOutcome(CompletionView, w, stream, r.patience);
    CompletionsAreStored(end.store, stream, k);
    FinalPartSays(final, end.store, stream, k, end.flagged, Some(result));
    assert sent == sent[..|sent| - 1] + [sent[|sent| - 1]];
  }
}
