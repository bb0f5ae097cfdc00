/** From the detectors' reports to the client: batch stream, producer and handler together. */
module EndToEnd {
  import opened Types
  import opened CompletionBatching
  import opened InOrderRelease
  import opened BatchStream
  import opened BatchStreamSafety
  import opened CompletionStates
  import opened Producers
  import opened ProducerProperties
  import opened Completions
  import opened CompletionsHandler
  import R = CompletionsRequest

  /** The messages of choice c, in order. */
  function MessagesFor(out: Responses, c: nat): Responses {
    if out == [] then []
    else
      var before := MessagesFor(out[..|out| - 1], c);
      if OfChoice(out[|out| - 1], c) then before + [out[|out| - 1]] else before
  }

  lemma MessagesForExtended(out: Responses, m: Response<Completion>, c: nat)
    ensures MessagesFor(out + [m], c) == if OfChoice(m, c) then MessagesFor(out, c) + [m] else MessagesFor(out, c)
  {
    assert (out + [m])[..|out|] == out;
  }

  /** The message is the response to the released batch: built from the completion stored, at the flush, where its chunk
      ends. */
  ghost predicate Reports(m: Response<Completion>, r: Release, final: Store<Completion>) {
    var b := r.ToBatch();
    && m.Ok? && m.value.Some?
    && b.chunk.inputEndIndex in Of(final, b.choice)
    && BuiltFrom(m.value.value, Of(final, b.choice)[b.chunk.inputEndIndex], b.choice, b.chunk, b.detections)
  }

  ghost predicate AllReport(messages: Responses, releases: seq<Release>, final: Store<Completion>) {
    && |messages| == |releases|
    && forall i :: 0 <= i < |messages| ==> Reports(messages[i], releases[i], final)
  }

  /** The results the handler consumed are what the batch stream sent. */
  ghost predicate Connected(run: R.ChunkedRun, s: Sys) {
    run.results == s.out
  }

  // ---------------------------------------------------------------------------------------------
  // Responses, one by one

  lemma ResponseReports(run: R.ChunkedRun, stream: Upstream<Completion>, k: nat, r: Release)
    requires R.Scheduled(run, stream) && R.Backed(run, stream)
    requires k < |run.results| && run.results[k] == Ok(r.ToBatch())
    ensures Respond(R.Views(run, stream), run.results, k).Built?
    ensures var m := Ok(Some(Respond(R.Views(run, stream), run.results, k).completion));
            && Reports(m, r, R.At(run, stream, run.flushAt).store)
            && forall c: nat :: OfChoice(m, c) <==> c == r.key.choice
  {
    var b := run.results[k].value;
    var now, later := R.At(run, stream, run.moments[k]).store, R.At(run, stream, run.flushAt).store;
    R.BackedBatchIsFinal(run, stream, k, b.chunk.inputEndIndex);
    OnlyEntryOfRange(Of(now, b.choice), b.chunk.inputEndIndex);
    OnlyEntryOfRange(Of(later, b.choice), b.chunk.inputEndIndex);
    R.MomentsAreWellStored(run, stream);
    R.BackedBatchIsAnswered(run, stream, k);
    ResponseOutcome(now, b.choice, b.chunk, b.detections);
  }

  lemma OnlyEntryOfRange<T>(m: map<nat, T>, i: nat)
    requires i in m
    ensures Range(m, i, i + 1) == [m[i]]
  {
    assert Range(m, i, i) == [];
  }

  /** The i-th message is about the i-th release, and belongs to its choice alone. */
  ghost predicate ReportsEach(out: Responses, sent: seq<Release>, final: Store<Completion>) {
    |sent| <= |out| && forall i :: 0 <= i < |sent| ==> IsReport(out[i], sent[i], final)
  }

  ghost predicate IsReport(m: Response<Completion>, r: Release, final: Store<Completion>) {
    Reports(m, r, final) && forall c: nat :: OfChoice(m, c) <==> c == r.key.choice
  }

  lemma ResponsesReportEach(run: R.ChunkedRun, stream: Upstream<Completion>, sent: seq<Release>, out: Responses)
    requires R.Scheduled(run, stream) && R.Backed(run, stream)
    requires AllAnswered(R.Views(run, stream), run.results, out)
    requires |run.results| == |sent| && forall i :: 0 <= i < |sent| ==> run.results[i] == Ok(sent[i].ToBatch())
    ensures ReportsEach(out, sent, R.At(run, stream, run.flushAt).store)
  {
    forall i | 0 <= i < |sent|
      ensures IsReport(out[i], sent[i], R.At(run, stream, run.flushAt).store)
    {
      ResponseReports(run, stream, i, sent[i]);
    }
  }

  /** These messages and these releases are found at the same places, below k. */
  ghost predicate FoundAt(places: seq<nat>, k: nat, messages: Responses, out: Responses, releases: seq<Release>, sent: seq<Release>)
    requires k <= |out| && k <= |sent|
  {
    && |messages| == |releases| == |places|
    && forall i :: 0 <= i < |places| ==> places[i] < k && messages[i] == out[places[i]] && releases[i] == sent[places[i]]
  }

  lemma NextPlace(places: seq<nat>, k: nat, messages: Responses, messages': Responses, out: Responses,
                  releases: seq<Release>, releases': seq<Release>, sent: seq<Release>, c: nat)
    returns (more: seq<nat>)
    requires k < |out| && k < |sent| && FoundAt(places, k, messages, out, releases, sent)
    requires OfChoice(out[k], c) <==> sent[k].key.choice == c
    requires messages' == if OfChoice(out[k], c) then messages + [out[k]] else messages
    requires releases' == if sent[k].key.choice == c then releases + [sent[k]] else releases
    ensures FoundAt(more, k + 1, messages', out, releases', sent)
  {
    more := if OfChoice(out[k], c) then places + [k] else places;
  }

  lemma MessagesForOneMore(out: Responses, k: nat, c: nat)
    requires k < |out|
    ensures MessagesFor(out[..k + 1], c)
         == if OfChoice(out[k], c) then MessagesFor(out[..k], c) + [out[k]] else MessagesFor(out[..k], c)
  {
    assert out[..k + 1] == out[..k] + [out[k]];
    MessagesForExtended(out[..k], out[k], c);
  }

  lemma ForOneMore(releases: seq<Release>, k: nat, c: nat)
    requires k < |releases|
    ensures For(releases[..k + 1], c)
         == if releases[k].key.choice == c then For(releases[..k], c) + [releases[k]] else For(releases[..k], c)
  {
    assert releases[..k + 1] == releases[..k] + [releases[k]];
    ForExtended(releases[..k], releases[k], c);
  }

  lemma {:induction false} SamePlaces(out: Responses, sent: seq<Release>, k: nat, c: nat) returns (places: seq<nat>)
    requires k <= |sent| && k <= |out|
    requires forall i :: 0 <= i < k ==> (OfChoice(out[i], c) <==> sent[i].key.choice == c)
    ensures FoundAt(places, k, MessagesFor(out[..k], c), out, For(sent[..k], c), sent)
    decreases k
  {
    places := [];
    if k > 0 {
      places := SamePlaces(out, sent, k - 1, c);
      MessagesForOneMore(out, k - 1, c);
      ForOneMore(sent, k - 1, c);
      places := NextPlace(places, k - 1, MessagesFor(out[..k - 1], c), MessagesFor(out[..k], c), out,
                          For(sent[..k - 1], c), For(sent[..k], c), sent, c);
    }
  }

  lemma ResponsesReport(out: Responses, sent: seq<Release>, final: Store<Completion>, k: nat, c: nat)
    requires ReportsEach(out, sent, final) && k <= |sent|
    ensures AllReport(MessagesFor(out[..k], c), For(sent[..k], c), final)
  {
    forall i | 0 <= i < k
      ensures OfChoice(out[i], c) <==> sent[i].key.choice == c
    {
      assert IsReport(out[i], sent[i], final);
    }
    var places := SamePlaces(out, sent, k, c);
    forall i | 0 <= i < |places|
      ensures Reports(MessagesFor(out[..k], c)[i], For(sent[..k], c)[i], final)
    {
      assert IsReport(out[places[i]], sent[places[i]], final);
    }
  }

  // ---------------------------------------------------------------------------------------------
  // The flushed messages

  /** What the flush adds for choice c: if its last batch ends somewhere else than at its highest stored index, the
      completion stored there. */
  ghost function FlushFor(final: Store<Completion>, results: seq<Result<Batch, string>>, c: nat): Responses {
    if exists k: nat, top: nat :: EndsElsewhere(final, results, c, k, top)
    then [Ok(Some(Of(final, c)[LastIndex(Of(final, c))]))] else []
  }

  lemma FlushForIs(final: Store<Completion>, results: seq<Result<Batch, string>>, c: nat)
    ensures FlushFor(final, results, c)
         == if NeedsFlush(final, results, c) then [Ok(Some(Of(final, c)[LastIndex(Of(final, c))]))] else []
  {
    FlushIsNeededIff(final, results, c);
  }

  /** The message is the last stored completion of choice d, and belongs to that choice alone. */
  ghost predicate IsFlushed(m: Response<Completion>, d: nat, final: Store<Completion>) {
    && Of(final, d) != map[] && m == Ok(Some(Of(final, d)[LastIndex(Of(final, d))]))
    && forall c: nat :: OfChoice(m, c) <==> c == d
  }

  lemma {:induction false} FlushedFor(rest: Responses, order: seq<nat>, final: Store<Completion>, k: nat, c: nat)
    requires |rest| == |order| && Distinct(order) && forall i :: 0 <= i < |rest| ==> IsFlushed(rest[i], order[i], final)
    requires k <= |order|
    ensures c !in order[..k] ==> MessagesFor(rest[..k], c) == []
    ensures c in order[..k] ==>
              Of(final, c) != map[] && MessagesFor(rest[..k], c) == [Ok(Some(Of(final, c)[LastIndex(Of(final, c))]))]
    decreases k
  {
    if k > 0 {
      FlushedFor(rest, order, final, k - 1, c);
      assert rest[..k] == rest[..k - 1] + [rest[k - 1]];
      MessagesForExtended(rest[..k - 1], rest[k - 1], c);
      assert IsFlushed(rest[k - 1], order[k - 1], final);
      InPrefix(order, k, c);
    }
  }

  lemma {:induction false} MessagesForAppend(a: Responses, b: Responses, c: nat)
    ensures MessagesFor(a + b, c) == MessagesFor(a, c) + MessagesFor(b, c)
    decreases |b|
  {
    if b == [] {
      assert a + b == a;
    } else {
      var init, last := b[..|b| - 1], b[|b| - 1];
      MessagesForAppend(a, init, c);
      assert a + b == (a + init) + [last] && b == init + [last];
      MessagesForExtended(a + init, last, c);
      MessagesForExtended(init, last, c);
    }
  }

  lemma FlushedAfterResponses(
      views: seq<Store<Completion>>, final: Store<Completion>, results: seq<Result<Batch, string>>,
      out: Responses, order: seq<nat>, c: nat)
    requires Flushing(views, final, results, out, order) && WellStored(final)
    ensures MessagesFor(out, c)
         == MessagesFor(out[..|results|], c) + (if c in order then FlushFor(final, results, c) else [])
  {
    var rest := out[|results|..];
    forall i | 0 <= i < |rest|
      ensures IsFlushed(rest[i], order[i], final)
    {
      assert rest[i] == out[|results| + i];
    }
    FlushedFor(rest, order, final, |order|, c);
    FlushForIs(final, results, c);
    assert rest[..|order|] == rest && order[..|order|] == order && out == out[..|results|] + rest;
    MessagesForAppend(out[..|results|], rest, c);
  }

  lemma InPrefix(order: seq<nat>, k: nat, c: nat)
    requires 0 < k <= |order| && Distinct(order)
    ensures c in order[..k] <==> c in order[..k - 1] || order[k - 1] == c
    ensures order[k - 1] == c ==> c !in order[..k - 1]
  {
    assert order[..k] == order[..k - 1] + [order[k - 1]];
  }

  lemma MessagesOfAChoice(
      run: R.ChunkedRun, stream: Upstream<Completion>, sent: seq<Release>, out: Responses, order: seq<nat>, c: nat)
    returns (responses: Responses)
    requires R.Scheduled(run, stream) && R.Backed(run, stream)
    requires RegularEnd(R.Views(run, stream), R.At(run, stream, run.flushAt).store, run.results, out, order)
    requires |run.results| == |sent| && forall i :: 0 <= i < |sent| ==> run.results[i] == Ok(sent[i].ToBatch())
    ensures AllReport(responses, For(sent, c), R.At(run, stream, run.flushAt).store)
    ensures MessagesFor(out, c) == responses + FlushFor(R.At(run, stream, run.flushAt).store, run.results, c)
  {
    var final := R.At(run, stream, run.flushAt).store;
    R.MomentsAreWellStored(run, stream);
    responses := MessagesFor(out[..|sent|], c);
    ResponsesReportEach(run, stream, sent, out);
    ResponsesReport(out, sent, final, |sent|, c);
    assert sent[..|sent|] == sent;
    FlushForIs(final, run.results, c);
    FlushedAfterResponses(R.Views(run, stream), final, run.results, out, order, c);
  }

  // ---------------------------------------------------------------------------------------------
  // How many messages a choice gets

  function BatchesOf(results: seq<Result<Batch, string>>, c: nat): nat {
    if results == [] then 0
    else
      var last := results[|results| - 1];
      BatchesOf(results[..|results| - 1], c) + if last.Ok? && last.value.choice == c then 1 else 0
  }

  /** A release from which the batch comes. */
  function AsRelease(b: Batch): (r: Release)
    ensures r.key.choice == b.choice
    ensures r.ToBatch() == b
  {
    FlattenSingleton(b.detections);
    Release(KeyOf(b.chunk, b.choice), Slot(b.chunk.text, [b.detections]))
  }

  lemma {:induction false} ReleasesOfTheResults(results: seq<Result<Batch, string>>, sent: seq<Release>, c: nat)
    requires |sent| == |results| && forall i :: 0 <= i < |sent| ==> results[i] == Ok(sent[i].ToBatch())
    ensures |For(sent, c)| == BatchesOf(results, c)
    ensures LastBatchEnd(results, c)
         == if For(sent, c) == [] then None else Some(For(sent, c)[|For(sent, c)| - 1].ToBatch().chunk.inputEndIndex)
    decreases |sent|
  {
    if sent != [] {
      ReleasesOfTheResults(results[..|sent| - 1], sent[..|sent| - 1], c);
    }
  }

  lemma AnsweredResultsAreBatches(views: seq<Store<Completion>>, results: seq<Result<Batch, string>>, out: Responses)
    returns (sent: seq<Release>)
    requires AllAnswered(views, results, out)
    ensures |sent| == |results| && forall i :: 0 <= i < |sent| ==> results[i] == Ok(sent[i].ToBatch())
  {
    sent := seq(|results|, i requires 0 <= i < |results| => AsRelease(results[i].value));
  }

  /** No completion is sent twice, and none is missing. If the last batch of a choice ends at the choice's highest stored
      index, the messages of the choice are exactly one per batch. If it ends below, exactly one more comes at the end: the
      completion at the highest index. A choice without a batch gets no message. */
  lemma OneMessagePerBatchAndTheRest(run: R.ChunkedRun, stream: Upstream<Completion>, main: Responses, order: seq<nat>, c: nat)
    requires R.Scheduled(run, stream) && R.Backed(run, stream)
    requires RegularEnd(R.Views(run, stream), R.At(run, stream, run.flushAt).store, run.results, main, order)
    ensures BatchesOf(run.results, c) == 0 ==> MessagesFor(main, c) == []
    ensures forall k: nat, top: nat :: IsLastBatchOf(run.results, c, k) && IsTop(R.At(run, stream, run.flushAt).store, c, top) ==>
              var messages, end := MessagesFor(main, c), run.results[k].value.chunk.inputEndIndex;
              && end <= top
              && (end == top ==> |messages| == BatchesOf(run.results, c))
              && (end < top ==> |messages| == BatchesOf(run.results, c) + 1 && messages[|messages| - 1]
                                == Ok(Some(R.At(run, stream, run.flushAt).store.completions[c][top])))
  {
    var final := R.At(run, stream, run.flushAt).store;
    var sent := AnsweredResultsAreBatches(R.Views(run, stream), run.results, main);
    var responses := MessagesOfAChoice(run, stream, sent, main, order, c);
    ReleasesOfTheResults(run.results, sent, c);
    FlushForIs(final, run.results, c);
    forall k: nat, top: nat | IsLastBatchOf(run.results, c, k) && IsTop(final, c, top)
      ensures run.results[k].value.chunk.inputEndIndex <= top && LastIndex(Of(final, c)) == top
      ensures LastBatchEnd(run.results, c) == Some(run.results[k].value.chunk.inputEndIndex)
    {
      LastBatchIsFound(run.results, c, k);
      R.BackedBatchIsFinal(run, stream, k, 0);
    }
  }

  /** The highest index at which something is stored for the choice. */
  ghost predicate IsTop(store: Store<Completion>, c: nat, top: nat) {
    && c in store.completions && top in store.completions[c]
    && forall j :: j in store.completions[c] ==> j <= top
  }

  // ---------------------------------------------------------------------------------------------
  // The whole pipeline

  lemma FailedRunsEndInAnError(s: Sys)
    requires FateInv(s) && s.phase.Failed?
    ensures s.out != [] && s.out[|s.out| - 1].Err?
  {
  }

  /** What a regularly ended run of the handler got from the batch stream: batches only, those that were sent. */
  lemma ResultsAreTheBatchesSent(n: nat, steps: seq<Step>, results: seq<Result<Batch, string>>)
    requires results == Run(Init(n), steps).out && forall k :: 0 <= k < |results| ==> results[k].Ok?
    ensures var sent := SentIn(Run(Init(n), steps));
            |results| == |sent| && forall i :: 0 <= i < |sent| ==> results[i] == Ok(sent[i].ToBatch())
  {
    InvariantHoldsOnEveryRun(n, steps);
    var s := Run(Init(n), steps);
    if s.phase.Failed? {
      FailedRunsEndInAnError(s);
    }
  }

  /** The message is about the j-th chunk of choice c: its text is the chunk's, its detections are those of all n detectors,
      and the rest is from the completion stored, at the flush, where the chunk ends. */
  ghost predicate TellsOf(m: Response<Completion>, feed: Feed, c: nat, j: nat, final: Store<Completion>) {
    && j < |feed.plan(c)| && m.Ok? && m.value.Some?
    && var chunk := feed.plan(c)[j];
    && chunk.inputEndIndex in Of(final, c)
    && exists detections :: multiset(detections) == AllDetections(feed, c, j, feed.n)
                            && BuiltFrom(m.value.value, Of(final, c)[chunk.inputEndIndex], c, chunk, detections)
  }

  /** The messages are about these chunks, in ascending order. */
  ghost predicate TellOfChunks(messages: Responses, chunks: seq<nat>, feed: Feed, c: nat, final: Store<Completion>) {
    && |messages| == |chunks|
    && (forall i, j :: 0 <= i < j < |chunks| ==> chunks[i] < chunks[j])
    && forall i :: 0 <= i < |messages| ==> TellsOf(messages[i], feed, c, chunks[i], final)
  }

  lemma ReportTellsOfItsChunk(m: Response<Completion>, feed: Feed, ops: seq<Op>, r: Release, c: nat, j: nat, final: Store<Completion>)
    requires Reports(m, r, final) && IsWholeChunk(feed, ops, r, c, j)
    ensures TellsOf(m, feed, c, j, final)
  {
    assert r.ToBatch().choice == c;
    assert BuiltFrom(m.value.value, Of(final, c)[feed.plan(c)[j].inputEndIndex], c, feed.plan(c)[j], r.ToBatch().detections);
  }

  /** End to end. n detectors report the same ascending chunks per choice, in any interleaving; the batch stream runs in any
      way; the producer records and feeds the model's stream; the handler looks at the state at any moments, after the
      texts of each chunk were sent. If the handler's batch loop ends regularly, what the client gets for a choice is one
      response per batch, in ascending chunk order, each with the text of its chunk, the detections of all n detectors and
      the identity and finish reason of the message the chunk ends with; then, if the last batch did not reach it, the last
      completion. If no step loses a batch, the i-th response is about the i-th chunk. */
  lemma ClientGetsTheChunksInOrder(
      feed: Feed, events: seq<Event>, steps: seq<Step>, run: R.ChunkedRun, stream: Upstream<Completion>,
      main: Responses, order: seq<nat>, c: nat) returns (responses: Responses, chunks: seq<nat>)
    requires AscendingPlan(feed.plan) && Run(Init(feed.n), steps).received == PushesOf(Play(feed, events).ops)
    requires R.Scheduled(run, stream) && R.Backed(run, stream) && Connected(run, Run(Init(feed.n), steps))
    requires RegularEnd(R.Views(run, stream), R.At(run, stream, run.flushAt).store, run.results, main, order)
    ensures var final := R.At(run, stream, run.flushAt).store;
            && MessagesFor(main, c) == responses + FlushFor(final, run.results, c)
            && TellOfChunks(responses, chunks, feed, c, final)
            && |responses| == |For(SentIn(Run(Init(feed.n), steps)), c)|
    ensures !LosesABatch(Init(feed.n), steps) ==> forall i :: 0 <= i < |chunks| ==> chunks[i] == i
  {
    var s, final := Run(Init(feed.n), steps), R.At(run, stream, run.flushAt).store;
    var sent := For(SentIn(s), c);
    ResultsAreTheBatchesSent(feed.n, steps, run.results);
    responses := MessagesOfAChoice(run, stream, SentIn(s), main, order, c);
    chunks := SentBatchesAreWholeChunks(feed, events, steps, c);
    forall i | 0 <= i < |responses|
      ensures TellsOf(responses[i], feed, c, chunks[i], final)
    {
      assert Reports(responses[i], sent[i], final);
      ReportTellsOfItsChunk(responses[i], feed, s.ops, sent[i], c, chunks[i], final);
    }
  }

  // ---------------------------------------------------------------------------------------------
  // Nothing is missing

  /** Once the batch stream has finished without losing a batch, every chunk of the choice that was reported at all was
      sent. */
  lemma AllChunksAreSent(plan: Plan, n: nat, steps: seq<Step>, c: nat)
    requires AscendingPlan(plan) && Follows(plan, n, AsOps(Run(Init(n), steps).received))
    requires Run(Init(n), steps).phase.Finished? && !LosesABatch(Init(n), steps)
    requires forall i: nat :: i < |plan(c)| ==> ListsOf(Run(Init(n), steps).received, KeyAt(plan, c, i)) != []
    ensures |For(SentIn(Run(Init(n), steps)), c)| == |plan(c)|
  {
    var s := Run(Init(n), steps);
    InvariantHoldsOnEveryRun(n, steps);
    DiscardedIffAStepLosesABatch(n, steps);
    NothingDiscardedMeansAllSent(s);
    FollowsPrefix(plan, n, PushesOf(s.ops), MailPushes(s.mailbox));
    FollowsDependsOnPushes(plan, n, s.ops);
    ReleasesFollowThePlan(plan, n, s.ops);
    NoPushMeansNoLists(s.mailbox);
    assert PushesOf(s.ops) == s.received by {
      assert PushesOf(s.ops) + [] == PushesOf(s.ops);
    }
    var h := Exec(n, s.ops);
    assert ChoiceInOrder(plan, n, s.ops, h, c);
    var m := |For(h.popped, c)|;
    if m < |plan(c)| {
      ListsPushedAreListsOfPushes(s.ops, KeyAt(plan, c, m));
      UnreleasedChunkIsHeld(plan, n, s.ops, h, c);
    }
  }

  function TextOfMessage(m: Response<Completion>): string {
    if m.Ok? && m.value.Some? && m.value.value.choices != [] then m.value.value.choices[0].text else ""
  }

  function TextOfMessages(messages: Responses): string {
    if messages == [] then "" else TextOfMessages(messages[..|messages| - 1]) + TextOfMessage(messages[|messages| - 1])
  }

  function TextOfChunks(chunks: seq<Chunk>): string {
    if chunks == [] then "" else TextOfChunks(chunks[..|chunks| - 1]) + chunks[|chunks| - 1].text
  }

  lemma {:induction false} EqualTextsAddUp(messages: Responses, chunks: seq<Chunk>, k: nat)
    requires k <= |messages| == |chunks|
    requires forall i :: 0 <= i < |chunks| ==> TextOfMessage(messages[i]) == chunks[i].text
    ensures TextOfMessages(messages[..k]) == TextOfChunks(chunks[..k])
    decreases k
  {
    if k > 0 {
      EqualTextsAddUp(messages, chunks, k - 1);
      assert messages[..k][..k - 1] == messages[..k - 1] && chunks[..k][..k - 1] == chunks[..k - 1];
    }
  }

  lemma MessageCarriesItsText(m: Response<Completion>, feed: Feed, c: nat, j: nat, final: Store<Completion>)
    requires TellsOf(m, feed, c, j, final)
    ensures TextOfMessage(m) == feed.plan(c)[j].text
  {
  }

  lemma MessagesCarryTheText(messages: Responses, chunks: seq<nat>, feed: Feed, c: nat, final: Store<Completion>)
    requires TellOfChunks(messages, chunks, feed, c, final) && forall i :: 0 <= i < |chunks| ==> chunks[i] == i
    requires |messages| == |feed.plan(c)|
    ensures TextOfMessages(messages) == TextOfChunks(feed.plan(c))
  {
    forall i | 0 <= i < |messages|
      ensures TextOfMessage(messages[i]) == feed.plan(c)[i].text
    {
      MessageCarriesItsText(messages[i], feed, c, chunks[i], final);
    }
    EqualTextsAddUp(messages, feed.plan(c), |messages|);
    assert messages[..|messages|] == messages && feed.plan(c)[..|messages|] == feed.plan(c);
  }

  /** The text of the completion that the flush adds: the one at the highest index, if no chunk ends there. */
  ghost function FlushedText(chunks: seq<Chunk>, final: Store<Completion>, c: nat): string {
    if chunks == [] || Of(final, c) == map[] || chunks[|chunks| - 1].inputEndIndex == LastIndex(Of(final, c)) then ""
    else TextOfMessage(Ok(Some(Of(final, c)[LastIndex(Of(final, c))])))
  }

  lemma {:induction false} TextOfMessagesAppend(a: Responses, b: Responses)
    ensures TextOfMessages(a + b) == TextOfMessages(a) + TextOfMessages(b)
    decreases |b|
  {
    if b == [] {
      assert a + b == a;
    } else {
      var init, last := b[..|b| - 1], b[|b| - 1];
      TextOfMessagesAppend(a, init);
      assert (a + b)[..|a + b| - 1] == a + init && (a + b)[|a + b| - 1] == last;
    }
  }

  /** When the last release of the choice is about the last chunk, the flush adds the text that FlushedText says. */
  lemma TextOfTheFlush(sent: seq<Release>, results: seq<Result<Batch, string>>, chunks: seq<Chunk>, final: Store<Completion>, c: nat)
    requires |results| == |sent| && forall i :: 0 <= i < |sent| ==> results[i] == Ok(sent[i].ToBatch())
    requires |For(sent, c)| == |chunks|
    requires chunks != [] ==>
               For(sent, c)[|chunks| - 1].ToBatch().chunk.inputEndIndex == chunks[|chunks| - 1].inputEndIndex
    ensures TextOfMessages(FlushFor(final, results, c)) == FlushedText(chunks, final, c)
  {
    ReleasesOfTheResults(results, sent, c);
    FlushForIs(final, results, c);
    if NeedsFlush(final, results, c) {
      TextOfOneMessage(Ok(Some(Of(final, c)[LastIndex(Of(final, c))])));
    }
  }

  lemma LastReleaseIsTheLastChunk(feed: Feed, events: seq<Event>, steps: seq<Step>, c: nat)
    requires AscendingPlan(feed.plan) && Run(Init(feed.n), steps).received == PushesOf(Play(feed, events).ops)
    requires !LosesABatch(Init(feed.n), steps)
    requires |For(SentIn(Run(Init(feed.n), steps)), c)| == |feed.plan(c)| > 0
    ensures var i := |feed.plan(c)| - 1;
            For(SentIn(Run(Init(feed.n), steps)), c)[i].ToBatch().chunk == feed.plan(c)[i]
  {
    var i: nat := |feed.plan(c)| - 1;
    var chunks := SentBatchesAreWholeChunks(feed, events, steps, c);
    assert IsWholeChunk(feed, Run(Init(feed.n), steps).ops, For(SentIn(Run(Init(feed.n), steps)), c)[i], c, chunks[i]);
  }

  lemma TextOfOneMessage(m: Response<Completion>)
    ensures TextOfMessages([m]) == TextOfMessage(m)
  {
    assert [m][..0] == [];
    assert TextOfMessages([m]) == TextOfMessages([]) + TextOfMessage(m);
  }

  lemma TextsAddUp(messages: Responses, responses: Responses, rest: Responses, whole: string, extra: string)
    requires messages == responses + rest && TextOfMessages(responses) == whole && TextOfMessages(rest) == extra
    ensures TextOfMessages(messages) == whole + extra
    ensures TextOfMessages(messages) == whole <==> extra == ""
  {
    TextOfMessagesAppend(responses, rest);
    assert |whole + extra| == |whole| + |extra|;
  }

  /** The responses hold the whole text, and what the flush adds is FlushedText. */
  lemma ResponsesHoldTheWholeText(
      feed: Feed, events: seq<Event>, steps: seq<Step>, run: R.ChunkedRun, stream: Upstream<Completion>,
      main: Responses, order: seq<nat>, c: nat) returns (responses: Responses)
    requires AscendingPlan(feed.plan) && Run(Init(feed.n), steps).received == PushesOf(Play(feed, events).ops)
    requires R.Scheduled(run, stream) && R.Backed(run, stream) && Connected(run, Run(Init(feed.n), steps))
    requires RegularEnd(R.Views(run, stream), R.At(run, stream, run.flushAt).store, run.results, main, order)
    requires Run(Init(feed.n), steps).phase.Finished? && !LosesABatch(Init(feed.n), steps)
    requires forall i: nat :: i < |feed.plan(c)| ==>
               ListsOf(Run(Init(feed.n), steps).received, KeyAt(feed.plan, c, i)) != []
    requires c in run.choices && TextOfChunks(feed.plan(c)) == R.FedText(run, stream, c)
    ensures MessagesFor(main, c) == responses + FlushFor(R.At(run, stream, run.flushAt).store, run.results, c)
    ensures TextOfMessages(responses)
         == StoredTexts(CompletionView, Values(Of(R.At(run, stream, |R.PipelineActions(run, stream)|).store, c)))
    ensures |responses| == |For(SentIn(Run(Init(feed.n), steps)), c)| == |feed.plan(c)|
  {
    var chunks;
    responses, chunks := ClientGetsTheChunksInOrder(feed, events, steps, run, stream, main, order, c);
    InterleavedStreamsFollowThePlan(feed, events);
    AllChunksAreSent(feed.plan, feed.n, steps, c);
    MessagesCarryTheText(responses, chunks, feed, c, R.At(run, stream, run.flushAt).store);
    R.PipelineAgrees(run, stream, c);
  }

  /** If no step loses a batch, the batch stream has finished, and the chunks of a choice hold the text that was fed, then
      the responses a client gets for the choice hold the whole text of its stored completions, in order. All its messages
      together hold that text and after it the text of the completion that is flushed; so they hold the whole text exactly
      if that completion has none or nothing is flushed. */
  lemma ClientGetsTheWholeText(
      feed: Feed, events: seq<Event>, steps: seq<Step>, run: R.ChunkedRun, stream: Upstream<Completion>,
      main: Responses, order: seq<nat>, c: nat) returns (responses: Responses)
    requires AscendingPlan(feed.plan) && Run(Init(feed.n), steps).received == PushesOf(Play(feed, events).ops)
    requires R.Scheduled(run, stream) && R.Backed(run, stream) && Connected(run, Run(Init(feed.n), steps))
    requires RegularEnd(R.Views(run, stream), R.At(run, stream, run.flushAt).store, run.results, main, order)
    requires Run(Init(feed.n), steps).phase.Finished? && !LosesABatch(Init(feed.n), steps)
    requires forall i: nat :: i < |feed.plan(c)| ==>
               ListsOf(Run(Init(feed.n), steps).received, KeyAt(feed.plan, c, i)) != []
    requires c in run.choices && TextOfChunks(feed.plan(c)) == R.FedText(run, stream, c)
    ensures MessagesFor(main, c) == responses + FlushFor(R.At(run, stream, run.flushAt).store, run.results, c)
    ensures var whole := StoredTexts(CompletionView, Values(Of(R.At(run, stream, |R.PipelineActions(run, stream)|).store, c)));
            var extra := FlushedText(feed.plan(c), R.At(run, stream, run.flushAt).store, c);
            && TextOfMessages(responses) == whole
            && TextOfMessages(MessagesFor(main, c)) == whole + extra
            && (TextOfMessages(MessagesFor(main, c)) == whole <==> extra == "")
  {
    var final := R.At(run, stream, run.flushAt).store;
    responses := ResponsesHoldTheWholeText(feed, events, steps, run, stream, main, order, c);
    ResultsAreTheBatchesSent(feed.n, steps, run.results);
    if feed.plan(c) != [] {
      LastReleaseIsTheLastChunk(feed, events, steps, c);
    }
    TextOfTheFlush(SentIn(Run(Init(feed.n), steps)), run.results, feed.plan(c), final, c);
    TextsAddUp(MessagesFor(main, c), responses, FlushFor(final, run.results, c), TextOfMessages(responses),
               FlushedText(feed.plan(c), final, c));
  }
}
