/** What a client gets from a whole request, whatever the schedule and however long it stays. */
module EndToEndRequest {
  import opened Types
  import opened CompletionBatching
  import opened InOrderRelease
  import opened BatchStream
  import opened BatchStreamSafety
  import opened BatchStreamSchedule
  import opened CompletionStates
  import opened Producers
  import opened ProducerProperties
  import opened Completions
  import opened CompletionsHandler
  import opened EndToEnd
  import R = CompletionsRequest
  import S = SingleStream

  // ---------------------------------------------------------------------------------------------
  // The batch loop

  /** From item k on: the responses up to item m, and then at most one error. */
  ghost predicate AnswersUpTo(outcomes: Outcomes, k: nat, m: nat, out: Responses) {
    && k <= m <= |outcomes| && m - k <= |out| <= m - k + 1
    && (forall j :: k <= j < m ==> outcomes[j].Ok? && outcomes[j].value.Built?)
    && (forall i :: 0 <= i < m - k ==> out[i] == Ok(Some(outcomes[k + i].value.completion)))
    && (|out| > m - k ==> out[m - k].Err?)
  }

  lemma {:induction false} LoopAnswersAPrefix(outcomes: Outcomes, k: nat, patience: nat) returns (m: nat)
    requires k <= |outcomes|
    ensures AnswersUpTo(outcomes, k, m, MainLoop(outcomes, k, patience).out)
    decreases |outcomes| - k
  {
    m := k;
    if k < |outcomes| && outcomes[k].Ok? && outcomes[k].value.Built? && patience > 0 {
      m := LoopAnswersAPrefix(outcomes, k + 1, patience - 1);
    }
  }

  lemma {:induction false} LoopAnswersAll(outcomes: Outcomes, k: nat, patience: nat)
    requires k <= |outcomes| && patience >= |outcomes| - k
    requires forall j :: 0 <= j < |outcomes| ==> outcomes[j].Ok? && outcomes[j].value.Built?
    ensures MainLoop(outcomes, k, patience).ending.None?
    decreases |outcomes| - k
  {
    if k < |outcomes| {
      LoopAnswersAll(outcomes, k + 1, patience - 1);
    }
  }

  /** The results are these batches, and then at most one error. */
  ghost predicate FromReleases(results: seq<Result<Batch, string>>, releases: seq<Release>) {
    && |releases| <= |results| <= |releases| + 1
    && (forall i :: 0 <= i < |releases| ==> results[i] == Ok(releases[i].ToBatch()))
    && (|results| > |releases| ==> results[|releases|].Err?)
  }

  lemma {:induction false} ForPrefix(releases: seq<Release>, m: nat, c: nat)
    requires m <= |releases|
    ensures For(releases[..m], c) <= For(releases, c)
    decreases |releases| - m
  {
    if m == |releases| {
      assert releases[..m] == releases;
    } else {
      ForPrefix(releases, m + 1, c);
      ForOneMore(releases, m, c);
    }
  }

  lemma AnErrorIsOfNoChoice(out: Responses, m: nat, c: nat)
    requires m <= |out| <= m + 1 && (|out| > m ==> out[m].Err?)
    ensures MessagesFor(out, c) == MessagesFor(out[..m], c)
  {
    if |out| == m {
      assert out[..m] == out;
    } else {
      MessagesForExtended(out[..m], out[m], c);
      assert out == out[..m] + [out[m]];
    }
  }

  lemma ReportsOfAPrefix(messages: Responses, first: seq<Release>, releases: seq<Release>, final: Store<Completion>)
    requires AllReport(messages, first, final) && first <= releases
    ensures |messages| <= |releases| && AllReport(messages, releases[..|messages|], final)
  {
    assert releases[..|messages|] == first;
  }

  /** Responses to the first m releases, and then at most one error. */
  lemma FirstResponsesTell(out: Responses, releases: seq<Release>, final: Store<Completion>, m: nat, c: nat)
    requires m <= |releases| && m <= |out| <= m + 1 && ReportsEach(out, releases[..m], final)
    requires |out| > m ==> out[m].Err?
    ensures |MessagesFor(out, c)| <= |For(releases, c)|
    ensures AllReport(MessagesFor(out, c), For(releases, c)[..|MessagesFor(out, c)|], final)
  {
    ResponsesReport(out, releases[..m], final, m, c);
    assert releases[..m][..m] == releases[..m];
    ForPrefix(releases, m, c);
    AnErrorIsOfNoChoice(out, m, c);
    ReportsOfAPrefix(MessagesFor(out, c), For(releases[..m], c), For(releases, c), final);
  }

  /** When the loop does not end regularly, the client has got responses to the first batches. */
  lemma StoppedLoopTells(run: R.ChunkedRun, stream: Upstream<Completion>, releases: seq<Release>, patience: nat, c: nat)
    returns (told: Responses)
    requires R.Scheduled(run, stream) && R.Backed(run, stream) && FromReleases(run.results, releases)
    ensures MessagesFor(R.BatchLoop(run, stream, patience).out, c) == told
    ensures |told| <= |For(releases, c)|
    ensures AllReport(told, For(releases, c)[..|told|], R.At(run, stream, run.flushAt).store)
  {
    var out := R.BatchLoop(run, stream, patience).out;
    var m := LoopAnswersAPrefix(OutcomesOf(R.Views(run, stream), run.results), 0, patience);
    AnsweredReleases(run, stream, releases, out, m);
    FirstResponsesTell(out, releases, R.At(run, stream, run.flushAt).store, m, c);
    told := MessagesFor(out, c);
  }

  lemma BatchesComeFirst(results: seq<Result<Batch, string>>, releases: seq<Release>, m: nat)
    requires FromReleases(results, releases) && m <= |results|
    requires forall j :: 0 <= j < m ==> results[j].Ok?
    ensures m <= |releases|
  {
  }

  lemma AnsweredReleases(run: R.ChunkedRun, stream: Upstream<Completion>, releases: seq<Release>, out: Responses, m: nat)
    requires R.Scheduled(run, stream) && R.Backed(run, stream) && FromReleases(run.results, releases)
    requires AnswersUpTo(OutcomesOf(R.Views(run, stream), run.results), 0, m, out)
    ensures m <= |releases| && ReportsEach(out, releases[..m], R.At(run, stream, run.flushAt).store)
  {
    BatchesComeFirst(run.results, releases, m);
    forall i | 0 <= i < m
      ensures IsReport(out[i], releases[i], R.At(run, stream, run.flushAt).store)
    {
      ResponseReports(run, stream, i, releases[i]);
    }
  }

  // ---------------------------------------------------------------------------------------------
  // The client's patience

  lemma {:induction false} ReplayKeepsChannels<T>(world: World<T>, actions: seq<Action<T>>)
    ensures Replay(world, actions).inputs.Keys == world.inputs.Keys
    decreases |actions|
  {
    if actions != [] {
      ReplayKeepsChannels(Perform(world, actions[0]), actions[1..]);
    }
  }

  /** Backed batches belong to choices whose text was fed. */
  lemma BackedBatchIsOfAChoice(run: R.ChunkedRun, stream: Upstream<Completion>, c: nat)
    requires R.Scheduled(run, stream) && R.Backed(run, stream) && LastBatchEnd(run.results, c).Some?
    ensures c in run.choices
  {
    var k := LastBatchExists(run.results, c);
    var n := run.moments[k];
    ReplayKeepsChannels(Start<Completion>(R.Pipeline(run)), R.PipelineActions(run, stream)[..n]);
    assert R.BackedBatch(R.At(run, stream, n), run.results[k].value);
  }

  lemma {:induction false} DistinctFits(order: seq<nat>, choices: set<nat>)
    requires Distinct(order) && forall c :: c in order ==> c in choices
    ensures |order| <= |choices|
    decreases order
  {
    if order != [] {
      var init, last := order[..|order| - 1], order[|order| - 1];
      assert last in order && forall c :: c in init ==> c in order && c != last;
      DistinctFits(init, choices - {last});
    }
  }

  /** A client that takes a message per batch and one per choice gets everything. */
  lemma PatientClientsGetEverything(
      run: R.ChunkedRun, stream: Upstream<Completion>, patience: nat, main: Responses, order: seq<nat>)
    requires R.Scheduled(run, stream) && R.Backed(run, stream) && R.BatchContent(run, stream, patience, main, order)
    requires forall k :: 0 <= k < |run.results| ==> run.results[k].Ok?
    requires patience >= |run.results| + |run.choices|
    ensures RegularEnd(R.Views(run, stream), R.At(run, stream, run.flushAt).store, run.results, main, order)
  {
    var views, final := R.Views(run, stream), R.At(run, stream, run.flushAt).store;
    forall j | 0 <= j < |run.results|
      ensures Respond(views, run.results, j).Built?
    {
      R.BackedBatchIsAnswered(run, stream, j);
    }
    LoopAnswersAll(OutcomesOf(views, run.results), 0, patience);
    forall c: nat | NeedsFlush(final, run.results, c)
      ensures c in run.choices
    {
      BackedBatchIsOfAChoice(run, stream, c);
    }
    forall c: nat | |main| == patience && NeedsFlush(final, run.results, c)
      ensures c in order
    {
      if c !in order {
        DistinctFits(order, run.choices - {c});
      }
    }
  }

  // ---------------------------------------------------------------------------------------------
  // What output detection sends

  /** Neither the errors of setting up the streams nor the final part belong to a choice. */
  lemma {:induction false} NoneOfAChoice(out: Responses, c: nat)
    requires forall i :: 0 <= i < |out| ==> !OfChoice(out[i], c)
    ensures MessagesFor(out, c) == []
  {
    if out != [] {
      NoneOfAChoice(out[..|out| - 1], c);
    }
  }

  lemma OnlyBatchesBelongToAChoice(
      out: Responses, run: R.ChunkedRun, stream: Upstream<Completion>, patience: nat,
      main: Responses, order: seq<nat>, last: Responses, c: nat)
    requires R.Scheduled(run, stream) && R.ChunkedContent(out, run, stream, patience, main, order, last)
    ensures MessagesFor(out, c) == MessagesFor(main, c)
  {
    var errors := R.Errors(run.streamErrors);
    NoneOfAChoice(errors, c);
    NoneOfAChoice(last, c);
    MessagesForAppend(errors + main, last, c);
    MessagesForAppend(errors, main, c);
  }

  /** The client was told about the first of the releases, and, once it was told about all of them, perhaps what the flush
      adds. */
  ghost predicate Tells(told: Responses, rest: Responses, releases: seq<Release>, run: R.ChunkedRun, stream: Upstream<Completion>, c: nat)
    requires R.Scheduled(run, stream)
  {
    var final := R.At(run, stream, run.flushAt).store;
    && |told| <= |For(releases, c)| && AllReport(told, For(releases, c)[..|told|], final)
    && (rest != [] ==> TellsAll(told, rest, releases, run, stream, c))
  }

  ghost predicate TellsAll(told: Responses, rest: Responses, releases: seq<Release>, run: R.ChunkedRun, stream: Upstream<Completion>, c: nat)
    requires R.Scheduled(run, stream)
  {
    |told| == |For(releases, c)| && rest == FlushFor(R.At(run, stream, run.flushAt).store, run.results, c)
  }

  lemma AllResponsesTell(out: Responses, releases: seq<Release>, final: Store<Completion>, c: nat)
    requires ReportsEach(out, releases, final)
    ensures var told := MessagesFor(out[..|releases|], c);
            |told| == |For(releases, c)| && AllReport(told, For(releases, c)[..|told|], final)
  {
    ResponsesReport(out, releases, final, |releases|, c);
    assert releases[..|releases|] == releases && For(releases, c)[..|For(releases, c)|] == For(releases, c);
  }

  lemma FlushingTells(run: R.ChunkedRun, stream: Upstream<Completion>, releases: seq<Release>, main: Responses, order: seq<nat>, c: nat)
    returns (told: Responses, rest: Responses)
    requires R.Scheduled(run, stream) && R.Backed(run, stream) && FromReleases(run.results, releases)
    requires Flushing(R.Views(run, stream), R.At(run, stream, run.flushAt).store, run.results, main, order)
    ensures MessagesFor(main, c) == told + rest && Tells(told, rest, releases, run, stream, c)
    ensures (NeedsFlush(R.At(run, stream, run.flushAt).store, run.results, c) ==> c in order) ==>
              TellsAll(told, rest, releases, run, stream, c)
  {
    var final := R.At(run, stream, run.flushAt).store;
    told := MessagesFor(main[..|releases|], c);
    rest := if c in order then FlushFor(final, run.results, c) else [];
    BatchesComeFirst(run.results, releases, |run.results|);
    ResponsesReportEach(run, stream, releases, main);
    AllResponsesTell(main, releases, final, c);
    FlushForIs(final, run.results, c);
    R.MomentsAreWellStored(run, stream);
    FlushedAfterResponses(R.Views(run, stream), final, run.results, main, order, c);
  }

  lemma BatchesTell(run: R.ChunkedRun, stream: Upstream<Completion>, releases: seq<Release>, patience: nat,
                    main: Responses, order: seq<nat>, c: nat)
    returns (told: Responses, rest: Responses)
    requires R.Scheduled(run, stream) && R.Backed(run, stream) && FromReleases(run.results, releases)
    requires R.BatchContent(run, stream, patience, main, order)
    ensures MessagesFor(main, c) == told + rest && Tells(told, rest, releases, run, stream, c)
    ensures |run.results| == |releases| && patience >= |run.results| + |run.choices| ==>
              TellsAll(told, rest, releases, run, stream, c)
  {
    if |run.results| == |releases| && patience >= |run.results| + |run.choices| {
      PatientClientsGetEverything(run, stream, patience, main, order);
      told, rest := FlushingTells(run, stream, releases, main, order, c);
    } else if R.BatchLoop(run, stream, patience).ending.None? {
      told, rest := FlushingTells(run, stream, releases, main, order, c);
    } else {
      told := StoppedLoopTells(run, stream, releases, patience, c);
      rest := [];
      assert told + rest == told;
    }
  }

  /** The request gets as far as detection on chunks, with every batch backed. */
  ghost predicate DetectsOnChunks(r: R.Request, run: R.ChunkedRun) {
    && R.WellFormed(r) && R.EarlyEnd(r).None? && r.output == Some(R.Chunks(run))
    && R.Backed(run, r.upstream.value)
  }

  lemma EndMarkerIsOfNoChoice(sent: Responses, c: nat)
    requires R.EndsOnce(sent)
    ensures MessagesFor(sent, c) == MessagesFor(sent[..|sent| - 1], c)
  {
  }

  lemma ContentOfTheHandler(r: R.Request, run: R.ChunkedRun, sent: Responses, c: nat) returns (main: Responses, order: seq<nat>)
    requires DetectsOnChunks(r, run) && R.Handles(r, sent)
    ensures R.BatchContent(run, r.upstream.value, r.patience, main, order) && MessagesFor(sent, c) == MessagesFor(main, c)
  {
    var last;
    main, order, last := R.PartsOfContent(sent[..|sent| - 1], run, r.upstream.value, r.patience);
    OnlyBatchesBelongToAChoice(sent[..|sent| - 1], run, r.upstream.value, r.patience, main, order, last, c);
    EndMarkerIsOfNoChoice(sent, c);
  }

  lemma HandlerTells(r: R.Request, run: R.ChunkedRun, releases: seq<Release>, sent: Responses, c: nat)
    returns (told: Responses, rest: Responses)
    requires DetectsOnChunks(r, run) && R.Handles(r, sent) && FromReleases(run.results, releases)
    ensures MessagesFor(sent, c) == told + rest && Tells(told, rest, releases, run, r.upstream.value, c)
    ensures |run.results| == |releases| && r.patience >= |run.results| + |run.choices| ==>
              TellsAll(told, rest, releases, run, r.upstream.value, c)
  {
    var main, order := ContentOfTheHandler(r, run, sent, c);
    told, rest := BatchesTell(run, r.upstream.value, releases, r.patience, main, order, c);
  }

  // ---------------------------------------------------------------------------------------------
  // Behind the batcher

  lemma FatesOfARun(n: nat, steps: seq<Step>)
    ensures FateInv(Run(Init(n), steps))
  {
    InvariantHoldsOnEveryRun(n, steps);
  }

  lemma OutputIsFromReleases(s: Sys)
    requires FateInv(s)
    ensures FromReleases(s.out, SentIn(s)) && (!s.phase.Failed? ==> |s.out| == |SentIn(s)|)
  {
  }

  lemma HandlerTellsWhatWasSent(r: R.Request, run: R.ChunkedRun, s: Sys, sent: Responses, c: nat)
    returns (told: Responses, rest: Responses)
    requires DetectsOnChunks(r, run) && R.Handles(r, sent) && FateInv(s) && Connected(run, s)
    ensures MessagesFor(sent, c) == told + rest && Tells(told, rest, SentIn(s), run, r.upstream.value, c)
    ensures !s.phase.Failed? && r.patience >= |run.results| + |run.choices| ==>
              TellsAll(told, rest, SentIn(s), run, r.upstream.value, c)
  {
    OutputIsFromReleases(s);
    told, rest := HandlerTells(r, run, SentIn(s), sent, c);
  }

  lemma HandlerTellsWhatARunSent(r: R.Request, run: R.ChunkedRun, n: nat, steps: seq<Step>, sent: Responses, c: nat)
    returns (told: Responses, rest: Responses)
    requires DetectsOnChunks(r, run) && R.Handles(r, sent) && Connected(run, Run(Init(n), steps))
    ensures var releases := SentIn(Run(Init(n), steps));
            && MessagesFor(sent, c) == told + rest && Tells(told, rest, releases, run, r.upstream.value, c)
            && (!Run(Init(n), steps).phase.Failed? && r.patience >= |run.results| + |run.choices| ==>
                  TellsAll(told, rest, releases, run, r.upstream.value, c))
  {
    FatesOfARun(n, steps);
    told, rest := HandlerTellsWhatWasSent(r, run, Run(Init(n), steps), sent, c);
  }

  lemma ReportsTellOfTheirChunks(
      told: Responses, releases: seq<Release>, chunks: seq<nat>, feed: Feed, ops: seq<Op>, c: nat, final: Store<Completion>)
    requires |told| <= |releases| == |chunks| && AllReport(told, releases[..|told|], final)
    requires forall i, j :: 0 <= i < j < |chunks| ==> chunks[i] < chunks[j]
    requires forall i :: 0 <= i < |releases| ==> IsWholeChunk(feed, ops, releases[i], c, chunks[i])
    ensures TellOfChunks(told, chunks[..|told|], feed, c, final)
  {
    forall i | 0 <= i < |told|
      ensures TellsOf(told[i], feed, c, chunks[i], final)
    {
      assert Reports(told[i], releases[i], final);
      ReportTellsOfItsChunk(told[i], feed, ops, releases[i], c, chunks[i], final);
    }
  }

  lemma ToldAboutWholeChunks(feed: Feed, events: seq<Event>, steps: seq<Step>, told: Responses, c: nat, final: Store<Completion>)
    returns (chunks: seq<nat>)
    requires AscendingPlan(feed.plan) && Run(Init(feed.n), steps).received == PushesOf(Play(feed, events).ops)
    requires var releases := For(SentIn(Run(Init(feed.n), steps)), c);
             |told| <= |releases| && AllReport(told, releases[..|told|], final)
    ensures TellOfChunks(told, chunks, feed, c, final)
    ensures !LosesABatch(Init(feed.n), steps) ==> forall i :: 0 <= i < |chunks| ==> chunks[i] == i
  {
    var s := Run(Init(feed.n), steps);
    var all := SentBatchesAreWholeChunks(feed, events, steps, c);
    chunks := all[..|told|];
    ReportsTellOfTheirChunks(told, For(SentIn(s), c), all, feed, s.ops, c, final);
  }

  /** End to end, through the handler. Whatever the interleaving of the detectors, the schedule of the batch stream, the
      moments at which the handler looks, and the client's patience: of everything handling the request sends, the messages
      of a choice are responses about chunks in ascending order, each with the text of its chunk and the detections of all n
      detectors; and only when every batch sent for the choice has its response, the completion the flush adds. A client
      that takes a message per batch and one per choice gets all of it, if no stream failed. */
  lemma ClientOfTheHandler(
      r: R.Request, run: R.ChunkedRun, feed: Feed, events: seq<Event>, steps: seq<Step>, sent: Responses, c: nat)
    returns (told: Responses, chunks: seq<nat>, rest: Responses)
    requires DetectsOnChunks(r, run) && R.Handles(r, sent)
    requires AscendingPlan(feed.plan) && Run(Init(feed.n), steps).received == PushesOf(Play(feed, events).ops)
    requires Connected(run, Run(Init(feed.n), steps))
    ensures var final, s := R.At(run, r.upstream.value, run.flushAt).store, Run(Init(feed.n), steps);
            && MessagesFor(sent, c) == told + rest
            && TellOfChunks(told, chunks, feed, c, final)
            && (rest != [] ==> TellsAll(told, rest, SentIn(s), run, r.upstream.value, c))
            && (!s.phase.Failed? && r.patience >= |run.results| + |run.choices| ==>
                  TellsAll(told, rest, SentIn(s), run, r.upstream.value, c))
    ensures !LosesABatch(Init(feed.n), steps) ==> forall i :: 0 <= i < |chunks| ==> chunks[i] == i
  {
    told, rest := HandlerTellsWhatARunSent(r, run, feed.n, steps, sent, c);
    chunks := ToldAboutWholeChunks(feed, events, steps, told, c, R.At(run, r.upstream.value, run.flushAt).store);
  }

  // ---------------------------------------------------------------------------------------------
  // Errors

  lemma NothingButTheFinalPart(last: Responses, store: Store<Completion>, flagged: bool, wholeDoc: Option<R.WholeDocResult>, c: nat)
    requires R.IsFinalPart(last, store, flagged, wholeDoc)
    ensures forall i :: 0 <= i < |last| ==> !OfChoice(last[i], c)
  {
  }

  /** If a batch fails to get a response, or the batch stream delivers an error, the client that is still there gets the
      error after the responses to the batches before, and nothing about any choice after it. */
  lemma FailureIsReported(r: R.Request, run: R.ChunkedRun, sent: Responses, j: nat, e: string)
    requires R.WellFormed(r) && R.EarlyEnd(r).None? && r.output == Some(R.Chunks(run)) && R.Handles(r, sent)
    requires BuiltUntil(OutcomesOf(R.Views(run, r.upstream.value), run.results), 0, r.patience, j) && j < |run.results|
    requires var outcome := OutcomesOf(R.Views(run, r.upstream.value), run.results)[j];
             outcome == Err(e) || outcome == Ok(Refused(e))
    ensures exists i :: IsLastOfChoices(sent, i, e)
  {
    var stream, out := r.upstream.value, sent[..|sent| - 1];
    var main, order, last := R.PartsOfContent(out, run, stream, r.patience);
    var outcomes := OutcomesOf(R.Views(run, stream), run.results);
    MainReportsTheFailure(run, stream, r.patience, main, order, j, e);
    forall c: nat, l: nat | l < |last|
      ensures !OfChoice(last[l], c)
    {
      NothingButTheFinalPart(last, R.At(run, stream, run.endAt).store, R.At(run, stream, run.endAt).flagged, run.wholeDoc, c);
    }
    SentAroundTheError(sent, R.Errors(run.streamErrors), main, ResponsesOf(outcomes, 0, j), e, last);
    ErrorStandsLast(R.Errors(run.streamErrors) + ResponsesOf(outcomes, 0, j), e, last, sent);
  }

  lemma MainReportsTheFailure(run: R.ChunkedRun, stream: Upstream<Completion>, patience: nat, main: Responses, order: seq<nat>,
                              j: nat, e: string)
    requires R.Scheduled(run, stream) && R.BatchContent(run, stream, patience, main, order) && j < |run.results|
    requires BuiltUntil(OutcomesOf(R.Views(run, stream), run.results), 0, patience, j)
    requires var outcome := OutcomesOf(R.Views(run, stream), run.results)[j];
             outcome == Err(e) || outcome == Ok(Refused(e))
    ensures main == ResponsesOf(OutcomesOf(R.Views(run, stream), run.results), 0, j) + [Err(e)]
  {
    LoopEndsAtTheFirstFailure(OutcomesOf(R.Views(run, stream), run.results), 0, patience, j);
  }

  lemma SentAroundTheError(sent: Responses, errors: Responses, main: Responses, responses: Responses, e: string, last: Responses)
    requires R.EndsOnce(sent) && sent[..|sent| - 1] == errors + main + last && main == responses + [Err(e)]
    ensures sent == (errors + responses) + [Err(e)] + last + [Ok(None)]
  {
    assert sent == sent[..|sent| - 1] + [Ok(None)];
  }

  lemma ErrorStandsLast(before: Responses, e: string, last: Responses, sent: Responses)
    requires sent == before + [Err(e)] + last + [Ok(None)]
    requires forall c: nat, l: nat :: l < |last| ==> !OfChoice(last[l], c)
    ensures IsLastOfChoices(sent, |before|, e)
  {
    forall c: nat, l: nat | |before| < l < |sent|
      ensures !OfChoice(sent[l], c)
    {
      assert l < |sent| - 1 ==> sent[l] == last[l - |before| - 1];
    }
  }

  /** At place i stands the error, and after it nothing that belongs to a choice. */
  ghost predicate IsLastOfChoices(sent: Responses, i: nat, e: string) {
    && i < |sent| && sent[i] == Err(e)
    && forall c: nat, l: nat :: i < l < |sent| ==> !OfChoice(sent[l], c)
  }

  /** An error of a detection stream reaches the client. Whatever the schedule, if an error comes before the end of the
      streams, a client that takes a message per batch gets the first such error, after the responses and before anything
      but the final part. */
  lemma StreamErrorReachesTheClient(r: R.Request, run: R.ChunkedRun, n: nat, steps: seq<Step>, sent: Responses)
    requires DetectsOnChunks(r, run) && R.Handles(r, sent) && Connected(run, Run(Init(n), steps))
    requires ErrorComes(steps) && r.patience >= |run.results|
    ensures exists i :: IsLastOfChoices(sent, i, StreamsEndIn(steps).value.error)
  {
    var stream, e := r.upstream.value, StreamsEndIn(steps).value.error;
    FirstErrorIsSentLast(n, steps);
    var j: nat := |run.results| - 1;
    forall i | 0 <= i < j
      ensures run.results[i].Ok? && Respond(R.Views(run, stream), run.results, i).Built?
    {
      R.BackedBatchIsAnswered(run, stream, i);
    }
    FailureIsReported(r, run, sent, j, e);
  }

  // ---------------------------------------------------------------------------------------------
  // Without a batcher

  lemma {:induction false} AtMostOneError(items: seq<Result<Push, string>>)
    ensures |S.ErrorOf(items)| <= 1 && forall i :: 0 <= i < |S.ErrorOf(items)| ==> S.ErrorOf(items)[i].Err?
  {
    if items != [] {
      AtMostOneError(items[1..]);
    }
  }

  lemma ShortcutResults(items: seq<Result<Push, string>>, c: nat, ops: seq<Op>, results: seq<Result<Batch, string>>)
    requires S.Forwards(items, results) && S.OnChoice(S.BeforeError(items), c) && Ascending(S.ChunksOf(S.BeforeError(items)))
    requires PushesOf(ops) == S.BeforeError(items) && Exec(1, ops).state == map[]
    ensures FromReleases(results, Exec(1, ops).popped) && For(Exec(1, ops).popped, c) == Exec(1, ops).popped
    ensures |Exec(1, ops).popped| == |S.BeforeError(items)|
    ensures forall i :: 0 <= i < |S.BeforeError(items)| ==> Exec(1, ops).popped[i].ToBatch() == S.AsBatch(S.BeforeError(items)[i])
  {
    var popped, reports := Exec(1, ops).popped, S.BeforeError(items);
    S.ShortcutEqualsBatcher(items, results, c, ops);
    S.SingleStreamInOrder(reports, c, ops);
    S.DrainedBatcherEmitsAll(reports, c, ops);
    AtMostOneError(items);
    forall i | 0 <= i < |reports|
      ensures popped[i].ToBatch() == S.AsBatch(reports[i])
    {
      assert AsOutput(popped)[i] == S.AsBatches(reports)[i];
    }
  }

  /** The message is the response to the detector's report. */
  ghost predicate AnswersReport(m: Response<Completion>, p: Push, final: Store<Completion>) {
    && m.Ok? && m.value.Some? && p.chunk.inputEndIndex in Of(final, p.choice)
    && BuiltFrom(m.value.value, Of(final, p.choice)[p.chunk.inputEndIndex], p.choice, p.chunk, p.detections)
  }

  lemma ReportsAreAnswered(told: Responses, releases: seq<Release>, reports: seq<Push>, final: Store<Completion>)
    requires |told| <= |releases| == |reports| && AllReport(told, releases[..|told|], final)
    requires forall i :: 0 <= i < |reports| ==> releases[i].ToBatch() == S.AsBatch(reports[i])
    ensures forall i :: 0 <= i < |told| ==> AnswersReport(told[i], reports[i], final)
  {
    forall i | 0 <= i < |told|
      ensures AnswersReport(told[i], reports[i], final)
    {
      assert Reports(told[i], releases[i], final);
    }
  }

  /** One detector and one choice take the shortcut. If the chunks ascend, the client is told what it would be told behind
      a batcher under any schedule that ends drained, which is one response per report, in the order of the reports. */
  lemma ClientOfTheShortcut(
      r: R.Request, run: R.ChunkedRun, items: seq<Result<Push, string>>, ops: seq<Op>, sent: Responses, c: nat)
    returns (told: Responses, rest: Responses)
    requires DetectsOnChunks(r, run) && R.Handles(r, sent)
    requires S.Forwards(items, run.results) && S.OnChoice(S.BeforeError(items), c) && Ascending(S.ChunksOf(S.BeforeError(items)))
    requires PushesOf(ops) == S.BeforeError(items) && Exec(1, ops).state == map[]
    ensures MessagesFor(sent, c) == told + rest && Tells(told, rest, Exec(1, ops).popped, run, r.upstream.value, c)
    ensures |told| <= |S.BeforeError(items)|
    ensures forall i :: 0 <= i < |told| ==>
              AnswersReport(told[i], S.BeforeError(items)[i], R.At(run, r.upstream.value, run.flushAt).store)
    ensures S.ErrorOf(items) == [] && r.patience >= |run.results| + |run.choices| ==>
              TellsAll(told, rest, Exec(1, ops).popped, run, r.upstream.value, c)
  {
    var popped, final := Exec(1, ops).popped, R.At(run, r.upstream.value, run.flushAt).store;
    ShortcutResults(items, c, ops, run.results);
    S.ForwardsExactly(items, run.results);
    told, rest := HandlerTells(r, run, popped, sent, c);
    ReportsAreAnswered(told, popped, S.BeforeError(items), final);
  }
}
