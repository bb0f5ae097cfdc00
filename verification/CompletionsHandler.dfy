/** Consuming the detection batches: sending their responses, and flushing what they left out. */
module CompletionsHandler {
  import opened Types
  import opened CompletionStates
  import opened Producers
  import opened ProducerProperties
  import opened Completions

  /** What is sent on the response channel; Ok(None) is the end marker. */
  type Responses = seq<Response<Completion>>

  datatype Ending = Closed | Stopped | ClientGone | Panic

  /** What sending the responses for the batches amounts to; None: all batches were processed. */
  datatype Main = Main(out: Responses, ending: Option<Ending>)

  /** The k-th batch is looked up in the k-th view, which is the shared state at that moment. */
  function Respond(views: seq<Store<Completion>>, results: seq<Result<Batch, string>>, k: nat): Outcome<Completion>
    requires |views| == |results| && k < |results| && results[k].Ok?
  {
    OutputDetectionResponse(views[k], results[k].value.choice, results[k].value.chunk, results[k].value.detections)
  }

  /** What becomes of each item of the batch stream: an error, or the outcome of building a response. */
  type Outcomes = seq<Result<Outcome<Completion>, string>>

  function OutcomesOf(views: seq<Store<Completion>>, results: seq<Result<Batch, string>>): (r: Outcomes)
    requires |views| == |results|
    ensures |r| == |results|
    ensures forall k :: 0 <= k < |r| ==>
              r[k] == if results[k].Ok? then Ok(Respond(views, results, k)) else Err(results[k].error)
  {
    seq(|results|, k requires 0 <= k < |results| =>
      if results[k].Ok? then Ok(Respond(views, results, k)) else Err(results[k].error))
  }

  /** The items from k on, for a client that accepts so many more messages. */
  function MainLoop(outcomes: Outcomes, k: nat, patience: nat): Main
    requires k <= |outcomes|
    decreases |outcomes| - k
  {
    if k == |outcomes| then Main([], None)
    else match outcomes[k]
      case Err(e) => Main([Err(e)], Some(Stopped))
      case Ok(Panicked) => Main([], Some(Panic))
      case Ok(Refused(e)) => Main([Err(e)], Some(Stopped))
      case Ok(Built(c)) =>
        if patience == 0 then Main([], Some(ClientGone))
        else
          var rest := MainLoop(outcomes, k + 1, patience - 1);
          Main([Ok(Some(c))] + rest.out, rest.ending)
  }

  /** The end index of the last batch of a choice. */
  function LastBatchEnd(results: seq<Result<Batch, string>>, c: nat): Option<nat> {
    if results == [] then None
    else
      var last := results[|results| - 1];
      if last.Ok? && last.value.choice == c then Some(last.value.chunk.inputEndIndex)
      else LastBatchEnd(results[..|results| - 1], c)
  }

  /** The last stored completion of the choice was not part of its last batch. */
  predicate NeedsFlush(final: Store<Completion>, results: seq<Result<Batch, string>>, c: nat) {
    && LastBatchEnd(results, c).Some?
    && Of(final, c) != map[]
    && LastIndex(Of(final, c)) != LastBatchEnd(results, c).value
  }

  ghost predicate Distinct(order: seq<nat>) {
    forall i, j :: 0 <= i < j < |order| ==> order[i] != order[j]
  }

  /** The first messages are the responses to the batches. */
  ghost predicate AllAnswered(views: seq<Store<Completion>>, results: seq<Result<Batch, string>>, out: Responses) {
    && |views| == |results| <= |out|
    && forall k :: 0 <= k < |results| ==>
         results[k].Ok? && Respond(views, results, k).Built? && out[k] == Ok(Some(Respond(views, results, k).completion))
  }

  /** One message per batch, then the last stored completion of choices that need it, in some order. */
  ghost predicate Flushing(views: seq<Store<Completion>>, final: Store<Completion>, results: seq<Result<Batch, string>>,
                           out: Responses, order: seq<nat>) {
    && AllAnswered(views, results, out)
    && |out| == |results| + |order|
    && Distinct(order)
    && (forall c: nat :: c in order ==> NeedsFlush(final, results, c))
    && (forall k :: 0 <= k < |order| ==>
          Of(final, order[k]) != map[] &&
          out[|results| + k] == Ok(Some(Of(final, order[k])[LastIndex(Of(final, order[k]))])))
  }

  /** A regular end: every choice that needs it was flushed. */
  ghost predicate RegularEnd(views: seq<Store<Completion>>, final: Store<Completion>, results: seq<Result<Batch, string>>,
                             out: Responses, order: seq<nat>) {
    Flushing(views, final, results, out, order) && forall c: nat :: NeedsFlush(final, results, c) ==> c in order
  }

  /** The ranges of the batches of each choice so far, oldest first. */
  type Tracker = map<nat, seq<(nat, nat)>>

  ghost predicate Tracks(tracker: Tracker, results: seq<Result<Batch, string>>) {
    && (forall c: nat :: c in tracker <==> LastBatchEnd(results, c).Some?)
    && (forall c: nat :: c in tracker ==>
          tracker[c] != [] && tracker[c][|tracker[c]| - 1].1 == LastBatchEnd(results, c).value)
  }

  lemma {:induction false} RegularLoopBuildsAll(outcomes: Outcomes, k: nat, patience: nat, j: nat)
    requires k <= j < |outcomes| && MainLoop(outcomes, k, patience).ending.None?
    ensures |MainLoop(outcomes, k, patience).out| == |outcomes| - k
    ensures outcomes[j].Ok? && outcomes[j].value.Built?
    ensures MainLoop(outcomes, k, patience).out[j - k] == Ok(Some(outcomes[j].value.completion))
    decreases |outcomes| - k
  {
    if k < j {
      RegularLoopBuildsAll(outcomes, k + 1, patience - 1, j);
    } else {
      RegularLoopLength(outcomes, k, patience);
    }
  }

  lemma {:induction false} RegularLoopLength(outcomes: Outcomes, k: nat, patience: nat)
    requires k <= |outcomes| && MainLoop(outcomes, k, patience).ending.None?
    ensures |MainLoop(outcomes, k, patience).out| == |outcomes| - k
    decreases |outcomes| - k
  {
    if k < |outcomes| {
      RegularLoopLength(outcomes, k + 1, patience - 1);
    }
  }

  /** The k-th and all later items before the j-th have responses, and the client takes those. */
  ghost predicate BuiltUntil(outcomes: Outcomes, k: nat, patience: nat, j: nat) {
    && k <= j <= |outcomes| && patience >= j - k
    && forall i :: k <= i < j ==> outcomes[i].Ok? && outcomes[i].value.Built?
  }

  function ResponsesOf(outcomes: Outcomes, k: nat, j: nat): Responses
    requires k <= j <= |outcomes|
    requires forall i :: k <= i < j ==> outcomes[i].Ok? && outcomes[i].value.Built?
  {
    seq(j - k, i requires 0 <= i < j - k => Ok(Some(outcomes[k + i].value.completion)))
  }

  /** What the loop sends, and how it ends: the responses up to the first item that has none, or that the client does not
      take. An error of the batch stream and a failed response are reported after them and stop the loop. */
  lemma {:induction false} LoopEndsAtTheFirstFailure(outcomes: Outcomes, k: nat, patience: nat, j: nat)
    requires BuiltUntil(outcomes, k, patience, j)
    ensures var main, responses := MainLoop(outcomes, k, patience), ResponsesOf(outcomes, k, j);
            if j == |outcomes| then main.out == responses && main.ending == None
            else match outcomes[j] {
              case Err(e) => main.out == responses + [Err(e)] && main.ending == Some(Stopped)
              case Ok(Refused(e)) => main.out == responses + [Err(e)] && main.ending == Some(Stopped)
              case Ok(Panicked) => main.out == responses && main.ending == Some(Panic)
              case Ok(Built(_)) => patience == j - k ==> main.out == responses && main.ending == Some(ClientGone)
            }
    decreases j - k
  {
    if k < j {
      LoopEndsAtTheFirstFailure(outcomes, k + 1, patience - 1, j);
      assert ResponsesOf(outcomes, k, j) == [Ok(Some(outcomes[k].value.completion))] + ResponsesOf(outcomes, k + 1, j);
    } else {
      assert ResponsesOf(outcomes, k, j) == [];
    }
  }

  function Continues(out: Responses, main: Main): Main {
    Main(out + main.out, main.ending)
  }

  /** What the next item adds to the messages sent so far. */
  lemma OneMoreItem(outcomes: Outcomes, k: nat, patience: nat, out: Responses)
    requires k < |outcomes|
    ensures Continues(out, MainLoop(outcomes, k, patience)) ==
            match outcomes[k]
            case Err(e) => Main(out + [Err(e)], Some(Stopped))
            case Ok(Panicked) => Main(out, Some(Panic))
            case Ok(Refused(e)) => Main(out + [Err(e)], Some(Stopped))
            case Ok(Built(c)) =>
              if patience == 0 then Main(out, Some(ClientGone))
              else Continues(out + [Ok(Some(c))], MainLoop(outcomes, k + 1, patience - 1))
  {
  }

  method BuildResponse(views: seq<Store<Completion>>, results: seq<Result<Batch, string>>, k: nat) returns (outcome: Outcome<Completion>)
    requires |views| == |results| && k < |results| && results[k].Ok?
    ensures OutcomesOf(views, results)[k] == Ok(outcome)
  {
    var batch := results[k].value;
    outcome := OutputDetectionResponse(views[k], batch.choice, batch.chunk, batch.detections);
  }

  /** Records the indices of the k-th batch. */
  method Track(tracker: Tracker, results: seq<Result<Batch, string>>, k: nat) returns (next: Tracker)
    requires k < |results| && results[k].Ok? && Tracks(tracker, results[..k])
    ensures Tracks(next, results[..k + 1])
  {
    assert results[..k + 1][..k] == results[..k];
    var batch := results[k].value;
    var indices := (batch.chunk.inputStartIndex, batch.chunk.inputEndIndex);
    var entry := if batch.choice in tracker then tracker[batch.choice] + [indices] else [indices];
    next := tracker[batch.choice := entry];
  }

  /** Sends the response for the k-th batch, or stops. */
  method SendBatch(views: seq<Store<Completion>>, results: seq<Result<Batch, string>>, k: nat, sent: Responses, patience: nat)
    returns (sent': Responses, left: nat, stopped: Option<Ending>)
    requires |views| == |results| && k < |results|
    ensures var before := Continues(sent, MainLoop(OutcomesOf(views, results), k, patience));
            if stopped.Some? then before == Main(sent', stopped)
            else results[k].Ok? && before == Continues(sent', MainLoop(OutcomesOf(views, results), k + 1, left))
    ensures stopped.None? ==> left + |sent'| == patience + |sent|
    ensures stopped == Some(ClientGone) ==> patience == 0 && sent' == sent
  {
    OneMoreItem(OutcomesOf(views, results), k, patience, sent);
    if results[k].Err? {
      return sent + [Err(results[k].error)], patience, Some(Stopped);
    }
    var outcome := BuildResponse(views, results, k);
    match outcome {
      case Panicked =>
        return sent, patience, Some(Panic);
      case Refused(e) =>
        return sent + [Err(e)], patience, Some(Stopped);
      case Built(completion) =>
        if patience == 0 {
          return sent, patience, Some(ClientGone);
        }
        return sent + [Ok(Some(completion))], patience - 1, None;
    }
  }

  /** Sends the responses for the batches; the state is looked up once per batch. */
  method SendBatches(views: seq<Store<Completion>>, results: seq<Result<Batch, string>>, sent: Responses, patience: nat)
    returns (sent': Responses, tracker: Tracker, left: nat, stopped: Option<Ending>)
    requires |views| == |results|
    ensures Main(sent', stopped) == Continues(sent, MainLoop(OutcomesOf(views, results), 0, patience))
    ensures stopped.None? ==> Tracks(tracker, results) && left + |sent'| == patience + |sent|
    ensures stopped == Some(ClientGone) ==> |sent'| == patience + |sent|
  {
    ghost var outcomes := OutcomesOf(views, results);
    sent', tracker, left, stopped := sent, map[], patience, None;
    var k := 0;
    while k < |results|
      invariant 0 <= k <= |results| && stopped.None?
      invariant Continues(sent', MainLoop(outcomes, k, left)) == Continues(sent, MainLoop(outcomes, 0, patience))
      invariant Tracks(tracker, results[..k])
      invariant left + |sent'| == patience + |sent|
    {
      sent', left, stopped := SendBatch(views, results, k, sent', left);
      if stopped.Some? {
        return;
      }
      tracker := Track(tracker, results, k);
      k := k + 1;
    }
    assert sent' + [] == sent' && results[..|results|] == results;
  }

  /** The messages after the batches: the last stored completions of these choices. */
  ghost predicate Flushed(final: Store<Completion>, out: Responses, order: seq<nat>) {
    && |out| == |order| && Distinct(order)
    && (forall j :: 0 <= j < |order| ==>
          Of(final, order[j]) != map[] && out[j] == Ok(Some(Of(final, order[j])[LastIndex(Of(final, order[j]))])))
  }

  /** Sends the last stored completion of every choice whose last batch did not include it. */
  method Flush(final: Store<Completion>, ghost results: seq<Result<Batch, string>>, tracker: Tracker,
               sent: Responses, patience: nat)
    returns (sent': Responses, ending: Ending, ghost out: Responses, ghost order: seq<nat>)
    requires Tracks(tracker, results)
    ensures sent' == sent + out && Flushed(final, out, order)
    ensures ending.Closed? || ending.ClientGone? || ending.Panic?
    ensures forall c: nat :: c in order ==> NeedsFlush(final, results, c)
    ensures ending.Closed? ==> forall c: nat :: NeedsFlush(final, results, c) ==> c in order
    ensures ending.Panic? ==> FlushPanics(final, results)
    ensures ending.ClientGone? ==> |out| == patience
  {
    sent', out, order := sent, [], [];
    var left := patience;
    var todo := tracker.Keys;
    while todo != {}
      invariant todo <= tracker.Keys
      invariant sent' == sent + out && Flushed(final, out, order) && left + |out| == patience
      invariant forall c :: c in order ==> c in tracker && c !in todo
      invariant forall c: nat :: c in tracker && c !in todo ==> (c in order <==> NeedsFlush(final, results, c))
      decreases |todo|
    {
      var c :| c in todo;
      todo := todo - {c};
      var completions := Of(final, c);
      if completions == map[] {
        return sent', Panic, out, order;
      }
      var last, ended := LastIndex(completions), tracker[c][|tracker[c]| - 1].1;
      if last != ended {
        if left == 0 {
          return sent', ClientGone, out, order;
        }
        sent', left := sent' + [Ok(Some(completions[last]))], left - 1;
        out, order := out + [Ok(Some(completions[last]))], order + [c];
      }
    }
    ending := Closed;
  }

  /** Consumes the detection batches. The state is looked up once per batch and again when they are done;
      the choices are flushed in no particular order. */
  method ProcessDetectionBatchStream(
      views: seq<Store<Completion>>, final: Store<Completion>, results: seq<Result<Batch, string>>,
      sent: Responses, patience: nat)
    returns (sent': Responses, ending: Ending, ghost order: seq<nat>)
    requires |views| == |results|
    ensures sent <= sent' && Ok(None) !in sent'[|sent|..]
    ensures var main := MainLoop(OutcomesOf(views, results), 0, patience);
            if main.ending.Some? then sent' == sent + main.out && ending == main.ending.value
            else Flushing(views, final, results, sent'[|sent|..], order)
                 && match ending {
                      case Closed => RegularEnd(views, final, results, sent'[|sent|..], order)
                      case ClientGone => |sent'| == |sent| + patience
                      case Panic => FlushPanics(final, results)
                      case Stopped => false
                    }
  {
    ghost var main := MainLoop(OutcomesOf(views, results), 0, patience);
    MainLoopSendsNoEndMarker(OutcomesOf(views, results), 0, patience);
    var tracker, left, stopped;
    sent', tracker, left, stopped := SendBatches(views, results, sent, patience);
    assert stopped == main.ending && sent' == sent + main.out;
    if stopped.Some? {
      assert sent'[|sent|..] == main.out;
      return sent', stopped.value, [];
    }
    ghost var rest;
    sent', ending, rest, order := Flush(final, results, tracker, sent', left);
    assert sent' == sent + (main.out + rest) && sent'[|sent|..] == main.out + rest;
    LoopThenFlush(views, final, results, patience, rest, order);
  }

  lemma LoopThenFlush(
      views: seq<Store<Completion>>, final: Store<Completion>, results: seq<Result<Batch, string>>, patience: nat,
      rest: Responses, order: seq<nat>)
    requires |views| == |results| && MainLoop(OutcomesOf(views, results), 0, patience).ending.None?
    requires Flushed(final, rest, order) && forall c: nat :: c in order ==> NeedsFlush(final, results, c)
    ensures var out := MainLoop(OutcomesOf(views, results), 0, patience).out + rest;
            Ok(None) !in out && Flushing(views, final, results, out, order)
  {
    MainLoopSendsNoEndMarker(OutcomesOf(views, results), 0, patience);
    RegularLoopAnswersAll(views, results, patience);
    FlushSendsNoEndMarker(final, rest, order);
    AnsweredThenFlushed(views, final, results, MainLoop(OutcomesOf(views, results), 0, patience).out, rest, order);
  }

  lemma FlushSendsNoEndMarker(final: Store<Completion>, out: Responses, order: seq<nat>)
    requires Flushed(final, out, order)
    ensures Ok(None) !in out
  {
  }

  lemma AnswersStay(views: seq<Store<Completion>>, results: seq<Result<Batch, string>>, answers: Responses, rest: Responses)
    requires AllAnswered(views, results, answers)
    ensures AllAnswered(views, results, answers + rest)
  {
    assert forall k :: 0 <= k < |answers| ==> (answers + rest)[k] == answers[k];
  }

  lemma {:induction false} MainLoopSendsNoEndMarker(outcomes: Outcomes, k: nat, patience: nat)
    requires k <= |outcomes|
    ensures Ok(None) !in MainLoop(outcomes, k, patience).out
    decreases |outcomes| - k
  {
    if k < |outcomes| && outcomes[k].Ok? && outcomes[k].value.Built? && patience > 0 {
      MainLoopSendsNoEndMarker(outcomes, k + 1, patience - 1);
    }
  }

  lemma RegularLoopAnswersAll(views: seq<Store<Completion>>, results: seq<Result<Batch, string>>, patience: nat)
    requires |views| == |results| && MainLoop(OutcomesOf(views, results), 0, patience).ending.None?
    ensures AllAnswered(views, results, MainLoop(OutcomesOf(views, results), 0, patience).out)
    ensures |MainLoop(OutcomesOf(views, results), 0, patience).out| == |results|
  {
    var outcomes := OutcomesOf(views, results);
    RegularLoopLength(outcomes, 0, patience);
    forall k | 0 <= k < |results|
      ensures outcomes[k].Ok? && outcomes[k].value.Built?
      ensures MainLoop(outcomes, 0, patience).out[k] == Ok(Some(outcomes[k].value.completion))
    {
      RegularLoopBuildsAll(outcomes, 0, patience, k);
    }
  }

  lemma AnsweredThenFlushed(
      views: seq<Store<Completion>>, final: Store<Completion>, results: seq<Result<Batch, string>>,
      answers: Responses, rest: Responses, order: seq<nat>)
    requires AllAnswered(views, results, answers) && |answers| == |results|
    requires Flushed(final, rest, order) && forall c: nat :: c in order ==> NeedsFlush(final, results, c)
    ensures Flushing(views, final, results, answers + rest, order)
  {
    var out := answers + rest;
    AnswersStay(views, results, answers, rest);
    forall k | 0 <= k < |order|
      ensures Of(final, order[k]) != map[] && out[|results| + k] == Ok(Some(Of(final, order[k])[LastIndex(Of(final, order[k]))]))
    {
      assert out[|results| + k] == rest[k];
    }
  }

  /** Some choice had a batch, but nothing is stored for it. */
  ghost predicate FlushPanics(final: Store<Completion>, results: seq<Result<Batch, string>>) {
    exists c: nat :: LastBatchEnd(results, c).Some? && Of(final, c) == map[]
  }

  // ---------------------------------------------------------------------------------------------
  // The final flush

  /** The message belongs to choice c. */
  predicate OfChoice(m: Response<Completion>, c: nat) {
    m.Ok? && m.value.Some? && m.value.value.choices != [] && m.value.value.choices[0].index == c
  }

  /** The message carries everything of the stored completion that a client needs to close the choice. */
  ghost predicate Closes(m: Completion, stored: Completion) {
    && m.id == stored.id && m.created == stored.created && m.model == stored.model && m.usage == stored.usage
    && m.choices != [] && stored.choices != []
    && m.choices[0].index == stored.choices[0].index
    && m.choices[0].finishReason == stored.choices[0].finishReason
  }

  /** Every batch was looked up when its range was already as it is in the final state. */
  ghost predicate LookupsAreFinal(views: seq<Store<Completion>>, final: Store<Completion>, results: seq<Result<Batch, string>>)
    requires |views| == |results|
  {
    forall k :: 0 <= k < |results| && results[k].Ok? ==>
      var b := results[k].value;
      && b.choice in final.completions
      && Range(Of(views[k], b.choice), b.chunk.inputStartIndex, b.chunk.inputEndIndex + 1)
         == Range(Of(final, b.choice), b.chunk.inputStartIndex, b.chunk.inputEndIndex + 1)
  }

  ghost predicate IsLastBatchOf(results: seq<Result<Batch, string>>, c: nat, k: nat) {
    && k < |results| && results[k].Ok? && results[k].value.choice == c
    && forall j :: k < j < |results| && results[j].Ok? ==> results[j].value.choice != c
  }

  lemma {:induction false} LastBatchExists(results: seq<Result<Batch, string>>, c: nat) returns (k: nat)
    requires LastBatchEnd(results, c).Some?
    ensures IsLastBatchOf(results, c, k)
    ensures results[k].value.chunk.inputEndIndex == LastBatchEnd(results, c).value
    decreases |results|
  {
    var last := |results| - 1;
    if results[last].Ok? && results[last].value.choice == c {
      k := last;
    } else {
      k := LastBatchExists(results[..last], c);
    }
  }

  lemma {:induction false} LastBatchIsFound(results: seq<Result<Batch, string>>, c: nat, k: nat)
    requires IsLastBatchOf(results, c, k)
    ensures LastBatchEnd(results, c) == Some(results[k].value.chunk.inputEndIndex)
    decreases |results|
  {
    if k < |results| - 1 {
      LastBatchIsFound(results[..|results| - 1], c, k);
    }
  }

  /** The choice had a batch, and the last one ends somewhere else than at the choice's highest stored index. */
  ghost predicate EndsElsewhere(final: Store<Completion>, results: seq<Result<Batch, string>>, c: nat, k: nat, top: nat) {
    && IsLastBatchOf(results, c, k)
    && top in Of(final, c) && (forall j :: j in Of(final, c) ==> j <= top)
    && results[k].value.chunk.inputEndIndex != top
  }

  /** A choice is flushed exactly if its last batch ends somewhere else than at its highest stored index. */
  lemma FlushIsNeededIff(final: Store<Completion>, results: seq<Result<Batch, string>>, c: nat)
    ensures NeedsFlush(final, results, c) <==> exists k: nat, top: nat :: EndsElsewhere(final, results, c, k, top)
  {
    if NeedsFlush(final, results, c) {
      var k := LastBatchExists(results, c);
      assert EndsElsewhere(final, results, c, k, LastIndex(Of(final, c)));
    }
    if k: nat, top: nat :| EndsElsewhere(final, results, c, k, top) {
      LastBatchIsFound(results, c, k);
      assert LastIndex(Of(final, c)) == top;
    }
  }

  lemma ResponseBelongsToItsChoice(views: seq<Store<Completion>>, results: seq<Result<Batch, string>>, k: nat)
    requires |views| == |results| && k < |results| && results[k].Ok?
    requires WellStored(views[k]) && Respond(views, results, k).Built?
    ensures OfChoice(Ok(Some(Respond(views, results, k).completion)), results[k].value.choice)
  {
    var b := results[k].value;
    ResponseOutcome(views[k], b.choice, b.chunk, b.detections);
  }

  /** The last batch reached the last stored completion, so its response is built from it. */
  lemma LastResponseCloses(views: seq<Store<Completion>>, final: Store<Completion>, results: seq<Result<Batch, string>>, k: nat)
    requires |views| == |results| && k < |results| && results[k].Ok?
    requires WellStored(views[k]) && WellStored(final) && LookupsAreFinal(views, final, results)
    requires Respond(views, results, k).Built?
    requires var b := results[k].value;
             Of(final, b.choice) != map[] && LastIndex(Of(final, b.choice)) == b.chunk.inputEndIndex
    ensures Closes(Respond(views, results, k).completion,
                   Of(final, results[k].value.choice)[LastIndex(Of(final, results[k].value.choice))])
  {
    var b := results[k].value;
    var m, s, e := Of(final, b.choice), b.chunk.inputStartIndex, b.chunk.inputEndIndex;
    assert s <= e;
    assert IsLastKeyIn(m, s, e + 1, e);
    RangeEndsAtItsLastKey(m, s, e + 1, e);
    assert Range(Of(views[k], b.choice), s, e + 1) == Range(m, s, e + 1);
  }

  /** out[j] is the last message of choice c and carries what the choice's last stored completion carries. */
  ghost predicate EndsChoice(out: Responses, final: Store<Completion>, c: nat, j: nat)
    requires Of(final, c) != map[]
  {
    && j < |out| && OfChoice(out[j], c)
    && (forall i :: j < i < |out| ==> !OfChoice(out[i], c))
    && Closes(out[j].value.value, Of(final, c)[LastIndex(Of(final, c))])
  }

  lemma FlushedMessageBelongsToItsChoice(
      views: seq<Store<Completion>>, final: Store<Completion>, results: seq<Result<Batch, string>>,
      out: Responses, order: seq<nat>, h: nat)
    requires RegularEnd(views, final, results, out, order) && WellStored(final)
    requires |results| <= h < |out|
    ensures OfChoice(out[h], order[h - |results|])
    ensures order[h - |results|] in order
  {
    assert out[h] == out[|results| + (h - |results|)];
  }

  lemma FlushedMessageEndsItsChoice(
      views: seq<Store<Completion>>, final: Store<Completion>, results: seq<Result<Batch, string>>,
      out: Responses, order: seq<nat>, i: nat)
    requires RegularEnd(views, final, results, out, order) && WellStored(final) && i < |order|
    requires Of(final, order[i]) != map[]
    ensures EndsChoice(out, final, order[i], |results| + i)
  {
    forall h | |results| + i <= h < |out|
      ensures OfChoice(out[h], order[h - |results|])
      ensures h > |results| + i ==> order[h - |results|] != order[i]
    {
      FlushedMessageBelongsToItsChoice(views, final, results, out, order, h);
    }
  }

  lemma LastResponseEndsItsChoice(
      views: seq<Store<Completion>>, final: Store<Completion>, results: seq<Result<Batch, string>>,
      out: Responses, order: seq<nat>, c: nat, k: nat)
    requires RegularEnd(views, final, results, out, order)
    requires WellStored(final) && forall k :: 0 <= k < |views| ==> WellStored(views[k])
    requires LookupsAreFinal(views, final, results)
    requires Of(final, c) != map[] && IsLastBatchOf(results, c, k) && c !in order
    requires results[k].value.chunk.inputEndIndex == LastIndex(Of(final, c))
    ensures EndsChoice(out, final, c, k)
  {
    ResponseBelongsToItsChoice(views, results, k);
    LastResponseCloses(views, final, results, k);
    forall h | k < h < |out|
      ensures !OfChoice(out[h], c)
    {
      if h < |results| {
        ResponseBelongsToItsChoice(views, results, h);
      } else {
        FlushedMessageBelongsToItsChoice(views, final, results, out, order, h);
      }
    }
  }

  /** The final flush. On a run that ends regularly, for every choice that had a batch, the last message of
      that choice carries what its highest-index stored completion carries, finish reason included, and at
      most one message per choice is added to those of the batches. */
  lemma LastMessageClosesEveryChoice(
      views: seq<Store<Completion>>, final: Store<Completion>, results: seq<Result<Batch, string>>,
      out: Responses, order: seq<nat>, c: nat)
    requires RegularEnd(views, final, results, out, order)
    requires WellStored(final) && forall k :: 0 <= k < |views| ==> WellStored(views[k])
    requires LookupsAreFinal(views, final, results)
    requires LastBatchEnd(results, c).Some? && Of(final, c) != map[]
    ensures exists j: nat :: EndsChoice(out, final, c, j)
    ensures multiset(order)[c] <= 1
  {
    DistinctMeansAtMostOnce(order, c);
    if c in order {
      var i :| 0 <= i < |order| && order[i] == c;
      FlushedMessageEndsItsChoice(views, final, results, out, order, i);
    } else {
      var k := LastBatchExists(results, c);
      LastResponseEndsItsChoice(views, final, results, out, order, c, k);
    }
  }

  lemma {:induction false} DistinctMeansAtMostOnce(order: seq<nat>, c: nat)
    requires Distinct(order)
    ensures multiset(order)[c] <= 1
  {
    if order != [] {
      var init, last := order[..|order| - 1], order[|order| - 1];
      DistinctMeansAtMostOnce(init, c);
      assert order == init + [last];
      if last == c {
        assert c !in init;
      }
    }
  }
}
