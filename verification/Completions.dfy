/** The messages of the completions endpoint and the responses built from them. */
module Completions {
  import opened Types
  import opened CompletionStates
  import opened Producers
  import opened ProducerProperties
  import opened Merging

  datatype Logprobs = Logprobs(
    tokens: seq<string>,
    tokenLogprobs: seq<real>,
    topLogprobs: seq<map<string, real>>,
    textOffset: seq<nat>)

  datatype CompletionChoice = CompletionChoice(
    index: nat, text: string, logprobs: Option<Logprobs>, finishReason: Option<string>)

  datatype Warning = UnsuitableInput | UnsuitableOutput | EmptyOutput

  datatype OutputDetections = OutputDetections(choiceIndex: nat, results: seq<Detection>)

  datatype CompletionDetections = CompletionDetections(input: seq<Detection>, output: seq<OutputDetections>)

  datatype Completion = Completion(
    id: string,
    created: int,
    model: string,
    choices: seq<CompletionChoice>,
    usage: Option<Usage>,
    detections: Option<CompletionDetections>,
    warnings: seq<Warning>)

  function CompletionView(c: Completion): View {
    View(Metadata(c.id, c.created, c.model), c.usage,
         if c.choices == [] then None
         else Some(ChoiceView(c.choices[0].index, c.choices[0].text, c.choices[0].finishReason.Some?)))
  }

  // ---------------------------------------------------------------------------------------------
  // Log probabilities

  const NO_LOGPROBS := Logprobs([], [], [], [])

  /** The log probabilities of the first choice, if any. */
  function FirstLogprobs(c: Completion): Logprobs {
    if c.choices != [] && c.choices[0].logprobs.Some? then c.choices[0].logprobs.value else NO_LOGPROBS
  }

  function Tokens(c: Completion): seq<string> { FirstLogprobs(c).tokens }
  function TokenLogprobs(c: Completion): seq<real> { FirstLogprobs(c).tokenLogprobs }
  function TopLogprobs(c: Completion): seq<map<string, real>> { FirstLogprobs(c).topLogprobs }
  function TextOffsets(c: Completion): seq<nat> { FirstLogprobs(c).textOffset }

  function AllLogprobs(cs: seq<Completion>): Logprobs {
    Logprobs(Collect(cs, Tokens), Collect(cs, TokenLogprobs), Collect(cs, TopLogprobs), Collect(cs, TextOffsets))
  }

  function Merged(cs: seq<Completion>): Option<Logprobs> {
    if AllLogprobs(cs) == NO_LOGPROBS then None else Some(AllLogprobs(cs))
  }

  function OrNone(l: Option<Logprobs>): Logprobs {
    if l.Some? then l.value else NO_LOGPROBS
  }

  method MergeLogprobs(completions: seq<Completion>) returns (merged: Option<Logprobs>)
    ensures merged == Merged(completions)
    ensures merged.None? <==> forall c :: c in completions ==> FirstLogprobs(c) == NO_LOGPROBS
  {
    var all := NO_LOGPROBS;
    for k := 0 to |completions|
      invariant all == AllLogprobs(completions[..k])
      invariant all == NO_LOGPROBS <==> forall j :: 0 <= j < k ==> FirstLogprobs(completions[j]) == NO_LOGPROBS
    {
      assert completions[..k + 1][..k] == completions[..k];
      var completion := completions[k];
      if completion.choices != [] && completion.choices[0].logprobs.Some? {
        var l := completion.choices[0].logprobs.value;
        all := Logprobs(all.tokens + l.tokens, all.tokenLogprobs + l.tokenLogprobs,
                        all.topLogprobs + l.topLogprobs, all.textOffset + l.textOffset);
      }
    }
    assert completions[..|completions|] == completions;
    merged := if all.tokens != [] || all.tokenLogprobs != [] || all.topLogprobs != [] || all.textOffset != []
              then Some(all) else None;
  }

  /** The log probabilities a message has to contribute: those of its first choice. */
  ghost predicate Contributes(c: Completion, l: Logprobs) {
    if c.choices != [] && c.choices[0].logprobs.Some? then l == c.choices[0].logprobs.value
    else l.tokens == [] && l.tokenLogprobs == [] && l.topLogprobs == [] && l.textOffset == []
  }

  /** The merged columns, message by message. Each column is the concatenation, in order, of the same column of the
      messages' first choices, and the merge is absent exactly if all four columns are empty. */
  lemma MergedColumns(cs: seq<Completion>) returns (parts: seq<Logprobs>)
    ensures |parts| == |cs| && forall i :: 0 <= i < |cs| ==> Contributes(cs[i], parts[i])
    ensures var tokens := Flatten(seq(|parts|, i requires 0 <= i < |parts| => parts[i].tokens));
            var tokenLogprobs := Flatten(seq(|parts|, i requires 0 <= i < |parts| => parts[i].tokenLogprobs));
            var topLogprobs := Flatten(seq(|parts|, i requires 0 <= i < |parts| => parts[i].topLogprobs));
            var textOffset := Flatten(seq(|parts|, i requires 0 <= i < |parts| => parts[i].textOffset));
            Merged(cs) == if tokens == [] && tokenLogprobs == [] && topLogprobs == [] && textOffset == [] then None
                          else Some(Logprobs(tokens, tokenLogprobs, topLogprobs, textOffset))
  {
    parts := seq(|cs|, i requires 0 <= i < |cs| => FirstLogprobs(cs[i]));
    CollectIsFlatten(cs, Tokens, seq(|parts|, i requires 0 <= i < |parts| => parts[i].tokens));
    CollectIsFlatten(cs, TokenLogprobs, seq(|parts|, i requires 0 <= i < |parts| => parts[i].tokenLogprobs));
    CollectIsFlatten(cs, TopLogprobs, seq(|parts|, i requires 0 <= i < |parts| => parts[i].topLogprobs));
    CollectIsFlatten(cs, TextOffsets, seq(|parts|, i requires 0 <= i < |parts| => parts[i].textOffset));
  }

  /** The logprobs of consecutive batches, concatenated. */
  function BatchwiseLogprobs(m: map<nat, Completion>, ranges: seq<(nat, nat)>): Logprobs {
    if ranges == [] then NO_LOGPROBS
    else
      var first, rest := OrNone(Merged(Range(m, ranges[0].0, ranges[0].1 + 1))), BatchwiseLogprobs(m, ranges[1..]);
      Logprobs(first.tokens + rest.tokens, first.tokenLogprobs + rest.tokenLogprobs,
               first.topLogprobs + rest.topLogprobs, first.textOffset + rest.textOffset)
  }

  lemma {:induction false} BatchwiseColumns(m: map<nat, Completion>, ranges: seq<(nat, nat)>)
    ensures BatchwiseLogprobs(m, ranges)
         == Logprobs(CollectRanges(m, ranges, Tokens), CollectRanges(m, ranges, TokenLogprobs),
                     CollectRanges(m, ranges, TopLogprobs), CollectRanges(m, ranges, TextOffsets))
  {
    if ranges != [] {
      BatchwiseColumns(m, ranges[1..]);
    }
  }

  /** If a choice's batches cover its stored messages with consecutive ranges, the logprobs of the batches
      add up to those of the whole choice. */
  lemma BatchLogprobsAddUp(m: map<nat, Completion>, ranges: seq<(nat, nat)>)
    requires Tiles(m, ranges, 0)
    ensures BatchwiseLogprobs(m, ranges) == OrNone(Merged(Values(m)))
  {
    BatchwiseColumns(m, ranges);
    TilesCollectEverything(m, ranges, Tokens);
    TilesCollectEverything(m, ranges, TokenLogprobs);
    TilesCollectEverything(m, ranges, TopLogprobs);
    TilesCollectEverything(m, ranges, TextOffsets);
  }

  // ---------------------------------------------------------------------------------------------
  // Responses

  datatype Outcome<T> = Built(completion: T) | Refused(error: string) | Panicked

  function WithDetections(c: Completion, choice: nat, chunk: Chunk, detections: seq<Detection>, logprobs: Option<Logprobs>)
    : Completion
    requires c.choices != []
  {
    c.(choices := c.choices[0 := c.choices[0].(text := chunk.text, logprobs := logprobs)],
       warnings := if detections != [] then [UnsuitableOutput] else c.warnings,
       detections := Some(CompletionDetections([], [OutputDetections(choice, detections)])))
  }

  /** Builds the response for a batch. The entry of the choice is unwrapped, an inverted range is a panic,
      and so is a stored completion without a choice. */
  function OutputDetectionResponse(store: Store<Completion>, choice: nat, chunk: Chunk, detections: seq<Detection>): Outcome<Completion> {
    if choice !in store.completions || chunk.inputStartIndex > chunk.inputEndIndex then Panicked
    else
      var found := Range(store.completions[choice], chunk.inputStartIndex, chunk.inputEndIndex + 1);
      if found == [] then Refused("no completions found for chunk")
      else if found[|found| - 1].choices == [] then Panicked
      else Built(WithDetections(found[|found| - 1], choice, chunk, detections, Merged(found)))
  }

  /** Stored completions have a first choice, which is the one they are stored under. */
  ghost predicate WellStored(store: Store<Completion>) {
    forall c, i :: c in store.completions && i in store.completions[c] ==>
      store.completions[c][i].choices != [] && store.completions[c][i].choices[0].index == c
  }

  lemma RecordedMeansWellStored(world: World<Completion>, bound: nat)
    requires Recorded(CompletionView, world, bound)
    ensures WellStored(world.store)
  {
  }

  /** What r takes from the stored completion, and what it takes from the batch. */
  ghost predicate BuiltFrom(r: Completion, stored: Completion, choice: nat, chunk: Chunk, detections: seq<Detection>) {
    && r.id == stored.id && r.created == stored.created && r.model == stored.model && r.usage == stored.usage
    && |r.choices| == |stored.choices| > 0
    && r.choices[1..] == stored.choices[1..]
    && r.choices[0].index == stored.choices[0].index
    && r.choices[0].finishReason == stored.choices[0].finishReason
    && r.choices[0].text == chunk.text
    && r.detections == Some(CompletionDetections([], [OutputDetections(choice, detections)]))
    && r.warnings == (if detections == [] then stored.warnings else [UnsuitableOutput])
  }

  /** When building a response panics, when it fails, and what it builds otherwise: it is built from the
      last completion in the chunk's range. */
  lemma ResponseOutcome(store: Store<Completion>, choice: nat, chunk: Chunk, detections: seq<Detection>)
    requires WellStored(store)
    ensures var r := OutputDetectionResponse(store, choice, chunk, detections);
            var s, e := chunk.inputStartIndex, chunk.inputEndIndex;
            && (r.Panicked? <==> choice !in store.completions || s > e)
            && (r.Refused? <==> choice in store.completions && s <= e
                                && forall i :: s <= i <= e ==> i !in store.completions[choice])
            && (r.Refused? ==> r.error == "no completions found for chunk")
            && (r.Built? ==>
                  && r.completion.choices[0].logprobs == Merged(Range(store.completions[choice], s, e + 1))
                  && exists i: nat :: IsLastKeyIn(Of(store, choice), s, e + 1, i)
                                      && BuiltFrom(r.completion, Of(store, choice)[i], choice, chunk, detections))
  {
    if choice in store.completions && chunk.inputStartIndex <= chunk.inputEndIndex {
      var m, s, e := store.completions[choice], chunk.inputStartIndex, chunk.inputEndIndex + 1;
      LastKeyOrNone(m, s, e);
      if forall i :: s <= i < e ==> i !in m {
        RangeWithoutKeys(m, s, e);
      } else {
        var i: nat :| IsLastKeyIn(m, s, e, i);
        assert IsLastKeyIn(Of(store, choice), chunk.inputStartIndex, chunk.inputEndIndex + 1, i);
        RangeEndsAtItsLastKey(m, s, e, i);
        assert BuiltFrom(OutputDetectionResponse(store, choice, chunk, detections).completion, m[i], choice, chunk, detections);
      }
    }
  }

  /** Record-before-send, as the consumer of the detection batches sees it. A chunk that ends with a message
      whose text was sent, and does not start after it, always gets a response; it is built from exactly
      that message; and it is the same response at every later moment of the producer's run. */
  lemma ResponseForSentTextIsDefinite(
      w: Wiring, stream: Upstream<Completion>, patience: nat, n: nat, m: nat,
      c: nat, chunk: Chunk, detections: seq<Detection>, text: string)
    requires w.recording && n <= m <= |AllActions(CompletionView, w, stream, patience)|
    requires SentText(Moment(CompletionView, w, stream, patience, n), c, chunk.inputEndIndex, text)
    requires chunk.inputStartIndex <= chunk.inputEndIndex
    ensures var now, later := Moment(CompletionView, w, stream, patience, n).store,
                              Moment(CompletionView, w, stream, patience, m).store;
            && OutputDetectionResponse(now, c, chunk, detections).Built?
            && chunk.inputEndIndex in Of(now, c)
            && BuiltFrom(OutputDetectionResponse(now, c, chunk, detections).completion,
                         Of(now, c)[chunk.inputEndIndex], c, chunk, detections)
            && CompletionView(Of(now, c)[chunk.inputEndIndex]).choice.value.text == text
            && OutputDetectionResponse(later, c, chunk, detections) == OutputDetectionResponse(now, c, chunk, detections)
  {
    var s, e := chunk.inputStartIndex, chunk.inputEndIndex;
    var now, later := Moment(CompletionView, w, stream, patience, n), Moment(CompletionView, w, stream, patience, m);
    RecordBeforeSend(CompletionView, w, stream, patience, n);
    RecordedMeansWellStored(now, |stream|);
    EntriesUpToSentTextAreFinal(CompletionView, w, stream, patience, n, m, c, e, text, s);
    assert StoredText(CompletionView, now.store, c, e, text);
    RangeEndsAtItsLastKey(Of(now.store, c), s, e + 1, e);
  }

  /** The item is not a message about choice c. */
  predicate NotAbout(item: Result<Option<Completion>, string>, c: nat) {
    IsMessage(item) && CompletionView(item.value.value).choice.Some? ==>
      CompletionView(item.value.value).choice.value.index != c
  }

  /** Nothing is stored for choice c, and no text was sent to it. */
  ghost predicate Silent(world: World<Completion>, c: nat) {
    c !in world.store.completions && c in world.inputs && Texts(world.inputs[c]) == []
  }

  ghost predicate NeverAbout(stream: Upstream<Completion>, c: nat) {
    forall k :: 0 <= k < |stream| ==> NotAbout(stream[k], c)
  }

  /** The action neither stores anything for choice c nor sends it a text. */
  predicate QuietAction(a: Action<Completion>, c: nat) {
    (a.Insert? ==> a.choice != c) && (a.Send? ==> a.choice != c) && !a.SendEmpty?
  }

  ghost predicate Quiet(acts: seq<Action<Completion>>, c: nat) {
    forall k :: 0 <= k < |acts| ==> QuietAction(acts[k], c)
  }

  /** The last action sends choice c the empty text, and the ones before are quiet about it. */
  ghost predicate QuietUntilTheLast(acts: seq<Action<Completion>>, c: nat) {
    && acts != [] && acts[|acts| - 1].SendEmpty? && c in acts[|acts| - 1].choices
    && forall k :: 0 <= k < |acts| - 1 ==> QuietAction(acts[k], c)
  }

  lemma {:induction false} QuietActionsKeepSilence(world: World<Completion>, acts: seq<Action<Completion>>, c: nat)
    requires Quiet(acts, c) && Silent(world, c)
    ensures Silent(Replay(world, acts), c)
    decreases |acts|
  {
    if acts != [] {
      if acts[0].SendError? {
        TextsAppend(world.inputs[c], Err(acts[0].error));
      }
      QuietActionsKeepSilence(Perform(world, acts[0]), acts[1..], c);
    }
  }

  lemma ChoiceIsQuiet(w: Wiring, i: nat, message: Completion, choice: ChoiceView, c: nat)
    requires choice.index != c
    ensures Quiet(ChoiceActions(w, i, message, choice), c)
  {
  }

  lemma MessageIsQuiet(w: Wiring, item: Result<Option<Completion>, string>, i: nat, c: nat)
    requires NotAbout(item, c)
    ensures Quiet(MessageActions(CompletionView, w, i, item), c)
  {
    MessageParts(CompletionView, w, i, item);
    if IsMessage(item) && CompletionView(item.value.value).choice.Some? {
      ChoiceIsQuiet(w, i, item.value.value, CompletionView(item.value.value).choice.value, c);
    }
    PreambleIsQuiet(w, item, i, c);
  }

  lemma PreambleIsQuiet(w: Wiring, item: Result<Option<Completion>, string>, i: nat, c: nat)
    ensures Quiet(Preamble(CompletionView, w, i, item), c)
  {
    MessageSendsNoEmptyText(CompletionView, w, i, item);
    MessageParts(CompletionView, w, i, item);
    var all, pre := MessageActions(CompletionView, w, i, item), Preamble(CompletionView, w, i, item);
    assert forall k :: 0 <= k < |pre| ==> pre[k] == all[k];
  }

  lemma NoNewData(w: Wiring, item: Result<Option<Completion>, string>, c: nat)
    requires NotAbout(item, c)
    ensures c !in NewData(CompletionView, w, item)
  {
  }

  /** On a stream that never mentions choice c, the producer is quiet about it until it sends the empty texts. */
  lemma {:induction false} QuietUntilTheEnd(w: Wiring, stream: Upstream<Completion>, i: nat, withData: set<nat>, patience: nat, c: nat)
    requires w.trailing && !w.forwarding && w.Feeds(c) && i <= |stream| && c !in withData && NeverAbout(stream, c)
    ensures QuietUntilTheLast(Actions(CompletionView, w, stream, i, withData, patience), c)
    decreases |stream| - i
  {
    if i < |stream| {
      assert NotAbout(stream[i], c);
      MessageIsQuiet(w, stream[i], i, c);
      NoNewData(w, stream[i], c);
      QuietUntilTheEnd(w, stream, i + 1, withData + NewData(CompletionView, w, stream[i]), Remaining(w, stream[i], patience), c);
    }
  }

  lemma EmptyTextEndsSilence(world: World<Completion>, all: seq<Action<Completion>>, c: nat)
    requires QuietUntilTheLast(all, c) && Silent(world, c)
    ensures var end := Replay(world, all);
            c in end.inputs && Texts(end.inputs[c]) == [(0, "")] && c !in end.store.completions
  {
    var init, last := all[..|all| - 1], all[|all| - 1];
    assert all == init + [last];
    ReplayLast(world, init, last);
    QuietActionsKeepSilence(world, init, c);
    TextsAppend(Replay(world, init).inputs[c], Ok((0, "")));
  }

  /** The empty text sent at the end is not backed by a record: for a choice the stream never mentioned, a
      chunk made from it makes the response builder panic. */
  lemma SilentChoiceMakesTheResponsePanic(
      w: Wiring, stream: Upstream<Completion>, c: nat, chunk: Chunk, detections: seq<Detection>)
    requires w.recording && w.trailing && !w.forwarding && w.Feeds(c) && NeverAbout(stream, c)
    ensures var end := Replay(Start<Completion>(w), AllActions(CompletionView, w, stream, 0));
            && c in end.inputs && Texts(end.inputs[c]) == [(0, "")]
            && OutputDetectionResponse(end.store, c, chunk, detections).Panicked?
  {
    QuietUntilTheEnd(w, stream, 0, {}, 0, c);
    EmptyTextEndsSilence(Start<Completion>(w), AllActions(CompletionView, w, stream, 0), c);
  }
}
