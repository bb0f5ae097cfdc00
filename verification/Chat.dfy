/** The messages of the chat completions endpoint and what is merged from them. */
module Chat {
  import opened Types
  import opened CompletionStates
  import opened Producers
  import opened ProducerProperties
  import opened Merging
  import opened Completions

  datatype Function = Function(name: string, arguments: string)

  datatype Custom = Custom(name: string, input: string)

  datatype ToolCall = ToolCall(
    index: Option<nat>, id: string, kind: string, func: Option<Function>, custom: Option<Custom>)

  datatype Logprob = Logprob(token: string, logprob: real)

  datatype ChatLogprobs = ChatLogprobs(content: seq<Logprob>, refusal: seq<Logprob>)

  datatype Role = System | User | Assistant | ToolRole

  datatype ChatChoice = ChatChoice(
    index: nat, role: Option<Role>, content: Option<string>, toolCalls: seq<ToolCall>,
    logprobs: Option<ChatLogprobs>, finishReason: Option<string>)

  datatype ChatChunk = ChatChunk(
    id: string, created: int, model: string, choices: seq<ChatChoice>, usage: Option<Usage>,
    detections: Option<CompletionDetections>, warnings: seq<Warning>)

  function ChatView(c: ChatChunk): View {
    View(Metadata(c.id, c.created, c.model), c.usage,
         if c.choices == [] then None
         else Some(ChoiceView(c.choices[0].index,
                              if c.choices[0].content.Some? then c.choices[0].content.value else "",
                              c.choices[0].finishReason.Some?)))
  }

  // ---------------------------------------------------------------------------------------------
  // Content and log probabilities

  function ContentOf(c: ChatChunk): string {
    if c.choices != [] && c.choices[0].content.Some? then c.choices[0].content.value else ""
  }

  function MergeContent(chunks: seq<ChatChunk>): Option<string> {
    var text := Collect(chunks, ContentOf);
    if text != "" then Some(text) else None
  }

  lemma {:induction false} StoredTextsAreContents(chunks: seq<ChatChunk>)
    ensures StoredTexts(ChatView, chunks) == Collect(chunks, ContentOf)
    decreases |chunks|
  {
    if chunks != [] {
      StoredTextsAreContents(chunks[..|chunks| - 1]);
    }
  }

  /** For chat, too, the texts sent to the chunker for a choice add up to the content the whole-document
      detectors get; nothing is sent for a choice without text. */
  lemma ChatPathsSeeTheSameText(w: Wiring, stream: Upstream<ChatChunk>, patience: nat, c: nat)
    requires w.recording && !w.trailing && w.Feeds(c)
    ensures var end := Replay(Start<ChatChunk>(w), AllActions(ChatView, w, stream, patience));
            && c in end.inputs
            && NonEmptyAscending(Texts(end.inputs[c]))
            && MergeContent(Values(Of(end.store, c)))
               == (if Texts(end.inputs[c]) == [] then None else Some(Concat(Texts(end.inputs[c]))))
  {
    BothPathsSeeTheSameText(ChatView, w, stream, patience, c);
    var end := Replay(Start<ChatChunk>(w), AllActions(ChatView, w, stream, patience));
    StoredTextsAreContents(Values(Of(end.store, c)));
    NonEmptyTextsConcatNonEmpty(Texts(end.inputs[c]));
  }

  lemma NonEmptyTextsConcatNonEmpty(texts: seq<(nat, string)>)
    requires NonEmptyAscending(texts)
    ensures Concat(texts) == "" <==> texts == []
  {
    if texts != [] {
      assert texts[|texts| - 1].1 != "";
    }
  }

  const NO_CHAT_LOGPROBS := ChatLogprobs([], [])

  function FirstChatLogprobs(c: ChatChunk): ChatLogprobs {
    if c.choices != [] && c.choices[0].logprobs.Some? then c.choices[0].logprobs.value else NO_CHAT_LOGPROBS
  }

  function ContentLogprobs(c: ChatChunk): seq<Logprob> { FirstChatLogprobs(c).content }
  function RefusalLogprobs(c: ChatChunk): seq<Logprob> { FirstChatLogprobs(c).refusal }

  function MergedChatLogprobs(cs: seq<ChatChunk>): Option<ChatLogprobs> {
    var content, refusal := Collect(cs, ContentLogprobs), Collect(cs, RefusalLogprobs);
    if content != [] || refusal != [] then Some(ChatLogprobs(content, refusal)) else None
  }

  method MergeChatLogprobs(chunks: seq<ChatChunk>) returns (merged: Option<ChatLogprobs>)
    ensures merged == MergedChatLogprobs(chunks)
  {
    var content: seq<Logprob>, refusal: seq<Logprob> := [], [];
    for k := 0 to |chunks|
      invariant content == Collect(chunks[..k], ContentLogprobs)
      invariant refusal == Collect(chunks[..k], RefusalLogprobs)
    {
      assert chunks[..k + 1][..k] == chunks[..k];
      if chunks[k].choices != [] && chunks[k].choices[0].logprobs.Some? {
        var l := chunks[k].choices[0].logprobs.value;
        content, refusal := content + l.content, refusal + l.refusal;
      }
    }
    assert chunks[..|chunks|] == chunks;
    merged := if content != [] || refusal != [] then Some(ChatLogprobs(content, refusal)) else None;
  }

  /** The merge is absent exactly if no chunk carries a log probability of either kind. */
  lemma {:induction false} ChatLogprobsAreAbsentIffAllAreEmpty(chunks: seq<ChatChunk>)
    ensures MergedChatLogprobs(chunks).None? <==> forall c | c in chunks :: FirstChatLogprobs(c) == NO_CHAT_LOGPROBS
    decreases |chunks|
  {
    if chunks != [] {
      var init, last := chunks[..|chunks| - 1], chunks[|chunks| - 1];
      ChatLogprobsAreAbsentIffAllAreEmpty(init);
      assert chunks == init + [last];
    }
  }

  /** The log probabilities a chunk has to contribute: those of its first choice. */
  ghost predicate ChatContributes(c: ChatChunk, l: ChatLogprobs) {
    if c.choices != [] && c.choices[0].logprobs.Some? then l == c.choices[0].logprobs.value
    else l.content == [] && l.refusal == []
  }

  /** Both merged columns, chunk by chunk; the merge is absent exactly if both are empty. */
  lemma MergedChatColumns(cs: seq<ChatChunk>) returns (parts: seq<ChatLogprobs>)
    ensures |parts| == |cs| && forall i :: 0 <= i < |cs| ==> ChatContributes(cs[i], parts[i])
    ensures var content := Flatten(seq(|parts|, i requires 0 <= i < |parts| => parts[i].content));
            var refusal := Flatten(seq(|parts|, i requires 0 <= i < |parts| => parts[i].refusal));
            MergedChatLogprobs(cs) == if content == [] && refusal == [] then None else Some(ChatLogprobs(content, refusal))
  {
    parts := seq(|cs|, i requires 0 <= i < |cs| => FirstChatLogprobs(cs[i]));
    CollectIsFlatten(cs, ContentLogprobs, seq(|parts|, i requires 0 <= i < |parts| => parts[i].content));
    CollectIsFlatten(cs, RefusalLogprobs, seq(|parts|, i requires 0 <= i < |parts| => parts[i].refusal));
  }

  /** The merged logprobs of consecutive batches, concatenated. */
  function BatchwiseChatLogprobs(m: map<nat, ChatChunk>, ranges: seq<(nat, nat)>): ChatLogprobs {
    if ranges == [] then NO_CHAT_LOGPROBS
    else
      var merged := MergedChatLogprobs(Range(m, ranges[0].0, ranges[0].1 + 1));
      var first := if merged.Some? then merged.value else NO_CHAT_LOGPROBS;
      var rest := BatchwiseChatLogprobs(m, ranges[1..]);
      ChatLogprobs(first.content + rest.content, first.refusal + rest.refusal)
  }

  lemma {:induction false} BatchwiseChatColumns(m: map<nat, ChatChunk>, ranges: seq<(nat, nat)>)
    ensures BatchwiseChatLogprobs(m, ranges)
         == ChatLogprobs(CollectRanges(m, ranges, ContentLogprobs), CollectRanges(m, ranges, RefusalLogprobs))
  {
    if ranges != [] {
      BatchwiseChatColumns(m, ranges[1..]);
    }
  }

  /** If a choice's batches cover its stored chunks with consecutive ranges, their merged logprobs add up to
      those of the whole choice, and are absent altogether exactly if the whole choice has none. */
  lemma ChatBatchLogprobsAddUp(m: map<nat, ChatChunk>, ranges: seq<(nat, nat)>)
    requires Tiles(m, ranges, 0)
    ensures MergedChatLogprobs(Values(m))
         == if BatchwiseChatLogprobs(m, ranges) == NO_CHAT_LOGPROBS then None else Some(BatchwiseChatLogprobs(m, ranges))
  {
    BatchwiseChatColumns(m, ranges);
    TilesCollectEverything(m, ranges, ContentLogprobs);
    TilesCollectEverything(m, ranges, RefusalLogprobs);
  }

  // ---------------------------------------------------------------------------------------------
  // Responses

  function WithChatDetections(
      c: ChatChunk, choice: nat, chunk: Chunk, detections: seq<Detection>, logprobs: Option<ChatLogprobs>): ChatChunk
    requires c.choices != []
  {
    c.(choices := c.choices[0 := c.choices[0].(role := Some(Assistant), content := Some(chunk.text), logprobs := logprobs)],
       warnings := if detections != [] then [UnsuitableOutput] else c.warnings,
       detections := Some(CompletionDetections([], [OutputDetections(choice, detections)])))
  }

  /** Builds the response for a batch from the state at the moment the wait for the choice's entry ends, by its
      appearance or by the timeout. An inverted range is a panic, as is a stored chunk without a choice. */
  function ChatResponse(store: Store<ChatChunk>, choice: nat, chunk: Chunk, detections: seq<Detection>): Outcome<ChatChunk> {
    if choice !in store.completions then Refused("completion entry not ready after timeout")
    else if chunk.inputStartIndex > chunk.inputEndIndex then Panicked
    else
      var found := Range(store.completions[choice], chunk.inputStartIndex, chunk.inputEndIndex + 1);
      if found == [] then Refused("no chat completions found for chunk")
      else if found[|found| - 1].choices == [] then Panicked
      else Built(WithChatDetections(found[|found| - 1], choice, chunk, detections, MergedChatLogprobs(found)))
  }

  /** What r takes from the stored chunk, and what it takes from the batch. */
  ghost predicate ChatBuiltFrom(r: ChatChunk, stored: ChatChunk, choice: nat, chunk: Chunk, detections: seq<Detection>) {
    && r.id == stored.id && r.created == stored.created && r.model == stored.model && r.usage == stored.usage
    && |r.choices| == |stored.choices| > 0
    && r.choices[1..] == stored.choices[1..]
    && r.choices[0].index == stored.choices[0].index
    && r.choices[0].finishReason == stored.choices[0].finishReason
    && r.choices[0].toolCalls == stored.choices[0].toolCalls
    && r.choices[0].role == Some(Assistant) && r.choices[0].content == Some(chunk.text)
    && r.detections == Some(CompletionDetections([], [OutputDetections(choice, detections)]))
    && r.warnings == (if detections == [] then stored.warnings else [UnsuitableOutput])
  }

  /** When a chat response is refused, because nothing was ever stored for the choice or nothing in the chunk's range; when
      building it panics; and what it is built from otherwise: the last chunk in the range. */
  lemma ChatResponseOutcome(store: Store<ChatChunk>, choice: nat, chunk: Chunk, detections: seq<Detection>)
    requires forall i :: i in Of(store, choice) ==> Of(store, choice)[i].choices != []
    ensures var r := ChatResponse(store, choice, chunk, detections);
            var s, e := chunk.inputStartIndex, chunk.inputEndIndex;
            && (r.Panicked? <==> choice in store.completions && s > e)
            && (r.Refused? <==> choice !in store.completions
                                || (s <= e && forall i :: s <= i <= e ==> i !in store.completions[choice]))
            && (r.Built? ==>
                  && r.completion.choices != []
                  && r.completion.choices[0].logprobs == MergedChatLogprobs(Range(store.completions[choice], s, e + 1))
                  && exists i: nat :: IsLastKeyIn(Of(store, choice), s, e + 1, i)
                                      && ChatBuiltFrom(r.completion, Of(store, choice)[i], choice, chunk, detections))
  {
    if choice in store.completions && chunk.inputStartIndex <= chunk.inputEndIndex {
      var m, s, e := store.completions[choice], chunk.inputStartIndex, chunk.inputEndIndex + 1;
      LastKeyOrNone(m, s, e);
      if forall i :: s <= i < e ==> i !in m {
        RangeWithoutKeys(m, s, e);
      } else {
        var i: nat :| IsLastKeyIn(m, s, e, i);
        assert IsLastKeyIn(Of(store, choice), chunk.inputStartIndex, chunk.inputEndIndex + 1, i);
        RangeEndsAtItsLastKey(m, s, e, i);
        assert ChatBuiltFrom(ChatResponse(store, choice, chunk, detections).completion, m[i], choice, chunk, detections);
      }
    }
  }

  /** Record-before-send for chat: a batch whose chunk ends with a message whose text was sent, and does not start
      after it, never waits, fails or panics. Its response is built from exactly that message, and is the same
      at every later moment of the producer's run. */
  lemma ChatResponseForSentTextIsDefinite(
      w: Wiring, stream: Upstream<ChatChunk>, patience: nat, n: nat, m: nat,
      c: nat, chunk: Chunk, detections: seq<Detection>, text: string)
    requires w.recording && n <= m <= |AllActions(ChatView, w, stream, patience)|
    requires SentText(Moment(ChatView, w, stream, patience, n), c, chunk.inputEndIndex, text)
    requires chunk.inputStartIndex <= chunk.inputEndIndex
    ensures var now, later := Moment(ChatView, w, stream, patience, n).store, Moment(ChatView, w, stream, patience, m).store;
            && ChatResponse(now, c, chunk, detections).Built?
            && chunk.inputEndIndex in Of(now, c)
            && ChatBuiltFrom(ChatResponse(now, c, chunk, detections).completion,
                             Of(now, c)[chunk.inputEndIndex], c, chunk, detections)
            && ContentOf(Of(now, c)[chunk.inputEndIndex]) == text
            && ChatResponse(later, c, chunk, detections) == ChatResponse(now, c, chunk, detections)
  {
    var s, e := chunk.inputStartIndex, chunk.inputEndIndex;
    var now, later := Moment(ChatView, w, stream, patience, n), Moment(ChatView, w, stream, patience, m);
    RecordBeforeSend(ChatView, w, stream, patience, n);
    EntriesUpToSentTextAreFinal(ChatView, w, stream, patience, n, m, c, e, text, s);
    assert StoredText(ChatView, now.store, c, e, text);
    RangeEndsAtItsLastKey(Of(now.store, c), s, e + 1, e);
  }
}
