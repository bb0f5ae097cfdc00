/** The outcome of processing a stream, in terms of the fields of its messages, for both endpoints. */
module StreamedMessages {
  import opened Types
  import opened CompletionStates
  import opened Producers
  import opened ProducerProperties
  import opened ProducerOutcome
  import opened Completions
  import opened Chat

  // ---------------------------------------------------------------------------------------------
  // Completions

  /** What the first k items put on the input channel of choice c. */
  function CompletionChannel(stream: Upstream<Completion>, k: nat, c: nat): seq<Input>
    requires k <= |stream|
  {
    if k == 0 then []
    else
      var before := CompletionChannel(stream, k - 1, c);
      match stream[k - 1]
      case Err(e) => before + [Err(e)]
      case Ok(None) => before
      case Ok(Some(m)) =>
        if m.choices != [] && m.choices[0].index == c && m.choices[0].text != "" then before + [Ok((k - 1, m.choices[0].text))]
        else before
  }

  predicate FirstChoiceIs(item: Result<Option<Completion>, string>, c: nat) {
    item.Ok? && item.value.Some? && item.value.value.choices != [] && item.value.value.choices[0].index == c
  }

  ghost predicate UsageMessage(item: Result<Option<Completion>, string>) {
    item.Ok? && item.value.Some? && item.value.value.usage.Some? && item.value.value.choices == []
  }

  /** The state after the first k items: messages under their choice and index, the identity of the first item unless that
      is an error, the end marker or a usage message, and the usage of the first usage message. */
  ghost predicate StoresCompletions(store: Store<Completion>, stream: Upstream<Completion>, k: nat)
    requires k <= |stream|
  {
    && (forall c: nat, j: nat :: CompletionStoredAt(store, stream, k, c, j))
    && store.metadata == IdentityOf(stream, k)
    && (store.usage.None? ==> forall j :: 0 <= j < k ==> !UsageMessage(stream[j]))
    && (store.usage.Some? ==>
          exists j :: 0 <= j < k && UsageMessage(stream[j]) && stream[j].value.value.usage == store.usage
                      && forall l :: 0 <= l < j ==> !UsageMessage(stream[l]))
  }

  ghost predicate CompletionStoredAt(store: Store<Completion>, stream: Upstream<Completion>, k: nat, c: nat, j: nat)
    requires k <= |stream|
  {
    if j < k && FirstChoiceIs(stream[j], c)
    then c in store.completions && j in store.completions[c] && store.completions[c][j] == stream[j].value.value
    else c in store.completions ==> j !in store.completions[c]
  }

  ghost function IdentityOf(stream: Upstream<Completion>, k: nat): Option<Metadata>
    requires k <= |stream|
  {
    if k == 0 || stream[0].Err? || stream[0].value.None? || UsageMessage(stream[0]) then None
    else
      var m := stream[0].value.value;
      Some(Metadata(m.id, m.created, m.model))
  }

  /** A message finished one of these choices without text. */
  ghost predicate FinishesEmpty(item: Result<Option<Completion>, string>, choices: set<nat>) {
    && item.Ok? && item.value.Some? && item.value.value.choices != []
    && var choice := item.value.value.choices[0];
    && choice.index in choices && choice.text == "" && choice.finishReason.Some?
  }

  ghost predicate SomeText(stream: Upstream<Completion>, k: nat, c: nat)
    requires k <= |stream|
  {
    exists j :: 0 <= j < k && FirstChoiceIs(stream[j], c) && stream[j].value.value.choices[0].text != ""
  }

  lemma {:induction false} CompletionChannelsAgree(stream: Upstream<Completion>, k: nat, c: nat)
    requires k <= |stream|
    ensures Channel(CompletionView, stream, k, c) == CompletionChannel(stream, k, c)
  {
    if k > 0 {
      CompletionChannelsAgree(stream, k - 1, c);
    }
  }

  lemma SomeTextIsHasText(stream: Upstream<Completion>, k: nat, c: nat)
    requires k <= |stream|
    ensures HasText(CompletionView, stream, k, c) <==> SomeText(stream, k, c)
  {
    forall j | 0 <= j < k
      ensures TextIn(CompletionView, stream[j], c) != "" <==>
                FirstChoiceIs(stream[j], c) && stream[j].value.value.choices[0].text != ""
    {
    }
  }

  lemma CompletionsAreStored(store: Store<Completion>, stream: Upstream<Completion>, k: nat)
    requires k <= |stream| && HoldsTheMessages(CompletionView, store, stream, k)
    requires HoldsTheMetadata(CompletionView, store, stream, k) && IsFirstUsage(CompletionView, stream, k, store.usage)
    ensures StoresCompletions(store, stream, k)
  {
    forall c: nat, j: nat
      ensures CompletionStoredAt(store, stream, k, c, j)
    {
      assert EntryIsItsMessage(CompletionView, store, stream, k, c, j);
    }
    forall j | 0 <= j < k
      ensures CarriesUsage(CompletionView, stream[j]) <==> UsageMessage(stream[j])
    {
    }
    if store.usage.Some? {
      var j :| 0 <= j < k && CarriesUsage(CompletionView, stream[j])
               && CompletionView(stream[j].value.value).usage == store.usage
               && forall l :: 0 <= l < j ==> !CarriesUsage(CompletionView, stream[l]);
      assert UsageMessage(stream[j]);
    }
  }

  lemma FlagMeansEmptyFinish(w: Wiring, stream: Upstream<Completion>, k: nat)
    requires k <= |stream| && w.trailing && w.inputs.Some?
    ensures (exists j :: 0 <= j < k && EndsEmpty(CompletionView, w, stream[j]))
       <==> (exists j :: 0 <= j < k && FinishesEmpty(stream[j], w.inputs.value))
  {
    forall j | 0 <= j < k
      ensures EndsEmpty(CompletionView, w, stream[j]) <==> FinishesEmpty(stream[j], w.inputs.value)
    {
    }
  }

  /** The completions pipeline feeds, stores and flags what the messages say. On every channel stand the errors of the
      stream and the texts of the choice in the order of the items; a choice without any text gets one empty text at the
      end. */
  lemma CompletionsPipelineOutcome(choices: set<nat>, stream: Upstream<Completion>, patience: nat)
    ensures var w := Wiring(true, Some(choices), false, true);
            var end := Replay(Start<Completion>(w), AllActions(CompletionView, w, stream, patience));
            && end.inputs.Keys == choices
            && (forall c :: c in choices ==>
                  end.inputs[c] == CompletionChannel(stream, |stream|, c)
                                   + if SomeText(stream, |stream|, c) then [] else [Ok((0, ""))])
            && StoresCompletions(end.store, stream, |stream|)
            && (end.flagged <==> exists j :: 0 <= j < |stream| && FinishesEmpty(stream[j], choices))
  {
    var w := Wiring(true, Some(choices), false, true);
    var end := Replay(Start<Completion>(w), AllActions(CompletionView, w, stream, patience));
    StreamDeterminesTheOutcome(CompletionView, w, stream, patience);
    AllItemsAreHandled(w, stream, 0, patience);
    CompletionsAreStored(end.store, stream, |stream|);
    FlagMeansEmptyFinish(w, stream, |stream|);
    forall c | c in choices
      ensures Channel(CompletionView, stream, |stream|, c) == CompletionChannel(stream, |stream|, c)
      ensures HasText(CompletionView, stream, |stream|, c) <==> SomeText(stream, |stream|, c)
    {
      CompletionChannelsAgree(stream, |stream|, c);
      SomeTextIsHasText(stream, |stream|, c);
    }
  }

  // ---------------------------------------------------------------------------------------------
  // Chat

  function ChatChannel(stream: Upstream<ChatChunk>, k: nat, c: nat): seq<Input>
    requires k <= |stream|
  {
    if k == 0 then []
    else
      var before := ChatChannel(stream, k - 1, c);
      match stream[k - 1]
      case Err(e) => before + [Err(e)]
      case Ok(None) => before
      case Ok(Some(m)) =>
        if m.choices != [] && m.choices[0].index == c && m.choices[0].content.Some? && m.choices[0].content.value != ""
        then before + [Ok((k - 1, m.choices[0].content.value))]
        else before
  }

  ghost predicate ChatStoredAt(store: Store<ChatChunk>, stream: Upstream<ChatChunk>, c: nat, j: nat) {
    if j < |stream| && stream[j].Ok? && stream[j].value.Some? && stream[j].value.value.choices != []
       && stream[j].value.value.choices[0].index == c
    then c in store.completions && j in store.completions[c] && store.completions[c][j] == stream[j].value.value
    else c in store.completions ==> j !in store.completions[c]
  }

  ghost predicate ChatUsageMessage(item: Result<Option<ChatChunk>, string>) {
    item.Ok? && item.value.Some? && item.value.value.usage.Some? && item.value.value.choices == []
  }

  ghost function ChatIdentityOf(stream: Upstream<ChatChunk>): Option<Metadata> {
    if stream == [] || stream[0].Err? || stream[0].value.None? || ChatUsageMessage(stream[0]) then None
    else
      var m := stream[0].value.value;
      Some(Metadata(m.id, m.created, m.model))
  }

  lemma ChatUsageIsFirst(stream: Upstream<ChatChunk>, usage: Option<Usage>)
    requires IsFirstUsage(ChatView, stream, |stream|, usage)
    ensures usage.None? ==> forall j :: 0 <= j < |stream| ==> !ChatUsageMessage(stream[j])
    ensures usage.Some? ==>
              exists j :: 0 <= j < |stream| && ChatUsageMessage(stream[j]) && stream[j].value.value.usage == usage
                          && forall l :: 0 <= l < j ==> !ChatUsageMessage(stream[l])
  {
    forall j | 0 <= j < |stream|
      ensures CarriesUsage(ChatView, stream[j]) <==> ChatUsageMessage(stream[j])
    {
    }
    if usage.Some? {
      var j :| 0 <= j < |stream| && CarriesUsage(ChatView, stream[j]) && ChatView(stream[j].value.value).usage == usage
               && forall l :: 0 <= l < j ==> !CarriesUsage(ChatView, stream[l]);
      assert ChatUsageMessage(stream[j]);
    }
  }

  lemma {:induction false} ChatChannelsAgree(stream: Upstream<ChatChunk>, k: nat, c: nat)
    requires k <= |stream|
    ensures Channel(ChatView, stream, k, c) == ChatChannel(stream, k, c)
  {
    if k > 0 {
      ChatChannelsAgree(stream, k - 1, c);
    }
  }

  /** The same for the chat pipeline, which sends no empty texts. */
  lemma ChatPipelineOutcome(choices: set<nat>, stream: Upstream<ChatChunk>, patience: nat)
    ensures var w := Wiring(true, Some(choices), false, false);
            var end := Replay(Start<ChatChunk>(w), AllActions(ChatView, w, stream, patience));
            && end.inputs.Keys == choices
            && (forall c :: c in choices ==> end.inputs[c] == ChatChannel(stream, |stream|, c))
            && (forall c: nat, j: nat :: ChatStoredAt(end.store, stream, c, j))
            && end.store.metadata == ChatIdentityOf(stream)
            && (end.store.usage.None? ==> forall j :: 0 <= j < |stream| ==> !ChatUsageMessage(stream[j]))
            && (end.store.usage.Some? ==>
                  exists j :: 0 <= j < |stream| && ChatUsageMessage(stream[j]) && stream[j].value.value.usage == end.store.usage
                              && forall l :: 0 <= l < j ==> !ChatUsageMessage(stream[l]))
            && !end.flagged
  {
    var w := Wiring(true, Some(choices), false, false);
    var end := Replay(Start<ChatChunk>(w), AllActions(ChatView, w, stream, patience));
    StreamDeterminesTheOutcome(ChatView, w, stream, patience);
    AllItemsAreHandled(w, stream, 0, patience);
    forall c | c in choices
      ensures Channel(ChatView, stream, |stream|, c) == ChatChannel(stream, |stream|, c)
    {
      ChatChannelsAgree(stream, |stream|, c);
    }
    ChatUsageIsFirst(stream, end.store.usage);
    forall c: nat, j: nat
      ensures ChatStoredAt(end.store, stream, c, j)
    {
      assert EntryIsItsMessage(ChatView, end.store, stream, |stream|, c, j);
    }
  }
}
