/** What the producer has recorded, fed and flagged in the end, read off the stream item by item. */
module ProducerOutcome {
  import opened Types
  import opened CompletionStates
  import opened Producers
  import opened ProducerProperties

  /** How many items the producer handles: all, or those before the first message that finds the client gone. */
  function Handled<T>(w: Wiring, stream: Upstream<T>, i: nat, patience: nat): (k: nat)
    requires i <= |stream|
    ensures i <= k <= |stream|
    decreases |stream| - i
  {
    if i == |stream| || HungUp(w, stream[i], patience) then i
    else Handled(w, stream, i + 1, Remaining(w, stream[i], patience))
  }

  /** The i-th item is a message with a first choice, which has this index. */
  predicate IsAbout<T>(view: T -> View, item: Result<Option<T>, string>, c: nat) {
    IsMessage(item) && view(item.value.value).choice.Some? && view(item.value.value).choice.value.index == c
  }

  function TextIn<T>(view: T -> View, item: Result<Option<T>, string>, c: nat): string {
    if IsAbout(view, item, c) then view(item.value.value).choice.value.text else ""
  }

  /** What the first i items put on the input channel of choice c: every error, and every text of the choice with the
      index of its message, in the order of the items. */
  function Channel<T>(view: T -> View, stream: Upstream<T>, i: nat, c: nat): seq<Input>
    requires i <= |stream|
  {
    if i == 0 then []
    else
      var before, item := Channel(view, stream, i - 1, c), stream[i - 1];
      if item.Err? then before + [Err(item.error)]
      else if TextIn(view, item, c) != "" then before + [Ok((i - 1, TextIn(view, item, c)))]
      else before
  }

  predicate HasText<T>(view: T -> View, stream: Upstream<T>, i: nat, c: nat)
    requires i <= |stream|
  {
    exists j :: 0 <= j < i && TextIn(view, stream[j], c) != ""
  }

  predicate CarriesUsage<T>(view: T -> View, item: Result<Option<T>, string>) {
    IsMessage(item) && UsageOnly(view(item.value.value))
  }

  /** The usage of the first message with usage and no choice. */
  ghost predicate IsFirstUsage<T>(view: T -> View, stream: Upstream<T>, i: nat, usage: Option<Usage>)
    requires i <= |stream|
  {
    match usage
    case None => forall j :: 0 <= j < i ==> !CarriesUsage(view, stream[j])
    case Some(u) =>
      exists j :: 0 <= j < i && CarriesUsage(view, stream[j]) && view(stream[j].value.value).usage == Some(u)
                  && forall l :: 0 <= l < j ==> !CarriesUsage(view, stream[l])
  }

  /** The message finishes a choice that is fed, and has no text. */
  predicate EndsEmpty<T>(view: T -> View, w: Wiring, item: Result<Option<T>, string>) {
    && IsMessage(item) && view(item.value.value).choice.Some?
    && var choice := view(item.value.value).choice.value;
    && w.trailing && w.Feeds(choice.index) && choice.text == "" && choice.finished
  }

  /** Under choice c and index j stands the j-th message, if that is about the choice, and otherwise nothing. */
  ghost predicate EntryIsItsMessage<T>(view: T -> View, store: Store<T>, stream: Upstream<T>, i: nat, c: nat, j: nat)
    requires i <= |stream|
  {
    if j < i && IsAbout(view, stream[j], c) then j in Of(store, c) && Of(store, c)[j] == stream[j].value.value
    else j !in Of(store, c)
  }

  ghost predicate HoldsTheMessages<T>(view: T -> View, store: Store<T>, stream: Upstream<T>, i: nat)
    requires i <= |stream|
  {
    forall c: nat, j: nat :: EntryIsItsMessage(view, store, stream, i, c, j)
  }

  ghost predicate HoldsTheMetadata<T>(view: T -> View, store: Store<T>, stream: Upstream<T>, i: nat) {
    if i > 0 && OpensWithMetadata(view, stream) then store.metadata == Some(view(stream[0].value.value).metadata)
    else store.metadata == None
  }

  /** The world is what the first i items make of it. */
  ghost predicate AsStreamed<T>(view: T -> View, w: Wiring, world: World<T>, stream: Upstream<T>, i: nat)
    requires i <= |stream|
  {
    && world.inputs.Keys == (if w.inputs.Some? then w.inputs.value else {})
    && (forall c :: c in world.inputs ==> world.inputs[c] == Channel(view, stream, i, c))
    && HoldsTheMessages(view, world.store, stream, i)
    && HoldsTheMetadata(view, world.store, stream, i)
    && IsFirstUsage(view, stream, i, world.store.usage)
    && (world.flagged <==> exists j :: 0 <= j < i && EndsEmpty(view, w, stream[j]))
  }

  // ---------------------------------------------------------------------------------------------
  // What one item does

  /** The effect of an item: on the channels, the entries, the cells and the flag. */
  ghost predicate Effect<T>(view: T -> View, w: Wiring, before: World<T>, after: World<T>, i: nat, item: Result<Option<T>, string>) {
    && after.inputs.Keys == before.inputs.Keys
    && (forall c :: c in before.inputs ==>
          after.inputs[c] == if item.Err? then before.inputs[c] + [Err(item.error)]
                             else if TextIn(view, item, c) != "" then before.inputs[c] + [Ok((i, TextIn(view, item, c)))]
                             else before.inputs[c])
    && (forall c: nat :: Of(after.store, c) ==
          if IsAbout(view, item, c) then Of(before.store, c)[i := item.value.value] else Of(before.store, c))
    && after.store.metadata == (if i == 0 && IsMessage(item) && !UsageOnly(view(item.value.value)) && before.store.metadata.None?
                                then Some(view(item.value.value).metadata) else before.store.metadata)
    && after.store.usage == (if CarriesUsage(view, item) && before.store.usage.None?
                             then view(item.value.value).usage else before.store.usage)
    && (after.flagged <==> before.flagged || EndsEmpty(view, w, item))
  }

  function If<T>(cond: bool, a: Action<T>): seq<Action<T>> {
    if cond then [a] else []
  }

  lemma ReplayIf<T>(world: World<T>, cond: bool, a: Action<T>)
    ensures Replay(world, If(cond, a)) == if cond then Perform(world, a) else world
  {
    ReplayTwo(world, a, a);
  }

  lemma ErrorEffect<T>(view: T -> View, w: Wiring, world: World<T>, i: nat, e: string)
    requires world.inputs.Keys == (if w.inputs.Some? then w.inputs.value else {})
    ensures Effect(view, w, world, Replay(world, MessageActions(view, w, i, Err(e))), i, Err(e))
  {
    var forward := Action<T>.Forward(Err(e));
    assert MessageActions(view, w, i, Err(e)) == If(w.forwarding, forward) + If(w.inputs.Some?, SendError(e));
    ReplayAppend(world, If(w.forwarding, forward), If(w.inputs.Some?, SendError(e)));
    ReplayIf(world, w.forwarding, forward);
    var mid := Replay(world, If(w.forwarding, forward));
    ReplayIf(mid, w.inputs.Some?, SendError(e));
    assert mid.inputs == world.inputs && mid.store == world.store && mid.flagged == world.flagged;
    SentErrorEffect(mid, e);
  }

  lemma SentErrorEffect<T>(world: World<T>, e: string)
    ensures var after := Perform(world, SendError(e));
            && after.inputs.Keys == world.inputs.Keys
            && (forall c :: c in world.inputs ==> after.inputs[c] == world.inputs[c] + [Err(e)])
            && after.store == world.store && after.flagged == world.flagged
  {
  }

  lemma UsageEffect<T>(view: T -> View, w: Wiring, world: World<T>, i: nat, message: T)
    requires w.recording && UsageOnly(view(message))
    ensures Effect(view, w, world, Replay(world, MessageActions(view, w, i, Ok(Some(message)))), i, Ok(Some(message)))
  {
    var forward, put := Action<T>.Forward(Ok(Some(message))), Action<T>.PutUsage(view(message).usage.value);
    assert MessageActions(view, w, i, Ok(Some(message))) == If(w.forwarding, forward) + [put];
    ReplayLast(world, If(w.forwarding, forward), put);
    ReplayIf(world, w.forwarding, forward);
  }

  lemma ChoicelessEffect<T>(view: T -> View, w: Wiring, world: World<T>, i: nat, message: T)
    requires w.recording && !UsageOnly(view(message)) && view(message).choice.None?
    ensures Effect(view, w, world, Replay(world, MessageActions(view, w, i, Ok(Some(message)))), i, Ok(Some(message)))
  {
    var forward, put := Action<T>.Forward(Ok(Some(message))), Action<T>.PutMetadata(view(message).metadata);
    assert MessageActions(view, w, i, Ok(Some(message))) == If(w.forwarding, forward) + If(i == 0, put);
    ReplayAppend(world, If(w.forwarding, forward), If(i == 0, put));
    ReplayIf(world, w.forwarding, forward);
    ReplayIf(Replay(world, If(w.forwarding, forward)), i == 0, put);
  }

  lemma ChoicePartEffect<T>(view: T -> View, w: Wiring, world: World<T>, i: nat, message: T)
    requires w.recording && view(message).choice.Some?
    requires world.inputs.Keys == (if w.inputs.Some? then w.inputs.value else {})
    ensures var choice := view(message).choice.value;
            var after := Replay(world, ChoiceActions(w, i, message, choice));
            && after.inputs == (if w.Feeds(choice.index) && choice.text != ""
                                then world.inputs[choice.index := world.inputs[choice.index] + [Ok((i, choice.text))]]
                                else world.inputs)
            && after.store == WithCompletion(world.store, choice.index, i, message)
            && (after.flagged <==> world.flagged || EndsEmpty(view, w, Ok(Some(message))))
  {
    var choice := view(message).choice.value;
    var insert := Insert(choice.index, i, message);
    var all := ChoiceActions(w, i, message, choice);
    ReplayTwo(world, insert, all[|all| - 1]);
    assert |all| == 2 || |all| == 1;
    assert all == if |all| == 2 then [insert, all[1]] else [insert];
  }

  /** Before the choice is handled: the message is forwarded, and the metadata are stored. */
  lemma PreambleEffect<T>(view: T -> View, w: Wiring, world: World<T>, i: nat, message: T)
    requires w.recording && view(message).choice.Some?
    ensures var now := Replay(world, Preamble(view, w, i, Ok(Some(message))));
            && now.inputs == world.inputs && now.flagged == world.flagged
            && now.store == if i == 0 then WithMetadata(world.store, view(message).metadata) else world.store
  {
    var forward, put := Action<T>.Forward(Ok(Some(message))), Action<T>.PutMetadata(view(message).metadata);
    assert Preamble(view, w, i, Ok(Some(message))) == If(w.forwarding, forward) + If(i == 0, put);
    ReplayAppend(world, If(w.forwarding, forward), If(i == 0, put));
    ReplayIf(world, w.forwarding, forward);
    ReplayIf(Replay(world, If(w.forwarding, forward)), i == 0, put);
  }

  lemma PartsMakeTheEffect<T>(view: T -> View, w: Wiring, before: World<T>, mid: World<T>, after: World<T>, i: nat, message: T)
    requires view(message).choice.Some?
    requires before.inputs.Keys == (if w.inputs.Some? then w.inputs.value else {})
    requires mid.inputs == before.inputs && mid.flagged == before.flagged
    requires mid.store == if i == 0 then WithMetadata(before.store, view(message).metadata) else before.store
    requires var choice := view(message).choice.value;
             && after.inputs == (if w.Feeds(choice.index) && choice.text != ""
                                 then mid.inputs[choice.index := mid.inputs[choice.index] + [Ok((i, choice.text))]]
                                 else mid.inputs)
             && after.store == WithCompletion(mid.store, choice.index, i, message)
    requires after.flagged <==> mid.flagged || EndsEmpty(view, w, Ok(Some(message)))
    ensures Effect(view, w, before, after, i, Ok(Some(message)))
  {
  }

  lemma ChoiceMessageEffect<T>(view: T -> View, w: Wiring, world: World<T>, i: nat, message: T)
    requires w.recording && view(message).choice.Some?
    requires world.inputs.Keys == (if w.inputs.Some? then w.inputs.value else {})
    ensures Effect(view, w, world, Replay(world, MessageActions(view, w, i, Ok(Some(message)))), i, Ok(Some(message)))
  {
    var pre := Preamble(view, w, i, Ok(Some(message)));
    var mid, post := Replay(world, pre), ChoicePart(view, w, i, Ok(Some(message)));
    MessageParts(view, w, i, Ok(Some(message)));
    ReplayAppend(world, pre, post);
    PreambleEffect(view, w, world, i, message);
    ChoicePartEffect(view, w, mid, i, message);
    PartsMakeTheEffect(view, w, world, mid, Replay(mid, post), i, message);
  }

  lemma ItemEffect<T>(view: T -> View, w: Wiring, world: World<T>, i: nat, item: Result<Option<T>, string>)
    requires w.recording && world.inputs.Keys == (if w.inputs.Some? then w.inputs.value else {})
    ensures Effect(view, w, world, Replay(world, MessageActions(view, w, i, item)), i, item)
  {
    match item
    case Err(e) => ErrorEffect(view, w, world, i, e);
    case Ok(None) =>
    case Ok(Some(message)) =>
      if UsageOnly(view(message)) {
        UsageEffect(view, w, world, i, message);
      } else if view(message).choice.None? {
        ChoicelessEffect(view, w, world, i, message);
      } else {
        ChoiceMessageEffect(view, w, world, i, message);
      }
  }

  // ---------------------------------------------------------------------------------------------
  // Item by item

  lemma UsageStaysFirst<T>(view: T -> View, stream: Upstream<T>, i: nat, was: Option<Usage>, now: Option<Usage>)
    requires i < |stream| && IsFirstUsage(view, stream, i, was)
    requires now == if CarriesUsage(view, stream[i]) && was.None? then view(stream[i].value.value).usage else was
    ensures IsFirstUsage(view, stream, i + 1, now)
  {
  }

  lemma MessagesStayHeld<T>(view: T -> View, w: Wiring, before: World<T>, after: World<T>, stream: Upstream<T>, i: nat)
    requires i < |stream| && HoldsTheMessages(view, before.store, stream, i) && Effect(view, w, before, after, i, stream[i])
    ensures HoldsTheMessages(view, after.store, stream, i + 1)
  {
    var next: nat := i + 1;
    forall c: nat, j: nat
      ensures EntryIsItsMessage(view, after.store, stream, next, c, j)
    {
      assert EntryIsItsMessage(view, before.store, stream, i, c, j);
    }
  }

  lemma OneMoreItem<T>(view: T -> View, w: Wiring, world: World<T>, stream: Upstream<T>, i: nat)
    requires w.recording && i < |stream| && AsStreamed(view, w, world, stream, i)
    ensures AsStreamed(view, w, Replay(world, MessageActions(view, w, i, stream[i])), stream, i + 1)
  {
    var after := Replay(world, MessageActions(view, w, i, stream[i]));
    ItemEffect(view, w, world, i, stream[i]);
    MessagesStayHeld(view, w, world, after, stream, i);
    UsageStaysFirst(view, stream, i, world.store.usage, after.store.usage);
  }

  /** The choices that were sent text so far. */
  ghost predicate IsWithData<T>(view: T -> View, w: Wiring, stream: Upstream<T>, i: nat, withData: set<nat>)
    requires i <= |stream|
  {
    forall c: nat :: c in withData <==> w.Feeds(c) && HasText(view, stream, i, c)
  }

  lemma OneMoreWithData<T>(view: T -> View, w: Wiring, stream: Upstream<T>, i: nat, withData: set<nat>)
    requires i < |stream| && IsWithData(view, w, stream, i, withData)
    ensures IsWithData(view, w, stream, i + 1, withData + NewData(view, w, stream[i]))
  {
    forall c: nat
      ensures HasText(view, stream, i + 1, c) <==> HasText(view, stream, i, c) || TextIn(view, stream[i], c) != ""
    {
    }
  }

  /** In the end: what the handled items make of the world, and, if the stream was handled to its end, the empty texts of
      the choices that were sent none. */
  ghost predicate Outcome<T>(view: T -> View, w: Wiring, end: World<T>, stream: Upstream<T>, k: nat)
    requires k <= |stream|
  {
    && end.inputs.Keys == (if w.inputs.Some? then w.inputs.value else {})
    && (forall c :: c in end.inputs ==>
          end.inputs[c] == Channel(view, stream, k, c)
                           + if w.trailing && k == |stream| && !HasText(view, stream, k, c) then [Ok((0, ""))] else [])
    && HoldsTheMessages(view, end.store, stream, k)
    && HoldsTheMetadata(view, end.store, stream, k)
    && IsFirstUsage(view, stream, k, end.store.usage)
    && (end.flagged <==> exists j :: 0 <= j < k && EndsEmpty(view, w, stream[j]))
  }

  lemma StreamEnds<T>(view: T -> View, w: Wiring, world: World<T>, stream: Upstream<T>, withData: set<nat>, patience: nat)
    requires AsStreamed(view, w, world, stream, |stream|) && IsWithData(view, w, stream, |stream|, withData)
    ensures Outcome(view, w, Replay(world, Actions(view, w, stream, |stream|, withData, patience)), stream, |stream|)
  {
    var all := Actions(view, w, stream, |stream|, withData, patience);
    if w.trailing && w.inputs.Some? {
      assert all == If(true, SendEmpty(w.inputs.value - withData));
      ReplayIf(world, true, SendEmpty(w.inputs.value - withData));
    }
    forall c | c in world.inputs
      ensures w.trailing && !HasText(view, stream, |stream|, c) <==> w.trailing && c in w.inputs.value - withData
    {
      assert w.Feeds(c);
    }
  }

  lemma {:induction false} RunIsAsStreamed<T>(view: T -> View, w: Wiring, stream: Upstream<T>, i: nat, withData: set<nat>,
                                               patience: nat, world: World<T>)
    requires w.recording && i <= |stream| && AsStreamed(view, w, world, stream, i) && IsWithData(view, w, stream, i, withData)
    ensures Outcome(view, w, Replay(world, Actions(view, w, stream, i, withData, patience)), stream, Handled(w, stream, i, patience))
    decreases |stream| - i
  {
    if i == |stream| {
      StreamEnds(view, w, world, stream, withData, patience);
    } else if !HungUp(w, stream[i], patience) {
      NextItem(view, w, stream, i, withData, patience, world);
      OneMoreItem(view, w, world, stream, i);
      OneMoreWithData(view, w, stream, i, withData);
      RunIsAsStreamed(view, w, stream, i + 1, withData + NewData(view, w, stream[i]), Remaining(w, stream[i], patience),
                      Replay(world, MessageActions(view, w, i, stream[i])));
    }
  }

  /** The outcome of every stream, for a producer with a state. On the input channel of each choice stand all errors of the
      stream and all texts of the choice, in the order of the items, and last the empty text of a choice that was sent
      none. The state holds each message under its choice and index and nothing else, the metadata of the first item if
      that is a message on the non-usage branch, and the first usage. The flag is up exactly if a message finished a fed
      choice without text. Where messages are forwarded, all this is about the items handled before the client left. */
  lemma StreamDeterminesTheOutcome<T>(view: T -> View, w: Wiring, stream: Upstream<T>, patience: nat)
    requires w.recording
    ensures Outcome(view, w, Replay(Start<T>(w), AllActions(view, w, stream, patience)), stream, Handled(w, stream, 0, patience))
  {
    assert forall c: nat :: Of(Start<T>(w).store, c) == map[];
    assert AsStreamed(view, w, Start<T>(w), stream, 0);
    RunIsAsStreamed(view, w, stream, 0, {}, patience, Start<T>(w));
  }

  /** Without a client on the response channel, or with one that stays long enough, every item is handled. */
  lemma {:induction false} AllItemsAreHandled<T>(w: Wiring, stream: Upstream<T>, i: nat, patience: nat)
    requires i <= |stream| && (!w.forwarding || patience >= |stream| - i)
    ensures Handled(w, stream, i, patience) == |stream|
    decreases |stream| - i
  {
    if i < |stream| {
      AllItemsAreHandled(w, stream, i + 1, Remaining(w, stream[i], patience));
    }
  }
}
