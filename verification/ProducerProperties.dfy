/** What the consumer of a recorded stream may rely on, whenever it looks. A prefix of the producer's
    actions is a moment of the run, so a statement about all prefixes is one about all interleavings. */
module ProducerProperties {
  import opened Types
  import opened CompletionStates
  import opened Producers

  /** A non-empty text with this message index has been sent to choice c. */
  ghost predicate SentText<T>(world: World<T>, c: nat, i: nat, text: string) {
    c in world.inputs && text != "" && Ok((i, text)) in world.inputs[c]
  }

  ghost predicate StoredText<T>(view: T -> View, store: Store<T>, c: nat, i: nat, text: string) {
    i in Of(store, c) && view(Of(store, c)[i]).choice.Some? && view(Of(store, c)[i]).choice.value.text == text
  }

  /** Everything stored has an index below the bound and is stored under the choice it belongs to; every
      text sent is stored. */
  ghost predicate Recorded<T>(view: T -> View, world: World<T>, bound: nat) {
    && (forall c, i :: c in world.store.completions && i in world.store.completions[c] ==>
          && i < bound
          && view(world.store.completions[c][i]).choice.Some?
          && view(world.store.completions[c][i]).choice.value.index == c)
    && (forall c: nat, i: nat, text: string :: SentText(world, c, i, text) ==> StoredText(view, world.store, c, i, text))
  }

  /** Actions that neither store a completion nor send a text. */
  predicate Neutral<T>(a: Action<T>) {
    !a.Insert? && !a.Send?
  }

  lemma NeutralActionKeepsRecord<T>(view: T -> View, world: World<T>, a: Action<T>, bound: nat)
    requires Recorded(view, world, bound) && Neutral(a)
    ensures Recorded(view, Perform(world, a), bound)
    ensures Perform(world, a).store.completions == world.store.completions
    ensures Perform(world, a).inputs.Keys == world.inputs.Keys
  {
    var after := Perform(world, a);
    forall c: nat, i: nat, text: string | SentText(after, c, i, text)
      ensures SentText(world, c, i, text)
    {
    }
    forall c: nat, i: nat, text: string | SentText(after, c, i, text)
      ensures StoredText(view, after.store, c, i, text)
    {
      assert StoredText(view, world.store, c, i, text);
    }
  }

  lemma {:induction false} NeutralActionsKeepRecord<T>(view: T -> View, world: World<T>, actions: seq<Action<T>>, bound: nat)
    requires Recorded(view, world, bound)
    requires forall k :: 0 <= k < |actions| ==> Neutral(actions[k])
    ensures Recorded(view, Replay(world, actions), bound)
    ensures Replay(world, actions).store.completions == world.store.completions
    ensures Replay(world, actions).inputs.Keys == world.inputs.Keys
    decreases |actions|
  {
    if actions != [] {
      NeutralActionKeepsRecord(view, world, actions[0], bound);
      NeutralActionsKeepRecord(view, Perform(world, actions[0]), actions[1..], bound);
    }
  }

  lemma RecordIsMonotone<T>(view: T -> View, world: World<T>, low: nat, high: nat)
    requires Recorded(view, world, low) && low <= high
    ensures Recorded(view, world, high)
  {
  }

  lemma InsertKeepsRecord<T>(view: T -> View, world: World<T>, c: nat, i: nat, message: T)
    requires Recorded(view, world, i)
    requires view(message).choice.Some? && view(message).choice.value.index == c
    ensures Recorded(view, Perform(world, Insert(c, i, message)), i + 1)
  {
    var after := Perform(world, Insert(c, i, message));
    forall d: nat, j: nat, text: string | SentText(after, d, j, text)
      ensures StoredText(view, after.store, d, j, text)
    {
      assert SentText(world, d, j, text);
      assert StoredText(view, world.store, d, j, text);
      assert d in world.store.completions && j in world.store.completions[d] && j < i;
    }
  }

  lemma SendKeepsRecord<T>(view: T -> View, world: World<T>, c: nat, i: nat, text: string, bound: nat)
    requires Recorded(view, world, bound) && StoredText(view, world.store, c, i, text)
    ensures Recorded(view, Perform(world, Send(c, i, text)), bound)
  {
    var after := Perform(world, Send(c, i, text));
    forall d: nat, j: nat, t: string | SentText(after, d, j, t)
      ensures StoredText(view, after.store, d, j, t)
    {
      assert SentText(world, d, j, t) || (d == c && j == i && t == text);
    }
  }

  /** Records come before sends at every moment of handling one choice. */
  lemma ChoicePrefixKeepsRecord<T>(view: T -> View, w: Wiring, world: World<T>, i: nat, message: T, n: nat)
    requires w.recording && Recorded(view, world, i) && view(message).choice.Some?
    requires n <= |ChoiceActions(w, i, message, view(message).choice.value)|
    ensures Recorded(view, Replay(world, ChoiceActions(w, i, message, view(message).choice.value)[..n]), i + 1)
  {
    var choice := view(message).choice.value;
    var all := ChoiceActions(w, i, message, choice);
    var insert := Insert(choice.index, i, message);
    if n == 0 {
      RecordIsMonotone(view, world, i, i + 1);
    } else {
      InsertKeepsRecord(view, world, choice.index, i, message);
      var stored := Perform(world, insert);
      ReplayLast(world, [], insert);
      assert [] + [insert] == all[..1];
      if n == 2 {
        ReplayLast(world, all[..1], all[1]);
        assert all[..1] + [all[1]] == all[..2];
        if all[1].Send? {
          SendKeepsRecord(view, stored, choice.index, i, choice.text, i + 1);
        } else {
          NeutralActionKeepsRecord(view, stored, all[1], i + 1);
        }
      }
    }
  }

  /** The part of a message's actions that precedes those of its choice, and its choice's part. */
  function Preamble<T>(view: T -> View, w: Wiring, i: nat, item: Result<Option<T>, string>): (r: seq<Action<T>>)
    ensures forall k :: 0 <= k < |r| ==> Neutral(r[k])
  {
    match item
    case Ok(Some(message)) =>
      var v := view(message);
      (if w.forwarding then [Forward(Ok(Some(message)))] else [])
      + (if UsageOnly(v) then if w.recording then [PutUsage(v.usage.value)] else []
         else if i == 0 && w.recording then [PutMetadata(v.metadata)] else [])
    case _ => MessageActions(view, w, i, item)
  }

  function ChoicePart<T>(view: T -> View, w: Wiring, i: nat, item: Result<Option<T>, string>): seq<Action<T>> {
    if IsMessage(item) && view(item.value.value).choice.Some?
    then ChoiceActions(w, i, item.value.value, view(item.value.value).choice.value) else []
  }

  lemma MessageParts<T>(view: T -> View, w: Wiring, i: nat, item: Result<Option<T>, string>)
    ensures MessageActions(view, w, i, item) == Preamble(view, w, i, item) + ChoicePart(view, w, i, item)
  {
  }

  lemma MessagePrefixKeepsRecord<T>(view: T -> View, w: Wiring, world: World<T>, i: nat, item: Result<Option<T>, string>, n: nat)
    requires w.recording && Recorded(view, world, i) && n <= |MessageActions(view, w, i, item)|
    ensures Recorded(view, Replay(world, MessageActions(view, w, i, item)[..n]), i + 1)
  {
    MessageParts(view, w, i, item);
    var pre, post := Preamble(view, w, i, item), ChoicePart(view, w, i, item);
    if n <= |pre| {
      assert (pre + post)[..n] == pre[..n];
      NeutralActionsKeepRecord(view, world, pre[..n], i);
      RecordIsMonotone(view, Replay(world, pre[..n]), i, i + 1);
    } else {
      assert (pre + post)[..n] == pre + post[..n - |pre|];
      ReplayAppend(world, pre, post[..n - |pre|]);
      NeutralActionsKeepRecord(view, world, pre, i);
      ChoicePrefixKeepsRecord(view, w, Replay(world, pre), i, item.value.value, n - |pre|);
    }
  }

  lemma ReplayPastFirst<T>(world: World<T>, first: seq<Action<T>>, later: seq<Action<T>>, n: nat)
    requires |first| <= n <= |first| + |later|
    ensures Replay(world, (first + later)[..n]) == Replay(Replay(world, first), later[..n - |first|])
  {
    assert (first + later)[..n] == first + later[..n - |first|];
    ReplayAppend(world, first, later[..n - |first|]);
  }

  /** The actions from item i on, if the client takes it, are those of the item and then the later ones. */
  lemma RunSplits<T>(view: T -> View, w: Wiring, stream: Upstream<T>, i: nat, withData: set<nat>, patience: nat,
                     world: World<T>, n: nat)
    requires i < |stream| && !HungUp(w, stream[i], patience)
    requires n <= |Actions(view, w, stream, i, withData, patience)|
    ensures var now := MessageActions(view, w, i, stream[i]);
            var data, left := withData + NewData(view, w, stream[i]), Remaining(w, stream[i], patience);
            var all, later := Actions(view, w, stream, i, withData, patience), Actions(view, w, stream, i + 1, data, left);
            && |all| == |now| + |later|
            && (n <= |now| ==> all[..n] == now[..n])
            && (n >= |now| ==> Replay(world, all[..n]) == Replay(Replay(world, now), later[..n - |now|]))
  {
    var now := MessageActions(view, w, i, stream[i]);
    var later := Actions(view, w, stream, i + 1, withData + NewData(view, w, stream[i]), Remaining(w, stream[i], patience));
    assert Actions(view, w, stream, i, withData, patience) == now + later;
    if n >= |now| {
      ReplayPastFirst(world, now, later, n);
    }
  }

  lemma MessageKeepsRecord<T>(view: T -> View, w: Wiring, world: World<T>, i: nat, item: Result<Option<T>, string>)
    requires w.recording && Recorded(view, world, i)
    ensures Recorded(view, Replay(world, MessageActions(view, w, i, item)), i + 1)
  {
    var now := MessageActions(view, w, i, item);
    assert now[..|now|] == now;
    MessagePrefixKeepsRecord(view, w, world, i, item, |now|);
  }

  lemma {:induction false} PrefixKeepsRecord<T>(view: T -> View, w: Wiring, stream: Upstream<T>, i: nat,
                                                 withData: set<nat>, patience: nat, world: World<T>, n: nat)
    requires w.recording && Recorded(view, world, i) && i <= |stream|
    requires n <= |Actions(view, w, stream, i, withData, patience)|
    ensures Recorded(view, Replay(world, Actions(view, w, stream, i, withData, patience)[..n]), |stream|)
    decreases |stream| - i
  {
    var all := Actions(view, w, stream, i, withData, patience);
    if i == |stream| {
      NeutralActionsKeepRecord(view, world, all[..n], i);
    } else if HungUp(w, stream[i], patience) {
      RecordIsMonotone(view, world, i, |stream|);
    } else {
      var now := MessageActions(view, w, i, stream[i]);
      var data, left := withData + NewData(view, w, stream[i]), Remaining(w, stream[i], patience);
      RunSplits(view, w, stream, i, withData, patience, world, n);
      if n <= |now| {
        MessagePrefixKeepsRecord(view, w, world, i, stream[i], n);
        RecordIsMonotone(view, Replay(world, now[..n]), i + 1, |stream|);
      } else {
        MessageKeepsRecord(view, w, world, i, stream[i]);
        PrefixKeepsRecord(view, w, stream, i + 1, data, left, Replay(world, now), n - |now|);
      }
    }
  }

  lemma StartIsRecorded<T>(view: T -> View, w: Wiring)
    ensures Recorded(view, Start<T>(w), 0)
  {
    forall c: nat, i: nat, text: string
      ensures !SentText(Start<T>(w), c, i, text)
    {
    }
  }

  /** The world after the first n actions of the whole run. */
  function Moment<T>(view: T -> View, w: Wiring, stream: Upstream<T>, patience: nat, n: nat): World<T>
    requires n <= |AllActions(view, w, stream, patience)|
  {
    Replay(Start<T>(w), AllActions(view, w, stream, patience)[..n])
  }

  /** Record before send. At every moment, a message whose text was sent to a choice is stored under that
      choice and index with that text, and whatever is stored belongs to the choice it is stored under. */
  lemma RecordBeforeSend<T>(view: T -> View, w: Wiring, stream: Upstream<T>, patience: nat, n: nat)
    requires w.recording && n <= |AllActions(view, w, stream, patience)|
    ensures Recorded(view, Moment(view, w, stream, patience, n), |stream|)
  {
    StartIsRecorded(view, w);
    PrefixKeepsRecord(view, w, stream, 0, {}, patience, Start<T>(w), n);
  }

  // ---------------------------------------------------------------------------------------------
  // What a sent text makes final

  ghost predicate SameBelow<T>(a: Store<T>, b: Store<T>, bound: nat) {
    forall c: nat, j: nat :: j < bound ==>
      (j in Of(a, c) <==> j in Of(b, c)) && (j in Of(a, c) ==> Of(a, c)[j] == Of(b, c)[j])
  }

  ghost predicate InsertsFrom<T>(actions: seq<Action<T>>, i: nat) {
    forall k :: 0 <= k < |actions| && actions[k].Insert? ==> actions[k].index >= i
  }

  lemma {:induction false} LateInsertsKeepEarlierEntries<T>(world: World<T>, actions: seq<Action<T>>, i: nat)
    requires InsertsFrom(actions, i)
    ensures SameBelow(world.store, Replay(world, actions).store, i)
    decreases |actions|
  {
    if actions != [] {
      assert SameBelow(world.store, Perform(world, actions[0]).store, i);
      assert InsertsFrom(actions[1..], i);
      LateInsertsKeepEarlierEntries(Perform(world, actions[0]), actions[1..], i);
    }
  }

  lemma InsertsAppend<T>(a: seq<Action<T>>, b: seq<Action<T>>, i: nat)
    requires InsertsFrom(a, i) && InsertsFrom(b, i)
    ensures InsertsFrom(a + b, i)
  {
  }

  lemma MessageInsertsAtItsIndex<T>(view: T -> View, w: Wiring, i: nat, item: Result<Option<T>, string>)
    ensures InsertsFrom(MessageActions(view, w, i, item), i)
  {
    MessageParts(view, w, i, item);
    InsertsAppend(Preamble(view, w, i, item), ChoicePart(view, w, i, item), i);
  }

  lemma {:induction false} InsertsFollowTheStream<T>(view: T -> View, w: Wiring, stream: Upstream<T>, i: nat,
                                                      withData: set<nat>, patience: nat)
    ensures InsertsFrom(Actions(view, w, stream, i, withData, patience), i)
    decreases |stream| - i
  {
    if i < |stream| && !HungUp(w, stream[i], patience) {
      var data, left := withData + NewData(view, w, stream[i]), Remaining(w, stream[i], patience);
      InsertsFollowTheStream(view, w, stream, i + 1, data, left);
      assert InsertsFrom(Actions(view, w, stream, i + 1, data, left), i);
      MessageInsertsAtItsIndex(view, w, i, stream[i]);
      InsertsAppend(MessageActions(view, w, i, stream[i]), Actions(view, w, stream, i + 1, data, left), i);
    }
  }

  /** Whatever is stored after a text was sent has a greater index. */
  ghost predicate SendsBeforeLaterInserts<T>(actions: seq<Action<T>>) {
    forall k, l :: 0 <= k < l < |actions| && actions[k].Send? && actions[l].Insert? ==> actions[k].index < actions[l].index
  }

  ghost predicate SendsBelow<T>(actions: seq<Action<T>>, i: nat) {
    forall k :: 0 <= k < |actions| && actions[k].Send? ==> actions[k].index < i
  }

  lemma MessageStoresBeforeItSends<T>(view: T -> View, w: Wiring, i: nat, item: Result<Option<T>, string>)
    ensures SendsBeforeLaterInserts(MessageActions(view, w, i, item)) && SendsBelow(MessageActions(view, w, i, item), i + 1)
  {
    MessageParts(view, w, i, item);
    NeutralThenChoice(Preamble(view, w, i, item), ChoicePart(view, w, i, item), i);
  }

  lemma NeutralThenChoice<T>(pre: seq<Action<T>>, post: seq<Action<T>>, i: nat)
    requires forall k :: 0 <= k < |pre| ==> Neutral(pre[k])
    requires SendsBeforeLaterInserts(post) && SendsBelow(post, i + 1)
    ensures SendsBeforeLaterInserts(pre + post) && SendsBelow(pre + post, i + 1)
  {
  }

  lemma EarlierThenLater<T>(now: seq<Action<T>>, later: seq<Action<T>>, i: nat)
    requires SendsBeforeLaterInserts(now) && SendsBeforeLaterInserts(later)
    requires SendsBelow(now, i) && InsertsFrom(later, i)
    ensures SendsBeforeLaterInserts(now + later)
  {
  }

  lemma {:induction false} SendsComeBeforeLaterInserts<T>(
      view: T -> View, w: Wiring, stream: Upstream<T>, i: nat, withData: set<nat>, patience: nat)
    ensures SendsBeforeLaterInserts(Actions(view, w, stream, i, withData, patience))
    decreases |stream| - i
  {
    if i < |stream| && !HungUp(w, stream[i], patience) {
      var data, left := withData + NewData(view, w, stream[i]), Remaining(w, stream[i], patience);
      SendsComeBeforeLaterInserts(view, w, stream, i + 1, data, left);
      InsertsFollowTheStream(view, w, stream, i + 1, data, left);
      MessageStoresBeforeItSends(view, w, i, stream[i]);
      EarlierThenLater(MessageActions(view, w, i, stream[i]), Actions(view, w, stream, i + 1, data, left), i + 1);
    }
  }

  /** A text that was sent was sent by an action. */
  lemma {:induction false} SentByAnAction<T>(world: World<T>, actions: seq<Action<T>>, c: nat, j: nat, text: string) returns (k: nat)
    requires SentText(Replay(world, actions), c, j, text) && !SentText(world, c, j, text)
    ensures k < |actions| && actions[k] == Send(c, j, text)
    decreases |actions|
  {
    var next := Perform(world, actions[0]);
    if SentText(next, c, j, text) {
      k := 0;
    } else {
      k := SentByAnAction(next, actions[1..], c, j, text);
      k := k + 1;
    }
  }

  lemma LaterInsertsAreBeyond<T>(actions: seq<Action<T>>, n: nat, m: nat, k: nat)
    requires SendsBeforeLaterInserts(actions) && k < n <= m <= |actions| && actions[k].Send?
    ensures InsertsFrom(actions[n..m], actions[k].index + 1)
  {
    forall l | 0 <= l < m - n && actions[n..m][l].Insert?
      ensures actions[n..m][l].index >= actions[k].index + 1
    {
      assert actions[n..m][l] == actions[n + l];
    }
  }

  lemma LaterMoment<T>(view: T -> View, w: Wiring, stream: Upstream<T>, patience: nat, n: nat, m: nat)
    requires n <= m <= |AllActions(view, w, stream, patience)|
    ensures Moment(view, w, stream, patience, m)
         == Replay(Moment(view, w, stream, patience, n), AllActions(view, w, stream, patience)[n..m])
  {
    var all := AllActions(view, w, stream, patience);
    assert all[..m] == all[..n] + all[n..m];
    ReplayAppend(Start<T>(w), all[..n], all[n..m]);
  }

  lemma NothingBelowASentTextChanges<T>(view: T -> View, w: Wiring, stream: Upstream<T>, patience: nat,
                                        n: nat, m: nat, c: nat, j: nat, text: string)
    requires n <= m <= |AllActions(view, w, stream, patience)|
    requires SentText(Moment(view, w, stream, patience, n), c, j, text)
    ensures SameBelow(Moment(view, w, stream, patience, n).store, Moment(view, w, stream, patience, m).store, j + 1)
  {
    var all := AllActions(view, w, stream, patience);
    var k := SentByAnAction(Start<T>(w), all[..n], c, j, text);
    SendsComeBeforeLaterInserts(view, w, stream, 0, {}, patience);
    assert all[k] == all[..n][k];
    LaterInsertsAreBeyond(all, n, m, k);
    LaterMoment(view, w, stream, patience, n, m);
    LateInsertsKeepEarlierEntries(Moment(view, w, stream, patience, n), all[n..m], j + 1);
  }

  /** Once the text of message j was sent, nothing stored up to index j changes any more: any later look
      at a range that ends there finds the same completions. */
  lemma EntriesUpToSentTextAreFinal<T>(view: T -> View, w: Wiring, stream: Upstream<T>, patience: nat,
                                       n: nat, m: nat, c: nat, j: nat, text: string, lo: nat)
    requires w.recording && n <= m <= |AllActions(view, w, stream, patience)|
    requires SentText(Moment(view, w, stream, patience, n), c, j, text)
    ensures Range(Of(Moment(view, w, stream, patience, n).store, c), lo, j + 1)
         == Range(Of(Moment(view, w, stream, patience, m).store, c), lo, j + 1)
    ensures j in Of(Moment(view, w, stream, patience, n).store, c)
    ensures j in Of(Moment(view, w, stream, patience, m).store, c)
  {
    RecordBeforeSend(view, w, stream, patience, n);
    NothingBelowASentTextChanges(view, w, stream, patience, n, m, c, j, text);
    var a, b := Of(Moment(view, w, stream, patience, n).store, c), Of(Moment(view, w, stream, patience, m).store, c);
    assert StoredText(view, Moment(view, w, stream, patience, n).store, c, j, text);
    RangeDependsOnItsIndices(a, b, lo, j + 1);
  }

  // ---------------------------------------------------------------------------------------------
  // The two paths see the same text

  /** The texts sent on an input channel, with their message indices. */
  function Texts(inputs: seq<Input>): seq<(nat, string)> {
    if inputs == [] then []
    else
      var last, before := inputs[|inputs| - 1], Texts(inputs[..|inputs| - 1]);
      if last.Ok? then before + [last.value] else before
  }

  function Concat(texts: seq<(nat, string)>): string {
    if texts == [] then "" else Concat(texts[..|texts| - 1]) + texts[|texts| - 1].1
  }

  /** The text of a message's first choice; a message without one has none. */
  function TextOf<T>(view: T -> View, message: T): string {
    if view(message).choice.Some? then view(message).choice.value.text else ""
  }

  /** The text the whole-document detectors get: that of the stored messages, in order. */
  function StoredTexts<T>(view: T -> View, messages: seq<T>): string {
    if messages == [] then ""
    else StoredTexts(view, messages[..|messages| - 1]) + TextOf(view, messages[|messages| - 1])
  }

  ghost predicate NonEmptyAscending(texts: seq<(nat, string)>) {
    && (forall k :: 0 <= k < |texts| ==> texts[k].1 != "")
    && (forall k, l :: 0 <= k < l < |texts| ==> texts[k].0 < texts[l].0)
  }

  /** The texts come with increasing message indices below i. */
  ghost predicate TextsInOrder(texts: seq<(nat, string)>, i: nat) {
    NonEmptyAscending(texts) && forall k :: 0 <= k < |texts| ==> texts[k].0 < i
  }

  /** The entries are those of messages before i, and their texts are the ones sent. */
  ghost predicate SameText<T>(view: T -> View, entries: map<nat, T>, inputs: seq<Input>, i: nat) {
    (forall k :: k in entries ==> k < i) && Concat(Texts(inputs)) == StoredTexts(view, Range(entries, 0, i))
  }

  /** What choice c was sent agrees with what is stored for it, after the messages before i. */
  ghost predicate Agrees<T>(view: T -> View, world: World<T>, withData: set<nat>, c: nat, i: nat) {
    && c in world.inputs
    && SameText(view, Of(world.store, c), world.inputs[c], i)
    && TextsInOrder(Texts(world.inputs[c]), i)
    && (c in withData <==> Texts(world.inputs[c]) != [])
  }

  lemma TextsAppend(inputs: seq<Input>, x: Input)
    ensures Texts(inputs + [x]) == if x.Ok? then Texts(inputs) + [x.value] else Texts(inputs)
  {
    assert (inputs + [x])[..|inputs|] == inputs;
  }

  lemma ConcatAppend(texts: seq<(nat, string)>, x: (nat, string))
    ensures Concat(texts + [x]) == Concat(texts) + x.1
  {
    assert (texts + [x])[..|texts|] == texts;
  }

  lemma StoredTextsAppend<T>(view: T -> View, messages: seq<T>, m: T)
    ensures StoredTexts(view, messages + [m]) == StoredTexts(view, messages) + TextOf(view, m)
  {
    assert (messages + [m])[..|messages|] == messages;
  }

  /** Neither what is stored for choice c nor the texts sent to it depend on the actions before the choice's. */
  lemma {:induction false} PreambleLeavesTexts<T>(world: World<T>, actions: seq<Action<T>>, c: nat)
    requires c in world.inputs
    requires forall k :: 0 <= k < |actions| ==> Neutral(actions[k]) && !actions[k].SendEmpty?
    ensures c in Replay(world, actions).inputs
    ensures Texts(Replay(world, actions).inputs[c]) == Texts(world.inputs[c])
    ensures Of(Replay(world, actions).store, c) == Of(world.store, c)
    decreases |actions|
  {
    if actions != [] {
      var next := Perform(world, actions[0]);
      if actions[0].SendError? {
        TextsAppend(world.inputs[c], Err(actions[0].error));
      }
      PreambleLeavesTexts(next, actions[1..], c);
    }
  }

  /** Handling a choice stores its message under its index and sends its text, if there is any. */
  lemma ChoiceEffect<T>(w: Wiring, world: World<T>, i: nat, message: T, choice: ChoiceView, c: nat)
    requires w.recording && w.Feeds(c) && c in world.inputs
    ensures var end := Replay(world, ChoiceActions(w, i, message, choice));
            && Of(end.store, c) == (if choice.index == c then Of(world.store, c)[i := message] else Of(world.store, c))
            && c in end.inputs
            && end.inputs[c] == if choice.index == c && choice.text != "" then world.inputs[c] + [Ok((i, choice.text))]
                                else world.inputs[c]
  {
    var all, insert := ChoiceActions(w, i, message, choice), Insert(choice.index, i, message);
    assert |all| == 2 || |all| == 1;
    ReplayTwo(world, insert, all[|all| - 1]);
    assert all == if |all| == 2 then [insert, all[1]] else [insert];
  }

  lemma StoredTextGrows<T>(view: T -> View, before: map<nat, T>, i: nat, message: T)
    requires forall k :: k in before ==> k < i
    ensures StoredTexts(view, Range(before[i := message], 0, i + 1))
         == StoredTexts(view, Range(before, 0, i)) + TextOf(view, message)
  {
    RangeDependsOnItsIndices(before, before[i := message], 0, i);
    StoredTextsAppend(view, Range(before, 0, i), message);
  }

  lemma SentTextGrows(inputs: seq<Input>, i: nat, text: string)
    requires TextsInOrder(Texts(inputs), i) && text != ""
    ensures Texts(inputs + [Ok((i, text))]) == Texts(inputs) + [(i, text)]
    ensures Concat(Texts(inputs + [Ok((i, text))])) == Concat(Texts(inputs)) + text
    ensures TextsInOrder(Texts(inputs + [Ok((i, text))]), i + 1)
  {
    TextsAppend(inputs, Ok((i, text)));
    ConcatAppend(Texts(inputs), (i, text));
  }

  lemma StoringKeepsTheText<T>(view: T -> View, entries: map<nat, T>, inputs: seq<Input>, more: seq<Input>, i: nat, message: T)
    requires SameText(view, entries, inputs, i)
    requires Concat(Texts(more)) == Concat(Texts(inputs)) + TextOf(view, message)
    ensures SameText(view, entries[i := message], more, i + 1)
  {
    StoredTextGrows(view, entries, i, message);
  }

  lemma StoringAndSendingAgrees<T>(view: T -> View, world: World<T>, end: World<T>, withData: set<nat>, data: set<nat>,
                                   c: nat, i: nat, message: T)
    requires Agrees(view, world, withData, c, i) && c in end.inputs
    requires Of(end.store, c) == Of(world.store, c)[i := message]
    requires var text := TextOf(view, message);
             if text != "" then end.inputs[c] == world.inputs[c] + [Ok((i, text))] && c in data
             else end.inputs[c] == world.inputs[c] && (c in data <==> c in withData)
    ensures Agrees(view, end, data, c, i + 1)
  {
    var text := TextOf(view, message);
    if text != "" {
      SentTextGrows(world.inputs[c], i, text);
    } else {
      assert Concat(Texts(world.inputs[c])) + "" == Concat(Texts(world.inputs[c]));
    }
    StoringKeepsTheText(view, Of(world.store, c), world.inputs[c], end.inputs[c], i, message);
  }

  lemma ChoiceKeepsAgreement<T>(view: T -> View, w: Wiring, world: World<T>, withData: set<nat>, c: nat, i: nat, message: T)
    requires w.recording && w.Feeds(c) && Agrees(view, world, withData, c, i) && view(message).choice.Some?
    ensures Agrees(view, Replay(world, ChoiceActions(w, i, message, view(message).choice.value)),
                   withData + NewData(view, w, Ok(Some(message))), c, i + 1)
  {
    var choice := view(message).choice.value;
    var end := Replay(world, ChoiceActions(w, i, message, choice));
    var data := withData + NewData(view, w, Ok(Some(message)));
    ChoiceEffect(w, world, i, message, choice, c);
    if choice.index == c {
      assert choice.text == "" ==> data == withData;
      StoringAndSendingAgrees(view, world, end, withData, data, c, i, message);
    } else {
      assert c in data <==> c in withData;
      assert i !in Of(end.store, c);
    }
  }

  lemma PreambleKeepsAgreement<T>(view: T -> View, w: Wiring, world: World<T>, withData: set<nat>, c: nat, i: nat,
                                  item: Result<Option<T>, string>)
    requires Agrees(view, world, withData, c, i)
    ensures Agrees(view, Replay(world, Preamble(view, w, i, item)), withData, c, i)
  {
    PreambleLeavesTexts(world, Preamble(view, w, i, item), c);
  }

  lemma SkippedIndexKeepsAgreement<T>(view: T -> View, world: World<T>, withData: set<nat>, c: nat, i: nat)
    requires Agrees(view, world, withData, c, i)
    ensures Agrees(view, world, withData, c, i + 1)
  {
    assert i !in Of(world.store, c);
  }

  lemma MessageKeepsAgreement<T>(view: T -> View, w: Wiring, world: World<T>, withData: set<nat>, c: nat, i: nat,
                                 item: Result<Option<T>, string>)
    requires w.recording && w.Feeds(c) && Agrees(view, world, withData, c, i)
    ensures Agrees(view, Replay(world, MessageActions(view, w, i, item)), withData + NewData(view, w, item), c, i + 1)
  {
    MessageParts(view, w, i, item);
    var pre, post := Preamble(view, w, i, item), ChoicePart(view, w, i, item);
    ReplayAppend(world, pre, post);
    PreambleKeepsAgreement(view, w, world, withData, c, i, item);
    var mid := Replay(world, pre);
    if IsMessage(item) && view(item.value.value).choice.Some? {
      ChoiceKeepsAgreement(view, w, mid, withData, c, i, item.value.value);
    } else {
      assert withData + NewData(view, w, item) == withData;
      SkippedIndexKeepsAgreement(view, mid, withData, c, i);
    }
  }

  /** How a run ends for choice c. */
  ghost predicate AgreesAtTheEnd<T>(view: T -> View, w: Wiring, end: World<T>, c: nat) {
    && c in end.inputs
    && Concat(Texts(end.inputs[c])) == StoredTexts(view, Values(Of(end.store, c)))
    && (NonEmptyAscending(Texts(end.inputs[c])) || (w.trailing && Texts(end.inputs[c]) == [(0, "")]))
  }

  lemma EndOfStreamKeepsAgreement<T>(view: T -> View, w: Wiring, world: World<T>, withData: set<nat>, c: nat, i: nat)
    requires w.recording && w.Feeds(c) && Agrees(view, world, withData, c, i)
    ensures AgreesAtTheEnd(view, w, world, c)
    ensures w.trailing ==>
              AgreesAtTheEnd(view, w, Perform(world, SendEmpty(w.inputs.value - withData)), c)
  {
    ValuesAreAnyLongEnoughRange(Of(world.store, c), i);
    if c !in withData {
      TextsAppend(world.inputs[c], Ok((0, "")));
      assert Concat([(0, "")]) == "" by {
        assert [(0, "")][..0] == [];
      }
    }
  }

  lemma {:induction false} RunKeepsAgreement<T>(view: T -> View, w: Wiring, stream: Upstream<T>, i: nat,
                                                 withData: set<nat>, patience: nat, world: World<T>, c: nat)
    requires w.recording && w.Feeds(c) && i <= |stream| && Agrees(view, world, withData, c, i)
    ensures AgreesAtTheEnd(view, w, Replay(world, Actions(view, w, stream, i, withData, patience)), c)
    decreases |stream| - i
  {
    if i == |stream| {
      EndOfStreamKeepsAgreement(view, w, world, withData, c, i);
      var all := Actions(view, w, stream, i, withData, patience);
      if all != [] {
        assert all[1..] == [];
      }
    } else if HungUp(w, stream[i], patience) {
      EndOfStreamKeepsAgreement(view, w, world, withData, c, i);
    } else {
      var now := MessageActions(view, w, i, stream[i]);
      var data, left := withData + NewData(view, w, stream[i]), Remaining(w, stream[i], patience);
      ReplayAppend(world, now, Actions(view, w, stream, i + 1, data, left));
      MessageKeepsAgreement(view, w, world, withData, c, i, stream[i]);
      RunKeepsAgreement(view, w, stream, i + 1, data, left, Replay(world, now), c);
    }
  }

  /** For every upstream sequence and every choice with an input channel, the texts sent to the chunker add
      up to the text stored for the whole-document detectors. They are non-empty and come with strictly
      increasing message indices, except that a choice that sent no text gets one empty text at index 0. */
  lemma BothPathsSeeTheSameText<T>(view: T -> View, w: Wiring, stream: Upstream<T>, patience: nat, c: nat)
    requires w.recording && w.Feeds(c)
    ensures AgreesAtTheEnd(view, w, Replay(Start<T>(w), AllActions(view, w, stream, patience)), c)
  {
    assert Agrees(view, Start<T>(w), {}, c, 0);
    RunKeepsAgreement(view, w, stream, 0, {}, patience, Start<T>(w), c);
  }

  // ---------------------------------------------------------------------------------------------
  // Metadata

  /** The first item is a message that takes the branch which stores metadata. */
  predicate OpensWithMetadata<T>(view: T -> View, stream: Upstream<T>) {
    |stream| > 0 && IsMessage(stream[0]) && !UsageOnly(view(stream[0].value.value))
  }

  predicate PutsNoMetadata<T>(actions: seq<Action<T>>) {
    forall k :: 0 <= k < |actions| ==> !actions[k].PutMetadata?
  }

  lemma LaterMessagesLeaveMetadata<T>(view: T -> View, w: Wiring, i: nat, item: Result<Option<T>, string>)
    requires i > 0
    ensures PutsNoMetadata(MessageActions(view, w, i, item))
  {
  }

  lemma {:induction false} LaterActionsLeaveMetadata<T>(view: T -> View, w: Wiring, stream: Upstream<T>, i: nat,
                                                         withData: set<nat>, patience: nat)
    requires i > 0
    ensures PutsNoMetadata(Actions(view, w, stream, i, withData, patience))
    decreases |stream| - i
  {
    if i < |stream| && !HungUp(w, stream[i], patience) {
      LaterMessagesLeaveMetadata(view, w, i, stream[i]);
      LaterActionsLeaveMetadata(view, w, stream, i + 1, withData + NewData(view, w, stream[i]), Remaining(w, stream[i], patience));
    }
  }

  lemma {:induction false} NoPutNoMetadata<T>(world: World<T>, actions: seq<Action<T>>)
    ensures PutsNoMetadata(actions) ==>
              Replay(world, actions).store.metadata == world.store.metadata
    ensures world.store.metadata.Some? ==> Replay(world, actions).store.metadata == world.store.metadata
    ensures (exists k :: 0 <= k < |actions| && actions[k].PutMetadata?) ==> Replay(world, actions).store.metadata.Some?
    decreases |actions|
  {
    if actions != [] {
      NoPutNoMetadata(Perform(world, actions[0]), actions[1..]);
      assert forall k :: 0 < k < |actions| ==> actions[k] == actions[1..][k - 1];
      if (exists k :: 0 <= k < |actions| && actions[k].PutMetadata?) && !actions[0].PutMetadata? {
        var k :| 0 <= k < |actions| && actions[k].PutMetadata?;
        assert actions[1..][k - 1].PutMetadata?;
      }
    }
  }

  /** Once a stream is processed, metadata is known exactly if its first item stores it and the client, if
      messages are forwarded to one, took that item. */
  lemma MetadataKnownIffFirstMessageStoresIt<T>(view: T -> View, w: Wiring, stream: Upstream<T>, patience: nat)
    requires w.recording
    ensures Replay(Start<T>(w), AllActions(view, w, stream, patience)).store.metadata.Some?
            <==> OpensWithMetadata(view, stream) && (w.forwarding ==> patience > 0)
  {
    var all := AllActions(view, w, stream, patience);
    NoPutNoMetadata(Start<T>(w), all);
    if |stream| > 0 && !HungUp(w, stream[0], patience) {
      var now := MessageActions(view, w, 0, stream[0]);
      LaterActionsLeaveMetadata(view, w, stream, 1, {} + NewData(view, w, stream[0]), Remaining(w, stream[0], patience));
      assert all == now + Actions(view, w, stream, 1, {} + NewData(view, w, stream[0]), Remaining(w, stream[0], patience));
      if OpensWithMetadata(view, stream) {
        var k := if w.forwarding then 1 else 0;
        assert now[k].PutMetadata?;
        assert all[k] == now[k];
      }
    }
  }

  /** Without forwarding, storing the metadata is the very first action, if it happens at all. So at each moment they
      are known exactly if the first item stores them and the producer has begun. */
  lemma MetadataAtMoment<T>(view: T -> View, w: Wiring, stream: Upstream<T>, patience: nat, n: nat)
    requires w.recording && !w.forwarding && n <= |AllActions(view, w, stream, patience)|
    ensures Moment(view, w, stream, patience, n).store.metadata.Some? <==> OpensWithMetadata(view, stream) && n > 0
  {
    var all := AllActions(view, w, stream, patience);
    NoPutNoMetadata(Start<T>(w), all[..n]);
    if |stream| > 0 {
      var now := MessageActions(view, w, 0, stream[0]);
      LaterActionsLeaveMetadata(view, w, stream, 1, {} + NewData(view, w, stream[0]), Remaining(w, stream[0], patience));
      assert all == now + Actions(view, w, stream, 1, {} + NewData(view, w, stream[0]), Remaining(w, stream[0], patience));
      if OpensWithMetadata(view, stream) && n > 0 {
        assert now[0].PutMetadata?;
        assert all[..n][0] == now[0];
      }
    }
  }

  lemma {:induction false} ReplayKeepsEntries<T>(world: World<T>, actions: seq<Action<T>>, c: nat, i: nat)
    requires i in Of(world.store, c)
    ensures i in Of(Replay(world, actions).store, c)
    decreases |actions|
  {
    if actions != [] {
      ReplayKeepsEntries(Perform(world, actions[0]), actions[1..], c, i);
    }
  }

  /** What is stored stays stored. */
  lemma EntriesStay<T>(view: T -> View, w: Wiring, stream: Upstream<T>, patience: nat, n: nat, m: nat, c: nat, i: nat)
    requires n <= m <= |AllActions(view, w, stream, patience)|
    requires i in Of(Moment(view, w, stream, patience, n).store, c)
    ensures i in Of(Moment(view, w, stream, patience, m).store, c)
  {
    LaterMoment(view, w, stream, patience, n, m);
    ReplayKeepsEntries(Moment(view, w, stream, patience, n), AllActions(view, w, stream, patience)[n..m], c, i);
  }

  // ---------------------------------------------------------------------------------------------
  // The empty texts

  /** Choice c was sent the empty text for choices without text. */
  ghost predicate SentEmpty<T>(world: World<T>, c: nat) {
    c in world.inputs && Ok((0, "")) in world.inputs[c]
  }

  predicate SendsAnEmptyText<T>(a: Action<T>) {
    a.SendEmpty? || (a.Send? && a.text == "")
  }

  /** Only the last action, if any, sends empty texts. */
  ghost predicate EmptyTextsLast<T>(actions: seq<Action<T>>) {
    forall k :: 0 <= k < |actions| - 1 ==> !SendsAnEmptyText(actions[k])
  }

  lemma MessageSendsNoEmptyText<T>(view: T -> View, w: Wiring, i: nat, item: Result<Option<T>, string>)
    ensures forall k :: 0 <= k < |MessageActions(view, w, i, item)| ==> !SendsAnEmptyText(MessageActions(view, w, i, item)[k])
  {
  }

  lemma {:induction false} ActionsSendEmptyTextsLast<T>(
      view: T -> View, w: Wiring, stream: Upstream<T>, i: nat, withData: set<nat>, patience: nat)
    ensures EmptyTextsLast(Actions(view, w, stream, i, withData, patience))
    decreases |stream| - i
  {
    if i < |stream| && !HungUp(w, stream[i], patience) {
      MessageSendsNoEmptyText(view, w, i, stream[i]);
      ActionsSendEmptyTextsLast(view, w, stream, i + 1, withData + NewData(view, w, stream[i]), Remaining(w, stream[i], patience));
    }
  }

  lemma {:induction false} ReplaySendsNoEmptyText<T>(world: World<T>, actions: seq<Action<T>>, c: nat)
    requires forall k :: 0 <= k < |actions| ==> !SendsAnEmptyText(actions[k])
    requires !SentEmpty(world, c)
    ensures !SentEmpty(Replay(world, actions), c)
    decreases |actions|
  {
    if actions != [] {
      ReplaySendsNoEmptyText(Perform(world, actions[0]), actions[1..], c);
    }
  }

  /** A choice has been sent the empty text only when the producer is done. */
  lemma EmptyTextComesLast<T>(view: T -> View, w: Wiring, stream: Upstream<T>, patience: nat, n: nat, c: nat)
    requires n <= |AllActions(view, w, stream, patience)|
    requires SentEmpty(Moment(view, w, stream, patience, n), c)
    ensures n == |AllActions(view, w, stream, patience)|
  {
    var all := AllActions(view, w, stream, patience);
    ActionsSendEmptyTextsLast(view, w, stream, 0, {}, patience);
    if n < |all| {
      ReplaySendsNoEmptyText(Start<T>(w), all[..n], c);
    }
  }

  // ---------------------------------------------------------------------------------------------
  // The response channel

  /** Forwarding passes an item on unless it is the end marker of the upstream. */
  lemma MessageForwards<T>(view: T -> View, w: Wiring, i: nat, item: Result<Option<T>, string>)
    ensures Forwards(MessageActions(view, w, i, item)) == if w.forwarding && item != Ok(None) then [item] else []
  {
    match item
    case Ok(None) =>
    case Err(e) =>
      FirstForwards(w.forwarding, item, if w.inputs.Some? then [SendError(e)] else []);
    case Ok(Some(message)) =>
      var v := view(message);
      FirstForwards(w.forwarding, item,
                    if UsageOnly(v) then if w.recording then [PutUsage(v.usage.value)] else []
                    else (if i == 0 && w.recording then [PutMetadata(v.metadata)] else [])
                         + (if v.choice.Some? then ChoiceActions(w, i, message, v.choice.value) else []));
  }

  lemma FirstForwards<T>(forwarding: bool, item: Result<Option<T>, string>, rest: seq<Action<T>>)
    requires forall k :: 0 <= k < |rest| ==> !rest[k].Forward?
    ensures Forwards((if forwarding then [Forward(item)] else []) + rest) == if forwarding then [item] else []
  {
    var first: seq<Action<T>> := if forwarding then [Forward(item)] else [];
    ForwardsAppend(first, rest);
    NoForwards(rest);
    if forwarding {
      assert first[1..] == [];
    }
  }

  lemma {:induction false} NoForwards<T>(actions: seq<Action<T>>)
    requires forall k :: 0 <= k < |actions| ==> !actions[k].Forward?
    ensures Forwards(actions) == []
    decreases |actions|
  {
    if actions != [] {
      NoForwards(actions[1..]);
    }
  }

  /** What a client gets to see of a stream that is forwarded to it: every message and error, in order and as it
      came, until a message finds that it has hung up. */
  function PassedOn<T>(stream: Upstream<T>, patience: nat): seq<Response<T>> {
    if stream == [] then []
    else if stream[0] == Ok(None) then PassedOn(stream[1..], patience)
    else if stream[0].Err? then [stream[0]] + PassedOn(stream[1..], patience)
    else if patience == 0 then []
    else [stream[0]] + PassedOn(stream[1..], patience - 1)
  }

  lemma {:induction false} ForwardingPassesTheStreamOn<T>(
      view: T -> View, w: Wiring, stream: Upstream<T>, i: nat, withData: set<nat>, patience: nat)
    requires i <= |stream|
    ensures Forwards(Actions(view, w, stream, i, withData, patience))
         == if w.forwarding then PassedOn(stream[i..], patience) else []
    decreases |stream| - i
  {
    if i == |stream| {
      NoForwards(Actions(view, w, stream, i, withData, patience));
    } else if !HungUp(w, stream[i], patience) {
      var data, left := withData + NewData(view, w, stream[i]), Remaining(w, stream[i], patience);
      ForwardingPassesTheStreamOn(view, w, stream, i + 1, data, left);
      NextForwards(view, w, stream, i, withData, patience);
      MessageForwards(view, w, i, stream[i]);
      assert stream[i..][1..] == stream[i + 1..];
    }
  }

  lemma {:induction false} NoEndMarkerIsPassedOn<T>(stream: Upstream<T>, patience: nat)
    ensures Ok(None) !in PassedOn(stream, patience)
  {
    if stream != [] {
      NoEndMarkerIsPassedOn(stream[1..], patience);
      if patience > 0 {
        NoEndMarkerIsPassedOn(stream[1..], patience - 1);
      }
    }
  }

  /** How many messages, as opposed to errors, there are. */
  function MessagesIn<T>(items: seq<Response<T>>): nat {
    if items == [] then 0 else (if IsMessage(items[0]) then 1 else 0) + MessagesIn(items[1..])
  }

  /** A client that stays gets the whole stream, item by item. One that leaves gets the beginning of that, with as many
      messages as it takes. */
  lemma {:induction false} ClientsGetTheStreamUntilTheyLeave<T>(stream: Upstream<T>, patience: nat)
    requires Ok(None) !in stream
    ensures PassedOn(stream, patience) <= stream
    ensures MessagesIn(stream) <= patience ==> PassedOn(stream, patience) == stream
    ensures MessagesIn(stream) > patience ==>
              && |PassedOn(stream, patience)| < |stream| && MessagesIn(PassedOn(stream, patience)) == patience
              && IsMessage(stream[|PassedOn(stream, patience)|])
  {
    if stream != [] {
      assert stream == [stream[0]] + stream[1..];
      if stream[0].Err? {
        ClientsGetTheStreamUntilTheyLeave(stream[1..], patience);
      } else if patience > 0 {
        ClientsGetTheStreamUntilTheyLeave(stream[1..], patience - 1);
      }
    }
  }

  /** Forwarded messages and errors only: the producer never sends the end marker. */
  lemma ProducerNeverSendsTheEndMarker<T>(view: T -> View, w: Wiring, stream: Upstream<T>, patience: nat)
    ensures Ok(None) !in Forwards(AllActions(view, w, stream, patience))
  {
    ForwardingPassesTheStreamOn(view, w, stream, 0, {}, patience);
    NoEndMarkerIsPassedOn(stream[0..], patience);
  }
}
