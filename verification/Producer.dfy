/** The producer, which consumes a completion stream: it records messages and feeds their text to the detectors. */
module Producers {
  import opened Types
  import opened CompletionStates

  /** What the producer looks at in a message: its metadata, its usage, and its first choice. */
  datatype ChoiceView = ChoiceView(index: nat, text: string, finished: bool)

  datatype View = View(metadata: Metadata, usage: Option<Usage>, choice: Option<ChoiceView>)

  /** The message with index i is the i-th item of the stream. */
  type Upstream<T> = seq<Result<Option<T>, string>>

  /** What the response channel carries: a message, an error, or the end marker Ok(None). */
  type Response<T> = Result<Option<T>, string>

  /** Which channels the producer was given: a state to record in, input channels for some choices, and a
      response channel. trailing: choices that sent no text are sent an empty one at the end. */
  datatype Wiring = Wiring(recording: bool, inputs: Option<set<nat>>, forwarding: bool, trailing: bool) {
    predicate Feeds(c: nat) {
      inputs.Some? && c in inputs.value
    }
  }

  /** The effects of the producer, each visible to other tasks as soon as it happened. */
  datatype Action<T> =
    | Forward(response: Response<T>)
    | PutUsage(usage: Usage)
    | PutMetadata(metadata: Metadata)
    | Insert(choice: nat, index: nat, message: T)
    | Send(choice: nat, index: nat, text: string)
    | SendError(error: string)
    | FlagEmpty
    | SendEmpty(choices: set<nat>)

  type Input = Result<(nat, string), string>

  /** Everything the producer has an effect on. */
  datatype World<T> = World(
    store: Store<T>,
    inputs: map<nat, seq<Input>>,
    responses: seq<Response<T>>,
    flagged: bool)

  function Start<T>(w: Wiring): World<T> {
    World(EmptyStore(),
          if w.inputs.Some? then map c | c in w.inputs.value :: [] else map[],
          [], false)
  }

  function Perform<T>(world: World<T>, a: Action<T>): World<T> {
    match a
    case Forward(r) => world.(responses := world.responses + [r])
    case PutUsage(u) => world.(store := WithUsage(world.store, u))
    case PutMetadata(m) => world.(store := WithMetadata(world.store, m))
    case Insert(c, i, t) => world.(store := WithCompletion(world.store, c, i, t))
    case Send(c, i, text) =>
      if c in world.inputs then world.(inputs := world.inputs[c := world.inputs[c] + [Ok((i, text))]]) else world
    case SendError(e) => world.(inputs := map c | c in world.inputs :: world.inputs[c] + [Err(e)])
    case FlagEmpty => world.(flagged := true)
    case SendEmpty(cs) =>
      world.(inputs := map c | c in world.inputs ::
                         if c in cs then world.inputs[c] + [Ok((0, ""))] else world.inputs[c])
  }

  function Replay<T>(world: World<T>, actions: seq<Action<T>>): World<T>
    decreases |actions|
  {
    if actions == [] then world else Replay(Perform(world, actions[0]), actions[1..])
  }

  lemma {:induction false} ReplayAppend<T>(world: World<T>, a: seq<Action<T>>, b: seq<Action<T>>)
    ensures Replay(world, a + b) == Replay(Replay(world, a), b)
    decreases |a|
  {
    if a == [] {
      assert a + b == b;
    } else {
      assert (a + b)[0] == a[0] && (a + b)[1..] == a[1..] + b;
      ReplayAppend(Perform(world, a[0]), a[1..], b);
    }
  }

  /** A usage-only message carries usage statistics and no choice. */
  predicate UsageOnly(v: View) {
    v.usage.Some? && v.choice.None?
  }

  function ChoiceActions<T>(w: Wiring, i: nat, message: T, choice: ChoiceView): seq<Action<T>> {
    (if w.recording then [Insert(choice.index, i, message)] else [])
    + (if !w.Feeds(choice.index) then []
       else if choice.text != "" then [Send(choice.index, i, choice.text)]
       else if choice.finished && w.trailing then [FlagEmpty]
       else [])
  }

  /** What the i-th item makes the producer do, in order. */
  function MessageActions<T>(view: T -> View, w: Wiring, i: nat, item: Result<Option<T>, string>): seq<Action<T>> {
    match item
    case Ok(None) => []
    case Err(e) =>
      (if w.forwarding then [Forward(Err(e))] else []) + (if w.inputs.Some? then [SendError(e)] else [])
    case Ok(Some(message)) =>
      var v := view(message);
      (if w.forwarding then [Forward(Ok(Some(message)))] else [])
      + (if UsageOnly(v) then
           if w.recording then [PutUsage(v.usage.value)] else []
         else
           (if i == 0 && w.recording then [PutMetadata(v.metadata)] else [])
           + (if v.choice.Some? then ChoiceActions(w, i, message, v.choice.value) else []))
  }

  /** The choices to which the item sends text. */
  function NewData<T>(view: T -> View, w: Wiring, item: Result<Option<T>, string>): set<nat> {
    if item.Ok? && item.value.Some? && view(item.value.value).choice.Some?
       && w.Feeds(view(item.value.value).choice.value.index) && view(item.value.value).choice.value.text != ""
    then {view(item.value.value).choice.value.index} else {}
  }

  predicate IsMessage<T>(item: Result<Option<T>, string>) {
    item.Ok? && item.value.Some?
  }

  /** The client of the response channel takes this many messages and then hangs up. */
  predicate HungUp<T>(w: Wiring, item: Result<Option<T>, string>, patience: nat) {
    w.forwarding && IsMessage(item) && patience == 0
  }

  function Remaining<T>(w: Wiring, item: Result<Option<T>, string>, patience: nat): nat {
    if w.forwarding && IsMessage(item) && patience > 0 then patience - 1 else patience
  }

  /** All actions from item i on. */
  function Actions<T>(view: T -> View, w: Wiring, stream: Upstream<T>, i: nat, withData: set<nat>, patience: nat)
    : seq<Action<T>>
    decreases |stream| - i
  {
    if i >= |stream| then
      if w.trailing && w.inputs.Some? then [SendEmpty(w.inputs.value - withData)] else []
    else if HungUp(w, stream[i], patience) then []
    else MessageActions(view, w, i, stream[i])
         + Actions(view, w, stream, i + 1, withData + NewData(view, w, stream[i]), Remaining(w, stream[i], patience))
  }

  function AllActions<T>(view: T -> View, w: Wiring, stream: Upstream<T>, patience: nat): seq<Action<T>> {
    Actions(view, w, stream, 0, {}, patience)
  }

  /** What the i-th item and the ones after it do, if the client takes it. */
  lemma NextItem<T>(view: T -> View, w: Wiring, stream: Upstream<T>, i: nat, withData: set<nat>, patience: nat, world: World<T>)
    requires i < |stream| && !HungUp(w, stream[i], patience)
    ensures Replay(world, Actions(view, w, stream, i, withData, patience))
         == Replay(Replay(world, MessageActions(view, w, i, stream[i])),
                   Actions(view, w, stream, i + 1, withData + NewData(view, w, stream[i]), Remaining(w, stream[i], patience)))
  {
    ReplayAppend(world, MessageActions(view, w, i, stream[i]),
                 Actions(view, w, stream, i + 1, withData + NewData(view, w, stream[i]), Remaining(w, stream[i], patience)));
  }

  lemma NextForwards<T>(view: T -> View, w: Wiring, stream: Upstream<T>, i: nat, withData: set<nat>, patience: nat)
    requires i < |stream| && !HungUp(w, stream[i], patience)
    ensures Forwards(Actions(view, w, stream, i, withData, patience))
         == Forwards(MessageActions(view, w, i, stream[i]))
            + Forwards(Actions(view, w, stream, i + 1, withData + NewData(view, w, stream[i]), Remaining(w, stream[i], patience)))
  {
    ForwardsAppend(MessageActions(view, w, i, stream[i]),
                   Actions(view, w, stream, i + 1, withData + NewData(view, w, stream[i]), Remaining(w, stream[i], patience)));
  }

  lemma ReplayLast<T>(world: World<T>, actions: seq<Action<T>>, a: Action<T>)
    ensures Replay(world, actions + [a]) == Perform(Replay(world, actions), a)
  {
    ReplayAppend(world, actions, [a]);
    assert [a][1..] == [];
  }

  lemma ReplayTwo<T>(world: World<T>, a: Action<T>, b: Action<T>)
    ensures Replay(world, [a]) == Perform(world, a)
    ensures Replay(world, [a, b]) == Perform(Perform(world, a), b)
  {
    ReplayLast(world, [], a);
    ReplayLast(world, [a], b);
    assert [] + [a] == [a] && [a] + [b] == [a, b];
  }

  /** What the actions forward to the client, in order. */
  function Forwards<T>(actions: seq<Action<T>>): seq<Response<T>>
    decreases |actions|
  {
    if actions == [] then []
    else if actions[0].Forward? then [actions[0].response] + Forwards(actions[1..])
    else Forwards(actions[1..])
  }

  lemma {:induction false} ForwardsAppend<T>(a: seq<Action<T>>, b: seq<Action<T>>)
    ensures Forwards(a + b) == Forwards(a) + Forwards(b)
    decreases |a|
  {
    if a == [] {
      assert a + b == b;
    } else {
      assert (a + b)[1..] == a[1..] + b;
      ForwardsAppend(a[1..], b);
    }
  }

  lemma {:induction false} ReplayForwards<T>(world: World<T>, actions: seq<Action<T>>)
    ensures Replay(world, actions).responses == world.responses + Forwards(actions)
    decreases |actions|
  {
    if actions == [] {
      assert world.responses + [] == world.responses;
    } else {
      ReplayForwards(Perform(world, actions[0]), actions[1..]);
      if actions[0].Forward? {
        var was, rest := world.responses, Forwards(actions[1..]);
        assert (was + [actions[0].response]) + rest == was + ([actions[0].response] + rest);
      }
    }
  }

  lemma {:induction false} ReplayIgnoresResponses<T>(world: World<T>, other: World<T>, actions: seq<Action<T>>)
    requires other == world.(responses := other.responses)
    ensures Replay(other, actions) == Replay(world, actions).(responses := Replay(other, actions).responses)
    decreases |actions|
  {
    if actions != [] {
      ReplayIgnoresResponses(Perform(world, actions[0]), Perform(other, actions[0]), actions[1..]);
    }
  }

  /** The producer adds to what was sent on the response channel before; nothing else depends on that. */
  lemma ReplayAddsToWhatWasSent<T>(world: World<T>, sent: seq<Response<T>>, actions: seq<Action<T>>)
    ensures Replay(world.(responses := sent), actions)
         == Replay(world, actions).(responses := sent + Forwards(actions))
  {
    ReplayForwards(world.(responses := sent), actions);
    ReplayIgnoresResponses(world, world.(responses := sent), actions);
  }

  /** Processes a stream. Without a state nothing is recorded; without input channels nothing is fed. What is
      forwarded goes to the response channel, after what was sent there before. */
  method ProcessStream<T>(view: T -> View, w: Wiring, stream: Upstream<T>, state: CompletionState?<T>,
                          sent: seq<Response<T>>, patience: nat)
    returns (inputs: map<nat, seq<Input>>, responses: seq<Response<T>>, flagged: bool)
    requires w.recording <==> state != null
    requires state != null ==> state.View() == EmptyStore()
    modifies state
    ensures var actions := AllActions(view, w, stream, patience);
            var end := Replay(Start<T>(w), actions);
            && inputs == end.inputs && responses == sent + Forwards(actions) && flagged == end.flagged
            && (state != null ==> state.View() == end.store)
  {
    ReplayAddsToWhatWasSent(Start<T>(w), sent, AllActions(view, w, stream, patience));
    ghost var start := Start<T>(w).(responses := sent);
    ghost var world := start;
    inputs := if w.inputs.Some? then map c | c in w.inputs.value :: [] else map[];
    responses, flagged := sent, false;
    var withData: set<nat>, left := {}, patience;
    var i := 0;
    while i < |stream|
      invariant 0 <= i <= |stream|
      invariant inputs == world.inputs && responses == world.responses && flagged == world.flagged
      invariant state != null ==> state.View() == world.store
      invariant inputs.Keys == if w.inputs.Some? then w.inputs.value else {}
      invariant Replay(world, Actions(view, w, stream, i, withData, left))
             == Replay(start, AllActions(view, w, stream, patience))
    {
      if HungUp(w, stream[i], left) {
        return;
      }
      NextItem(view, w, stream, i, withData, left, world);
      left := Remaining(w, stream[i], left);
      withData := withData + NewData(view, w, stream[i]);
      inputs, responses, flagged := ProcessItem(view, w, i, stream[i], state, inputs, responses, flagged, world);
      world := Replay(world, MessageActions(view, w, i, stream[i]));
      i := i + 1;
    }
    if w.trailing && w.inputs.Some? {
      ReplayLast(world, [], SendEmpty(w.inputs.value - withData));
      assert [] + [Action<T>.SendEmpty(w.inputs.value - withData)] == [SendEmpty(w.inputs.value - withData)];
      inputs := map c | c in inputs ::
        if c in w.inputs.value && c !in withData then inputs[c] + [Ok((0, ""))] else inputs[c];
    }
  }

  /** Records a choice and sends its text. */
  method ProcessChoice<T>(w: Wiring, i: nat, message: T, choice: ChoiceView, state: CompletionState?<T>,
                          inputs: map<nat, seq<Input>>, flagged: bool, ghost before: World<T>)
    returns (inputs': map<nat, seq<Input>>, flagged': bool)
    requires w.recording <==> state != null
    requires inputs.Keys == if w.inputs.Some? then w.inputs.value else {}
    requires before.inputs == inputs && before.flagged == flagged
    requires state != null ==> before.store == state.View()
    modifies state
    ensures inputs'.Keys == inputs.Keys
    ensures var after := Replay(before, ChoiceActions(w, i, message, choice));
            && inputs' == after.inputs && flagged' == after.flagged && after.responses == before.responses
            && (state != null ==> state.View() == after.store)
  {
    inputs', flagged' := inputs, flagged;
    ghost var done: seq<Action<T>> := [];
    if state != null {
      state.InsertCompletion(choice.index, i, message);
      ReplayLast(before, done, Insert(choice.index, i, message));
      done := done + [Insert(choice.index, i, message)];
    }
    if w.Feeds(choice.index) {
      if choice.text != "" {
        inputs' := inputs'[choice.index := inputs'[choice.index] + [Ok((i, choice.text))]];
        ReplayLast(before, done, Send(choice.index, i, choice.text));
        done := done + [Send(choice.index, i, choice.text)];
      } else if choice.finished && w.trailing {
        flagged' := true;
        ReplayLast(before, done, FlagEmpty);
        done := done + [FlagEmpty];
      }
    }
    assert done == ChoiceActions(w, i, message, choice);
  }

  /** Reports an error to the client and on every input channel. */
  method ReportError<T>(w: Wiring, e: string, inputs: map<nat, seq<Input>>, responses: seq<Response<T>>,
                        ghost before: World<T>)
    returns (inputs': map<nat, seq<Input>>, responses': seq<Response<T>>)
    requires before.inputs == inputs && before.responses == responses
    ensures inputs'.Keys == inputs.Keys
    ensures var acts := (if w.forwarding then [Forward(Err(e))] else []) + (if w.inputs.Some? then [SendError(e)] else []);
            Replay(before, acts) == before.(inputs := inputs', responses := responses')
  {
    inputs', responses' := inputs, responses;
    ghost var done: seq<Action<T>> := [];
    if w.forwarding {
      responses' := responses' + [Err(e)];
      ReplayLast(before, done, Forward(Err(e)));
      done := done + [Forward(Err(e))];
    }
    if w.inputs.Some? {
      inputs' := map c | c in inputs' :: inputs'[c] + [Err(e)];
      ReplayLast(before, done, SendError(e));
      done := done + [SendError(e)];
    }
    assert done == (if w.forwarding then [Forward(Err(e))] else []) + (if w.inputs.Some? then [SendError(e)] else []);
  }

  /** Processes one item. */
  method ProcessItem<T>(view: T -> View, w: Wiring, i: nat, item: Result<Option<T>, string>,
                        state: CompletionState?<T>,
                        inputs: map<nat, seq<Input>>, responses: seq<Response<T>>, flagged: bool,
                        ghost before: World<T>)
    returns (inputs': map<nat, seq<Input>>, responses': seq<Response<T>>, flagged': bool)
    requires w.recording <==> state != null
    requires inputs.Keys == if w.inputs.Some? then w.inputs.value else {}
    requires before.inputs == inputs && before.responses == responses && before.flagged == flagged
    requires state != null ==> before.store == state.View()
    modifies state
    ensures inputs'.Keys == inputs.Keys
    ensures var after := Replay(before, MessageActions(view, w, i, item));
            && inputs' == after.inputs && responses' == after.responses && flagged' == after.flagged
            && (state != null ==> state.View() == after.store)
  {
    inputs', responses', flagged' := inputs, responses, flagged;
    ghost var done: seq<Action<T>> := [];
    match item {
      case Ok(None) =>
        return;
      case Err(e) =>
        inputs', responses' := ReportError(w, e, inputs, responses, before);
        return;
      case Ok(Some(message)) =>
        var v := view(message);
        if w.forwarding {
          responses' := responses' + [Ok(Some(message))];
          ReplayLast(before, done, Forward(Ok(Some(message))));
          done := done + [Forward(Ok(Some(message)))];
        }
        if UsageOnly(v) {
          if state != null {
            state.SetUsage(v.usage.value);
            ReplayLast(before, done, PutUsage(v.usage.value));
            done := done + [PutUsage(v.usage.value)];
          }
        } else {
          if i == 0 && state != null {
            state.SetMetadata(v.metadata);
            ReplayLast(before, done, PutMetadata(v.metadata));
            done := done + [PutMetadata(v.metadata)];
          }
          if v.choice.Some? {
            ghost var world := Replay(before, done);
            ReplayAppend(before, done, ChoiceActions(w, i, message, v.choice.value));
            inputs', flagged' := ProcessChoice(w, i, message, v.choice.value, state, inputs', flagged', world);
            done := done + ChoiceActions(w, i, message, v.choice.value);
          }
        }
    }
    assert done == MessageActions(view, w, i, item);
  }
}
