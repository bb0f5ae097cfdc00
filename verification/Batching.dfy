/** Ordered maps as the batchers use them: entries kept by key, the least key first. */
module OrderedMaps {

  ghost predicate StrictTotalOrder<K(!new)>(less: (K, K) -> bool) {
    && (forall a :: !less(a, a))
    && (forall a, b :: a != b ==> less(a, b) || less(b, a))
    && (forall a, b, c :: less(a, b) && less(b, c) ==> less(a, c))
  }

  predicate IsFirst<K(==)>(less: (K, K) -> bool, k: K, keys: set<K>) {
    k in keys && forall j | j in keys :: j == k || less(k, j)
  }

  lemma {:induction false} FirstExists<K(!new)>(less: (K, K) -> bool, keys: set<K>)
    requires StrictTotalOrder(less) && keys != {}
    ensures exists k :: IsFirst(less, k, keys)
  {
    var x :| x in keys;
    if keys == {x} {
      assert IsFirst(less, x, keys);
    } else {
      var rest := keys - {x};
      FirstExists(less, rest);
      var y :| IsFirst(less, y, rest);
      if less(x, y) {
        assert forall j :: j in rest ==> less(x, j);
        assert forall j :: j in keys ==> j == x || j in rest;
        assert IsFirst(less, x, keys);
      } else {
        assert IsFirst(less, y, keys);
      }
    }
  }

  /** The key `first_key_value` reports. */
  function First<K(==, !new)>(less: (K, K) -> bool, keys: set<K>): (k: K)
    requires StrictTotalOrder(less) && keys != {}
    ensures IsFirst(less, k, keys)
  {
    FirstExists(less, keys);
    var k :| k in keys && IsFirst(less, k, keys);
    k
  }
}

/** The batcher for completions: one entry per chunk and choice. */
module CompletionBatching {
  import opened Types
  import opened OrderedMaps

  /** What is kept for a key: the text of the chunk that created the entry, and one list per push. */
  datatype Slot = Slot(text: string, lists: seq<seq<Detection>>)

  type State = map<BatchKey, Slot>

  function KeyOf(chunk: Chunk, choice: nat): BatchKey {
    BatchKey(chunk.Key(), choice)
  }

  function ChunkAt(key: ChunkKey, text: string): Chunk {
    Chunk(key.inputStart, key.inputEnd, key.start, key.end, text)
  }

  lemma KeysAreTotallyOrdered()
    ensures StrictTotalOrder(KeyLess)
  {
  }

  function FirstKey(state: State): (k: BatchKey)
    requires state != map[]
    ensures IsFirst(KeyLess, k, state.Keys)
  {
    KeysAreTotallyOrdered();
    assert state.Keys != {};
    First(KeyLess, state.Keys)
  }

  /** An entry taken out of the map by a pop, before its lists are flattened. */
  datatype Release = Release(key: BatchKey, slot: Slot) {
    function ToBatch(): Batch {
      Batch(key.choice, ChunkAt(key.chunk, slot.text), Flatten(slot.lists))
    }
  }

  function Pushed(state: State, choice: nat, chunk: Chunk, detections: seq<Detection>): State {
    var k := KeyOf(chunk, choice);
    if k in state then state[k := Slot(state[k].text, state[k].lists + [detections])]
    else state[k := Slot(chunk.text, [detections])]
  }

  /** The least entry can be released: it holds exactly one list per detector. */
  predicate Ready(n: nat, state: State) {
    state != map[] && |state[FirstKey(state)].lists| == n
  }

  function NextRelease(n: nat, state: State): Release
    requires Ready(n, state)
  {
    var k := FirstKey(state);
    Release(k, state[k])
  }

  function Popped(n: nat, state: State): State {
    if Ready(n, state) then state - {FirstKey(state)} else state
  }

  function PopResult(n: nat, state: State): Option<Batch> {
    if Ready(n, state) then Some(NextRelease(n, state).ToBatch()) else None
  }

  /** Every entry was created by a push, so it holds at least one list. */
  ghost predicate WellFormed(state: State) {
    forall k :: k in state ==> |state[k].lists| >= 1
  }

  class CompletionBatcher {
    const nDetectors: nat
    var state: State

    ghost predicate Valid()
      reads this
    {
      WellFormed(state)
    }

    constructor (nDetectors: nat)
      ensures Valid() && this.nDetectors == nDetectors && state == map[]
    {
      this.nDetectors := nDetectors;
      state := map[];
    }

    method Push(choice: nat, chunk: Chunk, detections: seq<Detection>)
      requires Valid()
      modifies this
      ensures Valid()
      ensures state == Pushed(old(state), choice, chunk, detections)
      ensures var k := KeyOf(chunk, choice);
              k in state && state[k] == if k in old(state) then Slot(old(state)[k].text, old(state)[k].lists + [detections])
                                        else Slot(chunk.text, [detections])
      ensures forall k :: k != KeyOf(chunk, choice) ==>
                (k in state <==> k in old(state)) && (k in state ==> state[k] == old(state)[k])
    {
      var k := KeyOf(chunk, choice);
      if k !in state {
        state := state[k := Slot(chunk.text, [detections])];
      } else {
        var slot := state[k];
        state := state[k := slot.(lists := slot.lists + [detections])];
      }
    }

    method PopBatch() returns (batch: Option<Batch>)
      requires Valid()
      modifies this
      ensures Valid()
      ensures state == Popped(nDetectors, old(state))
      ensures batch == PopResult(nDetectors, old(state))
      ensures batch.Some? ==>
                var k := KeyOf(batch.value.chunk, batch.value.choice);
                && k in old(state) && state.Keys == old(state).Keys - {k}
                && |old(state)[k].lists| == nDetectors
                && forall j :: j in old(state) && j != k ==> Earlier(k, j)
      ensures batch.None? ==>
                forall k :: k in old(state) && (forall j :: j in old(state) && j != k ==> Earlier(k, j)) ==>
                  |old(state)[k].lists| != nDetectors
    {
      batch := None;
      if state != map[] {
        var k := FirstKey(state);
        if |state[k].lists| == nDetectors {
          var slot := state[k];
          state := state - {k};
          batch := Some(Batch(k.choice, ChunkAt(k.chunk, slot.text), Flatten(slot.lists)));
        }
      }
    }

    method IsEmpty() returns (empty: bool)
      ensures empty <==> state == map[]
    {
      empty := |state| == 0;
    }
  }

  /** Of all entries, of whatever choice, one is the least in the five numbers. */
  lemma SomeEntryIsEarliest(state: State)
    requires state != map[]
    ensures exists k :: k in state && forall j :: j in state && j != k ==> Earlier(k, j)
  {
    var k := FirstKey(state);
    forall j | j in state && j != k
      ensures Earlier(k, j)
    {
      assert KeyLess(k, j);
    }
  }

  /** A pop never overtakes: no entry left behind, of any choice, has a smaller inputStart; or the same and a smaller
      inputEnd; or the same again and a smaller start; and so on with end and choice. */
  lemma PopNeverOvertakes(n: nat, state: State, j: BatchKey)
    requires PopResult(n, state).Some? && j in Popped(n, state)
    ensures var b, late := PopResult(n, state).value, j.chunk;
            var first := b.chunk;
            && first.inputStartIndex <= late.inputStart
            && (first.inputStartIndex == late.inputStart ==>
                  && first.inputEndIndex <= late.inputEnd
                  && (first.inputEndIndex == late.inputEnd ==>
                        && first.start <= late.start
                        && (first.start == late.start ==>
                              && first.end <= late.end
                              && (first.end == late.end ==> b.choice < j.choice))))
  {
  }

  /** A pop answers with a batch exactly when some least key holds exactly n lists; the batch is that
      entry, and the entry is all that leaves the map. */
  lemma PopReleasesExactlyTheLeastCompleteEntry(n: nat, state: State, k: BatchKey)
    requires k in state && forall j :: j in state && j != k ==> Earlier(k, j)
    ensures PopResult(n, state).Some? <==> |state[k].lists| == n
    ensures |state[k].lists| == n ==>
              && PopResult(n, state).value.choice == k.choice
              && PopResult(n, state).value.chunk.Key() == k.chunk
              && PopResult(n, state).value.chunk.text == state[k].text
              && PopResult(n, state).value.detections == Flatten(state[k].lists)
              && Popped(n, state).Keys == state.Keys - {k}
              && forall j :: j in state && j != k ==> Popped(n, state)[j] == state[j]
    ensures |state[k].lists| != n ==> Popped(n, state) == state
  {
    assert FirstKey(state) == k;
  }

  // ---------------------------------------------------------------------------------------------
  // Traces of operations

  datatype Push = Push(choice: nat, chunk: Chunk, detections: seq<Detection>) {
    function Key(): BatchKey { KeyOf(chunk, choice) }
  }

  datatype Op = PushOp(push: Push) | PopOp

  /** A batcher and everything popped from it so far, oldest first. */
  datatype History = History(state: State, popped: seq<Release>)

  function Apply(n: nat, h: History, op: Op): History {
    match op
    case PushOp(p) => h.(state := Pushed(h.state, p.choice, p.chunk, p.detections))
    case PopOp =>
      if Ready(n, h.state) then History(Popped(n, h.state), h.popped + [NextRelease(n, h.state)]) else h
  }

  /** A fresh batcher after the operations, in order. */
  function Exec(n: nat, ops: seq<Op>): History {
    if ops == [] then History(map[], [])
    else Apply(n, Exec(n, ops[..|ops| - 1]), ops[|ops| - 1])
  }

  /** The lists pushed for a key, oldest first. */
  function ListsPushed(ops: seq<Op>, k: BatchKey): seq<seq<Detection>> {
    if ops == [] then []
    else
      var last, before := ops[|ops| - 1], ListsPushed(ops[..|ops| - 1], k);
      if last.PushOp? && last.push.Key() == k then before + [last.push.detections] else before
  }

  lemma ListsPushedExtended(ops: seq<Op>, op: Op, k: BatchKey)
    ensures ListsPushed(ops + [op], k)
         == if op.PushOp? && op.push.Key() == k then ListsPushed(ops, k) + [op.push.detections] else ListsPushed(ops, k)
  {
    assert (ops + [op])[..|ops|] == ops;
  }

  /** The lists that left with releases of a key, oldest first. */
  function ListsPopped(popped: seq<Release>, k: BatchKey): seq<seq<Detection>> {
    if popped == [] then []
    else
      var last, before := popped[|popped| - 1], ListsPopped(popped[..|popped| - 1], k);
      if last.key == k then before + last.slot.lists else before
  }

  function ListsHeld(state: State, k: BatchKey): seq<seq<Detection>> {
    if k in state then state[k].lists else []
  }

  /** Conservation, for every trace: the lists pushed for a key are, in order, those already released
      under that key followed by those still held. Nothing is lost, invented, reordered or moved to
      another key. */
  lemma {:induction false} BatcherConservesLists(n: nat, ops: seq<Op>, k: BatchKey)
    ensures WellFormed(Exec(n, ops).state)
    ensures ListsPushed(ops, k) == ListsPopped(Exec(n, ops).popped, k) + ListsHeld(Exec(n, ops).state, k)
    decreases |ops|
  {
    if ops != [] {
      var before := ops[..|ops| - 1];
      BatcherConservesLists(n, before, k);
      var h := Exec(n, before);
      if ops[|ops| - 1].PopOp? && Ready(n, h.state) {
        var r := NextRelease(n, h.state);
        assert (h.popped + [r])[..|h.popped|] == h.popped;
      }
    }
  }

  /** Every release carries exactly n lists. */
  lemma {:induction false} ReleasesAreComplete(n: nat, ops: seq<Op>)
    ensures forall i :: 0 <= i < |Exec(n, ops).popped| ==> |Exec(n, ops).popped[i].slot.lists| == n
    decreases |ops|
  {
    if ops != [] {
      ReleasesAreComplete(n, ops[..|ops| - 1]);
    }
  }
}

/** The single-input batcher: one entry per chunk, the input id ignored. */
module MaxProcessedIndexBatching {
  import opened Types
  import opened OrderedMaps
  import CB = CompletionBatching

  type State = map<ChunkKey, CB.Slot>

  function FirstChunk(state: State): (k: ChunkKey)
    requires state != map[]
    ensures IsFirst(ChunkLess, k, state.Keys)
  {
    assert state.Keys != {};
    assert StrictTotalOrder(ChunkLess);
    First(ChunkLess, state.Keys)
  }

  function Pushed(state: State, chunk: Chunk, detections: seq<Detection>): State {
    var k := chunk.Key();
    if k in state then state[k := CB.Slot(state[k].text, state[k].lists + [detections])]
    else state[k := CB.Slot(chunk.text, [detections])]
  }

  predicate Ready(n: nat, state: State) {
    state != map[] && |state[FirstChunk(state)].lists| == n
  }

  function Popped(n: nat, state: State): State {
    if Ready(n, state) then state - {FirstChunk(state)} else state
  }

  function PopResult(n: nat, state: State): Option<Batch> {
    if Ready(n, state) then
      var k := FirstChunk(state);
      Some(Batch(0, CB.ChunkAt(k, state[k].text), Flatten(state[k].lists)))
    else None
  }

  class MaxProcessedIndexBatcher {
    const nDetectors: nat
    var state: State

    ghost predicate Valid()
      reads this
    {
      forall k :: k in state ==> |state[k].lists| >= 1
    }

    constructor (nDetectors: nat)
      ensures Valid() && this.nDetectors == nDetectors && state == map[]
    {
      this.nDetectors := nDetectors;
      state := map[];
    }

    method Push(inputId: nat, chunk: Chunk, detections: seq<Detection>)
      requires Valid()
      modifies this
      ensures Valid()
      ensures state == Pushed(old(state), chunk, detections)
      ensures var k := chunk.Key();
              k in state && state[k] == if k in old(state) then CB.Slot(old(state)[k].text, old(state)[k].lists + [detections])
                                        else CB.Slot(chunk.text, [detections])
      ensures forall k :: k != chunk.Key() ==> (k in state <==> k in old(state)) && (k in state ==> state[k] == old(state)[k])
    {
      var k := chunk.Key();
      if k !in state {
        state := state[k := CB.Slot(chunk.text, [detections])];
      } else {
        var slot := state[k];
        state := state[k := slot.(lists := slot.lists + [detections])];
      }
    }

    method PopBatch() returns (batch: Option<Batch>)
      requires Valid()
      modifies this
      ensures Valid()
      ensures state == Popped(nDetectors, old(state))
      ensures batch == PopResult(nDetectors, old(state))
      ensures batch.Some? ==>
                var k := batch.value.chunk.Key();
                && k in old(state) && state.Keys == old(state).Keys - {k}
                && |old(state)[k].lists| == nDetectors
                && forall j :: j in old(state) && j != k ==> ChunkEarlier(k, j)
    {
      batch := None;
      if state != map[] {
        var k := FirstChunk(state);
        if |state[k].lists| == nDetectors {
          var slot := state[k];
          state := state - {k};
          batch := Some(Batch(0, CB.ChunkAt(k, slot.text), Flatten(slot.lists)));
        }
      }
    }

    method IsEmpty() returns (empty: bool)
      ensures empty <==> state == map[]
    {
      empty := |state| == 0;
    }
  }

  // ---------------------------------------------------------------------------------------------
  // Simulation

  /** What a caller of a batcher can do, and what it sees. */
  datatype Call = CallPush(inputId: nat, chunk: Chunk, detections: seq<Detection>) | CallPop | CallIsEmpty

  datatype Answer = Done | Batched(batch: Option<Batch>) | Emptiness(empty: bool)

  /** The answers of this batcher to a list of calls. */
  function Answers(n: nat, state: State, calls: seq<Call>): seq<Answer>
    decreases |calls|
  {
    if calls == [] then []
    else match calls[0]
      case CallPush(_, chunk, ds) => [Done] + Answers(n, Pushed(state, chunk, ds), calls[1..])
      case CallPop => [Batched(PopResult(n, state))] + Answers(n, Popped(n, state), calls[1..])
      case CallIsEmpty => [Emptiness(state == map[])] + Answers(n, state, calls[1..])
  }

  /** The answers of the completion batcher to the same calls. */
  function CompletionAnswers(n: nat, state: CB.State, calls: seq<Call>): seq<Answer>
    decreases |calls|
  {
    if calls == [] then []
    else match calls[0]
      case CallPush(id, chunk, ds) => [Done] + CompletionAnswers(n, CB.Pushed(state, id, chunk, ds), calls[1..])
      case CallPop => [Batched(CB.PopResult(n, state))] + CompletionAnswers(n, CB.Popped(n, state), calls[1..])
      case CallIsEmpty => [Emptiness(state == map[])] + CompletionAnswers(n, state, calls[1..])
  }

  /** The same calls with every input id replaced by 0. */
  function WithoutIds(calls: seq<Call>): (r: seq<Call>)
    ensures |r| == |calls|
  {
    if calls == [] then []
    else [if calls[0].CallPush? then calls[0].(inputId := 0) else calls[0]] + WithoutIds(calls[1..])
  }

  /** The two maps hold the same slots, the second one all under choice 0. */
  ghost predicate Simulates(state: State, completion: CB.State) {
    && (forall k :: k in state ==> BatchKey(k, 0) in completion && completion[BatchKey(k, 0)] == state[k])
    && (forall k :: k in completion ==> k.choice == 0 && k.chunk in state)
  }

  lemma SimulatedPop(n: nat, state: State, completion: CB.State)
    requires Simulates(state, completion)
    ensures state == map[] <==> completion == map[]
    ensures PopResult(n, state) == CB.PopResult(n, completion)
    ensures Simulates(Popped(n, state), CB.Popped(n, completion))
  {
    if state != map[] {
      var k := FirstChunk(state);
      assert BatchKey(k, 0) in completion;
      var f := CB.FirstKey(completion);
      assert f.chunk in state;
      assert f == BatchKey(k, 0);
    } else {
      assert completion.Keys == {};
    }
  }

  lemma {:induction false} AnswersFromRelatedStates(n: nat, state: State, completion: CB.State, calls: seq<Call>)
    requires Simulates(state, completion)
    ensures Answers(n, state, calls) == CompletionAnswers(n, completion, WithoutIds(calls))
    decreases |calls|
  {
    if calls != [] {
      var zeroed := WithoutIds(calls);
      assert zeroed[1..] == WithoutIds(calls[1..]);
      match calls[0]
      case CallPush(id, chunk, ds) =>
        AnswersFromRelatedStates(n, Pushed(state, chunk, ds), CB.Pushed(completion, 0, chunk, ds), calls[1..]);
      case CallPop =>
        SimulatedPop(n, state, completion);
        AnswersFromRelatedStates(n, Popped(n, state), CB.Popped(n, completion), calls[1..]);
      case CallIsEmpty =>
        SimulatedPop(n, state, completion);
        AnswersFromRelatedStates(n, state, completion, calls[1..]);
    }
  }

  lemma {:induction false} WithoutIdsIsIdentityOnZeroIds(calls: seq<Call>)
    requires forall i :: 0 <= i < |calls| && calls[i].CallPush? ==> calls[i].inputId == 0
    ensures WithoutIds(calls) == calls
  {
    if calls != [] {
      var rest := calls[1..];
      assert forall i :: 0 <= i < |rest| ==> rest[i] == calls[i + 1];
      WithoutIdsIsIdentityOnZeroIds(rest);
      assert calls == [calls[0]] + rest;
    }
  }

  /** On any trace whose input ids are all 0 the two batchers, started empty, give the same answer to
      every pop and every emptiness check, chunk text included. */
  lemma BatchersAgreeOnZeroIds(n: nat, calls: seq<Call>)
    requires forall i :: 0 <= i < |calls| && calls[i].CallPush? ==> calls[i].inputId == 0
    ensures Answers(n, map[], calls) == CompletionAnswers(n, map[], calls)
  {
    WithoutIdsIsIdentityOnZeroIds(calls);
    AnswersFromRelatedStates(n, map[], map[], calls);
  }

  /** With other ids the agreement is with the id-less trace only; the ids themselves are lost: one
      push and one pop already tell the batchers apart exactly when the id is not 0. */
  lemma BatchersDifferOnOtherIds(id: nat, chunk: Chunk, detections: seq<Detection>)
    ensures var calls := [CallPush(id, chunk, detections), CallPop];
            Answers(1, map[], calls) == CompletionAnswers(1, map[], calls) <==> id == 0
  {
    var calls := [CallPush(id, chunk, detections), CallPop];
    var s := Pushed(map[], chunk, detections);
    var c := CB.Pushed(map[], id, chunk, detections);
    assert FirstChunk(s) == chunk.Key();
    assert CB.FirstKey(c) == CB.KeyOf(chunk, id);
    var rest := calls[1..];
    assert rest == [CallPop];
    assert Answers(1, s, rest) == [Batched(PopResult(1, s))] + Answers(1, Popped(1, s), rest[1..]);
    assert CompletionAnswers(1, c, rest) == [Batched(CB.PopResult(1, c))] + CompletionAnswers(1, CB.Popped(1, c), rest[1..]);
    assert Answers(1, map[], calls)[1] == Batched(PopResult(1, s));
    assert CompletionAnswers(1, map[], calls)[1] == Batched(CB.PopResult(1, c));
  }
}
