/** The shortcut for a single detection stream, which does without a batcher. */
module SingleStream {
  import opened Types
  import opened CompletionBatching
  import opened InOrderRelease
  import opened BatchStream
  import opened BatchStreamSafety
  import opened BatchStreamDrain

  function AsBatch(p: Push): Batch {
    Batch(p.choice, p.chunk, p.detections)
  }

  /** What the shortcut may send for a stream: every item as it came, up to and including the first error. */
  ghost predicate Forwards(stream: seq<Result<Push, string>>, out: seq<Result<Batch, string>>) {
    && |out| <= |stream|
    && (forall i :: 0 <= i < |out| ==>
          out[i] == match stream[i] { case Ok(p) => Ok(AsBatch(p)) case Err(e) => Err(e) })
    && (forall i :: 0 <= i < |out| - 1 ==> stream[i].Ok?)
    && (|out| < |stream| ==> out != [] && out[|out| - 1].Err?)
  }

  method ForwardSingleStream(stream: seq<Result<Push, string>>) returns (out: seq<Result<Batch, string>>)
    ensures Forwards(stream, out)
  {
    out := [];
    var i := 0;
    while i < |stream|
      invariant 0 <= i <= |stream| && Forwards(stream[..i], out)
      invariant forall j :: 0 <= j < i ==> stream[j].Ok?
    {
      match stream[i] {
        case Ok(p) =>
          out := out + [Ok(AsBatch(p))];
        case Err(e) =>
          out := out + [Err(e)];
          return;
      }
      i := i + 1;
    }
  }

  /** What the stream delivers before its first error. */
  function BeforeError(stream: seq<Result<Push, string>>): seq<Push> {
    if stream == [] || stream[0].Err? then [] else [stream[0].value] + BeforeError(stream[1..])
  }

  /** The first error, if there is one. */
  function ErrorOf(stream: seq<Result<Push, string>>): seq<Result<Batch, string>> {
    if stream == [] then []
    else match stream[0]
      case Ok(_) => ErrorOf(stream[1..])
      case Err(e) => [Err(e)]
  }

  /** The shortcut's output is determined: the reports before the first error, as batches, and the error. */
  lemma {:induction false} ForwardsExactly(stream: seq<Result<Push, string>>, out: seq<Result<Batch, string>>)
    requires Forwards(stream, out)
    ensures out == AsBatches(BeforeError(stream)) + ErrorOf(stream)
  {
    if stream != [] {
      assert out != [];
      if stream[0].Ok? {
        ForwardsExactly(stream[1..], out[1..]);
        var rest := BeforeError(stream[1..]);
        assert AsBatches([stream[0].value] + rest) == [Ok(AsBatch(stream[0].value))] + AsBatches(rest);
      }
    }
  }

  ghost predicate OnChoice(pushes: seq<Push>, c: nat) {
    forall i :: 0 <= i < |pushes| ==> pushes[i].choice == c
  }

  function ChunksOf(pushes: seq<Push>): (r: seq<Chunk>)
    ensures |r| == |pushes|
    ensures forall i :: 0 <= i < |r| ==> r[i] == pushes[i].chunk
  {
    seq(|pushes|, i requires 0 <= i < |pushes| => pushes[i].chunk)
  }

  function PlanOf(pushes: seq<Push>, c: nat): Plan {
    d => if d == c then ChunksOf(pushes) else []
  }

  lemma {:induction false} OneListPerChunk(pushes: seq<Push>, c: nat, i: nat, j: nat)
    requires OnChoice(pushes, c) && Ascending(ChunksOf(pushes))
    requires i < |pushes| && j <= |pushes|
    ensures ListsPushed(AsOps(pushes[..j]), pushes[i].Key()) == if i < j then [pushes[i].detections] else []
    decreases j
  {
    if j > 0 {
      OneListPerChunk(pushes, c, i, j - 1);
      assert pushes[..j] == pushes[..j - 1] + [pushes[j - 1]];
      AsOpsAppend(pushes[..j - 1], pushes[j - 1]);
      ListsPushedExtended(AsOps(pushes[..j - 1]), PushOp(pushes[j - 1]), pushes[i].Key());
      assert pushes[i].Key() == pushes[j - 1].Key() ==> i == j - 1 by {
        assert ChunksOf(pushes)[i] == pushes[i].chunk && ChunksOf(pushes)[j - 1] == pushes[j - 1].chunk;
      }
    }
  }

  lemma {:induction false} SingleStreamFollowsItsPlan(pushes: seq<Push>, c: nat, j: nat)
    requires OnChoice(pushes, c) && Ascending(ChunksOf(pushes)) && j <= |pushes|
    ensures Follows(PlanOf(pushes, c), 1, AsOps(pushes[..j]))
    decreases j
  {
    if j > 0 {
      SingleStreamFollowsItsPlan(pushes, c, j - 1);
      NextPushFollows(pushes, c, j - 1);
    }
  }

  lemma NextPushFollows(pushes: seq<Push>, c: nat, i: nat)
    requires OnChoice(pushes, c) && Ascending(ChunksOf(pushes)) && i < |pushes|
    requires Follows(PlanOf(pushes, c), 1, AsOps(pushes[..i]))
    ensures Follows(PlanOf(pushes, c), 1, AsOps(pushes[..i + 1]))
  {
    NextPushIsAdmissible(pushes, c, i);
    OneMoreFollows(PlanOf(pushes, c), pushes[..i], pushes[i], i);
    assert pushes[..i + 1] == pushes[..i] + [pushes[i]];
  }

  lemma OneMoreFollows(plan: Plan, before: seq<Push>, p: Push, i: nat)
    requires Follows(plan, 1, AsOps(before)) && Admissible(plan, 1, AsOps(before), p, i)
    ensures Follows(plan, 1, AsOps(before + [p]))
  {
    AsOpsAppend(before, p);
    assert (AsOps(before) + [PushOp(p)])[..|before|] == AsOps(before);
  }

  lemma NextPushIsAdmissible(pushes: seq<Push>, c: nat, i: nat)
    requires OnChoice(pushes, c) && Ascending(ChunksOf(pushes)) && i < |pushes|
    ensures Admissible(PlanOf(pushes, c), 1, AsOps(pushes[..i]), pushes[i], i)
  {
    OneListPerChunk(pushes, c, i, i);
    if i > 0 {
      OneListPerChunk(pushes, c, i - 1, i);
    }
  }

  lemma {:induction false} OnlyOneChoice(popped: seq<Release>, c: nat)
    requires forall d: nat :: d != c ==> For(popped, d) == []
    ensures For(popped, c) == popped
    decreases |popped|
  {
    if popped != [] {
      var init, last := popped[..|popped| - 1], popped[|popped| - 1];
      assert popped == init + [last];
      forall d: nat
        ensures d != c ==> For(init, d) == []
        ensures For(popped, d) == if last.key.choice == d then For(init, d) + [last] else For(init, d)
      {
        ForExtended(init, last, d);
      }
      assert |For(popped, last.key.choice)| > 0;
      OnlyOneChoice(init, c);
    }
  }

  function AsBatches(pushes: seq<Push>): (r: seq<Result<Batch, string>>)
    ensures |r| == |pushes|
    ensures forall i :: 0 <= i < |r| ==> r[i] == Ok(AsBatch(pushes[i]))
  {
    seq(|pushes|, i requires 0 <= i < |pushes| => Ok(AsBatch(pushes[i])))
  }

  lemma SingleStreamLists(pushes: seq<Push>, c: nat, ops: seq<Op>, i: nat)
    requires OnChoice(pushes, c) && Ascending(ChunksOf(pushes))
    requires PushesOf(ops) == pushes && i < |pushes|
    ensures ListsPushed(ops, pushes[i].Key()) == [pushes[i].detections]
  {
    var k := pushes[i].Key();
    ListsPushedAreListsOfPushes(ops, k);
    ListsPushedAreListsOfPushes(AsOps(pushes), k);
    PushesOfAsOps(pushes);
    assert pushes[..|pushes|] == pushes;
    OneListPerChunk(pushes, c, i, |pushes|);
  }

  lemma SingleStreamInOrder(pushes: seq<Push>, c: nat, ops: seq<Op>)
    requires OnChoice(pushes, c) && Ascending(ChunksOf(pushes))
    requires PushesOf(ops) == pushes
    ensures InOrder(PlanOf(pushes, c), 1, ops, Exec(1, ops))
    ensures For(Exec(1, ops).popped, c) == Exec(1, ops).popped
  {
    var plan, h := PlanOf(pushes, c), Exec(1, ops);
    assert pushes[..|pushes|] == pushes;
    SingleStreamFollowsItsPlan(pushes, c, |pushes|);
    FollowsDependsOnPushes(plan, 1, ops);
    ReleasesFollowThePlan(plan, 1, ops);
    forall d: nat | d != c
      ensures For(h.popped, d) == []
    {
      assert ChoiceInOrder(plan, 1, ops, h, d);
    }
    OnlyOneChoice(h.popped, c);
  }

  lemma SingleStreamBatch(pushes: seq<Push>, c: nat, ops: seq<Op>, i: nat)
    requires OnChoice(pushes, c) && Ascending(ChunksOf(pushes))
    requires PushesOf(ops) == pushes && i < |pushes|
    ensures FullRelease(PlanOf(pushes, c), ops, c, i).ToBatch() == AsBatch(pushes[i])
  {
    SingleStreamLists(pushes, c, ops, i);
    FlattenSingleton(pushes[i].detections);
  }

  lemma DrainedBatcherEmitsAll(pushes: seq<Push>, c: nat, ops: seq<Op>)
    requires OnChoice(pushes, c) && Ascending(ChunksOf(pushes))
    requires PushesOf(ops) == pushes && Exec(1, ops).state == map[]
    ensures AsOutput(Exec(1, ops).popped) == AsBatches(pushes)
  {
    var plan, popped := PlanOf(pushes, c), Exec(1, ops).popped;
    SingleStreamInOrder(pushes, c, ops);
    assert ChoiceInOrder(plan, 1, ops, Exec(1, ops), c);
    if |popped| < |pushes| {
      SingleStreamLists(pushes, c, ops, |popped|);
      UnreleasedChunkIsHeld(plan, 1, ops, Exec(1, ops), c);
    }
    forall i | 0 <= i < |pushes|
      ensures popped[i].ToBatch() == AsBatch(pushes[i])
    {
      SingleStreamBatch(pushes, c, ops, i);
    }
  }

  /** For one detector and one choice that deliver strictly ascending chunks, the shortcut sends exactly what a
      batcher for one detector emits, under every schedule of pops that ends drained, and then the error, if the
      stream has one. */
  lemma ShortcutEqualsBatcher(stream: seq<Result<Push, string>>, out: seq<Result<Batch, string>>, c: nat, ops: seq<Op>)
    requires Forwards(stream, out)
    requires OnChoice(BeforeError(stream), c) && Ascending(ChunksOf(BeforeError(stream)))
    requires PushesOf(ops) == BeforeError(stream) && Exec(1, ops).state == map[]
    ensures out == AsOutput(Exec(1, ops).popped) + ErrorOf(stream)
  {
    ForwardsExactly(stream, out);
    DrainedBatcherEmitsAll(BeforeError(stream), c, ops);
  }

  // ---------------------------------------------------------------------------------------------
  // The condition is exact

  function Pops(k: nat): seq<Op> {
    seq(k, i => PopOp)
  }

  lemma PopKeepsDrain(n: nat, h: History)
    ensures var g := Apply(n, h, PopOp);
            && g.popped + DrainList(n, g.state) == h.popped + DrainList(n, h.state)
            && DrainRest(n, g.state) == DrainRest(n, h.state)
            && (Ready(n, h.state) ==> |g.popped| == |h.popped| + 1)
            && (!Ready(n, h.state) ==> g == h)
  {
    if Ready(n, h.state) {
      DrainUnfolds(n, h.state);
      var r := NextRelease(n, h.state);
      assert (h.popped + [r]) + DrainList(n, Popped(n, h.state)) == h.popped + ([r] + DrainList(n, Popped(n, h.state)));
    }
  }

  lemma OneMorePop(n: nat, ops: seq<Op>, k: nat)
    ensures Exec(n, ops + Pops(k + 1)) == Apply(n, Exec(n, ops + Pops(k)), PopOp)
    ensures PushesOf(ops + Pops(k + 1)) == PushesOf(ops + Pops(k))
  {
    assert ops + Pops(k + 1) == (ops + Pops(k)) + [PopOp];
    OneMoreOp(n, ops + Pops(k), PopOp);
  }

  lemma {:induction false} PopsDrain(n: nat, ops: seq<Op>, k: nat)
    ensures var h, g := Exec(n, ops), Exec(n, ops + Pops(k));
            && g.popped + DrainList(n, g.state) == h.popped + DrainList(n, h.state)
            && DrainRest(n, g.state) == DrainRest(n, h.state)
            && (|g.popped| == |h.popped| + k || !Ready(n, g.state))
            && PushesOf(ops + Pops(k)) == PushesOf(ops)
    decreases k
  {
    if k == 0 {
      assert ops + Pops(0) == ops;
    } else {
      PopsDrain(n, ops, k - 1);
      OneMorePop(n, ops, k - 1);
      PopKeepsDrain(n, Exec(n, ops + Pops(k - 1)));
    }
  }

  lemma {:induction false} PushesOnlyPopNothing(n: nat, pushes: seq<Push>)
    ensures Exec(n, AsOps(pushes)).popped == []
    decreases |pushes|
  {
    if pushes != [] {
      var init := pushes[..|pushes| - 1];
      assert pushes == init + [pushes[|pushes| - 1]];
      AsOpsAppend(init, pushes[|pushes| - 1]);
      OneMoreOp(n, AsOps(init), PushOp(pushes[|pushes| - 1]));
      PushesOnlyPopNothing(n, init);
    }
  }

  lemma {:induction false} EntriesComeFromPushes(n: nat, pushes: seq<Push>)
    ensures forall k :: k in Exec(n, AsOps(pushes)).state ==> exists i :: 0 <= i < |pushes| && pushes[i].Key() == k
    decreases |pushes|
  {
    if pushes != [] {
      var init, last := pushes[..|pushes| - 1], pushes[|pushes| - 1];
      assert pushes == init + [last];
      AsOpsAppend(init, last);
      OneMoreOp(n, AsOps(init), PushOp(last));
      EntriesComeFromPushes(n, init);
      forall k | k in Exec(n, AsOps(pushes)).state
        ensures exists i :: 0 <= i < |pushes| && pushes[i].Key() == k
      {
        if k == last.Key() {
          assert pushes[|pushes| - 1].Key() == k;
        } else {
          var i :| 0 <= i < |init| && init[i].Key() == k;
          assert pushes[i].Key() == k;
        }
      }
    }
  }

  lemma AscendingStreamsDrain(pushes: seq<Push>, c: nat)
    requires OnChoice(pushes, c) && Ascending(ChunksOf(pushes))
    ensures AllReady(1, Exec(1, AsOps(pushes)).state)
  {
    var ops := AsOps(pushes);
    var h := Exec(1, ops);
    EntriesComeFromPushes(1, pushes);
    PushesOnlyPopNothing(1, pushes);
    forall k | k in h.state
      ensures |h.state[k].lists| == 1
    {
      var i :| 0 <= i < |pushes| && pushes[i].Key() == k;
      assert pushes[..|pushes|] == pushes;
      OneListPerChunk(pushes, c, i, |pushes|);
      BatcherConservesLists(1, ops, k);
    }
  }

  lemma DrainedAfterEnoughPops(pushes: seq<Push>, c: nat)
    requires OnChoice(pushes, c) && Ascending(ChunksOf(pushes))
    ensures AsOutput(Exec(1, AsOps(pushes) + Pops(|pushes|)).popped) == AsBatches(pushes)
  {
    var ops := AsOps(pushes);
    var h := Exec(1, ops);
    var k := |DrainList(1, h.state)|;
    PushesOnlyPopNothing(1, pushes);
    AscendingStreamsDrain(pushes, c);
    DrainEmptiesIffAllReady(1, h.state);
    PushesOfAsOps(pushes);
    PopsDrain(1, ops, k);
    var g := Exec(1, ops + Pops(k));
    assert [] + DrainList(1, h.state) == DrainList(1, h.state);
    assert |g.popped| + |DrainList(1, g.state)| == k;
    assert !Ready(1, g.state);
    assert g.state == map[];
    DrainedBatcherEmitsAll(pushes, c, ops + Pops(k));
    assert k == |pushes|;
  }

  /** What is popped after all pushes is the beginning of what draining gives. */
  lemma PoppedBeginsTheDrain(pushes: seq<Push>, k: nat)
    ensures Exec(1, AsOps(pushes) + Pops(k)).popped <= DrainList(1, Exec(1, AsOps(pushes)).state)
  {
    var list := DrainList(1, Exec(1, AsOps(pushes)).state);
    PushesOnlyPopNothing(1, pushes);
    PopsDrain(1, AsOps(pushes), k);
    assert [] + list == list;
  }

  lemma AscendingReleasesMeanAscendingChunks(pushes: seq<Push>, c: nat, popped: seq<Release>, list: seq<Release>)
    requires OnChoice(pushes, c) && popped <= list && Ascends(list) && AsOutput(popped) == AsBatches(pushes)
    ensures Ascending(ChunksOf(pushes))
  {
    assert |popped| == |AsOutput(popped)| == |pushes|;
    forall i | 0 <= i < |pushes|
      ensures list[i].key == BatchKey(ChunksOf(pushes)[i].Key(), c)
    {
      assert AsOutput(popped)[i] == AsBatches(pushes)[i];
      assert popped[i] == list[i];
    }
    forall i, j | 0 <= i < j < |pushes|
      ensures ChunkEarlier(ChunksOf(pushes)[i].Key(), ChunksOf(pushes)[j].Key())
    {
      assert Earlier(list[i].key, list[j].key);
    }
  }

  lemma EmitsAllIffAscending(pushes: seq<Push>, c: nat)
    requires OnChoice(pushes, c)
    ensures AsOutput(Exec(1, AsOps(pushes) + Pops(|pushes|)).popped) == AsBatches(pushes)
            <==> Ascending(ChunksOf(pushes))
  {
    if Ascending(ChunksOf(pushes)) {
      DrainedAfterEnoughPops(pushes, c);
    } else if AsOutput(Exec(1, AsOps(pushes) + Pops(|pushes|)).popped) == AsBatches(pushes) {
      var drained := Exec(1, AsOps(pushes)).state;
      PoppedBeginsTheDrain(pushes, |pushes|);
      DrainIsAscendingAndExact(1, drained);
      AscendingReleasesMeanAscendingChunks(
        pushes, c, Exec(1, AsOps(pushes) + Pops(|pushes|)).popped, DrainList(1, drained));
    }
  }

  /** The shortcut and a batcher that is popped after all pushes agree exactly if the chunks before the first error
      ascend strictly. */
  lemma ShortcutEqualsBatcherIffAscending(stream: seq<Result<Push, string>>, out: seq<Result<Batch, string>>, c: nat)
    requires Forwards(stream, out) && OnChoice(BeforeError(stream), c)
    ensures var pushes := BeforeError(stream);
            out == AsOutput(Exec(1, AsOps(pushes) + Pops(|pushes|)).popped) + ErrorOf(stream)
            <==> Ascending(ChunksOf(pushes))
  {
    var pushes := BeforeError(stream);
    var emitted, all := AsOutput(Exec(1, AsOps(pushes) + Pops(|pushes|)).popped), AsBatches(pushes);
    ForwardsExactly(stream, out);
    EmitsAllIffAscending(pushes, c);
    if all + ErrorOf(stream) == emitted + ErrorOf(stream) {
      assert all == (all + ErrorOf(stream))[..|all|];
      assert emitted == (emitted + ErrorOf(stream))[..|emitted|];
    }
  }
}
