/** What holds of the detection batch stream on every run. */
module BatchStreamSafety {
  import opened Types
  import opened CompletionBatching
  import opened InOrderRelease
  import opened BatchStream

  /** The releases whose batch was sent. */
  function SentIn(s: Sys): seq<Release> {
    if |s.popped| == |s.fates| then SentOf(s.popped, s.fates) else []
  }

  // ---------------------------------------------------------------------------------------------
  // Conservation

  /** The lists a sequence of pushes carries for a key, in order. */
  function ListsOf(pushes: seq<Push>, k: BatchKey): seq<seq<Detection>> {
    if pushes == [] then []
    else
      var last, before := pushes[|pushes| - 1], ListsOf(pushes[..|pushes| - 1], k);
      if last.Key() == k then before + [last.detections] else before
  }

  lemma {:induction false} ListsOfAppend(a: seq<Push>, b: seq<Push>, k: BatchKey)
    ensures ListsOf(a + b, k) == ListsOf(a, k) + ListsOf(b, k)
    decreases |b|
  {
    if b == [] {
      assert a + b == a;
    } else {
      var init := b[..|b| - 1];
      ListsOfAppend(a, init, k);
      assert (a + b)[..|a + b| - 1] == a + init;
    }
  }

  lemma {:induction false} ListsPushedAreListsOfPushes(ops: seq<Op>, k: BatchKey)
    ensures ListsPushed(ops, k) == ListsOf(PushesOf(ops), k)
    decreases |ops|
  {
    if ops != [] {
      var init, last := ops[..|ops| - 1], ops[|ops| - 1];
      ListsPushedAreListsOfPushes(init, k);
      if last.PushOp? {
        var before := PushesOf(init);
        assert (before + [last.push])[..|before|] == before;
      }
    }
  }

  /** Conservation, in every state of every run and for every key: the lists received from the streams
      are, in order, those of the batches released, those the batcher holds, and those waiting in the
      mailbox. Each batch released was either sent, or discarded because the future that asked for it
      was dropped, or is the newest one and still in the reply channel; the batch channel got exactly
      those sent, in release order, and after them the error if the run failed. */
  lemma EveryListIsInExactlyOnePlace(n: nat, steps: seq<Step>, k: BatchKey)
    ensures var s := Run(Init(n), steps);
            && ListsOf(s.received, k)
               == ListsPopped(s.popped, k) + ListsHeld(s.state, k) + ListsOf(MailPushes(s.mailbox), k)
            && |s.fates| == |s.popped|
            && s.out == AsOutput(SentIn(s)) + (if s.phase.Failed? then [Err(s.phase.error)] else [])
            && (forall i :: 0 <= i < |s.fates| && s.fates[i].Unread? ==>
                  i == |s.fates| - 1 && s.pop == Answered(Some(s.popped[i].ToBatch())))
            && (forall i :: 0 <= i < |s.popped| ==> |s.popped[i].slot.lists| == n)
  {
    var s := Run(Init(n), steps);
    InvariantHoldsOnEveryRun(n, steps);
    BatcherConservesLists(n, s.ops, k);
    ListsPushedAreListsOfPushes(s.ops, k);
    ListsOfAppend(PushesOf(s.ops), MailPushes(s.mailbox), k);
    ReleasesAreComplete(n, s.ops);
  }

  // ---------------------------------------------------------------------------------------------
  // Loss

  /** The step drops a pop future whose request was already posted and whose batch, if it gets one, was
      not taken. */
  ghost predicate Drops(s: Sys, step: Step) {
    && Enabled(s, step)
    && (s.pop.Waiting? || HoldsBatch(s))
    && (step.Receive? || step.ReceiveError? || step.StreamsEnd? || step.TakeEmpty?)
  }

  ghost predicate DropFree(s: Sys, steps: seq<Step>) {
    forall i :: 0 <= i < |steps| ==> !Drops(Run(s, steps[..i]), steps[i])
  }

  /** The step loses a batch: another branch wins while the reply of the pop future holds one, or the actor answers
      a request of an earlier round, whose future is gone, when a batch is ready. */
  predicate Loses(s: Sys, step: Step) {
    && Enabled(s, step)
    && match step {
         case Receive(_) => HoldsBatch(s)
         case ReceiveError(_) => HoldsBatch(s)
         case StreamsEnd => HoldsBatch(s)
         case TakeEmpty => HoldsBatch(s)
         case Act => s.mailbox[0].PopMail? && s.mailbox[0].round < s.round && Ready(s.n, s.state)
         case _ => false
       }
  }

  ghost predicate LosesAt(s: Sys, steps: seq<Step>, i: nat) {
    i < |steps| && Loses(Run(s, steps[..i]), steps[i])
  }

  /** Some step of the schedule loses a batch. */
  ghost predicate LosesABatch(s: Sys, steps: seq<Step>) {
    exists i: nat :: LosesAt(s, steps, i)
  }

  lemma SettledDiscards(s: Sys, fate: Fate)
    requires FateInv(s)
    ensures Discarded in Settled(s, fate) <==> Discarded in s.fates || (HoldsBatch(s) && fate.Discarded?)
  {
    if HoldsBatch(s) {
      var last := |s.fates| - 1;
      var now := s.fates[last := fate];
      assert now[last] == fate;
      assert forall i :: 0 <= i < last ==> now[i] == s.fates[i];
      if Discarded in s.fates {
        var i :| 0 <= i < |s.fates| && s.fates[i] == Discarded;
        assert now[i] == Discarded;
      }
    }
  }

  lemma ActDiscardsIffItLoses(s: Sys)
    requires FateInv(s) && MailInv(s) && Enabled(s, Act)
    ensures Discarded in Next(s, Act).fates <==> Discarded in s.fates || Loses(s, Act)
  {
    if s.mailbox[0].PopMail? {
      assert s.mailbox[0] in s.mailbox;
    }
  }

  lemma StepDiscardsIffItLoses(s: Sys, step: Step)
    requires FateInv(s) && MailInv(s) && Enabled(s, step)
    ensures Discarded in Next(s, step).fates <==> Discarded in s.fates || Loses(s, step)
  {
    if step.Act? {
      ActDiscardsIffItLoses(s);
    } else {
      SettledDiscards(s, if step.TakeBatch? then Sent else Discarded);
    }
  }

  lemma LosesAtInPrefix(s: Sys, steps: seq<Step>, m: nat, i: nat)
    requires i < m <= |steps|
    ensures LosesAt(s, steps[..m], i) <==> LosesAt(s, steps, i)
  {
    assert steps[..m][..i] == steps[..i];
  }

  lemma LosesABatchExtended(s: Sys, steps: seq<Step>)
    requires steps != []
    ensures LosesABatch(s, steps) <==> LosesABatch(s, steps[..|steps| - 1]) || LosesAt(s, steps, |steps| - 1)
  {
    var m := |steps| - 1;
    if LosesABatch(s, steps[..m]) {
      var i: nat :| LosesAt(s, steps[..m], i);
      LosesAtInPrefix(s, steps, m, i);
    }
    if LosesABatch(s, steps) {
      var i: nat :| LosesAt(s, steps, i);
      if i < m {
        LosesAtInPrefix(s, steps, m, i);
      }
    }
  }

  /** A batch is discarded in the course of a run exactly if some step of the schedule loses one. */
  lemma {:induction false} DiscardedIffAStepLosesABatch(n: nat, steps: seq<Step>)
    ensures Discarded in Run(Init(n), steps).fates <==> LosesABatch(Init(n), steps)
    decreases |steps|
  {
    if steps != [] {
      var init, step := steps[..|steps| - 1], steps[|steps| - 1];
      DiscardedIffAStepLosesABatch(n, init);
      LosesABatchExtended(Init(n), steps);
      InvariantHoldsOnEveryRun(n, init);
      if Enabled(Run(Init(n), init), step) {
        StepDiscardsIffItLoses(Run(Init(n), init), step);
      }
    }
  }

  /** All pop requests in the mailbox are of the current round, and no batch was discarded. */
  ghost predicate NothingStale(s: Sys) {
    && (forall i :: 0 <= i < |s.mailbox| && s.mailbox[i].PopMail? ==> s.mailbox[i].round == s.round)
    && Discarded !in s.fates
  }

  lemma DropFreePrefix(s: Sys, steps: seq<Step>)
    requires DropFree(s, steps) && steps != []
    ensures DropFree(s, steps[..|steps| - 1])
    ensures !Drops(Run(s, steps[..|steps| - 1]), steps[|steps| - 1])
  {
    var init := steps[..|steps| - 1];
    forall i | 0 <= i < |init|
      ensures !Drops(Run(s, init[..i]), init[i])
    {
      assert init[..i] == steps[..i];
    }
  }

  lemma NextRoundKeepsNothingStale(s: Sys, fate: Fate)
    requires MailInv(s) && NothingStale(s) && !s.pop.Waiting?
    requires HoldsBatch(s) ==> !fate.Discarded?
    ensures NothingStale(NextRound(s, fate))
    ensures forall i :: 0 <= i < |s.mailbox| ==> !s.mailbox[i].PopMail?
  {
    assert PopMail(s.round) !in s.mailbox;
    forall i | 0 <= i < |s.mailbox|
      ensures !s.mailbox[i].PopMail?
    {
      assert s.mailbox[i] in s.mailbox;
    }
  }

  lemma StepKeepsNothingStale(s: Sys, step: Step)
    requires MailInv(s) && NothingStale(s) && Enabled(s, step) && !Drops(s, step)
    ensures NothingStale(Next(s, step))
  {
    match step
    case Act =>
      if s.mailbox[0].PopMail? {
        assert s.mailbox[0] == PopMail(s.round);
      }
    case TakeBatch => NextRoundKeepsNothingStale(s, Sent);
    case PollPop =>
    case PollEmpty =>
    case TakeNone =>
    case _ => NextRoundKeepsNothingStale(s, Discarded);
  }

  lemma {:induction false} DropFreeRunsStayClean(n: nat, steps: seq<Step>)
    requires DropFree(Init(n), steps)
    ensures NothingStale(Run(Init(n), steps))
    decreases |steps|
  {
    if steps != [] {
      var init, step := steps[..|steps| - 1], steps[|steps| - 1];
      DropFreePrefix(Init(n), steps);
      DropFreeRunsStayClean(n, init);
      InvariantHoldsOnEveryRun(n, init);
      var s := Run(Init(n), init);
      if Enabled(s, step) {
        StepKeepsNothingStale(s, step);
      }
    }
  }

  /** No step loses a batch on a run that drops no pop future between its request and its batch. */
  lemma DropFreeRunsLoseNothing(n: nat, steps: seq<Step>)
    requires DropFree(Init(n), steps)
    ensures !LosesABatch(Init(n), steps)
  {
    DropFreeRunsStayClean(n, steps);
    DiscardedIffAStepLosesABatch(n, steps);
  }

  lemma {:induction false} AllSentMeansAllReleased(popped: seq<Release>, fates: seq<Fate>)
    requires |popped| == |fates| && forall i :: 0 <= i < |fates| ==> fates[i].Sent?
    ensures SentOf(popped, fates) == popped
    decreases |popped|
  {
    if popped != [] {
      var m := |popped| - 1;
      AllSentMeansAllReleased(popped[..m], fates[..m]);
    }
  }

  lemma {:induction false} SentListsAgainstReleased(popped: seq<Release>, fates: seq<Fate>, k: BatchKey)
    requires |popped| == |fates|
    ensures |ListsPopped(SentOf(popped, fates), k)| <= |ListsPopped(popped, k)|
    ensures (exists i :: 0 <= i < |fates| && !fates[i].Sent? && popped[i].key == k && popped[i].slot.lists != []) ==>
              |ListsPopped(SentOf(popped, fates), k)| < |ListsPopped(popped, k)|
    decreases |popped|
  {
    if popped != [] {
      var m := |popped| - 1;
      SentListsAgainstReleased(popped[..m], fates[..m], k);
      var sent := SentOf(popped[..m], fates[..m]);
      assert (sent + [popped[m]])[..|sent|] == sent;
    }
  }

  lemma FinishedRunsReleasedEverything(n: nat, steps: seq<Step>, k: BatchKey)
    requires Run(Init(n), steps).phase.Finished?
    ensures ListsOf(Run(Init(n), steps).received, k) == ListsPopped(Run(Init(n), steps).popped, k)
  {
    var s := Run(Init(n), steps);
    InvariantHoldsOnEveryRun(n, steps);
    NoPushMeansNoLists(s.mailbox);
    EveryListIsInExactlyOnePlace(n, steps, k);
  }

  lemma DiscardedBatchIsMissing(n: nat, steps: seq<Step>, i: nat)
    requires n > 0 && Run(Init(n), steps).phase.Finished?
    requires i < |Run(Init(n), steps).fates| && Run(Init(n), steps).fates[i].Discarded?
    ensures !DeliveredEverything(Run(Init(n), steps))
  {
    var s := Run(Init(n), steps);
    InvariantHoldsOnEveryRun(n, steps);
    ReleasesAreComplete(n, s.ops);
    var k := s.popped[i].key;
    FinishedRunsReleasedEverything(n, steps, k);
    assert |s.popped[i].slot.lists| == n;
    SentListsAgainstReleased(s.popped, s.fates, k);
    assert ListsOf(s.received, k) != ListsPopped(SentIn(s), k);
  }

  /** The receiver of the batch channel was sent every list the streams delivered, in order per key. */
  ghost predicate DeliveredEverything(s: Sys) {
    forall k :: ListsOf(s.received, k) == ListsPopped(SentIn(s), k)
  }

  lemma NothingDiscardedMeansAllSent(s: Sys)
    requires FateInv(s) && s.pop.Unsent? && Discarded !in s.fates
    ensures SentIn(s) == s.popped
  {
    forall i | 0 <= i < |s.fates|
      ensures s.fates[i].Sent?
    {
      assert s.fates[i] in s.fates;
    }
    AllSentMeansAllReleased(s.popped, s.fates);
  }

  /** When the stream finished regularly, everything received was released, so the receiver got every list of every
      key exactly if no step of the schedule lost a batch. */
  lemma FinishedRunsDeliverEverythingIffNoStepLosesABatch(n: nat, steps: seq<Step>)
    requires n > 0 && Run(Init(n), steps).phase.Finished?
    ensures DeliveredEverything(Run(Init(n), steps)) <==> !LosesABatch(Init(n), steps)
  {
    DiscardedIffAStepLosesABatch(n, steps);
    if Discarded in Run(Init(n), steps).fates {
      var i :| 0 <= i < |Run(Init(n), steps).fates| && Run(Init(n), steps).fates[i] == Discarded;
      DiscardedBatchIsMissing(n, steps, i);
    } else {
      var s := Run(Init(n), steps);
      assert SentIn(s) == s.popped by {
        InvariantHoldsOnEveryRun(n, steps);
        NothingDiscardedMeansAllSent(s);
      }
      forall k
        ensures ListsOf(s.received, k) == ListsPopped(SentIn(s), k)
      {
        FinishedRunsReleasedEverything(n, steps, k);
      }
    }
  }

  lemma {:induction false} NoPushMeansNoLists(mailbox: seq<Mail>)
    requires forall i :: 0 <= i < |mailbox| ==> !mailbox[i].PushMail?
    ensures MailPushes(mailbox) == []
  {
    if mailbox != [] {
      NoPushMeansNoLists(mailbox[1..]);
    }
  }

  lemma RunOneMore(s: Sys, steps: seq<Step>, step: Step)
    ensures Run(s, steps + [step]) == Do(Run(s, steps), step)
  {
    assert (steps + [step])[..|steps|] == steps;
  }

  lemma RunTwo(s: Sys, steps: seq<Step>, x: Step, y: Step)
    ensures Run(s, steps + [x] + [y]) == Do(Do(Run(s, steps), x), y)
  {
    RunOneMore(s, steps, x);
    RunOneMore(s, steps + [x], y);
  }

  lemma ReceiveAndPush(s: Sys, p: Push)
    requires s.phase.Running? && !s.completed && s.mailbox == [] && s.pop.Unsent? && s.empty.NotAsked?
    ensures Do(Do(s, Receive(p)), Act)
         == s.(round := s.round + 1, state := Pushed(s.state, p.choice, p.chunk, p.detections),
               received := s.received + [p], ops := s.ops + [PushOp(p)])
  {
  }

  lemma PopAndReply(s: Sys)
    requires s.phase.Running? && s.mailbox == [] && s.pop.Unsent? && Ready(s.n, s.state)
    ensures Do(Do(s, PollPop), Act)
         == s.(pop := Answered(PopResult(s.n, s.state)), state := Popped(s.n, s.state), ops := s.ops + [PopOp],
               popped := s.popped + [NextRelease(s.n, s.state)], fates := s.fates + [Unread])
  {
  }

  lemma FinishFromEmpty(s: Sys)
    requires s.phase.Running? && s.completed && s.mailbox == [] && s.pop.Unsent? && s.empty.NotAsked?
    requires s.state == map[]
    ensures var t := Do(Do(Do(Do(Do(Do(s, PollPop), PollEmpty), Act), Act), TakeNone), TakeEmpty);
            && t.phase.Finished? && t.out == s.out && t.fates == s.fates && t.received == s.received
  {
    var a := Do(Do(s, PollPop), PollEmpty);
    assert a.mailbox == [PopMail(s.round), EmptyMail(s.round)];
    var b := Do(a, Act);
    assert b == a.(mailbox := [EmptyMail(s.round)], ops := s.ops + [PopOp], pop := Answered(None));
    var c := Do(b, Act);
    assert c == b.(mailbox := [], empty := Told(true));
  }

  /** Two detectors report on the same chunk, the pop is answered with the batch, and then the streams end. */
  lemma BatchAnsweredThenDropped(a: Push, b: Push)
    requires a.Key() == b.Key()
    ensures var s := Do(Do(Do(Do(Do(Do(Do(Init(2), Receive(a)), Act), Receive(b)), Act), PollPop), Act), StreamsEnd);
            && s.phase.Running? && s.completed && s.mailbox == [] && s.pop.Unsent? && s.empty.NotAsked?
            && s.state == map[] && s.out == [] && s.fates == [Discarded] && s.received == [a, b]
  {
    var k := a.Key();
    ReceiveAndPush(Init(2), a);
    var s1 := Do(Do(Init(2), Receive(a)), Act);
    assert s1.state == map[k := Slot(a.chunk.text, [a.detections])];
    ReceiveAndPush(s1, b);
    var s2 := Do(Do(s1, Receive(b)), Act);
    assert [a.detections] + [b.detections] == [a.detections, b.detections];
    assert s2.state == map[k := Slot(a.chunk.text, [a.detections, b.detections])];
    assert FirstKey(s2.state) == k;
    PopAndReply(s2);
  }

  lemma SevenSteps(s: Sys, x1: Step, x2: Step, x3: Step, x4: Step, x5: Step, x6: Step, x7: Step) returns (steps: seq<Step>)
    ensures Run(s, steps) == Do(Do(Do(Do(Do(Do(Do(s, x1), x2), x3), x4), x5), x6), x7)
  {
    RunTwo(s, [], x1, x2);
    var two := [] + [x1] + [x2];
    RunTwo(s, two, x3, x4);
    var four := two + [x3] + [x4];
    RunTwo(s, four, x5, x6);
    var six := four + [x5] + [x6];
    RunOneMore(s, six, x7);
    steps := six + [x7];
  }

  lemma RunFinishesFromEmpty(n: nat, steps: seq<Step>) returns (all: seq<Step>)
    requires var s := Run(Init(n), steps);
             && s.phase.Running? && s.completed && s.mailbox == [] && s.pop.Unsent? && s.empty.NotAsked?
             && s.state == map[]
    ensures var s, t := Run(Init(n), steps), Run(Init(n), all);
            t.phase.Finished? && t.out == s.out && t.fates == s.fates && t.received == s.received
  {
    FinishFromEmpty(Run(Init(n), steps));
    RunTwo(Init(n), steps, PollPop, PollEmpty);
    RunTwo(Init(n), steps + [PollPop] + [PollEmpty], Act, Act);
    RunTwo(Init(n), steps + [PollPop] + [PollEmpty] + [Act] + [Act], TakeNone, TakeEmpty);
    all := steps + [PollPop] + [PollEmpty] + [Act] + [Act] + [TakeNone] + [TakeEmpty];
  }

  /** Batches can be lost: if the end of the streams wins the select before the reply is read, the stream
      finishes without an error and without ever having sent the batch. */
  lemma DroppedReplyLosesABatch(chunk: Chunk, first: seq<Detection>, second: seq<Detection>)
    ensures exists steps ::
              var s := Run(Init(2), steps);
              && s.received == [Push(0, chunk, first), Push(0, chunk, second)]
              && s.phase.Finished?
              && s.out == []
              && s.fates == [Discarded]
  {
    var a, b := Push(0, chunk, first), Push(0, chunk, second);
    BatchAnsweredThenDropped(a, b);
    var steps := SevenSteps(Init(2), Receive(a), Act, Receive(b), Act, PollPop, Act, StreamsEnd);
    var all := RunFinishesFromEmpty(2, steps);
  }

  // ---------------------------------------------------------------------------------------------
  // Order

  function AsOps(pushes: seq<Push>): seq<Op> {
    seq(|pushes|, i requires 0 <= i < |pushes| => PushOp(pushes[i]))
  }

  lemma AsOpsAppend(a: seq<Push>, p: Push)
    ensures AsOps(a + [p]) == AsOps(a) + [PushOp(p)]
  {
  }

  lemma {:induction false} PushesOfAsOps(pushes: seq<Push>)
    ensures PushesOf(AsOps(pushes)) == pushes
    decreases |pushes|
  {
    if pushes != [] {
      var init := pushes[..|pushes| - 1];
      PushesOfAsOps(init);
      assert pushes == init + [pushes[|pushes| - 1]];
      AsOpsAppend(init, pushes[|pushes| - 1]);
      assert AsOps(pushes)[..|init|] == AsOps(init);
    }
  }

  /** Whether a trace follows a plan depends on its pushes alone. */
  lemma {:induction false} FollowsDependsOnPushes(plan: Plan, n: nat, ops: seq<Op>)
    requires Follows(plan, n, AsOps(PushesOf(ops)))
    ensures Follows(plan, n, ops)
    decreases |ops|
  {
    if ops != [] {
      var init, last := ops[..|ops| - 1], ops[|ops| - 1];
      if last.PushOp? {
        var pure := AsOps(PushesOf(init));
        AsOpsAppend(PushesOf(init), last.push);
        assert (pure + [last])[..|pure|] == pure;
        FollowsDependsOnPushes(plan, n, init);
        var i: nat :| Admissible(plan, n, pure, last.push, i);
        PushesOfAsOps(PushesOf(init));
        forall k
          ensures ListsPushed(pure, k) == ListsPushed(init, k)
        {
          ListsPushedAreListsOfPushes(pure, k);
          ListsPushedAreListsOfPushes(init, k);
        }
        assert Admissible(plan, n, init, last.push, i);
      } else {
        FollowsDependsOnPushes(plan, n, init);
      }
    }
  }

  lemma {:induction false} FollowsPrefix(plan: Plan, n: nat, a: seq<Push>, b: seq<Push>)
    requires Follows(plan, n, AsOps(a + b))
    ensures Follows(plan, n, AsOps(a))
    decreases |b|
  {
    if b == [] {
      assert a + b == a;
    } else {
      var init := b[..|b| - 1];
      assert a + b == (a + init) + [b[|b| - 1]];
      AsOpsAppend(a + init, b[|b| - 1]);
      assert AsOps(a + b)[..|a + b| - 1] == AsOps(a + init);
      FollowsPrefix(plan, n, a, init);
    }
  }

  ghost predicate StrictlyAscending(releases: seq<Release>) {
    forall i, j :: 0 <= i < j < |releases| ==> ChunkEarlier(releases[i].key.chunk, releases[j].key.chunk)
  }

  /** Leaving releases out keeps those of a choice in order. */
  lemma {:induction false} SentStaysAscending(popped: seq<Release>, fates: seq<Fate>, c: nat)
    requires |popped| == |fates|
    requires StrictlyAscending(For(popped, c))
    ensures StrictlyAscending(For(SentOf(popped, fates), c))
    ensures forall r :: r in For(SentOf(popped, fates), c) ==> r in For(popped, c)
    decreases |popped|
  {
    if popped != [] {
      var m := |popped| - 1;
      var init, last := popped[..m], popped[m];
      assert popped == init + [last];
      ForExtended(init, last, c);
      assert StrictlyAscending(For(init, c)) by {
        assert forall i :: 0 <= i < |For(init, c)| ==> For(init, c)[i] == For(popped, c)[i];
      }
      SentStaysAscending(init, fates[..m], c);
      if fates[m].Sent? && last.key.choice == c {
        var sent := SentOf(init, fates[..m]);
        ForExtended(sent, last, c);
        forall i | 0 <= i < |For(sent, c)|
          ensures ChunkEarlier(For(sent, c)[i].key.chunk, last.key.chunk)
        {
          assert For(sent, c)[i] in For(init, c);
          assert For(popped, c)[|For(init, c)|] == last;
          var j :| 0 <= j < |For(init, c)| && For(init, c)[j] == For(sent, c)[i];
          assert For(popped, c)[j] == For(init, c)[j];
        }
      } else if fates[m].Sent? {
        ForExtended(SentOf(init, fates[..m]), last, c);
      }
    }
  }

  lemma {:induction false} SentIsPrefixUnlessDiscarded(popped: seq<Release>, fates: seq<Fate>, c: nat)
    requires |popped| == |fates| && Discarded !in fates
    requires forall i :: 0 <= i < |fates| && fates[i].Unread? ==> i == |fates| - 1
    ensures For(SentOf(popped, fates), c) <= For(popped, c)
  {
    if popped != [] {
      var m := |popped| - 1;
      AllSentMeansAllReleased(popped[..m], fates[..m]);
      assert popped == popped[..m] + [popped[m]];
      ForExtended(popped[..m], popped[m], c);
      assert forall i :: 0 <= i < m ==> fates[..m][i] == fates[i];
    }
  }

  /** The releases are in chunk order, and each is one of the choice's chunks with all n lists pushed for it. */
  ghost predicate InPlanOrder(plan: Plan, n: nat, ops: seq<Op>, sent: seq<Release>, c: nat) {
    && StrictlyAscending(sent)
    && forall i :: 0 <= i < |sent| ==>
         && |sent[i].slot.lists| == n
         && exists j: nat :: j < |plan(c)| && sent[i] == FullRelease(plan, ops, c, j)
  }

  /** The i-th release is the i-th chunk of the choice. */
  ghost predicate IsPlanPrefix(plan: Plan, ops: seq<Op>, sent: seq<Release>, c: nat) {
    |sent| <= |plan(c)| && forall i :: 0 <= i < |sent| ==> sent[i] == FullRelease(plan, ops, c, i)
  }

  /** If what the streams delivered is an interleaving of n detectors that report the same ascending
      chunks per choice, then on every run the batches sent for a choice are in chunk order, without
      repeats, and each carries the n lists pushed for its chunk, even if batches were lost. If
      none was, they are a prefix of the chunks. */
  lemma SentBatchesStayInOrder(plan: Plan, n: nat, steps: seq<Step>, c: nat)
    requires AscendingPlan(plan) && Follows(plan, n, AsOps(Run(Init(n), steps).received))
    ensures var s := Run(Init(n), steps);
            var sent := For(SentIn(s), c);
            && InPlanOrder(plan, n, s.ops, sent, c)
            && (!LosesABatch(Init(n), steps) ==> IsPlanPrefix(plan, s.ops, sent, c))
  {
    var s := Run(Init(n), steps);
    InvariantHoldsOnEveryRun(n, steps);
    FollowsPrefix(plan, n, PushesOf(s.ops), MailPushes(s.mailbox));
    FollowsDependsOnPushes(plan, n, s.ops);
    ReleasesFollowThePlan(plan, n, s.ops);
    var all := For(s.popped, c);
    assert ChoiceInOrder(plan, n, s.ops, Exec(n, s.ops), c);
    assert StrictlyAscending(all);
    SentStaysAscending(s.popped, s.fates, c);
    var sent := For(SentIn(s), c);
    forall i | 0 <= i < |sent|
      ensures |sent[i].slot.lists| == n
      ensures exists j: nat :: j < |plan(c)| && sent[i] == FullRelease(plan, s.ops, c, j)
    {
      assert sent[i] in all;
      var j :| 0 <= j < |all| && all[j] == sent[i];
      assert Count(plan, s.ops, c, j) == n;
    }
    DiscardedIffAStepLosesABatch(n, steps);
    if Discarded !in s.fates {
      SentIsPrefixUnlessDiscarded(s.popped, s.fates, c);
    }
  }

  /** The hypothesis of the order theorem is met by every interleaving of the detectors' streams. */
  lemma InterleavedStreamsFollowThePlan(feed: Feed, events: seq<Event>)
    requires AscendingPlan(feed.plan)
    ensures Follows(feed.plan, feed.n, AsOps(PushesOf(Play(feed, events).ops)))
  {
    InterleavingsFollowThePlan(feed, events);
    FollowsOfPushes(feed.plan, feed.n, Play(feed, events).ops);
  }

  /** A list for each of the n detectors is one list of each detector: none of them reports twice. */
  lemma CompleteListsAreOfAllDetectors(feed: Feed, events: seq<Event>, ops: seq<Op>, rest: seq<Push>, c: nat, j: nat)
    requires AscendingPlan(feed.plan) && j < |feed.plan(c)|
    requires PushesOf(ops) + rest == PushesOf(Play(feed, events).ops)
    requires |ListsPushed(ops, KeyAt(feed.plan, c, j))| == feed.n
    ensures multiset(ListsPushed(ops, KeyAt(feed.plan, c, j))) == AllFound(feed, c, j, feed.n)
  {
    var k, p := KeyAt(feed.plan, c, j), Play(feed, events);
    InterleavingsFollowThePlan(feed, events);
    assert ReportsPushed(feed, p, c, j);
    var all, lists := ListsPushed(p.ops, k), ListsPushed(ops, k);
    ListsPushedAreListsOfPushes(p.ops, k);
    ListsPushedAreListsOfPushes(ops, k);
    ListsOfAppend(PushesOf(ops), rest, k);
    ReportedSize(feed, p.progress, c, j, feed.n);
    ReportersAtMost(p.progress, c, j, feed.n);
    assert |multiset(all)| == |all|;
    assert all == lists + ListsOf(rest, k);
    assert all == lists;
    ReportedByAll(feed, p.progress, c, j, feed.n);
  }

  /** The release is the j-th chunk of the choice, with the detections of all n detectors. */
  ghost predicate IsWholeChunk(feed: Feed, ops: seq<Op>, r: Release, c: nat, j: nat) {
    && j < |feed.plan(c)| && r == FullRelease(feed.plan, ops, c, j)
    && r.ToBatch().chunk == feed.plan(c)[j]
    && multiset(r.ToBatch().detections) == AllDetections(feed, c, j, feed.n)
  }

  lemma SentBatchIsAWholeChunk(feed: Feed, events: seq<Event>, steps: seq<Step>, c: nat, i: nat) returns (j: nat)
    requires AscendingPlan(feed.plan) && Run(Init(feed.n), steps).received == PushesOf(Play(feed, events).ops)
    requires i < |For(SentIn(Run(Init(feed.n), steps)), c)|
    ensures IsWholeChunk(feed, Run(Init(feed.n), steps).ops, For(SentIn(Run(Init(feed.n), steps)), c)[i], c, j)
    ensures !LosesABatch(Init(feed.n), steps) ==> j == i
  {
    var s := Run(Init(feed.n), steps);
    InterleavedStreamsFollowThePlan(feed, events);
    SentBatchesStayInOrder(feed.plan, feed.n, steps, c);
    InvariantHoldsOnEveryRun(feed.n, steps);
    var r := For(SentIn(s), c)[i];
    j :| j < |feed.plan(c)| && r == FullRelease(feed.plan, s.ops, c, j);
    CompleteListsAreOfAllDetectors(feed, events, s.ops, MailPushes(s.mailbox), c, j);
    BatchHoldsAllDetections(feed, c, j, r);
    if !LosesABatch(Init(feed.n), steps) {
      KeysDiffer(feed.plan, c, j, c, i);
    }
  }

  /** If the loop received an interleaving of n detectors' streams that report the same ascending chunks, then on every run
      the batches sent for a choice are chunks of it in order, each with the detections of all n detectors; and if no step
      loses a batch, they are its first chunks. */
  lemma SentBatchesAreWholeChunks(feed: Feed, events: seq<Event>, steps: seq<Step>, c: nat) returns (chunks: seq<nat>)
    requires AscendingPlan(feed.plan) && Run(Init(feed.n), steps).received == PushesOf(Play(feed, events).ops)
    ensures var s := Run(Init(feed.n), steps);
            var sent := For(SentIn(s), c);
            && |chunks| == |sent|
            && (forall i, j :: 0 <= i < j < |chunks| ==> chunks[i] < chunks[j])
            && (forall i :: 0 <= i < |sent| ==> IsWholeChunk(feed, s.ops, sent[i], c, chunks[i]))
            && (!LosesABatch(Init(feed.n), steps) ==> forall i :: 0 <= i < |chunks| ==> chunks[i] == i)
  {
    var s := Run(Init(feed.n), steps);
    var sent := For(SentIn(s), c);
    InterleavedStreamsFollowThePlan(feed, events);
    SentBatchesStayInOrder(feed.plan, feed.n, steps, c);
    chunks := [];
    for i := 0 to |sent|
      invariant |chunks| == i
      invariant forall k :: 0 <= k < i ==> IsWholeChunk(feed, s.ops, sent[k], c, chunks[k])
      invariant !LosesABatch(Init(feed.n), steps) ==> forall k :: 0 <= k < i ==> chunks[k] == k
    {
      var j := SentBatchIsAWholeChunk(feed, events, steps, c, i);
      chunks := chunks + [j];
    }
    forall i, j | 0 <= i < j < |chunks|
      ensures chunks[i] < chunks[j]
    {
      assert ChunkEarlier(sent[i].key.chunk, sent[j].key.chunk);
      LaterKeyLaterChunk(feed.plan, c, chunks[i], chunks[j]);
    }
  }

  lemma LaterKeyLaterChunk(plan: Plan, c: nat, i: nat, j: nat)
    requires AscendingPlan(plan) && i < |plan(c)| && j < |plan(c)|
    requires ChunkEarlier(plan(c)[i].Key(), plan(c)[j].Key())
    ensures i < j
  {
    assert Ascending(plan(c));
  }

  lemma {:induction false} FollowsOfPushes(plan: Plan, n: nat, ops: seq<Op>)
    requires Follows(plan, n, ops)
    ensures Follows(plan, n, AsOps(PushesOf(ops)))
    decreases |ops|
  {
    if ops != [] {
      var init, last := ops[..|ops| - 1], ops[|ops| - 1];
      FollowsOfPushes(plan, n, init);
      if last.PushOp? {
        var pure := AsOps(PushesOf(init));
        AsOpsAppend(PushesOf(init), last.push);
        assert (pure + [last])[..|pure|] == pure;
        var i: nat :| Admissible(plan, n, init, last.push, i);
        PushesOfAsOps(PushesOf(init));
        forall k
          ensures ListsPushed(pure, k) == ListsPushed(init, k)
        {
          ListsPushedAreListsOfPushes(pure, k);
          ListsPushedAreListsOfPushes(init, k);
        }
        assert Admissible(plan, n, pure, last.push, i);
      }
    }
  }
}
