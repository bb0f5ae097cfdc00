/** How the detection batch stream ends once its detection streams have. */
module BatchStreamDrain {
  import opened Types
  import opened CompletionBatching
  import opened BatchStream
  import opened BatchStreamSafety

  // ---------------------------------------------------------------------------------------------
  // Popping a batcher that gets no more pushes

  /** The releases of popping until a pop answers None. */
  function DrainList(n: nat, state: State): seq<Release>
    decreases |state|
  {
    if Ready(n, state) then
      PoppedIsSmaller(n, state);
      [NextRelease(n, state)] + DrainList(n, Popped(n, state))
    else []
  }

  /** What is left then. */
  function DrainRest(n: nat, state: State): State
    decreases |state|
  {
    if Ready(n, state) then
      PoppedIsSmaller(n, state);
      DrainRest(n, Popped(n, state))
    else state
  }

  lemma PoppedIsSmaller(n: nat, state: State)
    requires Ready(n, state)
    ensures |Popped(n, state)| < |state|
  {
    var k := FirstKey(state);
    assert Popped(n, state).Keys == state.Keys - {k};
    assert |Popped(n, state).Keys| == |Popped(n, state)| && |state.Keys| == |state|;
  }

  predicate AllReady(n: nat, state: State) {
    forall k | k in state :: |state[k].lists| == n
  }

  /** Draining empties the batcher exactly when every entry is complete. */
  lemma {:induction false} DrainEmptiesIffAllReady(n: nat, state: State)
    ensures DrainRest(n, state) == map[] <==> AllReady(n, state)
    decreases |state|
  {
    if Ready(n, state) {
      PoppedIsSmaller(n, state);
      var k, rest := FirstKey(state), Popped(n, state);
      DrainEmptiesIffAllReady(n, rest);
      assert forall j :: j in state ==> j == k || j in rest;
    } else if state != map[] {
      assert FirstKey(state) in state;
    }
  }

  lemma {:induction false} DrainTakesEntries(n: nat, state: State)
    ensures forall r :: r in DrainList(n, state) ==> r.key in state && r.slot == state[r.key]
    ensures forall k :: k in DrainRest(n, state) ==> k in state && DrainRest(n, state)[k] == state[k]
    decreases |state|
  {
    if Ready(n, state) {
      PoppedIsSmaller(n, state);
      DrainTakesEntries(n, Popped(n, state));
      DrainUnfolds(n, state);
    }
  }

  ghost predicate Ascends(list: seq<Release>) {
    forall i, j :: 0 <= i < j < |list| ==> Earlier(list[i].key, list[j].key)
  }

  lemma PrependKeepsOrder(r: Release, tail: seq<Release>)
    requires Ascends(tail) && forall x :: x in tail ==> Earlier(r.key, x.key)
    ensures Ascends([r] + tail)
  {
  }

  lemma {:induction false} DrainAscends(n: nat, state: State)
    ensures Ascends(DrainList(n, state))
    decreases |state|
  {
    if Ready(n, state) {
      PoppedIsSmaller(n, state);
      var rest := Popped(n, state);
      DrainAscends(n, rest);
      DrainTakesEntries(n, rest);
      DrainUnfolds(n, state);
      PrependKeepsOrder(NextRelease(n, state), DrainList(n, rest));
    }
  }

  lemma {:induction false} DrainSplitsEntries(n: nat, state: State, k: BatchKey)
    requires k in state
    ensures k in DrainRest(n, state) <==> forall r :: r in DrainList(n, state) ==> r.key != k
    decreases |state|
  {
    if Ready(n, state) {
      PoppedIsSmaller(n, state);
      var first, rest := FirstKey(state), Popped(n, state);
      DrainUnfolds(n, state);
      DrainTakesEntries(n, rest);
      assert NextRelease(n, state) in DrainList(n, state);
      if k != first {
        DrainSplitsEntries(n, rest, k);
      }
    }
  }

  /** The releases of draining come in strictly ascending order of chunk and choice; together with the
      rest they are exactly the entries there were. */
  lemma DrainIsAscendingAndExact(n: nat, state: State)
    ensures var list := DrainList(n, state);
            && Ascends(list)
            && (forall r :: r in list ==> r.key in state && r.slot == state[r.key])
            && (forall k :: k in state ==> (k in DrainRest(n, state) <==> forall r :: r in list ==> r.key != k))
            && (forall k :: k in DrainRest(n, state) ==> k in state && DrainRest(n, state)[k] == state[k])
  {
    DrainAscends(n, state);
    DrainTakesEntries(n, state);
    forall k | k in state
      ensures k in DrainRest(n, state) <==> forall r :: r in DrainList(n, state) ==> r.key != k
    {
      DrainSplitsEntries(n, state, k);
    }
  }

  lemma DrainUnfolds(n: nat, state: State)
    requires Ready(n, state)
    ensures DrainList(n, state) == [NextRelease(n, state)] + DrainList(n, Popped(n, state))
    ensures DrainRest(n, state) == DrainRest(n, Popped(n, state))
  {
  }

  // ---------------------------------------------------------------------------------------------
  // The drain phase of the stream

  function ApplyPushes(state: State, pushes: seq<Push>): State
    decreases |pushes|
  {
    if pushes == [] then state
    else ApplyPushes(Pushed(state, pushes[0].choice, pushes[0].chunk, pushes[0].detections), pushes[1..])
  }

  /** What the batcher holds once the actor has handled the pushes in the mailbox. */
  function Target(s: Sys): State {
    ApplyPushes(s.state, MailPushes(s.mailbox))
  }

  ghost predicate NoPushMail(s: Sys) {
    forall i :: 0 <= i < |s.mailbox| ==> !s.mailbox[i].PushMail?
  }

  /** Once the streams have ended: the pop request of the round comes after all pushes, so what the futures were told
      still holds. */
  ghost predicate TailInv(s: Sys) {
    && (forall i, j :: 0 <= i < j < |s.mailbox| && s.mailbox[i] == PopMail(s.round) ==> !s.mailbox[j].PushMail?)
    && (s.pop.Answered? || s.pop.Disabled? ==> NoPushMail(s))
    && (s.pop == Answered(None) || s.pop.Disabled? ==> !Ready(s.n, s.state))
    && (s.empty == Told(false) ==> s.state != map[])
  }

  ghost predicate NoStalePop(s: Sys) {
    forall i :: 0 <= i < |s.mailbox| && s.mailbox[i].PopMail? ==> s.mailbox[i].round == s.round
  }

  /** The streams have ended without an error, and every pop request is of the current round. */
  ghost predicate DrainInv(s: Sys) {
    SysInv(s) && TailInv(s) && s.completed && !s.phase.Failed? && NoStalePop(s)
  }

  /** Batches still to be sent: the one the pop future holds, then what draining will release. */
  function Todo(s: Sys): seq<Release> {
    (if HoldsBatch(s) && s.popped != [] then [s.popped[|s.popped| - 1]] else []) + DrainList(s.n, Target(s))
  }

  ghost predicate SameOutcome(s: Sys, t: Sys) {
    && t.n == s.n
    && t.out + AsOutput(Todo(t)) == s.out + AsOutput(Todo(s))
    && DrainRest(t.n, Target(t)) == DrainRest(s.n, Target(s))
  }

  lemma NoPushMailMeansTargetIsState(s: Sys)
    requires NoPushMail(s)
    ensures Target(s) == s.state
  {
    NoPushMeansNoLists(s.mailbox);
  }

  lemma ActKeepsTail(s: Sys)
    requires SysInv(s) && TailInv(s) && s.mailbox != []
    ensures TailInv(ActOn(s))
  {
    MailboxAfterFirst(s, ActOn(s));
  }

  lemma StepKeepsTail(s: Sys, step: Step)
    requires SysInv(s) && Enabled(s, step) && (step.StreamsEnd? || (s.completed && TailInv(s)))
    ensures TailInv(Next(s, step))
  {
    assert PopMail(s.round + 1) !in s.mailbox;
    if step.Act? {
      ActKeepsTail(s);
    } else if step.PollPop? {
      assert forall i :: 0 <= i < |s.mailbox| ==> s.mailbox[i] in s.mailbox;
    }
  }

  lemma {:induction false} TailHoldsOnEveryRun(n: nat, steps: seq<Step>)
    ensures Run(Init(n), steps).completed ==> TailInv(Run(Init(n), steps))
    decreases |steps|
  {
    if steps != [] {
      var init, step := steps[..|steps| - 1], steps[|steps| - 1];
      TailHoldsOnEveryRun(n, init);
      InvariantHoldsOnEveryRun(n, init);
      if Enabled(Run(Init(n), init), step) && Run(Init(n), steps).completed {
        StepKeepsTail(Run(Init(n), init), step);
      }
    }
  }

  /** On every run, dropped futures or not, once the streams have ended without an error the drain is on exactly if
      no pop request of an earlier round is left in the mailbox. */
  lemma DrainIsOnIffNoPopIsStale(n: nat, steps: seq<Step>)
    requires Run(Init(n), steps).completed && !Run(Init(n), steps).phase.Failed?
    ensures DrainInv(Run(Init(n), steps)) <==> NoStalePop(Run(Init(n), steps))
  {
    TailHoldsOnEveryRun(n, steps);
    InvariantHoldsOnEveryRun(n, steps);
  }

  /** At the moment the streams end that means: no pop request is in the mailbox. On a drop-free run none is. */
  lemma StreamsEndStartsDraining(n: nat, steps: seq<Step>)
    requires Enabled(Run(Init(n), steps), StreamsEnd)
    ensures DrainInv(Run(Init(n), steps + [StreamsEnd]))
       <==> forall m :: m in Run(Init(n), steps).mailbox ==> !m.PopMail?
    ensures DropFree(Init(n), steps + [StreamsEnd]) ==> DrainInv(Run(Init(n), steps + [StreamsEnd]))
  {
    var all, s := steps + [StreamsEnd], Run(Init(n), steps);
    RunOneMore(Init(n), steps, StreamsEnd);
    InvariantHoldsOnEveryRun(n, steps);
    DrainIsOnIffNoPopIsStale(n, all);
    if DropFree(Init(n), all) {
      DropFreePrefix(Init(n), all);
      assert all[..|all| - 1] == steps;
      DropFreeRunsStayClean(n, steps);
      NextRoundKeepsNothingStale(s, Discarded);
    }
  }

  lemma NextRoundLeavesNoPop(s: Sys, fate: Fate)
    requires MailInv(s) && NoStalePop(s) && !s.pop.Waiting?
    ensures forall i :: 0 <= i < |s.mailbox| ==> !s.mailbox[i].PopMail?
  {
    assert PopMail(s.round) !in s.mailbox;
    forall i | 0 <= i < |s.mailbox|
      ensures !s.mailbox[i].PopMail?
    {
      assert s.mailbox[i] in s.mailbox;
    }
  }

  lemma StepKeepsPopsCurrent(s: Sys, step: Step)
    requires MailInv(s) && NoStalePop(s) && s.completed && Enabled(s, step) && !Drops(s, step)
    ensures NoStalePop(Next(s, step))
  {
    if step.Act? {
      MailboxAfterFirst(s, ActOn(s));
    } else if step.TakeBatch? || step.TakeEmpty? {
      NextRoundLeavesNoPop(s, Discarded);
    }
  }

  lemma StepKeepsDrain(s: Sys, step: Step)
    requires DrainInv(s) && Enabled(s, step) && !Drops(s, step)
    ensures DrainInv(Next(s, step))
  {
    StepKeepsInvariant(s, step);
    StepKeepsTail(s, step);
    StepKeepsPopsCurrent(s, step);
  }

  lemma ActOnPushKeepsOutcome(s: Sys, p: Push)
    requires s.mailbox != [] && s.mailbox[0] == PushMail(p)
    ensures SameOutcome(s, ActOnPush(s, p))
  {
    assert Target(ActOnPush(s, p)) == Target(s);
  }

  lemma PopOfTheRoundIsLast(s: Sys, r: nat)
    requires DrainInv(s) && s.mailbox != [] && s.mailbox[0] == PopMail(r)
    ensures r == s.round && s.pop.Waiting? && NoPushMail(s)
  {
    assert s.mailbox[0] in s.mailbox;
  }

  lemma ActOnPopKeepsOutcome(s: Sys, r: nat)
    requires s.mailbox != [] && s.mailbox[0] == PopMail(r) && r == s.round && s.pop.Waiting? && NoPushMail(s)
    ensures SameOutcome(s, ActOnPop(s, r))
  {
    var t := ActOnPop(s, r);
    MailboxAfterFirst(s, t);
    NoPushMailMeansTargetIsState(s);
    NoPushMailMeansTargetIsState(t);
    if Ready(s.n, s.state) {
      DrainUnfolds(s.n, s.state);
    }
    assert Todo(t) == Todo(s);
  }

  lemma ActKeepsOutcome(s: Sys)
    requires DrainInv(s) && s.mailbox != []
    ensures SameOutcome(s, ActOn(s))
  {
    match s.mailbox[0]
    case PushMail(p) => ActOnPushKeepsOutcome(s, p);
    case PopMail(r) =>
      PopOfTheRoundIsLast(s, r);
      ActOnPopKeepsOutcome(s, r);
    case EmptyMail(r) =>
  }

  lemma PollKeepsOutcome(s: Sys, step: Step)
    requires Enabled(s, step) && (step.PollPop? || step.PollEmpty?)
    ensures SameOutcome(s, Next(s, step))
  {
    MailPushesAppend(s.mailbox, if step.PollPop? then PopMail(s.round) else EmptyMail(s.round));
  }

  lemma OutputMoves(out: seq<Result<Batch, string>>, r: Release, rest: seq<Release>)
    ensures (out + [Ok(r.ToBatch())]) + AsOutput(rest) == out + AsOutput([r] + rest)
  {
    assert AsOutput([r] + rest) == [Ok(r.ToBatch())] + AsOutput(rest);
  }

  lemma TakeBatchKeepsOutcome(s: Sys)
    requires FateInv(s) && Enabled(s, TakeBatch)
    ensures SameOutcome(s, Next(s, TakeBatch))
  {
    var t, r := Next(s, TakeBatch), s.popped[|s.popped| - 1];
    var rest := Todo(t);
    assert Todo(s) == [r] + rest;
    assert t.out == s.out + [Ok(r.ToBatch())];
    OutputMoves(s.out, r, rest);
  }

  /** Every step of the drain phase that drops no batch keeps what will have been sent in the end. */
  lemma StepDrains(s: Sys, step: Step)
    requires DrainInv(s) && Enabled(s, step) && !Drops(s, step)
    ensures DrainInv(Next(s, step)) && SameOutcome(s, Next(s, step))
  {
    StepKeepsDrain(s, step);
    match step
    case Act => ActKeepsOutcome(s);
    case TakeBatch => TakeBatchKeepsOutcome(s);
    case PollPop => PollKeepsOutcome(s, step);
    case PollEmpty => PollKeepsOutcome(s, step);
    case _ =>
  }

  lemma {:induction false} RunDrains(s: Sys, steps: seq<Step>)
    requires DrainInv(s) && DropFree(s, steps)
    ensures DrainInv(Run(s, steps)) && SameOutcome(s, Run(s, steps))
    decreases |steps|
  {
    if steps != [] {
      var init, step := steps[..|steps| - 1], steps[|steps| - 1];
      DropFreePrefix(s, steps);
      RunDrains(s, init);
      if Enabled(Run(s, init), step) {
        StepDrains(Run(s, init), step);
      }
    }
  }

  lemma FinishedHasNothingToDo(s: Sys)
    requires DrainInv(s) && s.phase.Finished?
    ensures Todo(s) == [] && DrainRest(s.n, Target(s)) == map[]
  {
    NoPushMailMeansTargetIsState(s);
  }

  /** Each round costs at most this much between two batches. */
  function PopWeight(p: PopFuture): nat {
    match p case Unsent => 4 case Waiting => 2 case Answered(_) => 1 case Disabled => 0
  }

  function EmptyWeight(e: EmptyFuture): nat {
    match e case NotAsked => 3 case Asked => 1 case Told(_) => 0
  }

  function Measure(s: Sys): nat {
    10 * |Todo(s)| + |s.mailbox| + PopWeight(s.pop) + EmptyWeight(s.empty) + (if s.phase.Running? then 8 else 0)
  }

  lemma SameOutcomeLength(s: Sys, t: Sys)
    requires SameOutcome(s, t)
    ensures |t.out| + |Todo(t)| == |s.out| + |Todo(s)|
  {
    assert |t.out + AsOutput(Todo(t))| == |s.out + AsOutput(Todo(s))|;
  }

  /** There is something left to send, or everything can be sent. */
  ghost predicate Progressing(s: Sys) {
    Todo(s) != [] || DrainRest(s.n, Target(s)) == map[]
  }

  lemma TakeEmptyDecreasesMeasure(s: Sys)
    requires DrainInv(s) && Enabled(s, TakeEmpty) && !Drops(s, TakeEmpty) && Progressing(s)
    requires |Todo(Next(s, TakeEmpty))| == |Todo(s)|
    ensures Measure(Next(s, TakeEmpty)) < Measure(s)
  {
    if !s.empty.empty {
      NoPushMailMeansTargetIsState(s);
    }
  }

  lemma ActDecreasesMeasure(s: Sys)
    requires s.mailbox != [] && |Todo(ActOn(s))| == |Todo(s)|
    ensures Measure(ActOn(s)) < Measure(s)
  {
    var t := ActOn(s);
    assert |t.mailbox| == |s.mailbox| - 1 && t.phase == s.phase;
    assert PopWeight(t.pop) <= PopWeight(s.pop) && EmptyWeight(t.empty) <= EmptyWeight(s.empty);
  }

  /** As long as the drain makes progress, every step brings the end closer. */
  lemma StepDecreasesMeasure(s: Sys, step: Step)
    requires DrainInv(s) && Enabled(s, step) && !Drops(s, step) && Progressing(s)
    ensures DrainInv(Next(s, step)) && Measure(Next(s, step)) < Measure(s)
  {
    StepDrains(s, step);
    SameOutcomeLength(s, Next(s, step));
    match step
    case Act => ActDecreasesMeasure(s);
    case TakeEmpty => TakeEmptyDecreasesMeasure(s);
    case _ =>
  }

  /** The drain never blocks: until it is finished some step is possible that drops no batch. */
  lemma SomeStepIsPossible(s: Sys) returns (step: Step)
    requires DrainInv(s) && s.phase.Running?
    ensures Enabled(s, step) && !Drops(s, step)
  {
    match s.pop
    case Unsent => step := PollPop;
    case Waiting => step := Act;
    case Answered(b) => step := if b.Some? then TakeBatch else TakeNone;
    case Disabled =>
      step := if s.empty.NotAsked? then PollEmpty else if s.empty.Asked? then Act else TakeEmpty;
  }

  /** Every step of the list does something when its turn comes. */
  ghost predicate AllEnabled(s: Sys, steps: seq<Step>) {
    forall i :: 0 <= i < |steps| ==> Enabled(Run(s, steps[..i]), steps[i])
  }

  lemma AllEnabledPrefix(s: Sys, steps: seq<Step>)
    requires AllEnabled(s, steps) && steps != []
    ensures AllEnabled(s, steps[..|steps| - 1])
    ensures Enabled(Run(s, steps[..|steps| - 1]), steps[|steps| - 1])
  {
    var init := steps[..|steps| - 1];
    forall i | 0 <= i < |init|
      ensures Enabled(Run(s, init[..i]), init[i])
    {
      assert init[..i] == steps[..i];
    }
  }

  lemma AllReadyProgresses(s: Sys, steps: seq<Step>)
    requires DrainInv(s) && DropFree(s, steps) && AllReady(s.n, Target(s))
    ensures DrainInv(Run(s, steps)) && Progressing(Run(s, steps))
  {
    RunDrains(s, steps);
    DrainEmptiesIffAllReady(s.n, Target(s));
  }

  lemma UnsentProgresses(s: Sys, steps: seq<Step>, step: Step)
    requires DrainInv(s) && DropFree(s, steps + [step])
    requires DrainInv(Run(s, steps + [step])) && Todo(Run(s, steps + [step])) != []
    ensures DrainInv(Run(s, steps)) && Todo(Run(s, steps)) != []
  {
    var all := steps + [step];
    DropFreePrefix(s, all);
    assert all[..|steps|] == steps;
    RunDrains(s, steps);
    RunDrains(s, all);
    OneStepOutput(s, steps, step);
    SameOutcomeLength(s, Run(s, steps));
    SameOutcomeLength(s, Run(s, all));
  }

  lemma OneStepOutput(s: Sys, steps: seq<Step>, step: Step)
    ensures |Run(s, steps + [step]).out| >= |Run(s, steps).out|
  {
    RunOneMore(s, steps, step);
  }

  /** A run of effective steps that ends with batches unsent, or that starts with nothing but complete
      entries, is no longer than the measure at its start. */
  lemma {:induction false} ProgressIsBounded(s: Sys, steps: seq<Step>)
    requires DrainInv(s) && DropFree(s, steps) && AllEnabled(s, steps)
    requires DrainInv(Run(s, steps))
    requires AllReady(s.n, Target(s)) || Todo(Run(s, steps)) != []
    ensures |steps| + Measure(Run(s, steps)) <= Measure(s)
    decreases |steps|
  {
    if steps != [] {
      var init, step := steps[..|steps| - 1], steps[|steps| - 1];
      assert steps == init + [step];
      DropFreePrefix(s, steps);
      AllEnabledPrefix(s, steps);
      RunDrains(s, init);
      if AllReady(s.n, Target(s)) {
        AllReadyProgresses(s, init);
      } else {
        UnsentProgresses(s, init, step);
      }
      ProgressIsBounded(s, init);
      StepDecreasesMeasure(Run(s, init), step);
    }
  }

  /** If every entry is complete the drain is short whatever the schedule: no run of effective steps is
      longer than the measure at its start, so every one that goes on finishes. */
  lemma CompleteDrainsAreBounded(s: Sys, steps: seq<Step>)
    requires DrainInv(s) && DropFree(s, steps) && AllEnabled(s, steps) && AllReady(s.n, Target(s))
    ensures |steps| <= Measure(s)
  {
    RunDrains(s, steps);
    ProgressIsBounded(s, steps);
  }

  /** If some entry is incomplete, every long enough run of effective steps has sent all that precedes it. */
  lemma LongRunsSendWhatTheyCan(s: Sys, steps: seq<Step>)
    requires DrainInv(s) && DropFree(s, steps) && AllEnabled(s, steps) && |steps| > Measure(s)
    ensures DrainInv(Run(s, steps)) && Todo(Run(s, steps)) == []
    ensures Run(s, steps).out == s.out + AsOutput(Todo(s))
  {
    RunDrains(s, steps);
    if Todo(Run(s, steps)) != [] {
      ProgressIsBounded(s, steps);
    }
    assert AsOutput(Todo(Run(s, steps))) == [];
  }

  lemma DropFreeExtended(s: Sys, steps: seq<Step>, step: Step)
    requires DropFree(s, steps) && !Drops(Run(s, steps), step)
    ensures DropFree(s, steps + [step])
  {
    var all := steps + [step];
    forall i | 0 <= i < |all|
      ensures !Drops(Run(s, all[..i]), all[i])
    {
      if i < |steps| {
        assert all[..i] == steps[..i];
      } else {
        assert all[..i] == steps;
      }
    }
  }

  /** From a drop-free point with complete entries a drop-free run to the end exists. */
  lemma {:induction false} CompleteDrainsFinish(s: Sys, done: seq<Step>) returns (steps: seq<Step>)
    requires DrainInv(s) && DropFree(s, done) && AllReady(s.n, Target(s))
    ensures DropFree(s, steps) && Run(s, steps).phase.Finished?
    decreases (RunDrains(s, done); Measure(Run(s, done)))
  {
    RunDrains(s, done);
    var t := Run(s, done);
    if t.phase.Finished? {
      steps := done;
    } else {
      var step := SomeStepIsPossible(t);
      AllReadyProgresses(s, done);
      StepDecreasesMeasure(t, step);
      DropFreeExtended(s, done, step);
      RunOneMore(s, done, step);
      steps := CompleteDrainsFinish(s, done + [step]);
    }
  }

  /** Drain characterisation, first half. Once the streams have ended, some drop-free schedule makes the
      loop stop exactly when every remaining entry holds n lists, and whenever it stops it has sent
      precisely the remaining entries, in ascending order of chunk and choice. */
  lemma LoopStopsIffEveryEntryIsComplete(s: Sys)
    requires DrainInv(s)
    ensures AllReady(s.n, Target(s)) <==>
            exists steps :: DropFree(s, steps) && Run(s, steps).phase.Finished?
    ensures forall steps :: DropFree(s, steps) && Run(s, steps).phase.Finished? ==>
              Run(s, steps).out == s.out + AsOutput(Todo(s))
  {
    if AllReady(s.n, Target(s)) {
      var steps := CompleteDrainsFinish(s, []);
    }
    forall steps | DropFree(s, steps) && Run(s, steps).phase.Finished?
      ensures AllReady(s.n, Target(s)) && Run(s, steps).out == s.out + AsOutput(Todo(s))
    {
      RunDrains(s, steps);
      FinishedHasNothingToDo(Run(s, steps));
      DrainEmptiesIffAllReady(s.n, Target(s));
    }
  }

  lemma NothingDrainedLeavesAll(n: nat, state: State)
    ensures DrainList(n, state) == [] ==> DrainRest(n, state) == state
  {
  }

  lemma BlockedStaysBlocked(s: Sys, t: Sys)
    requires DrainInv(s) && DrainInv(t) && SameOutcome(s, t) && |t.out| >= |s.out|
    requires Todo(s) == []
    ensures Todo(t) == [] && t.out == s.out && Target(t) == Target(s)
  {
    SameOutcomeLength(s, t);
    assert AsOutput(Todo(s)) == [] && AsOutput(Todo(t)) == [];
    assert s.out + [] == s.out && t.out + [] == t.out;
    NothingDrainedLeavesAll(s.n, Target(s));
    NothingDrainedLeavesAll(t.n, Target(t));
  }

  lemma RestMeansRunning(s: Sys)
    requires DrainInv(s) && DrainRest(s.n, Target(s)) != map[]
    ensures s.phase == Running
  {
    if s.phase.Finished? {
      FinishedHasNothingToDo(s);
    }
  }

  /** Drain characterisation, second half. If some entry is incomplete, the loop sends what precedes the
      first incomplete entry, and from then on no step changes the output or what the batcher holds, and
      the loop never stops, although it never runs out of steps. */
  lemma IncompleteEntryBlocksForever(s: Sys, steps: seq<Step>)
    requires DrainInv(s) && Todo(s) == [] && !AllReady(s.n, Target(s)) && DropFree(s, steps)
    ensures DrainInv(Run(s, steps))
    ensures Run(s, steps).phase == Running
    ensures Run(s, steps).out == s.out
    ensures Target(Run(s, steps)) == Target(s)
    ensures exists step :: Enabled(Run(s, steps), step) && !Drops(Run(s, steps), step)
  {
    RunDrains(s, steps);
    DrainEmptiesIffAllReady(s.n, Target(s));
    RestMeansRunning(Run(s, steps));
    OutputOnlyGrows(s, steps);
    BlockedStaysBlocked(s, Run(s, steps));
    var step := SomeStepIsPossible(Run(s, steps));
  }

  lemma {:induction false} OutputOnlyGrows(s: Sys, steps: seq<Step>)
    ensures |Run(s, steps).out| >= |s.out|
    decreases |steps|
  {
    if steps != [] {
      OutputOnlyGrows(s, steps[..|steps| - 1]);
    }
  }

  // ---------------------------------------------------------------------------------------------
  // The actor's steps and its manager

  function Acts(k: nat): seq<Step> {
    seq(k, _ => Act)
  }

  lemma {:induction false} RunAppend(s: Sys, a: seq<Step>, b: seq<Step>)
    ensures Run(s, a + b) == Run(Run(s, a), b)
    decreases |b|
  {
    if b == [] {
      assert a + b == a;
    } else {
      var init, last := b[..|b| - 1], b[|b| - 1];
      RunAppend(s, a, init);
      assert (a + b)[..|a + b| - 1] == a + init;
    }
  }

  lemma ActIsTheManager(t: Sys)
    requires t.mailbox != []
    ensures var u, m := ActOn(t), t.mailbox[0];
            && u.n == t.n && u.mailbox == t.mailbox[1..] && u.phase == t.phase && u.completed == t.completed
            && u.round == t.round && u.out == t.out && u.state == StateAfter(t.n, t.state, m)
            && (t.pop.Waiting? && m == PopMail(t.round) ==> u.pop == Answered(ReplyTo(t.n, t.state, m).batch))
            && (t.empty.Asked? && m == EmptyMail(t.round) ==> u.empty == Told(ReplyTo(t.n, t.state, m).empty))
  {
  }

  /** t is s after the actor has handled k messages. */
  ghost predicate HasHandled(s: Sys, k: nat, t: Sys)
    requires k <= |s.mailbox|
  {
    && t.n == s.n && t.mailbox == s.mailbox[k..] && t.phase == s.phase && t.completed == s.completed
    && t.round == s.round && t.out == s.out && t.state == StateAfterAll(s.n, s.state, s.mailbox[..k])
  }

  lemma OneMoreHandled(s: Sys, k: nat, t: Sys)
    requires k < |s.mailbox| && HasHandled(s, k, t)
    ensures HasHandled(s, k + 1, ActOn(t))
  {
    ActIsTheManager(t);
    assert s.mailbox[..k + 1][..k] == s.mailbox[..k];
  }

  lemma {:induction false} ActsHandleTheMailbox(s: Sys, k: nat)
    requires k <= |s.mailbox|
    ensures HasHandled(s, k, Run(s, Acts(k)))
  {
    if k > 0 {
      ActsHandleTheMailbox(s, k - 1);
      assert Acts(k)[..k - 1] == Acts(k - 1);
      OneMoreHandled(s, k - 1, Run(s, Acts(k - 1)));
    }
  }

  /** Handling the mailbox step by step is what the manager does with its messages: the same states, and each live
      request gets the manager's reply. */
  lemma ActsAreTheManager(s: Sys, k: nat)
    requires k <= |s.mailbox|
    ensures var t := Run(s, Acts(k));
            && HasHandled(s, k, t)
            && (k < |s.mailbox| && t.pop.Waiting? && s.mailbox[k] == PopMail(s.round) ==>
                  ActOn(t).pop == Answered(ReplyTo(s.n, t.state, s.mailbox[k]).batch))
            && (k < |s.mailbox| && t.empty.Asked? && s.mailbox[k] == EmptyMail(s.round) ==>
                  ActOn(t).empty == Told(ReplyTo(s.n, t.state, s.mailbox[k]).empty))
  {
    ActsHandleTheMailbox(s, k);
    if k < |s.mailbox| {
      ActIsTheManager(Run(s, Acts(k)));
    }
  }

  // ---------------------------------------------------------------------------------------------
  // All schedules, with dropped futures and stale requests

  /** What the batcher holds once the actor has handled everything in the mailbox. */
  function Pending(s: Sys): State {
    StateAfterAll(s.n, s.state, s.mailbox)
  }

  lemma {:induction false} FirstMailFirst(n: nat, state: State, m: Mail, rest: seq<Mail>)
    ensures StateAfterAll(n, state, [m] + rest) == StateAfterAll(n, StateAfter(n, state, m), rest)
    decreases |rest|
  {
    if rest == [] {
      assert [m] + rest == [m] && [m][..0] == [];
    } else {
      FirstMailFirst(n, state, m, rest[..|rest| - 1]);
      assert ([m] + rest)[..|rest|] == [m] + rest[..|rest| - 1];
    }
  }

  lemma LastMailLast(n: nat, state: State, mails: seq<Mail>, m: Mail)
    ensures StateAfterAll(n, state, mails + [m]) == StateAfter(n, StateAfterAll(n, state, mails), m)
  {
    assert (mails + [m])[..|mails|] == mails;
  }

  /** Once the streams have ended, only posting a pop request changes what will be held, and it pops. */
  lemma StepOnPending(s: Sys, step: Step)
    requires s.completed && Enabled(s, step)
    ensures Next(s, step).completed && Next(s, step).n == s.n
    ensures Pending(Next(s, step)) == if step.PollPop? then Popped(s.n, Pending(s)) else Pending(s)
  {
    match step
    case Act =>
      assert s.mailbox == [s.mailbox[0]] + s.mailbox[1..];
      FirstMailFirst(s.n, s.state, s.mailbox[0], s.mailbox[1..]);
    case PollPop => LastMailLast(s.n, s.state, s.mailbox, PopMail(s.round));
    case PollEmpty => LastMailLast(s.n, s.state, s.mailbox, EmptyMail(s.round));
    case _ =>
  }

  lemma PopLeavesIncompleteEntries(n: nat, state: State)
    ensures AllReady(n, Popped(n, state)) <==> AllReady(n, state)
  {
    if Ready(n, state) {
      var k := FirstKey(state);
      assert forall j :: j in state ==> j == k || j in Popped(n, state);
    }
  }

  lemma {:induction false} IncompleteEntriesNeverLeave(s: Sys, steps: seq<Step>)
    requires s.completed
    ensures Run(s, steps).completed && Run(s, steps).n == s.n
    ensures AllReady(s.n, Pending(Run(s, steps))) <==> AllReady(s.n, Pending(s))
    decreases |steps|
  {
    if steps != [] {
      var t, step := Run(s, steps[..|steps| - 1]), steps[|steps| - 1];
      IncompleteEntriesNeverLeave(s, steps[..|steps| - 1]);
      if Enabled(t, step) {
        StepOnPending(t, step);
        PopLeavesIncompleteEntries(s.n, Pending(t));
      }
    }
  }

  lemma {:induction false} NothingComesFromNothing(n: nat, mails: seq<Mail>)
    requires forall i :: 0 <= i < |mails| ==> !mails[i].PushMail?
    ensures StateAfterAll(n, map[], mails) == map[]
    decreases |mails|
  {
    if mails != [] {
      NothingComesFromNothing(n, mails[..|mails| - 1]);
    }
  }

  /** The actor handles its mailbox; then the drain is on. */
  lemma MailboxEmptiesIntoTheDrain(n: nat, steps: seq<Step>) returns (all: seq<Step>)
    requires Run(Init(n), steps).completed && !Run(Init(n), steps).phase.Failed?
    ensures steps <= all
    ensures DrainInv(Run(Init(n), all)) && Target(Run(Init(n), all)) == Pending(Run(Init(n), steps))
    ensures Run(Init(n), all).n == Run(Init(n), steps).n
  {
    var s := Run(Init(n), steps);
    var k := |s.mailbox|;
    all := steps + Acts(k);
    RunAppend(Init(n), steps, Acts(k));
    ActsAreTheManager(s, k);
    assert s.mailbox[..k] == s.mailbox;
    DrainIsOnIffNoPopIsStale(n, all);
    NoPushMailMeansTargetIsState(Run(Init(n), all));
  }

  /** Drain characterisation over all schedules. On any run, dropped futures and stale requests included, once the streams
      have ended without an error, some way to go on finishes exactly if every entry the batcher will hold, when the
      mailbox is handled, holds n lists. */
  lemma SomeScheduleFinishesIffEveryEntryIsComplete(n: nat, steps: seq<Step>)
    requires Run(Init(n), steps).completed && !Run(Init(n), steps).phase.Failed?
    ensures AllReady(n, Pending(Run(Init(n), steps)))
       <==> exists all :: steps <= all && Run(Init(n), all).phase.Finished?
  {
    var s := Run(Init(n), steps);
    InvariantHoldsOnEveryRun(n, steps);
    if AllReady(n, Pending(s)) {
      var handled := MailboxEmptiesIntoTheDrain(n, steps);
      var more := CompleteDrainsFinish(Run(Init(n), handled), []);
      RunAppend(Init(n), handled, more);
      assert steps <= handled + more;
    }
    if all :| steps <= all && Run(Init(n), all).phase.Finished? {
      assert all == steps + all[|steps|..];
      RunAppend(Init(n), steps, all[|steps|..]);
      IncompleteEntriesNeverLeave(s, all[|steps|..]);
      InvariantHoldsOnEveryRun(n, all);
      NothingComesFromNothing(n, Run(Init(n), all).mailbox);
    }
  }

  lemma StepReleasesInOrder(s: Sys, step: Step)
    requires s.completed && NoPushMail(s) && Enabled(s, step)
    ensures var t := Next(s, step);
            && t.completed && NoPushMail(t) && t.n == s.n
            && t.popped + DrainList(t.n, t.state) == s.popped + DrainList(s.n, s.state)
  {
    if step.Act? {
      MailboxAfterFirst(s, ActOn(s));
      if s.mailbox[0].PopMail? && Ready(s.n, s.state) {
        var r, rest := NextRelease(s.n, s.state), DrainList(s.n, Popped(s.n, s.state));
        DrainUnfolds(s.n, s.state);
        assert (s.popped + [r]) + rest == s.popped + ([r] + rest);
      }
    }
  }

  /** Whatever the schedule drops, once no push is left to handle the releases come in strictly ascending order of chunk and
      choice, and are those the drain would make; so what is sent is an ascending part of them. */
  lemma {:induction false} EveryScheduleReleasesInOrder(s: Sys, steps: seq<Step>)
    requires s.completed && NoPushMail(s)
    ensures var t := Run(s, steps);
            && t.completed && NoPushMail(t) && t.n == s.n
            && t.popped + DrainList(t.n, t.state) == s.popped + DrainList(s.n, s.state)
            && Ascends(DrainList(s.n, s.state))
    decreases |steps|
  {
    DrainAscends(s.n, s.state);
    if steps != [] {
      EveryScheduleReleasesInOrder(s, steps[..|steps| - 1]);
      var t := Run(s, steps[..|steps| - 1]);
      if Enabled(t, steps[|steps| - 1]) {
        StepReleasesInOrder(t, steps[|steps| - 1]);
      }
    }
  }

  /** What was sent since s are releases made since s, found at these ascending places. */
  ghost predicate SentFrom(s: Sys, t: Sys, places: seq<nat>) {
    && |s.popped| <= |t.popped| && (HoldsBatch(t) ==> |s.popped| < |t.popped|)
    && |t.out| == |s.out| + |places| && s.out <= t.out
    && (forall i, j :: 0 <= i < j < |places| ==> places[i] < places[j])
    && (forall i :: 0 <= i < |places| ==>
          && |s.popped| <= places[i] < |t.popped| && (HoldsBatch(t) ==> places[i] < |t.popped| - 1)
          && t.out[|s.out| + i] == Ok(t.popped[places[i]].ToBatch()))
  }

  lemma TakenBatchIsSent(s: Sys, t: Sys, places: seq<nat>)
    requires SentFrom(s, t, places) && FateInv(t) && Enabled(t, TakeBatch)
    ensures SentFrom(s, Next(t, TakeBatch), places + [|t.popped| - 1])
  {
  }

  lemma ActSendsNothing(s: Sys, t: Sys, places: seq<nat>)
    requires SentFrom(s, t, places) && MailInv(t) && t.mailbox != []
    ensures SentFrom(s, ActOn(t), places)
  {
  }

  lemma StepSendsInOrder(s: Sys, t: Sys, places: seq<nat>, step: Step) returns (more: seq<nat>)
    requires SentFrom(s, t, places) && FateInv(t) && MailInv(t) && t.completed && Enabled(t, step)
    ensures SentFrom(s, Next(t, step), more)
  {
    more := places;
    match step
    case TakeBatch =>
      TakenBatchIsSent(s, t, places);
      more := places + [|t.popped| - 1];
    case Act => ActSendsNothing(s, t, places);
    case _ =>
  }

  lemma {:induction false} RunSendsInOrder(n: nat, steps: seq<Step>, more: seq<Step>) returns (places: seq<nat>)
    requires Run(Init(n), steps).completed && NoPushMail(Run(Init(n), steps)) && !HoldsBatch(Run(Init(n), steps))
    ensures SentFrom(Run(Init(n), steps), Run(Run(Init(n), steps), more), places)
    decreases |more|
  {
    var s := Run(Init(n), steps);
    places := [];
    if more != [] {
      var t, step := Run(s, more[..|more| - 1]), more[|more| - 1];
      places := RunSendsInOrder(n, steps, more[..|more| - 1]);
      RunAppend(Init(n), steps, more[..|more| - 1]);
      InvariantHoldsOnEveryRun(n, steps + more[..|more| - 1]);
      EveryScheduleReleasesInOrder(s, more[..|more| - 1]);
      if Enabled(t, step) {
        places := StepSendsInOrder(s, t, places, step);
      }
    }
  }

  /** Whatever the schedule drops, what is sent once the streams have ended, the pushes are handled and no answered batch
      waits, is a part of what the drain would send, in strictly ascending order. */
  lemma EveryScheduleSendsInOrder(n: nat, steps: seq<Step>, more: seq<Step>) returns (sent: seq<Release>)
    requires Run(Init(n), steps).completed && NoPushMail(Run(Init(n), steps)) && !HoldsBatch(Run(Init(n), steps))
    ensures var s := Run(Init(n), steps);
            && Run(s, more).out == s.out + AsOutput(sent)
            && Ascends(sent) && forall x :: x in sent ==> x in DrainList(s.n, s.state)
  {
    var s := Run(Init(n), steps);
    var t, list := Run(s, more), DrainList(s.n, s.state);
    var places := RunSendsInOrder(n, steps, more);
    EveryScheduleReleasesInOrder(s, more);
    sent := seq(|places|, i requires 0 <= i < |places| => t.popped[places[i]]);
    forall i | 0 <= i < |places|
      ensures places[i] - |s.popped| < |list| && sent[i] == list[places[i] - |s.popped|]
    {
      assert (t.popped + DrainList(t.n, t.state))[places[i]] == t.popped[places[i]];
    }
  }
}
