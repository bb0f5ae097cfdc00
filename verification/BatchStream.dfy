/** The detection batch stream: a select loop that talks to a batcher actor through a mailbox. */
module BatchStream {
  import opened Types
  import opened CompletionBatching
  import opened InOrderRelease

  // ---------------------------------------------------------------------------------------------
  // The actor

  /** A request carries the number of the select round that made it; it stands for the reply channel. */
  datatype Mail = PushMail(push: Push) | PopMail(round: nat) | EmptyMail(round: nat)

  datatype Reply = NoReply | PopReply(round: nat, batch: Option<Batch>) | EmptyReply(round: nat, empty: bool)

  function StateAfter(n: nat, state: State, mail: Mail): State {
    match mail
    case PushMail(p) => Pushed(state, p.choice, p.chunk, p.detections)
    case PopMail(_) => Popped(n, state)
    case EmptyMail(_) => state
  }

  function ReplyTo(n: nat, state: State, mail: Mail): Reply {
    match mail
    case PushMail(_) => NoReply
    case PopMail(r) => PopReply(r, PopResult(n, state))
    case EmptyMail(r) => EmptyReply(r, state == map[])
  }

  function StateAfterAll(n: nat, state: State, mails: seq<Mail>): State {
    if mails == [] then state
    else StateAfter(n, StateAfterAll(n, state, mails[..|mails| - 1]), mails[|mails| - 1])
  }

  /** The replies so far, each from the state the messages before its own left. */
  ghost predicate RepliesInTurn(n: nat, state: State, rx: seq<Mail>, replies: seq<Reply>) {
    && |replies| <= |rx|
    && forall k :: 0 <= k < |replies| ==> replies[k] == ReplyTo(n, StateAfterAll(n, state, rx[..k]), rx[k])
  }

  lemma NextMail(n: nat, state: State, rx: seq<Mail>, k: nat)
    requires k < |rx|
    ensures StateAfterAll(n, state, rx[..k + 1]) == StateAfter(n, StateAfterAll(n, state, rx[..k]), rx[k])
  {
    assert rx[..k + 1][..k] == rx[..k];
  }

  /** Manages a batcher for as long as messages arrive. */
  class DetectionBatcherManager {
    const batcher: CompletionBatcher

    constructor (batcher: CompletionBatcher)
      ensures this.batcher == batcher
    {
      this.batcher := batcher;
    }

    method Handle(mail: Mail) returns (reply: Reply)
      requires batcher.Valid()
      modifies batcher
      ensures batcher.Valid()
      ensures batcher.state == StateAfter(batcher.nDetectors, old(batcher.state), mail)
      ensures reply == ReplyTo(batcher.nDetectors, old(batcher.state), mail)
    {
      match mail
      case PushMail(p) =>
        batcher.Push(p.choice, p.chunk, p.detections);
        reply := NoReply;
      case PopMail(round) =>
        var batch := batcher.PopBatch();
        reply := PopReply(round, batch);
      case EmptyMail(round) =>
        var empty := batcher.IsEmpty();
        reply := EmptyReply(round, empty);
    }

    /** Handles the messages in order; each is answered from the state the messages before it left. */
    method Run(rx: seq<Mail>) returns (replies: seq<Reply>)
      requires batcher.Valid()
      modifies batcher
      ensures batcher.Valid()
      ensures batcher.state == StateAfterAll(batcher.nDetectors, old(batcher.state), rx)
      ensures |replies| == |rx|
      ensures forall k :: 0 <= k < |rx| ==>
                replies[k] == ReplyTo(batcher.nDetectors, StateAfterAll(batcher.nDetectors, old(batcher.state), rx[..k]), rx[k])
    {
      ghost var n, was := batcher.nDetectors, batcher.state;
      replies := [];
      for k := 0 to |rx|
        invariant batcher.Valid()
        invariant batcher.state == StateAfterAll(n, was, rx[..k])
        invariant |replies| == k && RepliesInTurn(n, was, rx, replies)
      {
        NextMail(n, was, rx, k);
        var reply := Handle(rx[k]);
        replies := replies + [reply];
      }
      assert rx[..|rx|] == rx;
    }
  }

  // ---------------------------------------------------------------------------------------------
  // The select loop, the mailbox and the actor as steps

  /** The pop future of the current round. Unsent: its request is not in the mailbox yet. Disabled: it
      answered None, so its branch is off for the rest of the round. */
  datatype PopFuture = Unsent | Waiting | Answered(batch: Option<Batch>) | Disabled

  datatype EmptyFuture = NotAsked | Asked | Told(empty: bool)

  datatype Phase = Running | Finished | Failed(error: string)

  /** What became of a batch the actor released. */
  datatype Fate = Sent | Unread | Discarded

  datatype Sys = Sys(
    n: nat,
    state: State,                       // the actor's batcher
    mailbox: seq<Mail>,                 // requests the actor has not handled, oldest first
    round: nat,                         // number of the current select round
    pop: PopFuture,
    empty: EmptyFuture,
    completed: bool,                    // stream_completed
    phase: Phase,
    out: seq<Result<Batch, string>>,    // what was sent to the batch channel
    // History, which no step reads
    received: seq<Push>,                // what the detection streams delivered
    ops: seq<Op>,                       // what the actor did to its batcher
    popped: seq<Release>,               // what the actor released
    fates: seq<Fate>)                   // one per release

  datatype Step =
    | Receive(push: Push)               // a detection stream delivers; the loop pushes it
    | ReceiveError(error: string)       // a detection stream delivers an error
    | StreamsEnd                        // all detection streams have ended
    | PollPop                           // the pop future sends its request
    | PollEmpty                         // the emptiness future sends its request, after the pop future did
    | Act                               // the actor handles the oldest request
    | TakeBatch                         // the pop branch completes with a batch
    | TakeNone                          // the pop future completes with None
    | TakeEmpty                         // the emptiness branch completes

  function Init(n: nat): Sys {
    Sys(n, map[], [], 0, Unsent, NotAsked, false, Running, [], [], [], [], [])
  }

  predicate Enabled(s: Sys, step: Step) {
    match step
    case Receive(_) => s.phase.Running? && !s.completed
    case ReceiveError(_) => s.phase.Running? && !s.completed
    case StreamsEnd => s.phase.Running? && !s.completed
    case PollPop => s.phase.Running? && s.pop.Unsent?
    case PollEmpty => s.phase.Running? && s.completed && s.empty.NotAsked? && !s.pop.Unsent?
    case Act => s.mailbox != []
    case TakeBatch => s.phase.Running? && s.pop.Answered? && s.pop.batch.Some?
    case TakeNone => s.phase.Running? && s.pop.Answered? && s.pop.batch.None?
    case TakeEmpty => s.phase.Running? && s.empty.Told?
  }

  /** The fates after the reply of the pop future, if it holds a batch, met the given one. */
  function Settled(s: Sys, fate: Fate): seq<Fate> {
    if s.pop.Answered? && s.pop.batch.Some? && s.fates != [] then s.fates[|s.fates| - 1 := fate] else s.fates
  }

  /** The round ends: the select drops the futures that did not win, whatever they were waiting for. */
  function NextRound(s: Sys, fate: Fate): Sys {
    s.(round := s.round + 1, pop := Unsent, empty := NotAsked, fates := Settled(s, fate))
  }

  function ActOnPush(s: Sys, p: Push): Sys
    requires s.mailbox != []
  {
    s.(mailbox := s.mailbox[1..],
       state := StateAfter(s.n, s.state, PushMail(p)),
       ops := s.ops + [PushOp(p)])
  }

  /** The reply reaches the pop future only if that future still exists. */
  function ActOnPop(s: Sys, r: nat): Sys
    requires s.mailbox != []
  {
    var alive := r == s.round && s.pop.Waiting?;
    var ready := Ready(s.n, s.state);
    s.(mailbox := s.mailbox[1..],
       state := StateAfter(s.n, s.state, PopMail(r)),
       ops := s.ops + [PopOp],
       pop := if alive then Answered(PopResult(s.n, s.state)) else s.pop,
       popped := if ready then s.popped + [NextRelease(s.n, s.state)] else s.popped,
       fates := if ready then s.fates + [if alive then Unread else Discarded] else s.fates)
  }

  function ActOnEmpty(s: Sys, r: nat): Sys
    requires s.mailbox != []
  {
    var alive := r == s.round && s.empty.Asked?;
    s.(mailbox := s.mailbox[1..],
       empty := if alive then Told(s.state == map[]) else s.empty)
  }

  function ActOn(s: Sys): Sys
    requires s.mailbox != []
  {
    match s.mailbox[0]
    case PushMail(p) => ActOnPush(s, p)
    case PopMail(r) => ActOnPop(s, r)
    case EmptyMail(r) => ActOnEmpty(s, r)
  }

  function Next(s: Sys, step: Step): Sys
    requires Enabled(s, step)
  {
    match step
    case Receive(p) =>
      NextRound(s, Discarded).(mailbox := s.mailbox + [PushMail(p)], received := s.received + [p])
    case ReceiveError(e) => NextRound(s, Discarded).(phase := Failed(e), out := s.out + [Err(e)])
    case StreamsEnd => NextRound(s, Discarded).(completed := true)
    case PollPop => s.(pop := Waiting, mailbox := s.mailbox + [PopMail(s.round)])
    case PollEmpty => s.(empty := Asked, mailbox := s.mailbox + [EmptyMail(s.round)])
    case Act => ActOn(s)
    case TakeBatch => NextRound(s, Sent).(out := s.out + [Ok(s.pop.batch.value)])
    case TakeNone => s.(pop := Disabled)
    case TakeEmpty =>
      NextRound(s, Discarded).(phase := if s.empty.empty then Finished else Running)
  }

  /** A step that is not enabled does nothing, so every list of steps is a run. */
  function Do(s: Sys, step: Step): Sys {
    if Enabled(s, step) then Next(s, step) else s
  }

  function Run(s: Sys, steps: seq<Step>): Sys {
    if steps == [] then s else Do(Run(s, steps[..|steps| - 1]), steps[|steps| - 1])
  }

  // ---------------------------------------------------------------------------------------------
  // What every step keeps

  function PushesOf(ops: seq<Op>): seq<Push> {
    if ops == [] then []
    else
      var last, before := ops[|ops| - 1], PushesOf(ops[..|ops| - 1]);
      if last.PushOp? then before + [last.push] else before
  }

  function MailPushes(mailbox: seq<Mail>): seq<Push> {
    if mailbox == [] then []
    else if mailbox[0].PushMail? then [mailbox[0].push] + MailPushes(mailbox[1..])
    else MailPushes(mailbox[1..])
  }

  lemma {:induction false} MailPushesAppend(a: seq<Mail>, m: Mail)
    ensures MailPushes(a + [m]) == if m.PushMail? then MailPushes(a) + [m.push] else MailPushes(a)
  {
    if a == [] {
      assert a + [m] == [m] && [m][1..] == [];
    } else {
      MailPushesAppend(a[1..], m);
      assert (a + [m])[1..] == a[1..] + [m];
    }
  }

  /** The batches that were sent, in release order. */
  function SentOf(popped: seq<Release>, fates: seq<Fate>): seq<Release>
    requires |popped| == |fates|
  {
    if popped == [] then []
    else
      var before := SentOf(popped[..|popped| - 1], fates[..|fates| - 1]);
      if fates[|fates| - 1].Sent? then before + [popped[|popped| - 1]] else before
  }

  function AsOutput(releases: seq<Release>): (r: seq<Result<Batch, string>>)
    ensures |r| == |releases|
    ensures forall i :: 0 <= i < |r| ==> r[i] == Ok(releases[i].ToBatch())
  {
    seq(|releases|, i requires 0 <= i < |releases| => Ok(releases[i].ToBatch()))
  }

  /** The actor's batcher is what its operations make of a fresh one, and those operations together with
      the mailbox are exactly what was received, in order. */
  ghost predicate ActorInv(s: Sys) {
    && Exec(s.n, s.ops) == History(s.state, s.popped)
    && PushesOf(s.ops) + MailPushes(s.mailbox) == s.received
  }

  predicate HoldsBatch(s: Sys) {
    s.pop.Answered? && s.pop.batch.Some?
  }

  /** Every release has one fate; the only one unread is the last, and only while the pop future holds it. */
  ghost predicate FateInv(s: Sys) {
    && |s.fates| == |s.popped|
    && (HoldsBatch(s) ==>
          && s.popped != []
          && s.fates[|s.fates| - 1] == Unread
          && s.pop.batch.value == s.popped[|s.popped| - 1].ToBatch())
    && (forall i :: 0 <= i < |s.fates| && s.fates[i].Unread? ==> HoldsBatch(s) && i == |s.fates| - 1)
    && s.out == AsOutput(SentOf(s.popped, s.fates)) + (if s.phase.Failed? then [Err(s.phase.error)] else [])
  }

  /** Where requests can be in the mailbox, given the state of the futures. */
  ghost predicate MailInv(s: Sys) {
    && (forall i :: 0 <= i < |s.mailbox| && s.mailbox[i].PopMail? ==> s.mailbox[i].round <= s.round)
    && (forall i :: 0 <= i < |s.mailbox| && s.mailbox[i].EmptyMail? ==> s.mailbox[i].round <= s.round && s.completed)
    && (s.pop.Waiting? <==> PopMail(s.round) in s.mailbox)
    && (s.pop.Answered? || s.pop.Disabled? ==> forall i :: 0 <= i < |s.mailbox| ==> !s.mailbox[i].PopMail?)
    && (forall i, j :: 0 <= i < j < |s.mailbox| && s.mailbox[i] == PopMail(s.round) ==> !s.mailbox[j].PopMail?)
    && (s.empty.Asked? <==> EmptyMail(s.round) in s.mailbox)
    && (forall i, j :: 0 <= i < j < |s.mailbox| && s.mailbox[i] == EmptyMail(s.round) ==>
          s.mailbox[j] != PopMail(s.round) && s.mailbox[j] != EmptyMail(s.round))
    && (!s.empty.NotAsked? ==> s.completed && !s.pop.Unsent?)
    && (s.empty.Told? ==> !s.pop.Waiting?)
    && (!s.phase.Running? ==> s.pop.Unsent? && s.empty.NotAsked?)
  }

  /** Emptiness is asked for only after the last push was posted, so an answer leaves no push behind. */
  ghost predicate EmptinessInv(s: Sys) {
    && (forall i, j :: 0 <= i < j < |s.mailbox| && s.mailbox[i].EmptyMail? ==> !s.mailbox[j].PushMail?)
    && (s.empty.Told? || s.phase.Finished? ==> forall i :: 0 <= i < |s.mailbox| ==> !s.mailbox[i].PushMail?)
    && (s.empty == Told(true) || s.phase.Finished? ==> s.state == map[])
    && (s.phase.Finished? ==> s.completed)
  }

  ghost predicate SysInv(s: Sys) {
    ActorInv(s) && FateInv(s) && MailInv(s) && EmptinessInv(s)
  }

  lemma OneMoreOp(n: nat, ops: seq<Op>, op: Op)
    ensures Exec(n, ops + [op]) == Apply(n, Exec(n, ops), op)
    ensures PushesOf(ops + [op]) == if op.PushOp? then PushesOf(ops) + [op.push] else PushesOf(ops)
  {
    assert (ops + [op])[..|ops|] == ops;
  }

  lemma PushKeepsActorInv(s: Sys, p: Push)
    requires ActorInv(s) && s.mailbox != [] && s.mailbox[0] == PushMail(p)
    ensures ActorInv(ActOnPush(s, p))
  {
    OneMoreOp(s.n, s.ops, PushOp(p));
    assert PushesOf(s.ops) + ([p] + MailPushes(s.mailbox[1..])) == (PushesOf(s.ops) + [p]) + MailPushes(s.mailbox[1..]);
  }

  lemma PopKeepsActorInv(s: Sys, r: nat)
    requires ActorInv(s) && s.mailbox != [] && s.mailbox[0] == PopMail(r)
    ensures ActorInv(ActOnPop(s, r))
  {
    OneMoreOp(s.n, s.ops, PopOp);
  }

  lemma StepKeepsActorInv(s: Sys, step: Step)
    requires ActorInv(s) && Enabled(s, step)
    ensures ActorInv(Next(s, step))
  {
    match step
    case Receive(p) => MailPushesAppend(s.mailbox, PushMail(p));
    case PollPop => MailPushesAppend(s.mailbox, PopMail(s.round));
    case PollEmpty => MailPushesAppend(s.mailbox, EmptyMail(s.round));
    case Act =>
      match s.mailbox[0] {
        case PushMail(p) => PushKeepsActorInv(s, p);
        case PopMail(r) => PopKeepsActorInv(s, r);
        case EmptyMail(_) =>
      }
    case _ =>
  }

  lemma {:induction false} SentOfUnchangedPrefix(popped: seq<Release>, fates: seq<Fate>, r: Release, f: Fate)
    requires |popped| == |fates|
    ensures SentOf(popped + [r], fates + [f])
         == if f.Sent? then SentOf(popped, fates) + [r] else SentOf(popped, fates)
  {
    assert (popped + [r])[..|popped|] == popped && (fates + [f])[..|fates|] == fates;
  }

  lemma SettledFates(s: Sys, fate: Fate)
    requires FateInv(s)
    ensures |Settled(s, fate)| == |s.popped|
    ensures forall i :: 0 <= i < |s.popped| && Settled(s, fate)[i].Unread? ==> HoldsBatch(s) && fate.Unread?
    ensures SentOf(s.popped, Settled(s, fate))
         == if HoldsBatch(s) && fate.Sent? then SentOf(s.popped, s.fates) + [s.popped[|s.popped| - 1]]
            else SentOf(s.popped, s.fates)
  {
    if HoldsBatch(s) {
      var k := |s.fates| - 1;
      assert s.fates[k := fate][..k] == s.fates[..k];
    }
  }

  lemma AsOutputAppend(a: seq<Release>, r: Release)
    ensures AsOutput(a + [r]) == AsOutput(a) + [Ok(r.ToBatch())]
  {
  }

  /** A release is recorded unread if the pop future waits for it, and as discarded otherwise. */
  lemma ReleaseKeepsFateInv(s: Sys, r: Release, alive: bool)
    requires FateInv(s) && !HoldsBatch(s)
    ensures FateInv(s.(popped := s.popped + [r],
                       fates := s.fates + [if alive then Unread else Discarded],
                       pop := if alive then Answered(Some(r.ToBatch())) else s.pop))
  {
    SentOfUnchangedPrefix(s.popped, s.fates, r, if alive then Unread else Discarded);
  }

  /** The invariant looks at the releases and their fates, at the pop future, and at the output. */
  lemma FateInvDependsOn(s: Sys, t: Sys)
    requires FateInv(s)
    requires t.popped == s.popped && t.fates == s.fates && t.pop == s.pop && t.out == s.out && t.phase == s.phase
    ensures FateInv(t)
  {
  }

  lemma NoReleaseKeepsFateInv(s: Sys, pop: PopFuture)
    requires FateInv(s) && !HoldsBatch(s) && (pop == Answered(None) || pop == s.pop)
    ensures FateInv(s.(pop := pop))
  {
  }

  lemma PopKeepsFateInv(s: Sys, r: nat)
    requires FateInv(s) && MailInv(s) && s.mailbox != [] && s.mailbox[0] == PopMail(r)
    ensures FateInv(ActOnPop(s, r))
  {
    assert !HoldsBatch(s);
    var alive := r == s.round && s.pop.Waiting?;
    if Ready(s.n, s.state) {
      var release := NextRelease(s.n, s.state);
      ReleaseKeepsFateInv(s, release, alive);
      FateInvDependsOn(s.(popped := s.popped + [release], fates := s.fates + [if alive then Unread else Discarded],
                          pop := if alive then Answered(Some(release.ToBatch())) else s.pop),
                       ActOnPop(s, r));
    } else {
      var pop := if alive then Answered(None) else s.pop;
      NoReleaseKeepsFateInv(s, pop);
      FateInvDependsOn(s.(pop := pop), ActOnPop(s, r));
    }
  }

  lemma TakeBatchKeepsFateInv(s: Sys)
    requires FateInv(s) && Enabled(s, TakeBatch)
    ensures FateInv(Next(s, TakeBatch))
  {
    SettledFates(s, Sent);
    AsOutputAppend(SentOf(s.popped, s.fates), s.popped[|s.popped| - 1]);
  }

  lemma StepKeepsFateInv(s: Sys, step: Step)
    requires FateInv(s) && MailInv(s) && Enabled(s, step)
    ensures FateInv(Next(s, step))
  {
    match step
    case TakeBatch => TakeBatchKeepsFateInv(s);
    case Act =>
      if s.mailbox[0].PopMail? {
        PopKeepsFateInv(s, s.mailbox[0].round);
      }
    case Receive(_) => SettledFates(s, Discarded);
    case ReceiveError(_) => SettledFates(s, Discarded);
    case StreamsEnd => SettledFates(s, Discarded);
    case TakeEmpty => SettledFates(s, Discarded);
    case _ =>
  }

  lemma MailboxAfterFirst(s: Sys, t: Sys)
    requires s.mailbox != [] && t.mailbox == s.mailbox[1..]
    ensures forall i :: 0 <= i < |t.mailbox| ==> t.mailbox[i] == s.mailbox[i + 1]
    ensures forall m :: m in s.mailbox <==> m == s.mailbox[0] || m in t.mailbox
  {
    assert s.mailbox == [s.mailbox[0]] + t.mailbox;
  }

  lemma PopKeepsMailInv(s: Sys, r: nat)
    requires MailInv(s) && s.mailbox != [] && s.mailbox[0] == PopMail(r)
    ensures MailInv(ActOnPop(s, r))
  {
    MailboxAfterFirst(s, ActOnPop(s, r));
  }

  lemma EmptyKeepsMailInv(s: Sys, r: nat)
    requires MailInv(s) && s.mailbox != [] && s.mailbox[0] == EmptyMail(r)
    ensures MailInv(ActOnEmpty(s, r))
  {
    MailboxAfterFirst(s, ActOnEmpty(s, r));
  }

  lemma PushKeepsMailInv(s: Sys, p: Push)
    requires MailInv(s) && s.mailbox != [] && s.mailbox[0] == PushMail(p)
    ensures MailInv(ActOnPush(s, p))
  {
    MailboxAfterFirst(s, ActOnPush(s, p));
  }

  lemma PollKeepsMailInv(s: Sys, step: Step)
    requires MailInv(s) && Enabled(s, step) && (step.PollPop? || step.PollEmpty?)
    ensures MailInv(Next(s, step))
  {
    var t := Next(s, step);
    assert t.mailbox == s.mailbox + [t.mailbox[|s.mailbox|]];
  }

  lemma NextRoundKeepsMailInv(s: Sys, fate: Fate)
    requires MailInv(s)
    ensures MailInv(NextRound(s, fate))
  {
    assert PopMail(s.round + 1) !in s.mailbox && EmptyMail(s.round + 1) !in s.mailbox;
  }

  lemma ReceiveKeepsMailInv(s: Sys, p: Push)
    requires MailInv(s) && Enabled(s, Receive(p))
    ensures MailInv(Next(s, Receive(p)))
  {
    var t := NextRound(s, Discarded);
    NextRoundKeepsMailInv(s, Discarded);
    var u := Next(s, Receive(p));
    assert u.mailbox == t.mailbox + [PushMail(p)];
    assert forall m :: m in u.mailbox <==> m in t.mailbox || m == PushMail(p);
  }

  lemma StepKeepsMailInv(s: Sys, step: Step)
    requires MailInv(s) && Enabled(s, step)
    ensures MailInv(Next(s, step))
  {
    match step
    case Act =>
      match s.mailbox[0] {
        case PushMail(p) => PushKeepsMailInv(s, p);
        case PopMail(r) => PopKeepsMailInv(s, r);
        case EmptyMail(r) => EmptyKeepsMailInv(s, r);
      }
    case PollPop => PollKeepsMailInv(s, step);
    case PollEmpty => PollKeepsMailInv(s, step);
    case Receive(p) => ReceiveKeepsMailInv(s, p);
    case TakeBatch => NextRoundKeepsMailInv(s, Sent);
    case TakeNone =>
    case _ => NextRoundKeepsMailInv(s, Discarded);
  }

  lemma StepKeepsEmptinessInv(s: Sys, step: Step)
    requires MailInv(s) && EmptinessInv(s) && Enabled(s, step)
    ensures EmptinessInv(Next(s, step))
  {
    var t := Next(s, step);
    match step
    case Act =>
      assert forall i :: 0 <= i < |t.mailbox| ==> t.mailbox[i] == s.mailbox[i + 1];
    case _ =>
  }

  lemma StepKeepsInvariant(s: Sys, step: Step)
    requires SysInv(s) && Enabled(s, step)
    ensures SysInv(Next(s, step))
  {
    StepKeepsActorInv(s, step);
    StepKeepsFateInv(s, step);
    StepKeepsMailInv(s, step);
    StepKeepsEmptinessInv(s, step);
  }

  lemma StepKeepsDetectors(s: Sys, step: Step)
    requires Enabled(s, step)
    ensures Next(s, step).n == s.n
  {
  }

  /** The invariant holds in every state of every run, whatever the streams deliver, however requests,
      the actor and the select loop interleave, and whichever futures are dropped. */
  lemma {:induction false} InvariantHoldsOnEveryRun(n: nat, steps: seq<Step>)
    ensures SysInv(Run(Init(n), steps))
    ensures Run(Init(n), steps).n == n
    decreases |steps|
  {
    if steps == [] {
      assert AsOutput([]) == [];
    } else {
      InvariantHoldsOnEveryRun(n, steps[..|steps| - 1]);
      var s, step := Run(Init(n), steps[..|steps| - 1]), steps[|steps| - 1];
      if Enabled(s, step) {
        StepKeepsInvariant(s, step);
        StepKeepsDetectors(s, step);
      }
    }
  }
}
