/** In-order release: what comes out of a completion batcher that is fed by n detectors per choice. */
module InOrderRelease {
  import opened Types
  import opened OrderedMaps
  import opened CompletionBatching

  /** The chunks each choice is cut into, in order. */
  type Plan = nat -> seq<Chunk>

  ghost predicate Ascending(chunks: seq<Chunk>) {
    forall i, j :: 0 <= i < j < |chunks| ==> ChunkEarlier(chunks[i].Key(), chunks[j].Key())
  }

  ghost predicate AscendingPlan(plan: Plan) {
    forall c: nat :: Ascending(plan(c))
  }

  function KeyAt(plan: Plan, c: nat, i: nat): BatchKey
    requires i < |plan(c)|
  {
    KeyOf(plan(c)[i], c)
  }

  /** How often the i-th chunk of choice c has been pushed. */
  function Count(plan: Plan, ops: seq<Op>, c: nat, i: nat): nat
    requires i < |plan(c)|
  {
    |ListsPushed(ops, KeyAt(plan, c, i))|
  }

  /** p may come next: it is the i-th chunk of its choice, some detector has not reported it yet, and
      some detector that reported its predecessor is due to report it. */
  ghost predicate Admissible(plan: Plan, n: nat, ops: seq<Op>, p: Push, i: nat) {
    && i < |plan(p.choice)|
    && p.chunk == plan(p.choice)[i]
    && Count(plan, ops, p.choice, i) < n
    && (i > 0 ==> Count(plan, ops, p.choice, i - 1) > Count(plan, ops, p.choice, i))
  }

  /** Every push of the trace is admissible after the operations before it. */
  ghost predicate Follows(plan: Plan, n: nat, ops: seq<Op>)
    decreases |ops|
  {
    ops != [] ==>
      var before, last := ops[..|ops| - 1], ops[|ops| - 1];
      && Follows(plan, n, before)
      && (last.PushOp? ==> exists i: nat :: Admissible(plan, n, before, last.push, i))
  }

  /** The releases of one choice, oldest first. */
  function For(popped: seq<Release>, c: nat): seq<Release> {
    if popped == [] then []
    else
      var last, before := popped[|popped| - 1], For(popped[..|popped| - 1], c);
      if last.key.choice == c then before + [last] else before
  }

  lemma ForExtended(popped: seq<Release>, r: Release, c: nat)
    ensures For(popped + [r], c) == if r.key.choice == c then For(popped, c) + [r] else For(popped, c)
  {
    assert (popped + [r])[..|popped|] == popped;
  }

  /** Earlier chunks of a choice are never behind later ones, and no chunk is reported more than n times. */
  ghost predicate Staircase(plan: Plan, n: nat, ops: seq<Op>) {
    && (forall c: nat, i: nat :: i < |plan(c)| ==> Count(plan, ops, c, i) <= n)
    && (forall c: nat, i: nat, j: nat :: i < j < |plan(c)| ==> Count(plan, ops, c, j) <= Count(plan, ops, c, i))
  }

  lemma {:induction false} StaircaseUpTo(plan: Plan, ops: seq<Op>, c: nat, i: nat, j: nat)
    requires i < j < |plan(c)|
    requires forall k: nat :: k + 1 < |plan(c)| ==> Count(plan, ops, c, k + 1) <= Count(plan, ops, c, k)
    ensures Count(plan, ops, c, j) <= Count(plan, ops, c, i)
    decreases j - i
  {
    if i + 1 < j {
      StaircaseUpTo(plan, ops, c, i + 1, j);
    }
    assert Count(plan, ops, c, i + 1) <= Count(plan, ops, c, i);
  }

  lemma KeysDiffer(plan: Plan, c: nat, i: nat, d: nat, j: nat)
    requires AscendingPlan(plan)
    requires i < |plan(c)| && j < |plan(d)|
    ensures KeyAt(plan, c, i) == KeyAt(plan, d, j) ==> c == d && i == j
  {
  }

  lemma CountAfterPush(plan: Plan, before: seq<Op>, p: Push, a: nat, c: nat, i: nat)
    requires AscendingPlan(plan)
    requires a < |plan(p.choice)| && p.chunk == plan(p.choice)[a] && i < |plan(c)|
    ensures Count(plan, before + [PushOp(p)], c, i)
         == Count(plan, before, c, i) + (if c == p.choice && i == a then 1 else 0)
  {
    ListsPushedExtended(before, PushOp(p), KeyAt(plan, c, i));
    KeysDiffer(plan, c, i, p.choice, a);
  }

  lemma {:induction false} FollowsStaircase(plan: Plan, n: nat, ops: seq<Op>)
    requires AscendingPlan(plan) && Follows(plan, n, ops)
    ensures Staircase(plan, n, ops)
    decreases |ops|
  {
    if ops == [] {
    } else {
      var before, last := ops[..|ops| - 1], ops[|ops| - 1];
      FollowsStaircase(plan, n, before);
      if last.PushOp? {
        var a: nat :| Admissible(plan, n, before, last.push, a);
        var p := last.push;
        forall c: nat, i: nat | i < |plan(c)|
          ensures Count(plan, ops, c, i) == Count(plan, before, c, i) + (if c == p.choice && i == a then 1 else 0)
        {
          assert ops == before + [last];
          CountAfterPush(plan, before, p, a, c, i);
        }
        forall c: nat, i: nat, j: nat | i < j < |plan(c)|
          ensures Count(plan, ops, c, j) <= Count(plan, ops, c, i)
        {
          assert Count(plan, before, c, j) <= Count(plan, before, c, i);
          if c == p.choice && j == a {
            assert Count(plan, before, c, j - 1) <= Count(plan, before, c, i);
          }
        }
      } else {
        forall c: nat, i: nat | i < |plan(c)|
          ensures Count(plan, ops, c, i) == Count(plan, before, c, i)
        {
        }
      }
    }
  }

  /** The i-th chunk of choice c with every list pushed for it so far. */
  function FullRelease(plan: Plan, ops: seq<Op>, c: nat, i: nat): Release
    requires i < |plan(c)|
  {
    Release(KeyAt(plan, c, i), Slot(plan(c)[i].text, ListsPushed(ops, KeyAt(plan, c, i))))
  }

  /** Choice c so far: a prefix of its chunks was released, each with all n lists; the others are held
      with the lists pushed for them. */
  ghost predicate ChoiceInOrder(plan: Plan, n: nat, ops: seq<Op>, h: History, c: nat) {
    var mine := For(h.popped, c);
    && |mine| <= |plan(c)|
    && (forall i :: 0 <= i < |mine| ==>
          mine[i] == FullRelease(plan, ops, c, i) && Count(plan, ops, c, i) == n
          && KeyAt(plan, c, i) !in h.state)
    && (forall i :: |mine| <= i < |plan(c)| ==>
          && ListsHeld(h.state, KeyAt(plan, c, i)) == ListsPushed(ops, KeyAt(plan, c, i))
          && (KeyAt(plan, c, i) in h.state ==> h.state[KeyAt(plan, c, i)].text == plan(c)[i].text))
  }

  ghost predicate InPlan(plan: Plan, k: BatchKey, i: nat) {
    i < |plan(k.choice)| && k == KeyAt(plan, k.choice, i)
  }

  ghost predicate InOrder(plan: Plan, n: nat, ops: seq<Op>, h: History) {
    && WellFormed(h.state)
    && (forall c: nat :: ChoiceInOrder(plan, n, ops, h, c))
    && (forall k :: k in h.state ==> exists i: nat :: InPlan(plan, k, i))
  }

  lemma PushKeepsOrder(plan: Plan, n: nat, before: seq<Op>, p: Push, h: History)
    requires AscendingPlan(plan)
    requires InOrder(plan, n, before, h)
    requires exists i: nat :: Admissible(plan, n, before, p, i)
    ensures InOrder(plan, n, before + [PushOp(p)], Apply(n, h, PushOp(p)))
  {
    var a: nat :| Admissible(plan, n, before, p, a);
    var ops := before + [PushOp(p)];
    var after := Apply(n, h, PushOp(p));
    assert InPlan(plan, p.Key(), a);
    forall c: nat
      ensures ChoiceInOrder(plan, n, ops, after, c)
    {
      assert ChoiceInOrder(plan, n, before, h, c);
      forall i: nat | i < |plan(c)|
        ensures KeyAt(plan, c, i) == p.Key() ==> c == p.choice && i == a
        ensures ListsPushed(ops, KeyAt(plan, c, i))
             == if KeyAt(plan, c, i) == p.Key() then ListsPushed(before, KeyAt(plan, c, i)) + [p.detections]
                else ListsPushed(before, KeyAt(plan, c, i))
      {
        ListsPushedExtended(before, PushOp(p), KeyAt(plan, c, i));
        KeysDiffer(plan, c, i, p.choice, a);
      }
    }
    forall k | k in after.state
      ensures exists i: nat :: InPlan(plan, k, i)
    {
      assert k in h.state || k == p.Key();
    }
  }

  lemma HeldPredecessorIsEarlier(plan: Plan, n: nat, ops: seq<Op>, h: History, d: nat, j: nat)
    requires AscendingPlan(plan) && Staircase(plan, n, ops) && ChoiceInOrder(plan, n, ops, h, d)
    requires |For(h.popped, d)| < j < |plan(d)|
    requires WellFormed(h.state) && KeyAt(plan, d, j) in h.state
    ensures KeyAt(plan, d, |For(h.popped, d)|) in h.state
    ensures Earlier(KeyAt(plan, d, |For(h.popped, d)|), KeyAt(plan, d, j))
  {
    assert Count(plan, ops, d, j) <= Count(plan, ops, d, |For(h.popped, d)|);
  }

  /** The entry a pop takes is the next chunk of its choice: a predecessor still held would be an earlier
      key and just as complete, so it would go first. */
  lemma ReleaseIsNextOfItsChoice(plan: Plan, n: nat, ops: seq<Op>, h: History)
    requires AscendingPlan(plan) && Staircase(plan, n, ops) && InOrder(plan, n, ops, h)
    requires Ready(n, h.state)
    ensures var r := NextRelease(n, h.state);
            var m := |For(h.popped, r.key.choice)|;
            && m < |plan(r.key.choice)|
            && r == FullRelease(plan, ops, r.key.choice, m)
            && Count(plan, ops, r.key.choice, m) == n
  {
    var r := NextRelease(n, h.state);
    var d := r.key.choice;
    var j: nat :| InPlan(plan, r.key, j);
    assert ChoiceInOrder(plan, n, ops, h, d);
    var m := |For(h.popped, d)|;
    if m < j {
      HeldPredecessorIsEarlier(plan, n, ops, h, d, j);
    }
  }

  lemma PopPushesNothing(plan: Plan, n: nat, before: seq<Op>, h: History, c: nat)
    requires ChoiceInOrder(plan, n, before, h, c)
    ensures ChoiceInOrder(plan, n, before + [PopOp], h, c)
  {
    forall i: nat | i < |plan(c)|
      ensures ListsPushed(before + [PopOp], KeyAt(plan, c, i)) == ListsPushed(before, KeyAt(plan, c, i))
    {
      ListsPushedExtended(before, PopOp, KeyAt(plan, c, i));
    }
  }

  /** A release that is the next chunk of its choice keeps that choice in order. */
  lemma ReleaseKeepsItsChoiceInOrder(plan: Plan, n: nat, ops: seq<Op>, h: History, r: Release)
    requires AscendingPlan(plan) && ChoiceInOrder(plan, n, ops, h, r.key.choice)
    requires var m := |For(h.popped, r.key.choice)|;
             && m < |plan(r.key.choice)|
             && r == FullRelease(plan, ops, r.key.choice, m) && Count(plan, ops, r.key.choice, m) == n
    ensures ChoiceInOrder(plan, n, ops, History(h.state - {r.key}, h.popped + [r]), r.key.choice)
  {
    var c := r.key.choice;
    var m := |For(h.popped, c)|;
    ForExtended(h.popped, r, c);
    forall i: nat | i < |plan(c)|
      ensures KeyAt(plan, c, i) == r.key ==> i == m
    {
      KeysDiffer(plan, c, i, c, m);
    }
  }

  lemma ReleaseKeepsOtherChoicesInOrder(plan: Plan, n: nat, ops: seq<Op>, h: History, r: Release, c: nat)
    requires ChoiceInOrder(plan, n, ops, h, c) && c != r.key.choice
    ensures ChoiceInOrder(plan, n, ops, History(h.state - {r.key}, h.popped + [r]), c)
  {
    ForExtended(h.popped, r, c);
    assert forall i: nat | i < |plan(c)| :: KeyAt(plan, c, i).choice == c;
  }

  lemma PopKeepsChoiceInOrder(plan: Plan, n: nat, before: seq<Op>, h: History, c: nat)
    requires AscendingPlan(plan) && Ready(n, h.state) && ChoiceInOrder(plan, n, before, h, c)
    requires var r := NextRelease(n, h.state);
             var m := |For(h.popped, r.key.choice)|;
             && m < |plan(r.key.choice)|
             && r == FullRelease(plan, before, r.key.choice, m)
             && Count(plan, before, r.key.choice, m) == n
    ensures ChoiceInOrder(plan, n, before + [PopOp], Apply(n, h, PopOp), c)
  {
    var r := NextRelease(n, h.state);
    PopPushesNothing(plan, n, before, h, c);
    if c == r.key.choice {
      ListsPushedExtended(before, PopOp, r.key);
      ReleaseKeepsItsChoiceInOrder(plan, n, before + [PopOp], h, r);
    } else {
      ReleaseKeepsOtherChoicesInOrder(plan, n, before + [PopOp], h, r, c);
    }
  }

  lemma PopKeepsOrder(plan: Plan, n: nat, before: seq<Op>, h: History)
    requires AscendingPlan(plan) && Staircase(plan, n, before)
    requires InOrder(plan, n, before, h)
    ensures InOrder(plan, n, before + [PopOp], Apply(n, h, PopOp))
  {
    var ops := before + [PopOp];
    forall c: nat, i: nat | i < |plan(c)|
      ensures ListsPushed(ops, KeyAt(plan, c, i)) == ListsPushed(before, KeyAt(plan, c, i))
    {
      ListsPushedExtended(before, PopOp, KeyAt(plan, c, i));
    }
    if Ready(n, h.state) {
      ReleaseIsNextOfItsChoice(plan, n, before, h);
    }
    forall c: nat
      ensures ChoiceInOrder(plan, n, ops, Apply(n, h, PopOp), c)
    {
      assert ChoiceInOrder(plan, n, before, h, c);
      if Ready(n, h.state) {
        PopKeepsChoiceInOrder(plan, n, before, h, c);
      }
    }
  }

  /** For every trace of pushes and pops whose pushes follow an ascending plan, what was released for a
      choice is a prefix of its chunks, each with exactly the n lists pushed for it. */
  lemma {:induction false} ReleasesFollowThePlan(plan: Plan, n: nat, ops: seq<Op>)
    requires AscendingPlan(plan) && Follows(plan, n, ops)
    ensures InOrder(plan, n, ops, Exec(n, ops))
    decreases |ops|
  {
    if ops == [] {
    } else {
      var before, last := ops[..|ops| - 1], ops[|ops| - 1];
      ReleasesFollowThePlan(plan, n, before);
      assert ops == before + [last];
      match last
      case PushOp(p) => PushKeepsOrder(plan, n, before, p, Exec(n, before));
      case PopOp =>
        FollowsStaircase(plan, n, before);
        PopKeepsOrder(plan, n, before, Exec(n, before));
    }
  }

  lemma CompleteEntryIsReady(plan: Plan, n: nat, ops: seq<Op>, h: History)
    requires InOrder(plan, n, ops, h) && h.state != map[]
    requires forall c: nat, i: nat :: i < |plan(c)| ==> Count(plan, ops, c, i) == n
    ensures Ready(n, h.state)
  {
    var k := FirstKey(h.state);
    var i: nat :| InPlan(plan, k, i);
    assert ChoiceInOrder(plan, n, ops, h, k.choice);
    assert Count(plan, ops, k.choice, i) == n;
  }

  lemma UnreleasedChunkIsHeld(plan: Plan, n: nat, ops: seq<Op>, h: History, c: nat)
    requires ChoiceInOrder(plan, n, ops, h, c) && |For(h.popped, c)| < |plan(c)|
    requires Count(plan, ops, c, |For(h.popped, c)|) > 0
    ensures KeyAt(plan, c, |For(h.popped, c)|) in h.state
  {
  }

  /** Once all chunks of all choices were reported n times and the batcher is blocked or empty, nothing
      is held back: every choice was released completely. */
  lemma DrainedMeansComplete(plan: Plan, n: nat, ops: seq<Op>)
    requires AscendingPlan(plan) && Follows(plan, n, ops)
    requires forall c: nat, i: nat :: i < |plan(c)| ==> Count(plan, ops, c, i) == n
    requires n > 0 && !Ready(n, Exec(n, ops).state)
    ensures Exec(n, ops).state == map[]
    ensures forall c: nat :: |For(Exec(n, ops).popped, c)| == |plan(c)|
  {
    ReleasesFollowThePlan(plan, n, ops);
    var h := Exec(n, ops);
    if h.state != map[] {
      CompleteEntryIsReady(plan, n, ops, h);
    }
    forall c: nat
      ensures |For(h.popped, c)| == |plan(c)|
    {
      assert ChoiceInOrder(plan, n, ops, h, c);
      if |For(h.popped, c)| < |plan(c)| {
        UnreleasedChunkIsHeld(plan, n, ops, h, c);
      }
    }
  }

  // ---------------------------------------------------------------------------------------------
  // Interleavings of the detectors' streams

  /** n detectors; detector d reports found(d, c, i) for the i-th chunk of choice c. */
  datatype Feed = Feed(n: nat, plan: Plan, found: (nat, nat, nat) -> seq<Detection>)

  /** The next message of detector d's stream for choice c arrives, or the consumer pops. */
  datatype Event = Deliver(detector: nat, choice: nat) | Request

  type Progress = map<(nat, nat), nat>

  function At(progress: Progress, d: nat, c: nat): nat {
    if (d, c) in progress then progress[(d, c)] else 0
  }

  datatype Played = Played(ops: seq<Op>, progress: Progress)

  /** The next message of detector d's stream for choice c reaches the batcher. */
  function Delivered(feed: Feed, before: Played, d: nat, c: nat): Played
    requires At(before.progress, d, c) < |feed.plan(c)|
  {
    var i := At(before.progress, d, c);
    Played(before.ops + [PushOp(Push(c, feed.plan(c)[i], feed.found(d, c, i)))], before.progress[(d, c) := i + 1])
  }

  /** The operations a schedule of arrivals and pops performs on the batcher; the arrival of a message on
      a stream that is exhausted, or that does not exist, is no operation. */
  function Play(feed: Feed, events: seq<Event>): Played {
    if events == [] then Played([], map[])
    else
      var p := Play(feed, events[..|events| - 1]);
      match events[|events| - 1]
      case Request => p.(ops := p.ops + [PopOp])
      case Deliver(d, c) =>
        if d < feed.n && At(p.progress, d, c) < |feed.plan(c)| then Delivered(feed, p, d, c) else p
  }

  /** What detector d has reported for the i-th chunk of choice c. */
  function ReportedBy(feed: Feed, progress: Progress, c: nat, i: nat, d: nat): multiset<seq<Detection>> {
    if At(progress, d, c) > i then multiset{feed.found(d, c, i)} else multiset{}
  }

  /** What the first m detectors have reported for the i-th chunk of choice c. */
  function Reported(feed: Feed, progress: Progress, c: nat, i: nat, m: nat): multiset<seq<Detection>> {
    if m == 0 then multiset{} else Reported(feed, progress, c, i, m - 1) + ReportedBy(feed, progress, c, i, m - 1)
  }

  /** What all n detectors report for the i-th chunk of choice c. */
  function AllFound(feed: Feed, c: nat, i: nat, m: nat): multiset<seq<Detection>> {
    if m == 0 then multiset{} else AllFound(feed, c, i, m - 1) + multiset{feed.found(m - 1, c, i)}
  }

  /** What the next message of detector d's stream for choice c adds for the i-th chunk of choice e. */
  function Addition(feed: Feed, progress: Progress, d: nat, c: nat, e: nat, i: nat): multiset<seq<Detection>> {
    if e == c && i == At(progress, d, c) then multiset{feed.found(d, c, i)} else multiset{}
  }

  lemma ReportedByAfterDelivery(feed: Feed, progress: Progress, d: nat, c: nat, e: nat, i: nat, f: nat)
    ensures ReportedBy(feed, progress[(d, c) := At(progress, d, c) + 1], e, i, f)
         == ReportedBy(feed, progress, e, i, f) + If(f == d, Addition(feed, progress, d, c, e, i))
  {
  }

  function If<T>(b: bool, x: multiset<T>): multiset<T> {
    if b then x else multiset{}
  }

  lemma AddedToASum<T>(a: multiset<T>, b: multiset<T>, x: multiset<T>, toA: bool, toB: bool, either: bool)
    requires !(toA && toB) && (either <==> toA || toB)
    ensures (a + If(toA, x)) + (b + If(toB, x)) == (a + b) + If(either, x)
  {
  }

  /** If detector d alone reports x more, then so do the first m detectors if d is one of them. */
  lemma {:induction false} ReportedTogether(
      feed: Feed, progress: Progress, next: Progress, d: nat, e: nat, i: nat, x: multiset<seq<Detection>>, m: nat)
    requires forall f: nat :: ReportedBy(feed, next, e, i, f) == ReportedBy(feed, progress, e, i, f) + If(f == d, x)
    ensures Reported(feed, next, e, i, m) == Reported(feed, progress, e, i, m) + If(d < m, x)
  {
    if m != 0 {
      ReportedTogether(feed, progress, next, d, e, i, x, m - 1);
      AddedToASum(Reported(feed, progress, e, i, m - 1), ReportedBy(feed, progress, e, i, m - 1), x, d < m - 1, m - 1 == d, d < m);
    }
  }

  lemma ReportedAfterDelivery(feed: Feed, progress: Progress, d: nat, c: nat, e: nat, i: nat, m: nat)
    ensures Reported(feed, progress[(d, c) := At(progress, d, c) + 1], e, i, m)
         == Reported(feed, progress, e, i, m) + If(d < m, Addition(feed, progress, d, c, e, i))
  {
    var next, x := progress[(d, c) := At(progress, d, c) + 1], Addition(feed, progress, d, c, e, i);
    forall f: nat
      ensures ReportedBy(feed, next, e, i, f) == ReportedBy(feed, progress, e, i, f) + If(f == d, x)
    {
      ReportedByAfterDelivery(feed, progress, d, c, e, i, f);
    }
    ReportedTogether(feed, progress, next, d, e, i, x, m);
  }

  /** How many of the first m detectors have reported for the i-th chunk of choice c. */
  function Reporters(progress: Progress, c: nat, i: nat, m: nat): nat {
    if m == 0 then 0 else Reporters(progress, c, i, m - 1) + (if At(progress, m - 1, c) > i then 1 else 0)
  }

  lemma {:induction false} ReportedSize(feed: Feed, progress: Progress, c: nat, i: nat, m: nat)
    ensures |Reported(feed, progress, c, i, m)| == Reporters(progress, c, i, m)
  {
    if m != 0 {
      ReportedSize(feed, progress, c, i, m - 1);
      var before, last := Reported(feed, progress, c, i, m - 1), ReportedBy(feed, progress, c, i, m - 1);
      assert |before + last| == |before| + |last|;
    }
  }

  lemma {:induction false} ReportersAtMost(progress: Progress, c: nat, i: nat, m: nat)
    ensures Reporters(progress, c, i, m) <= m
    ensures i > 0 ==> Reporters(progress, c, i, m) <= Reporters(progress, c, i - 1, m)
  {
    if m != 0 {
      ReportersAtMost(progress, c, i, m - 1);
    }
  }

  lemma {:induction false} ReportersBefore(progress: Progress, c: nat, i: nat, m: nat, d: nat)
    requires d < m && At(progress, d, c) == i
    ensures Reporters(progress, c, i, m) < m
    ensures i > 0 ==> Reporters(progress, c, i, m) < Reporters(progress, c, i - 1, m)
  {
    if d == m - 1 {
      ReportersAtMost(progress, c, i, m - 1);
    } else {
      ReportersBefore(progress, c, i, m - 1, d);
    }
  }

  /** A detector that is about to report for a chunk has not done so, but has for the chunk before. */
  lemma ReportedBefore(feed: Feed, progress: Progress, c: nat, i: nat, m: nat, d: nat)
    requires d < m && At(progress, d, c) == i
    ensures |Reported(feed, progress, c, i, m)| < m
    ensures i > 0 ==> |Reported(feed, progress, c, i, m)| < |Reported(feed, progress, c, i - 1, m)|
  {
    ReportersBefore(progress, c, i, m, d);
    ReportedSize(feed, progress, c, i, m);
    if i > 0 {
      ReportedSize(feed, progress, c, i - 1, m);
    }
  }

  lemma {:induction false} AllReportersReport(feed: Feed, progress: Progress, c: nat, i: nat, m: nat)
    ensures Reporters(progress, c, i, m) == m ==> Reported(feed, progress, c, i, m) == AllFound(feed, c, i, m)
    ensures (forall e :: 0 <= e < m ==> At(progress, e, c) > i) ==> Reporters(progress, c, i, m) == m
  {
    if m != 0 {
      AllReportersReport(feed, progress, c, i, m - 1);
      ReportersAtMost(progress, c, i, m - 1);
    }
  }

  lemma ReportedByAll(feed: Feed, progress: Progress, c: nat, i: nat, m: nat)
    ensures |Reported(feed, progress, c, i, m)| == m ==> Reported(feed, progress, c, i, m) == AllFound(feed, c, i, m)
    ensures (forall e :: 0 <= e < m ==> At(progress, e, c) > i) ==> |Reported(feed, progress, c, i, m)| == m
  {
    ReportedSize(feed, progress, c, i, m);
    AllReportersReport(feed, progress, c, i, m);
  }

  /** What was pushed for a chunk is what the detectors have reported for it. */
  ghost predicate ReportsPushed(feed: Feed, p: Played, c: nat, i: nat)
    requires i < |feed.plan(c)|
  {
    multiset(ListsPushed(p.ops, KeyAt(feed.plan, c, i))) == Reported(feed, p.progress, c, i, feed.n)
  }

  /** The operations are in step with the streams: they follow the plan and push what was reported. */
  ghost predicate InStep(feed: Feed, p: Played) {
    && Follows(feed.plan, feed.n, p.ops)
    && (forall c: nat, i: nat :: i < |feed.plan(c)| ==> ReportsPushed(feed, p, c, i))
    && (forall d: nat, c: nat :: At(p.progress, d, c) <= |feed.plan(c)|)
  }

  lemma RequestKeepsStep(feed: Feed, before: Played)
    requires InStep(feed, before)
    ensures InStep(feed, before.(ops := before.ops + [PopOp]))
  {
    var after := before.(ops := before.ops + [PopOp]);
    assert after.ops[..|before.ops|] == before.ops;
    forall c: nat, i: nat | i < |feed.plan(c)|
      ensures ReportsPushed(feed, after, c, i)
    {
      assert ReportsPushed(feed, before, c, i);
    }
  }

  lemma PushedAfterDelivery(feed: Feed, before: Played, d: nat, c: nat, e: nat, j: nat)
    requires AscendingPlan(feed.plan) && At(before.progress, d, c) < |feed.plan(c)| && j < |feed.plan(e)|
    ensures multiset(ListsPushed(Delivered(feed, before, d, c).ops, KeyAt(feed.plan, e, j)))
         == multiset(ListsPushed(before.ops, KeyAt(feed.plan, e, j))) + Addition(feed, before.progress, d, c, e, j)
  {
    var i := At(before.progress, d, c);
    ListsPushedExtended(before.ops, PushOp(Push(c, feed.plan(c)[i], feed.found(d, c, i))), KeyAt(feed.plan, e, j));
    KeysDiffer(feed.plan, e, j, c, i);
  }

  lemma DeliveryKeepsReports(feed: Feed, before: Played, d: nat, c: nat, e: nat, j: nat)
    requires AscendingPlan(feed.plan)
    requires d < feed.n && At(before.progress, d, c) < |feed.plan(c)|
    requires j < |feed.plan(e)| && ReportsPushed(feed, before, e, j)
    ensures ReportsPushed(feed, Delivered(feed, before, d, c), e, j)
  {
    PushedAfterDelivery(feed, before, d, c, e, j);
    ReportedAfterDelivery(feed, before.progress, d, c, e, j, feed.n);
  }

  lemma DeliveryKeepsStep(feed: Feed, before: Played, d: nat, c: nat)
    requires AscendingPlan(feed.plan) && InStep(feed, before)
    requires d < feed.n && At(before.progress, d, c) < |feed.plan(c)|
    ensures InStep(feed, Delivered(feed, before, d, c))
  {
    var after := Delivered(feed, before, d, c);
    assert Follows(feed.plan, feed.n, after.ops) by {
      var i := At(before.progress, d, c);
      assert after.ops[..|before.ops|] == before.ops;
      DeliveryIsAdmissible(feed, before, d, c, i, after.ops[|before.ops|].push);
    }
    forall e: nat, j: nat | j < |feed.plan(e)|
      ensures ReportsPushed(feed, after, e, j)
    {
      DeliveryKeepsReports(feed, before, d, c, e, j);
    }
    forall e: nat, f: nat
      ensures At(after.progress, e, f) <= |feed.plan(f)|
    {
      assert At(before.progress, e, f) <= |feed.plan(f)|;
    }
  }

  /** Every interleaving of the streams follows the plan. */
  lemma {:induction false} InterleavingsFollowThePlan(feed: Feed, events: seq<Event>)
    requires AscendingPlan(feed.plan)
    ensures InStep(feed, Play(feed, events))
    decreases |events|
  {
    if events == [] {
      forall c: nat, i: nat | i < |feed.plan(c)|
        ensures ReportsPushed(feed, Played([], map[]), c, i)
      {
        NothingReported(feed, c, i, feed.n);
      }
    } else {
      var before := Play(feed, events[..|events| - 1]);
      InterleavingsFollowThePlan(feed, events[..|events| - 1]);
      match events[|events| - 1]
      case Request => RequestKeepsStep(feed, before);
      case Deliver(d, c) =>
        if d < feed.n && At(before.progress, d, c) < |feed.plan(c)| {
          DeliveryKeepsStep(feed, before, d, c);
          assert Play(feed, events) == Delivered(feed, before, d, c);
        }
    }
  }

  lemma {:induction false} NothingReported(feed: Feed, c: nat, i: nat, m: nat)
    ensures Reported(feed, map[], c, i, m) == multiset{}
  {
    if m != 0 {
      NothingReported(feed, c, i, m - 1);
    }
  }

  lemma DeliveryIsAdmissible(feed: Feed, before: Played, d: nat, c: nat, i: nat, p: Push)
    requires d < feed.n && i == At(before.progress, d, c) && i < |feed.plan(c)|
    requires p.choice == c && p.chunk == feed.plan(c)[i]
    requires forall e: nat, j: nat :: j < |feed.plan(e)| ==> ReportsPushed(feed, before, e, j)
    ensures Admissible(feed.plan, feed.n, before.ops, p, i)
  {
    ReportedBefore(feed, before.progress, c, i, feed.n, d);
    assert ReportsPushed(feed, before, c, i);
    assert Count(feed.plan, before.ops, c, i) == |multiset(ListsPushed(before.ops, KeyAt(feed.plan, c, i)))|;
    if i > 0 {
      assert ReportsPushed(feed, before, c, i - 1);
      assert Count(feed.plan, before.ops, c, i - 1) == |multiset(ListsPushed(before.ops, KeyAt(feed.plan, c, i - 1)))|;
    }
  }

  /** The lists of the first m detectors, in their order. */
  function ListsFound(feed: Feed, c: nat, i: nat, m: nat): seq<seq<Detection>> {
    if m == 0 then [] else ListsFound(feed, c, i, m - 1) + [feed.found(m - 1, c, i)]
  }

  /** All detections of the first m detectors for the i-th chunk of choice c. */
  function AllDetections(feed: Feed, c: nat, i: nat, m: nat): multiset<Detection> {
    if m == 0 then multiset{} else AllDetections(feed, c, i, m - 1) + multiset(feed.found(m - 1, c, i))
  }

  lemma {:induction false} ListsFoundHoldAllDetections(feed: Feed, c: nat, i: nat, m: nat)
    ensures multiset(ListsFound(feed, c, i, m)) == AllFound(feed, c, i, m)
    ensures multiset(Flatten(ListsFound(feed, c, i, m))) == AllDetections(feed, c, i, m)
  {
    if m != 0 {
      ListsFoundHoldAllDetections(feed, c, i, m - 1);
      FlattenAppend(ListsFound(feed, c, i, m - 1), [feed.found(m - 1, c, i)]);
      FlattenSingleton(feed.found(m - 1, c, i));
    }
  }

  /** A batch made from the lists of all n detectors holds exactly their detections. */
  lemma BatchHoldsAllDetections(feed: Feed, c: nat, i: nat, r: Release)
    requires multiset(r.slot.lists) == AllFound(feed, c, i, feed.n)
    ensures multiset(r.ToBatch().detections) == AllDetections(feed, c, i, feed.n)
  {
    ListsFoundHoldAllDetections(feed, c, i, feed.n);
    FlattenPermuted(r.slot.lists, ListsFound(feed, c, i, feed.n));
  }

  /** In-order release. n detectors each report the same ascending chunks per choice; however their
      streams interleave and whenever the consumer pops, the batches of each choice are a prefix of its
      chunks, and batch i carries the detections of all n detectors for chunk i and nothing else. When every
      stream has ended and a pop finds nothing ready, all chunks of all choices have been released. */
  lemma InOrderReleaseForEveryInterleaving(feed: Feed, events: seq<Event>)
    requires AscendingPlan(feed.plan)
    ensures var p := Play(feed, events);
            var h := Exec(feed.n, p.ops);
            && (forall c: nat ::
                  && |For(h.popped, c)| <= |feed.plan(c)|
                  && forall i :: 0 <= i < |For(h.popped, c)| ==>
                       && For(h.popped, c)[i].key.choice == c
                       && For(h.popped, c)[i].ToBatch().chunk == feed.plan(c)[i]
                       && multiset(For(h.popped, c)[i].slot.lists) == AllFound(feed, c, i, feed.n)
                       && multiset(For(h.popped, c)[i].ToBatch().detections) == AllDetections(feed, c, i, feed.n))
            && (feed.n > 0 && !Ready(feed.n, h.state)
                && (forall d: nat, c: nat :: d < feed.n ==> At(p.progress, d, c) == |feed.plan(c)|)
                ==> h.state == map[] && forall c: nat :: |For(h.popped, c)| == |feed.plan(c)|)
  {
    var p := Play(feed, events);
    var h := Exec(feed.n, p.ops);
    InterleavingsFollowThePlan(feed, events);
    ReleasesFollowThePlan(feed.plan, feed.n, p.ops);
    forall c: nat
      ensures |For(h.popped, c)| <= |feed.plan(c)|
      ensures forall i :: 0 <= i < |For(h.popped, c)| ==>
                && For(h.popped, c)[i].key.choice == c
                && For(h.popped, c)[i].ToBatch().chunk == feed.plan(c)[i]
                && multiset(For(h.popped, c)[i].slot.lists) == AllFound(feed, c, i, feed.n)
                && multiset(For(h.popped, c)[i].ToBatch().detections) == AllDetections(feed, c, i, feed.n)
    {
      assert ChoiceInOrder(feed.plan, feed.n, p.ops, h, c);
      forall i | 0 <= i < |For(h.popped, c)|
        ensures For(h.popped, c)[i].key.choice == c
        ensures For(h.popped, c)[i].ToBatch().chunk == feed.plan(c)[i]
        ensures multiset(For(h.popped, c)[i].slot.lists) == AllFound(feed, c, i, feed.n)
        ensures multiset(For(h.popped, c)[i].ToBatch().detections) == AllDetections(feed, c, i, feed.n)
      {
        assert ReportsPushed(feed, p, c, i);
        var lists := ListsPushed(p.ops, KeyAt(feed.plan, c, i));
        assert |multiset(lists)| == |lists| == feed.n;
        ReportedByAll(feed, p.progress, c, i, feed.n);
        BatchHoldsAllDetections(feed, c, i, For(h.popped, c)[i]);
      }
    }
    if feed.n > 0 && !Ready(feed.n, h.state)
       && (forall d: nat, c: nat :: d < feed.n ==> At(p.progress, d, c) == |feed.plan(c)|) {
      forall c: nat, i: nat | i < |feed.plan(c)|
        ensures Count(feed.plan, p.ops, c, i) == feed.n
      {
        ReportedByAll(feed, p.progress, c, i, feed.n);
        assert ReportsPushed(feed, p, c, i);
        var lists := ListsPushed(p.ops, KeyAt(feed.plan, c, i));
        assert |multiset(lists)| == |lists|;
      }
      DrainedMeansComplete(feed.plan, feed.n, p.ops);
    }
  }
}
