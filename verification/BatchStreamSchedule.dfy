/** What the streams deliver and what becomes of it, read off the schedule alone. */
module BatchStreamSchedule {
  import opened Types
  import opened CompletionBatching
  import opened InOrderRelease
  import opened BatchStream
  import opened BatchStreamSafety

  /** How the streams end in this schedule, if they do: the first of their end and an error. */
  function StreamsEndIn(steps: seq<Step>): Option<Step> {
    if steps == [] then None
    else
      var before, last := StreamsEndIn(steps[..|steps| - 1]), steps[|steps| - 1];
      if before.Some? then before else if last.StreamsEnd? || last.ReceiveError? then Some(last) else None
  }

  /** The reports that come before that. */
  function DeliveredIn(steps: seq<Step>): seq<Push> {
    if steps == [] then []
    else
      var init, last := steps[..|steps| - 1], steps[|steps| - 1];
      if last.Receive? && StreamsEndIn(init).None? then DeliveredIn(init) + [last.push] else DeliveredIn(init)
  }

  /** The phase of the loop, and whether it has seen the end of the streams, as the schedule has it. */
  ghost predicate AsScheduled(s: Sys, steps: seq<Step>) {
    && s.received == DeliveredIn(steps)
    && (s.completed <==> StreamsEndIn(steps) == Some(StreamsEnd))
    && (s.phase.Failed? <==> StreamsEndIn(steps).Some? && StreamsEndIn(steps).value.ReceiveError?)
    && (s.phase.Failed? ==> StreamsEndIn(steps).value.error == s.phase.error)
    && (s.phase.Finished? ==> s.completed)
    && (!s.empty.NotAsked? ==> s.completed)
  }

  lemma OneMoreStep(steps: seq<Step>, step: Step)
    ensures StreamsEndIn(steps + [step])
         == if StreamsEndIn(steps).Some? then StreamsEndIn(steps)
            else if step.StreamsEnd? || step.ReceiveError? then Some(step) else None
    ensures DeliveredIn(steps + [step])
         == if step.Receive? && StreamsEndIn(steps).None? then DeliveredIn(steps) + [step.push] else DeliveredIn(steps)
  {
    assert (steps + [step])[..|steps|] == steps;
  }

  lemma {:induction false} StreamsEndIsAnEnd(steps: seq<Step>)
    ensures StreamsEndIn(steps).Some? ==> StreamsEndIn(steps).value.StreamsEnd? || StreamsEndIn(steps).value.ReceiveError?
    decreases |steps|
  {
    if steps != [] {
      StreamsEndIsAnEnd(steps[..|steps| - 1]);
    }
  }

  lemma StepGoesAsScheduled(s: Sys, steps: seq<Step>, step: Step)
    requires AsScheduled(s, steps)
    ensures AsScheduled(Do(s, step), steps + [step])
  {
    OneMoreStep(steps, step);
    StreamsEndIsAnEnd(steps);
  }

  lemma {:induction false} RunGoesAsScheduled(n: nat, steps: seq<Step>)
    ensures AsScheduled(Run(Init(n), steps), steps)
    decreases |steps|
  {
    if steps != [] {
      var init, last := steps[..|steps| - 1], steps[|steps| - 1];
      RunGoesAsScheduled(n, init);
      StepGoesAsScheduled(Run(Init(n), init), init, last);
      assert steps == init + [last];
    }
  }

  /** The run has an error to report: an error came before the end of the streams. */
  predicate ErrorComes(steps: seq<Step>) {
    StreamsEndIn(steps).Some? && StreamsEndIn(steps).value.ReceiveError?
  }

  /** Errors reach the batch channel, on every run. The loop takes exactly the reports that come before the end of the
      streams or their first error. The channel holds an error exactly if an error comes before the end of the streams. It
      is that first error, it stands after the batches sent before, and nothing is received or sent after it; so such a run
      never finishes. */
  lemma FirstErrorIsSentLast(n: nat, steps: seq<Step>)
    ensures var s := Run(Init(n), steps);
            && s.received == DeliveredIn(steps)
            && (ErrorComes(steps) <==> exists i :: 0 <= i < |s.out| && s.out[i].Err?)
            && (ErrorComes(steps) ==>
                  s.out == AsOutput(SentIn(s)) + [Err(StreamsEndIn(steps).value.error)] && !s.phase.Finished?)
            && (!ErrorComes(steps) ==> s.out == AsOutput(SentIn(s)))
  {
    RunGoesAsScheduled(n, steps);
    InvariantHoldsOnEveryRun(n, steps);
    var s := Run(Init(n), steps);
    if ErrorComes(steps) {
      assert s.out[|s.out| - 1].Err?;
    }
  }

  /** Once the loop has stopped, by an error or regularly, nothing is received or sent any more. */
  lemma {:induction false} NothingAfterTheLoopStops(s: Sys, more: seq<Step>)
    requires !s.phase.Running?
    ensures Run(s, more).phase == s.phase && Run(s, more).out == s.out && Run(s, more).received == s.received
    decreases |more|
  {
    if more != [] {
      NothingAfterTheLoopStops(s, more[..|more| - 1]);
    }
  }
}
