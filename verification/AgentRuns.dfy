/** The stateful agent around the loop: Prompt, Continue, Abort, WaitForIdle and Reset may interleave in any
    way with the background goroutines of its runs. Each step is what one goroutine does under a lock. */
module AgentRuns {
  import opened Wrappers

  datatype Error = ContextDone | Failure(message: string)

  // A run's goroutine: started, in the loop with the channel it will close, back from the loop, gone.
  datatype Phase = Spawned | Looping(channel: nat) | Returned(channel: nat) | Gone

  // A call to WaitForIdle for the channel it read first.
  datatype Waiter = Watching(channel: nat) | Awake(channel: nat) | RunErrRead(channel: nat) | Finished(channel: nat, result: Option<Error>)

  // Runs are numbered from 1; channel n is made by run n, and channel 0 by the agent itself. outcomes, failed
  // and reset are history: what each loop returned, which runs had a critical subscriber fail, and whether
  // Reset was called since the latest run started.
  datatype State = State(
    running: bool, done: nat, runErr: Option<Error>, critErr: Option<Error>,
    latest: nat, phases: map<nat, Phase>, closed: multiset<nat>, cancelled: set<nat>, waiters: map<nat, Waiter>,
    outcomes: map<nat, Option<Error>>, failed: set<nat>, reset: bool)

  const INITIAL := State(false, 0, None, None, 0, map[], multiset{}, {}, map[], map[], {}, false)

  datatype Step =
    | Start                                        // Prompt or Continue
    | Begin(run: nat)                              // the goroutine evaluates its deferred close
    | Event(run: nat, failure: Option<Error>)      // one dispatch, and the first critical subscriber error
    | Return(run: nat, outcome: Option<Error>)
    | Close(run: nat)
    | Abort
    | Reset
    | Wait(waiter: nat)
    | Wake(waiter: nat)
    | TimeOut(waiter: nat)
    | ReadRunErr(waiter: nat)
    | ReadCritErr(waiter: nat)

  predicate In(s: State, run: nat, p: Phase) {
    run in s.phases && s.phases[run] == p
  }

  predicate IsLooping(s: State, run: nat) {
    run in s.phases && s.phases[run].Looping?
  }

  predicate IsReturned(s: State, run: nat) {
    run in s.phases && s.phases[run].Returned?
  }

  // The effect of a step, where it can happen. A Start while a run is active is refused and changes nothing.
  function Apply(s: State, step: Step): Option<State> {
    match step
    case Start =>
      if s.running then Some(s)
      else
        var n := s.latest + 1;
        Some(s.(running := true, done := n, runErr := None, critErr := None, latest := n, phases := s.phases[n := Spawned], reset := false))
    case Begin(n) =>
      if In(s, n, Spawned) then Some(s.(phases := s.phases[n := Looping(s.done)])) else None
    case Event(n, failure) =>
      if IsLooping(s, n) then
        Some(if failure.None? then s
             else s.(critErr := if s.critErr.None? then failure else s.critErr, failed := s.failed + {n}))
      else None
    case Return(n, outcome) =>
      if IsLooping(s, n) then
        Some(s.(runErr := outcome, running := false, phases := s.phases[n := Returned(s.phases[n].channel)],
                outcomes := s.outcomes[n := outcome]))
      else None
    case Close(n) =>
      if IsReturned(s, n) then
        Some(s.(phases := s.phases[n := Gone], closed := s.closed + multiset{s.phases[n].channel}))
      else None
    case Abort => Some(if s.latest > 0 then s.(cancelled := s.cancelled + {s.latest}) else s)
    case Reset => Some(s.(runErr := None, critErr := None, reset := true))
    case Wait(w) => if w in s.waiters then None else Some(s.(waiters := s.waiters[w := Watching(s.done)]))
    case Wake(w) =>
      if w in s.waiters && s.waiters[w].Watching? && s.waiters[w].channel in s.closed
      then Some(s.(waiters := s.waiters[w := Awake(s.waiters[w].channel)])) else None
    case TimeOut(w) =>
      if w in s.waiters && s.waiters[w].Watching?
      then Some(s.(waiters := s.waiters[w := Finished(s.waiters[w].channel, Some(ContextDone))])) else None
    case ReadRunErr(w) =>
      if w in s.waiters && s.waiters[w].Awake?
      then
        var n := s.waiters[w].channel;
        Some(s.(waiters := s.waiters[w := if s.runErr.Some? then Finished(n, s.runErr) else RunErrRead(n)]))
      else None
    case ReadCritErr(w) =>
      if w in s.waiters && s.waiters[w].RunErrRead?
      then Some(s.(waiters := s.waiters[w := Finished(s.waiters[w].channel, s.critErr)])) else None
  }

  function Replay(steps: seq<Step>): Option<State> {
    if steps == [] then Some(INITIAL)
    else
      var before := Replay(steps[..|steps| - 1]);
      if before.Some? then Apply(before.value, steps[|steps| - 1]) else None
  }

  predicate Possible(steps: seq<Step>) {
    Replay(steps).Some?
  }

  // ----- what every step keeps -----

  predicate Active(p: Phase) {
    p.Spawned? || p.Looping?
  }

  ghost predicate RunsInv(s: State) {
    && s.done == s.latest
    && (forall n :: n in s.phases <==> 1 <= n <= s.latest)
    && (forall n :: n in s.phases && Active(s.phases[n]) ==> n == s.latest && s.running)
    && (s.running ==> s.latest in s.phases && Active(s.phases[s.latest]))
    && (forall n :: n in s.phases && (s.phases[n].Looping? || s.phases[n].Returned?) ==> s.phases[n].channel == n)
    && (forall n :: s.closed[n] == if In(s, n, Gone) then 1 else 0)
    && (forall n :: n in s.phases && (s.phases[n].Returned? || s.phases[n].Gone?) ==> n in s.outcomes)
    && (forall n :: n in s.failed || n in s.outcomes ==> n in s.phases)
    && (s.latest in s.outcomes ==> !s.running)
  }

  // The shared error fields are those of the latest run, unless they were reset.
  ghost predicate ErrorsInv(s: State) {
    !s.reset ==>
      && s.runErr == (if s.latest in s.outcomes then s.outcomes[s.latest] else None)
      && (s.critErr.Some? <==> s.latest in s.failed)
  }

  ghost predicate WaiterInv(s: State, w: Waiter) {
    && w.channel <= s.latest
    && (w.Awake? || w.RunErrRead? ==> In(s, w.channel, Gone))
    && (w.RunErrRead? && w.channel == s.latest && !s.reset ==> w.channel in s.outcomes && s.outcomes[w.channel] == None)
  }

  ghost predicate WaitersInv(s: State) {
    forall w :: w in s.waiters ==> WaiterInv(s, s.waiters[w])
  }

  lemma StartKeeps(s: State)
    requires RunsInv(s)
    ensures RunsInv(Apply(s, Start).value)
  {
    var s' := Apply(s, Start).value;
    forall n ensures In(s', n, Gone) <==> In(s, n, Gone) {
    }
  }

  // A goroutine moves on, without closing its channel.
  lemma MoveKeeps(s: State, step: Step)
    requires RunsInv(s) && (step.Begin? || step.Return?) && Apply(s, step).Some?
    ensures RunsInv(Apply(s, step).value)
  {
    var s', n := Apply(s, step).value, step.run;
    forall m ensures In(s', m, Gone) <==> In(s, m, Gone) {
      assert m == n ==> !In(s, m, Gone) && !In(s', m, Gone);
    }
    assert n == s.latest;
  }

  lemma CloseKeeps(s: State, n: nat)
    requires RunsInv(s) && Apply(s, Close(n)).Some?
    ensures RunsInv(Apply(s, Close(n)).value)
  {
    var s' := Apply(s, Close(n)).value;
    assert s.phases[n].channel == n;
    forall m ensures s'.closed[m] == if In(s', m, Gone) then 1 else 0 {
      assert m != n ==> (In(s', m, Gone) <==> In(s, m, Gone));
    }
  }

  lemma RunsStep(s: State, step: Step)
    requires RunsInv(s) && Apply(s, step).Some?
    ensures RunsInv(Apply(s, step).value)
  {
    match step
    case Start => StartKeeps(s);
    case Begin(n) => MoveKeeps(s, step);
    case Return(n, outcome) => MoveKeeps(s, step);
    case Close(n) => CloseKeeps(s, n);
    case _ => SameRuns(s, step);
  }

  lemma SameRuns(s: State, step: Step)
    requires RunsInv(s) && Apply(s, step).Some? && !step.Start? && !step.Begin? && !step.Return? && !step.Close?
    ensures RunsInv(Apply(s, step).value)
  {
    var s' := Apply(s, step).value;
    assert s'.phases == s.phases && s'.closed == s.closed && s'.latest == s.latest && s'.done == s.done && s'.running == s.running;
    assert forall n :: In(s', n, Gone) <==> In(s, n, Gone);
  }

  lemma ErrorsStep(s: State, step: Step)
    requires RunsInv(s) && ErrorsInv(s) && Apply(s, step).Some?
    ensures ErrorsInv(Apply(s, step).value)
  {
  }

  lemma WaiterKept(s: State, step: Step, w: Waiter)
    requires RunsInv(s) && ErrorsInv(s) && WaiterInv(s, w) && Apply(s, step).Some?
    ensures WaiterInv(Apply(s, step).value, w)
  {
  }

  lemma WaitersStep(s: State, step: Step)
    requires RunsInv(s) && ErrorsInv(s) && WaitersInv(s) && Apply(s, step).Some?
    ensures WaitersInv(Apply(s, step).value)
  {
    var s' := Apply(s, step).value;
    forall w | w in s'.waiters ensures WaiterInv(s', s'.waiters[w]) {
      if w in s.waiters && s'.waiters[w] == s.waiters[w] {
        WaiterKept(s, step, s.waiters[w]);
      }
    }
  }

  lemma {:induction false} InvHolds(steps: seq<Step>)
    requires Possible(steps)
    ensures var s := Replay(steps).value; RunsInv(s) && ErrorsInv(s) && WaitersInv(s)
  {
    if steps != [] {
      hide Apply, RunsInv, ErrorsInv, WaitersInv;
      var before, step := steps[..|steps| - 1], steps[|steps| - 1];
      InvHolds(before);
      RunsStep(Replay(before).value, step);
      ErrorsStep(Replay(before).value, step);
      WaitersStep(Replay(before).value, step);
    }
  }

  /** In every interleaving at most one loop is active, and it is that of the latest run. */
  lemma OneLoopAtATime(steps: seq<Step>, a: nat, b: nat)
    requires Possible(steps) && IsLooping(Replay(steps).value, a) && IsLooping(Replay(steps).value, b)
    ensures a == b == Replay(steps).value.latest && Replay(steps).value.running
  {
    InvHolds(steps);
  }

  /** Each run's channel is closed by its own goroutine, once: a channel about to be closed is still open, and
      it is the one its run made. */
  lemma ChannelClosedOnce(steps: seq<Step>, run: nat)
    requires Possible(steps)
    ensures var s := Replay(steps).value;
            && s.closed[run] <= 1 && (run in s.closed <==> In(s, run, Gone))
            && (IsReturned(s, run) ==> s.phases[run].channel == run && s.phases[run].channel !in s.closed)
  {
    InvHolds(steps);
  }

  predicate AbortsInv(s: State) {
    forall n | n in s.cancelled :: 1 <= n <= s.latest
  }

  lemma AbortsStep(s: State, step: Step)
    requires AbortsInv(s) && Apply(s, step).Some?
    ensures AbortsInv(Apply(s, step).value)
  {
    var s' := Apply(s, step).value;
    assert s.latest <= s'.latest && (s'.cancelled == s.cancelled || (s.latest > 0 && s'.cancelled == s.cancelled + {s.latest}));
    hide Apply;
  }

  lemma {:induction false} OnlyStartedRunsAreAborted(steps: seq<Step>)
    requires Possible(steps)
    ensures AbortsInv(Replay(steps).value)
  {
    if steps != [] {
      hide Apply, AbortsInv;
      OnlyStartedRunsAreAborted(steps[..|steps| - 1]);
      AbortsStep(Replay(steps[..|steps| - 1]).value, steps[|steps| - 1]);
    }
  }

  /** Abort reaches the latest run only: a run that is started later is not cancelled, however often Abort was called
      before, and earlier runs are not cancelled by it either. */
  lemma AbortSparesOtherRuns(steps: seq<Step>, n: nat)
    requires Possible(steps)
    ensures var s, s' := Replay(steps).value, Apply(Replay(steps).value, Start).value;
            !s.running ==> s'.latest == s.latest + 1 && s'.latest !in s'.cancelled
    ensures var s, s' := Replay(steps).value, Apply(Replay(steps).value, Abort).value;
            n != s.latest ==> (n in s'.cancelled <==> n in s.cancelled)
  {
    OnlyStartedRunsAreAborted(steps);
    hide Replay;
  }

  /** When WaitForIdle returns nil and the run it waited for is still the latest one, without a Reset since it
      started, then that run's loop returned nil and no critical subscriber failed on any of its events. */
  lemma IdleMeansClean(steps: seq<Step>, w: nat)
    requires Possible(steps) && steps != [] && steps[|steps| - 1] == ReadCritErr(w)
    requires var s := Replay(steps).value; w in s.waiters && s.waiters[w].Finished? && s.waiters[w].result.None?
    requires var s := Replay(steps).value; s.waiters[w].channel == s.latest && !s.reset
    ensures var s := Replay(steps).value; var n := s.waiters[w].channel;
            n in s.outcomes && s.outcomes[n] == None && n !in s.failed && n in s.closed
  {
    InvHolds(steps[..|steps| - 1]);
    InvHolds(steps);
    var before := Replay(steps[..|steps| - 1]).value;
    assert WaiterInv(before, before.waiters[w]);
  }

  /** The agent's first channel is never closed, so waiting before any run only ends with the caller's context. */
  lemma WaitingBeforeAnyRunOnlyTimesOut(steps: seq<Step>, w: nat)
    requires Possible(steps) && w in Replay(steps).value.waiters && Replay(steps).value.waiters[w].channel == 0
    ensures Replay(steps).value.waiters[w].Watching? || Replay(steps).value.waiters[w] == Finished(0, Some(ContextDone))
  {
    if steps != [] {
      hide Apply;
      var before, step := steps[..|steps| - 1], steps[|steps| - 1];
      ChannelZeroStaysOpen(before);
      var s := Replay(before).value;
      if w in s.waiters && s.waiters[w].channel == 0 {
        WaitingBeforeAnyRunOnlyTimesOut(before, w);
      }
      WaiterZeroStep(s, step, w);
    }
  }

  lemma WaiterZeroStep(s: State, step: Step, w: nat)
    requires 0 !in s.closed && Apply(s, step).Some?
    requires w in s.waiters && s.waiters[w].channel == 0 ==> s.waiters[w].Watching? || s.waiters[w] == Finished(0, Some(ContextDone))
    ensures var s' := Apply(s, step).value;
            w in s'.waiters && s'.waiters[w].channel == 0 ==> s'.waiters[w].Watching? || s'.waiters[w] == Finished(0, Some(ContextDone))
  {
  }

  lemma ChannelZeroStaysOpen(steps: seq<Step>)
    requires Possible(steps)
    ensures 0 !in Replay(steps).value.closed
  {
    InvHolds(steps);
  }

  // ----- what a later run or a reset hides -----

  lemma Took(steps: seq<Step>, k: nat, s: State, s': State)
    requires k < |steps| && Replay(steps[..k]) == Some(s) && Apply(s, steps[k]) == Some(s')
    ensures Replay(steps[..k + 1]) == Some(s')
  {
    assert steps[..k + 1][..k] == steps[..k];
  }

  // A run fails and its waiter wakes up; then something clears the error before the waiter reads it.
  function Hidden(reset: Step, e: Error): seq<Step> {
    [Start, Begin(1), Wait(7), Return(1, Some(e)), Close(1), Wake(7), reset, ReadRunErr(7), ReadCritErr(7)]
  }

  function Running(): State {
    State(true, 1, None, None, 1, map[1 := Looping(1)], multiset{}, {}, map[7 := Watching(1)], map[], {}, false)
  }

  function Awakened(e: Error): State {
    State(false, 1, Some(e), None, 1, map[1 := Gone], multiset{1}, {}, map[7 := Awake(1)], map[1 := Some(e)], {}, false)
  }

  lemma RunningAndWatched(reset: Step, e: Error)
    ensures Replay(Hidden(reset, e)[..3]) == Some(Running())
  {
    var steps := Hidden(reset, e);
    var s1 := INITIAL.(running := true, done := 1, latest := 1, phases := INITIAL.phases[1 := Spawned]);
    var s2 := s1.(phases := s1.phases[1 := Looping(1)]);
    assert s2.waiters[7 := Watching(1)] == map[7 := Watching(1)] && s2.phases == map[1 := Looping(1)];
    NothingYet(steps);
    hide Replay;
    Took(steps, 0, INITIAL, s1);
    Took(steps, 1, s1, s2);
    Took(steps, 2, s2, Running());
  }

  function Broken(e: Error): State {
    State(false, 1, Some(e), None, 1, map[1 := Returned(1)], multiset{}, {}, map[7 := Watching(1)], map[1 := Some(e)], {}, false)
  }

  lemma LoopFails(e: Error)
    ensures Apply(Running(), Return(1, Some(e))) == Some(Broken(e))
  {
    assert Running().phases[1 := Returned(1)] == Broken(e).phases && Running().outcomes[1 := Some(e)] == Broken(e).outcomes;
  }

  lemma ClosesAndWakes(e: Error)
    ensures var s5 := Broken(e).(phases := map[1 := Gone], closed := multiset{1});
            Apply(Broken(e), Close(1)) == Some(s5) && Apply(s5, Wake(7)) == Some(Awakened(e))
  {
    var s5 := Broken(e).(phases := map[1 := Gone], closed := multiset{1});
    assert Broken(e).phases[1 := Gone] == s5.phases && Broken(e).closed + multiset{1} == s5.closed;
    assert s5.waiters[7 := Awake(1)] == Awakened(e).waiters;
  }

  lemma FailedAndAwake(reset: Step, e: Error)
    ensures Replay(Hidden(reset, e)[..6]) == Some(Awakened(e))
  {
    hide Replay, Apply, Running, Broken, Awakened;
    var steps := Hidden(reset, e);
    RunningAndWatched(reset, e);
    LoopFails(e);
    ClosesAndWakes(e);
    var s5 := Apply(Broken(e), Close(1)).value;
    Took(steps, 3, Running(), Broken(e));
    Took(steps, 4, Broken(e), s5);
    Took(steps, 5, s5, Awakened(e));
  }

  lemma NothingYet(steps: seq<Step>)
    ensures Replay(steps[..0]) == Some(INITIAL)
  {
  }

  /** A run that failed with any error is reported as clean when the next run starts, or Reset is called,
      between the waiter waking up and reading the result. */
  lemma LaterRunOrResetHidesFailure(reset: Step, e: Error)
    requires reset == Start || reset == Reset
    ensures Possible(Hidden(reset, e))
    ensures var s := Replay(Hidden(reset, e)).value;
            7 in s.waiters && s.waiters[7] == Finished(1, None) && 1 in s.outcomes && s.outcomes[1] == Some(e)
  {
    FailedAndAwake(reset, e);
    Cleared(reset, e);
    var steps, s6 := Hidden(reset, e), Awakened(e);
    var s7 := Apply(s6, reset).value;
    hide Replay;
    Took(steps, 6, s6, s7);
    ReadNothing(steps, s7);
    assert steps[..9] == steps;
  }

  lemma Cleared(reset: Step, e: Error)
    requires reset == Start || reset == Reset
    ensures Apply(Awakened(e), reset).Some?
    ensures var s := Apply(Awakened(e), reset).value;
            s.runErr == None && s.critErr == None && s.waiters == map[7 := Awake(1)] && s.outcomes == map[1 := Some(e)]
  {
  }

  lemma ReadNothing(steps: seq<Step>, s: State)
    requires |steps| == 9 && steps[7] == ReadRunErr(7) && steps[8] == ReadCritErr(7) && Replay(steps[..7]) == Some(s)
    requires s.runErr == None && s.critErr == None && s.waiters == map[7 := Awake(1)]
    ensures Possible(steps[..9]) && Replay(steps[..9]).value == s.(waiters := map[7 := Finished(1, None)])
  {
    var s8 := s.(waiters := map[7 := RunErrRead(1)]);
    hide Replay;
    assert s.waiters[7 := RunErrRead(1)] == s8.waiters;
    Took(steps, 7, s, s8);
    assert s8.waiters[7 := Finished(1, None)] == map[7 := Finished(1, None)];
    Took(steps, 8, s8, s.(waiters := map[7 := Finished(1, None)]));
  }
}
