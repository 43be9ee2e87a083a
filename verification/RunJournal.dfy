/** The protocol of one runner life: which events, checkpoint saves and gateway calls may follow each
    other. A journal is everything a life did, in order; a crash leaves a prefix of it. */
module RunJournal {
  import opened Text
  import opened Wrappers

  datatype ToolStatus = StatusCompleted | StatusNeedsReview | StatusFailed | StatusRejected

  datatype ToolError = ToolError(message: string, retryable: bool)

  datatype ToolResult = ToolResult(callId: string, status: ToolStatus, error: Option<ToolError>)

  datatype Reply = GatewayError | Answer(result: ToolResult)

  datatype Level = Read | Draft | Command

  datatype Descriptor = Descriptor(name: string, version: string, level: Level)

  datatype Call = Call(
    callId: string, runId: string, skillId: string, skillVersion: string,
    toolName: string, toolVersion: string, arguments: string, idempotencyKey: string)

  datatype RunStatus = Queued | Running | Completed | WaitingReview | Failed | Cancelled

  datatype Checkpoint = Checkpoint(
    runId: string, skillId: string, skillVersion: string,
    plan: seq<Call>, nextIndex: nat, results: seq<ToolResult>, status: RunStatus)

  datatype Event =
    | RunStarted
    | RunResumed(nextIndex: nat)
    | RunSteered(instruction: string)
    | ToolStarted(callId: string)
    | ToolCompleted(result: ToolResult)
    | RunFinished(status: RunStatus)
    | RunFailed
    | RunCancelled

  // A save may be lost: its error is ignored. Gateway names the plan entry it executes.
  datatype Entry =
    | Emit(event: Event)
    | Save(checkpoint: Checkpoint, durable: bool)
    | Gateway(index: nat, call: Call, reply: Reply)

  type Journal = seq<Entry>

  // What is fixed for a life; resumed is the matching checkpoint it was started from.
  datatype Config = Config(
    runId: string, skillId: string, skillVersion: string,
    maxCalls: nat, maxRetries: nat,
    allowed: map<string, Descriptor>, resumed: Option<Checkpoint>)

  datatype Phase =
    | Unstarted
    | Preparing
    | Head
    | Steering
    | Calling(attempt: nat, callId: string)
    | Judging(attempt: nat, callId: string, result: ToolResult)
    | Recorded(attempt: nat, callId: string, result: ToolResult)
    | Retrying(attempt: nat, callId: string, transport: bool)
    | Failing
    | FailureSaved
    | Cancelling
    | Finishing
    | Over

  // start, attempted and completed tell the history of the current plan in this life: where it
  // began, which entries were sent to the gateway and which of them were answered. installed says
  // that this life made the plan itself, instead of finding it in a checkpoint.
  datatype State = State(
    phase: Phase, plan: seq<Call>, index: nat, results: seq<ToolResult>, status: RunStatus,
    calls: nat, retries: nat,
    start: nat, attempted: seq<nat>, completed: seq<nat>, installed: bool)

  const INITIAL := State(Unstarted, [], 0, [], Queued, 0, 0, 0, [], [], false)

  // ----- the rules -----

  predicate Retryable(r: ToolResult) {
    r.error.Some? && r.error.value.retryable
  }

  // A planned call that may be executed.
  predicate Permitted(c: Config, planned: Call) {
    && planned.toolName in c.allowed
    && (c.allowed[planned.toolName].level != Read ==> Trim(planned.idempotencyKey) != "")
  }

  // The planned call as it is sent: bound to the run, with defaults filled in.
  function Prepared(c: Config, planned: Call, callId: string): Call
    requires planned.toolName in c.allowed
  {
    planned.(runId := c.runId, skillId := c.skillId, skillVersion := c.skillVersion, callId := callId,
             toolVersion := if Trim(planned.toolVersion) == "" then c.allowed[planned.toolName].version else planned.toolVersion)
  }

  predicate CallIdFor(planned: Call, callId: string) {
    Trim(planned.callId) != "" ==> callId == planned.callId
  }

  function Snapshot(c: Config, plan: seq<Call>, nextIndex: nat, results: seq<ToolResult>, status: RunStatus): Checkpoint {
    Checkpoint(c.runId, c.skillId, c.skillVersion, plan, nextIndex, results, status)
  }

  function Ended(s: State, status: RunStatus): State {
    s.(phase := Over, status := status)
  }

  function OnEvent(c: Config, s: State, e: Event): Option<State> {
    match (s.phase, e)
    case (Unstarted, RunStarted) => Some(s.(phase := Preparing))
    case (Preparing, RunResumed(n)) =>
      if c.resumed.Some? && n == c.resumed.value.nextIndex && s.plan == [] then
        Some(s.(plan := c.resumed.value.plan, index := n, results := c.resumed.value.results))
      else None
    case (Preparing, RunFailed) => Some(Ended(s, Failed))
    case (Head, RunFailed) => Some(Ended(s, Failed))
    case (Head, RunSteered(instruction)) => if instruction != "" then Some(s.(phase := Steering)) else None
    case (Head, RunFinished(status)) =>
      if |s.plan| <= s.index && status == (if s.status == Running then Completed else s.status)
      then Some(s.(phase := Finishing, status := status)) else None
    case (Head, ToolStarted(id)) =>
      if s.index < |s.plan| && s.calls < c.maxCalls && Permitted(c, s.plan[s.index]) && CallIdFor(s.plan[s.index], id)
      then Some(s.(phase := Calling(1, id), calls := s.calls + 1)) else None
    case (Judging(_, _, _), RunFailed) => Some(Ended(s, Failed))
    case (Recorded(k, id, r), ToolCompleted(announced)) =>
      if announced != r then None
      else if Retryable(r) && k <= c.maxRetries then Some(s.(phase := Retrying(k, id, false)))
      else if r.status == StatusFailed || r.status == StatusRejected then Some(s.(phase := Failing))
      else Some(s.(phase := Head, index := s.index + 1, status := if r.status == StatusNeedsReview then WaitingReview else s.status))
    case (Retrying(k, id, transport), ToolStarted(again)) =>
      if again == id && k <= c.maxRetries + (if transport then 1 else 0)
      then Some(s.(phase := Calling(k + 1, id), calls := s.calls + 1, retries := s.retries + 1)) else None
    case (Retrying(_, _, transport), RunFailed) => if transport then Some(Ended(s, Failed)) else None
    case (FailureSaved, RunFailed) => Some(Ended(s, Failed))
    case (Cancelling, RunCancelled) => Some(Ended(s, Cancelled))
    case _ => None
  }

  function OnSave(c: Config, s: State, cp: Checkpoint): Option<State> {
    match s.phase
    case Preparing =>
      if && cp == Snapshot(c, cp.plan, s.index, s.results, Queued)
         && (c.resumed.Some? ==> s.index == c.resumed.value.nextIndex && s.plan == c.resumed.value.plan)
         && (s.plan != [] ==> cp.plan == s.plan)
      then Some(s.(phase := Head, plan := cp.plan, status := Running, start := s.index, installed := s.plan == [])) else None
    case Steering =>
      if cp == Snapshot(c, cp.plan, 0, s.results, s.status)
      then Some(s.(phase := Head, plan := cp.plan, index := 0, start := 0, attempted := [], completed := [], installed := true)) else None
    case Head =>
      if cp == Snapshot(c, s.plan, s.index, s.results, Cancelled) then Some(s.(phase := Cancelling)) else None
    case Judging(k, id, r) =>
      if cp == Snapshot(c, s.plan, s.index + 1, s.results + [r], s.status)
      then Some(s.(phase := Recorded(k, id, r), results := s.results + [r])) else None
    case Failing =>
      if cp == Snapshot(c, s.plan, s.index + 1, s.results, Failed) then Some(s.(phase := FailureSaved)) else None
    case Finishing =>
      if cp == Snapshot(c, s.plan, |s.plan|, s.results, s.status) then Some(s.(phase := Over)) else None
    case _ => None
  }

  function OnGateway(c: Config, s: State, index: nat, call: Call, reply: Reply): Option<State> {
    if s.phase.Calling? && index == s.index < |s.plan| && Permitted(c, s.plan[index])
       && call == Prepared(c, s.plan[index], s.phase.callId)
    then
      var sent := s.(attempted := s.attempted + [index]);
      match reply
      case GatewayError => Some(sent.(phase := Retrying(s.phase.attempt, s.phase.callId, true)))
      case Answer(r) =>
        Some(sent.(phase := Judging(s.phase.attempt, s.phase.callId, r), completed := s.completed + [index]))
    else None
  }

  function Apply(c: Config, s: State, e: Entry): Option<State> {
    match e
    case Emit(event) => OnEvent(c, s, event)
    case Save(cp, _) => OnSave(c, s, cp)
    case Gateway(index, call, reply) => OnGateway(c, s, index, call, reply)
  }

  function Replay(c: Config, j: Journal): Option<State> {
    if j == [] then Some(INITIAL)
    else
      var before := Replay(c, j[..|j| - 1]);
      if before.Some? then Apply(c, before.value, j[|j| - 1]) else None
  }

  predicate Legal(c: Config, j: Journal) {
    Replay(c, j).Some?
  }

  /** One more entry. */
  lemma ReplayMore(c: Config, j: Journal, e: Entry)
    requires Legal(c, j)
    ensures Replay(c, j + [e]) == Apply(c, Replay(c, j).value, e)
  {
    assert (j + [e])[..|j|] == j;
  }

  /** A crash can happen anywhere: what a prefix did was legal too. */
  lemma {:induction false} CrashesAreLegal(c: Config, j: Journal, k: nat)
    requires Legal(c, j) && k <= |j|
    ensures Legal(c, j[..k])
  {
    if k < |j| {
      CrashesAreLegal(c, j[..|j| - 1], k);
      assert j[..|j| - 1][..k] == j[..k];
    } else {
      assert j[..k] == j;
    }
  }

  // ----- the call budget -----

  function GatewayCalls(j: Journal): nat {
    if j == [] then 0 else GatewayCalls(j[..|j| - 1]) + if j[|j| - 1].Gateway? then 1 else 0
  }

  function Announced(j: Journal): nat {
    if j == [] then 0 else Announced(j[..|j| - 1]) + if j[|j| - 1].Emit? && j[|j| - 1].event.ToolStarted? then 1 else 0
  }

  function Attempt(s: State): nat {
    match s.phase
    case Calling(k, _) => k
    case Judging(k, _, _) => k
    case Recorded(k, _, _) => k
    case Retrying(k, _, _) => k
    case _ => 0
  }

  predicate InCall(s: State) {
    s.phase.Calling? || s.phase.Judging? || s.phase.Recorded? || s.phase.Retrying?
  }

  ghost predicate BudgetInv(c: Config, s: State) {
    && s.calls <= c.maxCalls + c.maxRetries + 1
    && Attempt(s) <= c.maxRetries + 2
    && (InCall(s) ==> Attempt(s) > 0 && s.calls <= c.maxCalls - 1 + Attempt(s))
    && s.retries <= s.calls
  }

  lemma BudgetStep(c: Config, s: State, e: Entry)
    requires BudgetInv(c, s) && (s.phase.Calling? ==> s.calls > 0) && Apply(c, s, e).Some?
    ensures var s' := Apply(c, s, e).value;
            && BudgetInv(c, s') && (s'.phase.Calling? ==> s'.calls > 0)
            && s'.calls == s.calls + (if e.Emit? && e.event.ToolStarted? then 1 else 0)
            && (e.Gateway? <==> s.phase.Calling?) && !(e.Gateway? && s'.phase.Calling?)
            && (s'.phase.Calling? <==> e.Emit? && e.event.ToolStarted?)
  {
    hide Trim, Permitted, CallIdFor, Prepared, Snapshot;
  }

  lemma {:induction false} BudgetHolds(c: Config, j: Journal)
    requires Legal(c, j)
    ensures var s := Replay(c, j).value;
            && BudgetInv(c, s) && Announced(j) == s.calls
            && GatewayCalls(j) == (if s.phase.Calling? then s.calls - 1 else s.calls)
            && (s.phase.Calling? ==> s.calls > 0)
  {
    if j != [] {
      hide Apply, BudgetInv;
      var before, e := j[..|j| - 1], j[|j| - 1];
      BudgetHolds(c, before);
      BudgetStep(c, Replay(c, before).value, e);
    }
  }

  /** However often the run is steered back to the start of a plan, it makes at most
      maxCalls + maxRetries + 1 gateway calls, and announces each of them. */
  lemma CallsBounded(c: Config, j: Journal)
    requires Legal(c, j)
    ensures GatewayCalls(j) <= Announced(j) <= c.maxCalls + c.maxRetries + 1
    ensures Announced(j) <= GatewayCalls(j) + 1
  {
    BudgetHolds(c, j);
  }

  // The plan entries that were started, each counted once however often it was tried.
  function EntriesStarted(c: Config, j: Journal): nat {
    if j == [] then 0
    else
      var before, e := Replay(c, j[..|j| - 1]), j[|j| - 1];
      EntriesStarted(c, j[..|j| - 1]) + if before.Some? && before.value.phase.Head? && e.Emit? && e.event.ToolStarted? then 1 else 0
  }

  lemma StartedStep(c: Config, s: State, e: Entry)
    requires Apply(c, s, e).Some?
    ensures var s' := Apply(c, s, e).value;
            s'.calls - s'.retries == s.calls - s.retries + if s.phase.Head? && e.Emit? && e.event.ToolStarted? then 1 else 0
  {
    hide Trim, Permitted, CallIdFor, Prepared, Snapshot;
  }

  /** Every call is the first attempt at a plan entry or a counted retry. */
  lemma {:induction false} CallsAreEntriesPlusRetries(c: Config, j: Journal)
    requires Legal(c, j)
    ensures var s := Replay(c, j).value; s.calls == EntriesStarted(c, j) + s.retries
  {
    if j != [] {
      hide Apply;
      CallsAreEntriesPlusRetries(c, j[..|j| - 1]);
      StartedStep(c, Replay(c, j[..|j| - 1]).value, j[|j| - 1]);
    }
  }

  // ----- the event stream -----

  function EventsOf(j: Journal): seq<Event> {
    if j == [] then []
    else
      var before := EventsOf(j[..|j| - 1]);
      if j[|j| - 1].Emit? then before + [j[|j| - 1].event] else before
  }

  predicate Terminal(e: Event) {
    e.RunFinished? || e.RunFailed? || e.RunCancelled?
  }

  // The status that a terminal event stands for.
  function StatusOf(e: Event): RunStatus
    requires Terminal(e)
  {
    match e
    case RunFinished(status) => status
    case RunFailed => Failed
    case RunCancelled => Cancelled
  }

  ghost predicate EventsInv(s: State, events: seq<Event>) {
    && (s.phase.Unstarted? <==> events == [])
    && (events != [] ==> events[0] == RunStarted)
    && (forall i :: 1 <= i < |events| ==> events[i] != RunStarted)
    && (forall i :: 0 <= i < |events| - 1 ==> !Terminal(events[i]))
    && (s.phase.Finishing? || s.phase.Over? <==> events != [] && Terminal(events[|events| - 1]))
    && (s.phase.Finishing? || s.phase.Over? ==> s.status == StatusOf(events[|events| - 1]))
    && (s.phase.Finishing? ==> s.status == Completed || s.status == WaitingReview)
  }

  ghost predicate StatusInv(s: State) {
    if s.phase.Unstarted? || s.phase.Preparing? then s.status == Queued
    else if s.phase.Over? then s.status != Queued && s.status != Running
    else if s.phase.Finishing? then s.status == Completed || s.status == WaitingReview
    else s.status == Running || s.status == WaitingReview
  }

  lemma StatusStep(c: Config, s: State, e: Entry)
    requires StatusInv(s) && Apply(c, s, e).Some?
    ensures StatusInv(Apply(c, s, e).value)
  {
    hide Trim, Permitted, CallIdFor, Prepared, Snapshot;
  }

  lemma {:induction false} StatusHolds(c: Config, j: Journal)
    requires Legal(c, j)
    ensures StatusInv(Replay(c, j).value)
  {
    if j != [] {
      hide Apply, StatusInv;
      StatusHolds(c, j[..|j| - 1]);
      StatusStep(c, Replay(c, j[..|j| - 1]).value, j[|j| - 1]);
    }
  }

  lemma EventsStep(c: Config, s: State, events: seq<Event>, e: Event)
    requires EventsInv(s, events) && StatusInv(s) && OnEvent(c, s, e).Some?
    ensures EventsInv(OnEvent(c, s, e).value, events + [e])
  {
    var s' := OnEvent(c, s, e).value;
    assert s.phase.Finishing? || s.phase.Over? ==> false;
    forall i | 0 <= i < |events + [e]| - 1 ensures !Terminal((events + [e])[i]) {
      assert (events + [e])[i] == events[i];
    }
  }

  lemma {:induction false} EventsHold(c: Config, j: Journal)
    requires Legal(c, j)
    ensures EventsInv(Replay(c, j).value, EventsOf(j))
  {
    if j != [] {
      var before, e := j[..|j| - 1], j[|j| - 1];
      EventsHold(c, before);
      StatusHolds(c, before);
      if e.Emit? {
        EventsStep(c, Replay(c, before).value, EventsOf(before), e.event);
      }
    }
  }

  /** Every life that emits anything starts with run_started; a terminal event is the last one, and it is
      there exactly when the life is over, agreeing with the final status. */
  lemma EventGrammar(c: Config, j: Journal)
    requires Legal(c, j) && EventsOf(j) != []
    ensures var events, s := EventsOf(j), Replay(c, j).value;
            && events[0] == RunStarted
            && (forall i :: 1 <= i < |events| ==> events[i] != RunStarted)
            && (forall i :: 0 <= i < |events| - 1 ==> !Terminal(events[i]))
            && (Terminal(events[|events| - 1]) <==> s.phase.Finishing? || s.phase.Over?)
            && (Terminal(events[|events| - 1]) ==> s.status == StatusOf(events[|events| - 1]))
  {
    EventsHold(c, j);
  }

  // ----- what is executed -----

  // The call id of the entry in hand is the planned one, if the plan has one.
  ghost predicate CallIdInv(s: State) {
    match s.phase
    case Calling(_, id) => s.index < |s.plan| && CallIdFor(s.plan[s.index], id)
    case Judging(_, id, _) => s.index < |s.plan| && CallIdFor(s.plan[s.index], id)
    case Recorded(_, id, _) => s.index < |s.plan| && CallIdFor(s.plan[s.index], id)
    case Retrying(_, id, _) => s.index < |s.plan| && CallIdFor(s.plan[s.index], id)
    case _ => true
  }

  lemma CallIdStep(c: Config, s: State, e: Entry)
    requires CallIdInv(s) && Apply(c, s, e).Some?
    ensures CallIdInv(Apply(c, s, e).value)
  {
    hide Trim, Permitted, CallIdFor, Prepared, Snapshot;
  }

  lemma {:induction false} CallIdHolds(c: Config, j: Journal)
    requires Legal(c, j)
    ensures CallIdInv(Replay(c, j).value)
  {
    if j != [] {
      hide Apply, CallIdInv;
      CallIdHolds(c, j[..|j| - 1]);
      CallIdStep(c, Replay(c, j[..|j| - 1]).value, j[|j| - 1]);
    }
  }

  /** Every gateway call is the current plan's entry, of a discovered tool, bound to the run; a call that
      may write carries the idempotency key it was planned with. */
  lemma ExecutedCallsArePermitted(c: Config, j: Journal, k: nat)
    requires Legal(c, j) && k < |j| && j[k].Gateway?
    ensures Legal(c, j[..k])
    ensures var call, plan := j[k].call, Replay(c, j[..k]).value.plan;
            && j[k].index < |plan|
            && call.toolName == plan[j[k].index].toolName && call.toolName in c.allowed
            && call.arguments == plan[j[k].index].arguments
            && call.idempotencyKey == plan[j[k].index].idempotencyKey
            && call.runId == c.runId && call.skillId == c.skillId && call.skillVersion == c.skillVersion
            && (c.allowed[call.toolName].level != Read ==> Trim(call.idempotencyKey) != "")
            && call.toolVersion == (var planned := plan[j[k].index].toolVersion;
                                    if Trim(planned) == "" then c.allowed[call.toolName].version else planned)
            && (Trim(plan[j[k].index].callId) != "" ==> call.callId == plan[j[k].index].callId)
  {
    CrashesAreLegal(c, j, k);
    CrashesAreLegal(c, j, k + 1);
    CallIdHolds(c, j[..k]);
    assert j[..k + 1][..k] == j[..k];
  }

  // ----- checkpoints and resuming -----

  function LastSaved(j: Journal): Option<Checkpoint> {
    if j == [] then None
    else if j[|j| - 1].Save? && j[|j| - 1].durable then Some(j[|j| - 1].checkpoint)
    else LastSaved(j[..|j| - 1])
  }

  predicate AllDurable(j: Journal) {
    forall e | e in j :: e.Save? ==> e.durable
  }

  predicate Ascending(s: seq<nat>) {
    forall i, j :: 0 <= i < j < |s| ==> s[i] <= s[j]
  }

  // The plan's entries from start up to next have been answered in order, and nothing beyond next was sent.
  ghost predicate Progress(s: State, next: nat) {
    && s.start <= s.index && s.start <= next <= s.index + 1
    && Ascending(s.attempted) && Ascending(s.completed)
    && (forall i :: i in s.attempted ==> s.start <= i <= next && i <= s.index && i < |s.plan|)
    && (forall i :: i in s.completed ==> i in s.attempted)
    && (forall i :: s.start <= i < next ==> i in s.completed)
  }

  ghost predicate CheckpointInv(c: Config, s: State, saved: Option<Checkpoint>) {
    match saved
    case None =>
      && (s.phase.Unstarted? || s.phase.Preparing? || s.phase.Over?) && s.attempted == [] && s.completed == [] && !s.installed
      && (s.phase.Unstarted? ==> s == INITIAL)
      && (!s.phase.Over? && c.resumed.None? ==> s.index == 0 && s.plan == [])
    case Some(cp) =>
      && !s.phase.Unstarted? && !s.phase.Preparing?
      && cp.plan == s.plan && cp.nextIndex <= |s.plan|
      && Progress(s, cp.nextIndex)
      && (s.phase.Head? || s.phase.Steering? || s.phase.Cancelling? || s.phase.Finishing? ==> cp.nextIndex == s.index)
      && (InCall(s) ==> s.index < |s.plan| && s.index <= cp.nextIndex)
      && (s.phase.Recorded? || s.phase.Failing? || s.phase.FailureSaved? ==> cp.nextIndex == s.index + 1)
      && (s.phase.Judging? ==> s.index in s.completed)
      && (s.phase.Finishing? || (s.phase.Over? && (s.status == Completed || s.status == WaitingReview)) ==> cp.nextIndex == |s.plan|)
      && (s.installed ==> s.start == 0)
      && (!s.installed ==> c.resumed.Some? && s.plan == c.resumed.value.plan && s.start == c.resumed.value.nextIndex)
      && !(s.phase.Over? && s.status == Running)
  }

  // The life starts from nothing, or from a checkpoint inside its plan.
  predicate GoodStart(c: Config) {
    c.resumed.Some? ==> c.resumed.value.nextIndex <= |c.resumed.value.plan|
  }

  lemma AscendingMore(s: seq<nat>, i: nat)
    requires Ascending(s) && forall k :: k in s ==> k <= i
    ensures Ascending(s + [i])
  {
    forall a, b | 0 <= a < b < |s + [i]| ensures (s + [i])[a] <= (s + [i])[b] {
      assert s[a] in s;
    }
  }

  lemma CheckpointOnGateway(c: Config, s: State, saved: Option<Checkpoint>, index: nat, call: Call, reply: Reply)
    requires CheckpointInv(c, s, saved) && OnGateway(c, s, index, call, reply).Some?
    ensures CheckpointInv(c, OnGateway(c, s, index, call, reply).value, saved)
  {
    AscendingMore(s.attempted, index);
    AscendingMore(s.completed, index);
  }

  // No event changes what was sent and answered; only a resumed plan and the next entry move the position.
  lemma EventKeeps(c: Config, s: State, e: Event)
    requires OnEvent(c, s, e).Some?
    ensures var s' := OnEvent(c, s, e).value;
            && s'.attempted == s.attempted && s'.completed == s.completed && s'.start == s.start && s'.installed == s.installed
            && (!s.phase.Preparing? ==> s'.plan == s.plan)
            && s'.index == (if s.phase.Preparing? && e.RunResumed? then e.nextIndex
                           else if s.phase.Recorded? && s'.phase.Head? then s.index + 1 else s.index)
  {
    hide Trim, Permitted, CallIdFor, Prepared, Snapshot;
  }

  lemma CheckpointOnEvent(c: Config, s: State, saved: Option<Checkpoint>, e: Event)
    requires GoodStart(c) && CheckpointInv(c, s, saved) && StatusInv(s) && OnEvent(c, s, e).Some?
    ensures CheckpointInv(c, OnEvent(c, s, e).value, saved)
  {
    hide Trim, Permitted, CallIdFor, Prepared, Snapshot;
    var s' := OnEvent(c, s, e).value;
    EventKeeps(c, s, e);
    if saved.Some? {
      assert Progress(s', saved.value.nextIndex) by {
        assert Progress(s, saved.value.nextIndex);
      }
      hide Progress;
    }
  }

  lemma CheckpointOnSave(c: Config, s: State, saved: Option<Checkpoint>, cp: Checkpoint)
    requires GoodStart(c) && CheckpointInv(c, s, saved) && StatusInv(s) && OnSave(c, s, cp).Some?
    ensures CheckpointInv(c, OnSave(c, s, cp).value, Some(cp))
  {
    hide Trim, Permitted, CallIdFor, Prepared;
    var s' := OnSave(c, s, cp).value;
    if s.phase.Preparing? || s.phase.Steering? {
      assert s'.attempted == [] && s'.completed == [];
    } else {
      assert Progress(s, saved.value.nextIndex);
    }
  }

  lemma ByKind(c: Config, s: State, e: Entry)
    ensures Apply(c, s, e) == match e
      case Emit(event) => OnEvent(c, s, event)
      case Save(cp, _) => OnSave(c, s, cp)
      case Gateway(index, call, reply) => OnGateway(c, s, index, call, reply)
  {
  }

  lemma {:induction false} CheckpointHolds(c: Config, j: Journal)
    requires GoodStart(c) && Legal(c, j) && AllDurable(j)
    ensures CheckpointInv(c, Replay(c, j).value, LastSaved(j))
  {
    if j != [] {
      var before, e := j[..|j| - 1], j[|j| - 1];
      assert j == before + [e];
      hide Apply, OnEvent, OnSave, OnGateway, CheckpointInv, StatusInv;
      CheckpointHolds(c, before);
      StatusHolds(c, before);
      ByKind(c, Replay(c, before).value, e);
      var s := Replay(c, before).value;
      match e
      case Emit(event) => CheckpointOnEvent(c, s, LastSaved(before), event);
      case Save(cp, _) => CheckpointOnSave(c, s, LastSaved(before), cp);
      case Gateway(index, call, reply) => CheckpointOnGateway(c, s, LastSaved(before), index, call, reply);
    }
  }

  /** At every loop head the stored plan and position are the live ones, after replanning too. */
  lemma CheckpointIsLiveAtHead(c: Config, j: Journal)
    requires GoodStart(c) && Legal(c, j) && AllDurable(j) && Replay(c, j).value.phase.Head?
    ensures LastSaved(j).Some?
    ensures var cp, s := LastSaved(j).value, Replay(c, j).value;
            cp.plan == s.plan && cp.nextIndex == s.index <= |s.plan|
  {
    CheckpointHolds(c, j);
  }

  // ----- any number of crashes -----

  // Lives that follow each other. Nothing is stored at first, or a plan that has not been started; then what the
  // latest life that saved anything has stored. A life resumes that checkpoint, or starts afresh.
  datatype Life = Life(config: Config, journal: Journal)

  function StoredAfter(first: Option<Checkpoint>, lives: seq<Life>): Option<Checkpoint> {
    if lives == [] then first
    else
      var saved := LastSaved(lives[|lives| - 1].journal);
      if saved.Some? then saved else StoredAfter(first, lives[..|lives| - 1])
  }

  predicate NothingDone(first: Option<Checkpoint>) {
    first.Some? ==> first.value.nextIndex == 0
  }

  ghost predicate Chain(first: Option<Checkpoint>, lives: seq<Life>) {
    NothingDone(first) && forall k :: 0 <= k < |lives| ==> GoodLife(lives[k], StoredAfter(first, lives[..k]))
  }

  predicate GoodLife(life: Life, stored: Option<Checkpoint>) {
    && (life.config.resumed == stored || life.config.resumed == None)
    && Legal(life.config, life.journal) && AllDurable(life.journal)
  }

  function StateOf(life: Life): State
    requires Legal(life.config, life.journal)
  {
    Replay(life.config, life.journal).value
  }

  ghost predicate AllLegal(lives: seq<Life>) {
    forall k :: 0 <= k < |lives| ==> Legal(lives[k].config, lives[k].journal)
  }

  // The entries of the stored plan that some life has got answered, since that plan was made.
  ghost function Answered(lives: seq<Life>): set<nat>
    requires AllLegal(lives)
  {
    if lives == [] then {}
    else
      var s := StateOf(lives[|lives| - 1]);
      var own := set i | i in s.completed;
      if s.installed then own else Answered(lives[..|lives| - 1]) + own
  }

  // The entries that were sent to the gateway since the stored plan was made, life by life in order.
  ghost function Sent(lives: seq<Life>): seq<nat>
    requires AllLegal(lives)
  {
    if lives == [] then []
    else
      var s := StateOf(lives[|lives| - 1]);
      if s.installed then s.attempted else Sent(lives[..|lives| - 1]) + s.attempted
  }

  function Position(stored: Option<Checkpoint>): nat {
    if stored.Some? then stored.value.nextIndex else 0
  }

  function PlanOf(stored: Option<Checkpoint>): seq<Call> {
    if stored.Some? then stored.value.plan else []
  }

  lemma ChainPrefix(first: Option<Checkpoint>, lives: seq<Life>)
    requires Chain(first, lives) && lives != []
    ensures Chain(first, lives[..|lives| - 1])
    ensures GoodLife(lives[|lives| - 1], StoredAfter(first, lives[..|lives| - 1]))
    ensures AllLegal(lives) && AllLegal(lives[..|lives| - 1])
  {
    var before := lives[..|lives| - 1];
    forall k | 0 <= k < |lives| ensures Legal(lives[k].config, lives[k].journal) {
      assert GoodLife(lives[k], StoredAfter(first, lives[..k]));
    }
    forall k | 0 <= k < |before| ensures GoodLife(before[k], StoredAfter(first, before[..k])) {
      assert before[..k] == lives[..k];
      assert GoodLife(lives[k], StoredAfter(first, lives[..k]));
    }
    assert GoodLife(lives[|lives| - 1], StoredAfter(first, before));
  }

  // What one life does to the stored plan and position: where it works on the plan it found, it goes on from the
  // position it found.
  ghost predicate Advances(s: State, before: Option<Checkpoint>, after: Option<Checkpoint>) {
    && (after.Some? ==> after.value.nextIndex <= |after.value.plan|)
    && Ascending(s.attempted) && (forall i :: i in s.completed ==> i in s.attempted)
    && (forall i :: i in s.attempted ==> after.Some? && i <= Position(after) && i < |PlanOf(after)|)
    && (if s.installed then forall i :: 0 <= i < Position(after) ==> i in s.completed
        else
          && PlanOf(after) == PlanOf(before) && Position(before) <= Position(after)
          && (forall i :: i in s.attempted ==> Position(before) <= i)
          && (forall i :: Position(before) <= i < Position(after) ==> i in s.completed))
  }

  lemma LifeAdvances(life: Life, stored: Option<Checkpoint>)
    requires GoodLife(life, stored) && (stored.Some? ==> stored.value.nextIndex <= |stored.value.plan|)
    ensures var saved := LastSaved(life.journal);
            Advances(StateOf(life), stored, if saved.Some? then saved else stored)
  {
    CheckpointHolds(life.config, life.journal);
    var s, saved := StateOf(life), LastSaved(life.journal);
    if saved.Some? {
      assert Progress(s, saved.value.nextIndex);
    }
    hide Replay, LastSaved, Apply;
  }

  /** From an empty store, or a plan that was not started: however many lives there are, fresh or resumed, and
      wherever they crash, the stored position is exact. Every entry of the stored plan before it has been answered,
      no entry after it, and the entries were sent in plan order. */
  lemma {:induction false} StoredPositionIsExact(first: Option<Checkpoint>, lives: seq<Life>)
    requires Chain(first, lives)
    ensures AllLegal(lives)
    ensures var stored := StoredAfter(first, lives);
            && (stored.Some? ==> stored.value.nextIndex <= |stored.value.plan|)
            && (forall i :: 0 <= i < Position(stored) ==> i in Answered(lives))
            && (forall i :: i in Answered(lives) ==> i <= Position(stored) && i < |PlanOf(stored)|)
            && Ascending(Sent(lives))
            && (forall i :: i in Sent(lives) ==> i <= Position(stored) && i < |PlanOf(stored)|)
  {
    if lives != [] {
      ChainPrefix(first, lives);
      var before, life := lives[..|lives| - 1], lives[|lives| - 1];
      StoredPositionIsExact(first, before);
      LifeAdvances(life, StoredAfter(first, before));
      hide Advances, GoodLife, Chain, LastSaved, StateOf;
      AdvanceKeepsOrder(StateOf(life), StoredAfter(first, before), StoredAfter(first, lives), Answered(before), Sent(before));
    }
  }

  lemma AdvanceKeepsOrder(s: State, before: Option<Checkpoint>, after: Option<Checkpoint>, answered: set<nat>, sent: seq<nat>)
    requires Advances(s, before, after)
    requires forall i :: 0 <= i < Position(before) ==> i in answered
    requires forall i :: i in answered ==> i <= Position(before) && i < |PlanOf(before)|
    requires Ascending(sent) && forall i :: i in sent ==> i <= Position(before) && i < |PlanOf(before)|
    ensures var own := set i | i in s.completed;
            var answered', sent' := if s.installed then own else answered + own, if s.installed then s.attempted else sent + s.attempted;
            && (after.Some? ==> after.value.nextIndex <= |after.value.plan|)
            && (forall i :: 0 <= i < Position(after) ==> i in answered')
            && (forall i :: i in answered' ==> i <= Position(after) && i < |PlanOf(after)|)
            && Ascending(sent') && (forall i :: i in sent' ==> i <= Position(after) && i < |PlanOf(after)|)
  {
    if !s.installed {
      forall a, b | 0 <= a < b < |sent + s.attempted| ensures (sent + s.attempted)[a] <= (sent + s.attempted)[b] {
        if a < |sent| <= b {
          assert sent[a] in sent && s.attempted[b - |sent|] in s.attempted;
        }
      }
    }
  }

  /** When the last life runs to its end, every entry of its plan has been answered in some life. */
  lemma FinishedPlanFullyAnswered(first: Option<Checkpoint>, lives: seq<Life>)
    requires Chain(first, lives) && lives != []
    requires Legal(lives[|lives| - 1].config, lives[|lives| - 1].journal)
    requires var s := StateOf(lives[|lives| - 1]); s.phase.Finishing? || (s.phase.Over? && (s.status == Completed || s.status == WaitingReview))
    ensures AllLegal(lives)
    ensures forall i :: 0 <= i < |StateOf(lives[|lives| - 1]).plan| ==> i in Answered(lives)
  {
    StoredPositionIsExact(first, lives);
    ChainPrefix(first, lives);
    StoredPositionIsExact(first, lives[..|lives| - 1]);
    var life := lives[|lives| - 1];
    CheckpointHolds(life.config, life.journal);
    FinishedNeedsSaved(life.config, life.journal);
    hide Answered, Sent, Ascending, Replay, LastSaved, Chain, Progress;
  }

  lemma {:induction false} FinishedNeedsSaved(c: Config, j: Journal)
    requires Legal(c, j) && AllDurable(j)
    ensures var s := Replay(c, j).value;
            LastSaved(j).None? ==> s.phase.Unstarted? || s.phase.Preparing? || (s.phase.Over? && s.status == Failed)
  {
    if j != [] {
      assert j == j[..|j| - 1] + [j[|j| - 1]];
      FinishedNeedsSaved(c, j[..|j| - 1]);
    }
  }

  /** Two lives that work on the same plan share at most the entry that was in flight between them. */
  lemma OnlyInFlightEntryRepeats(first: Option<Checkpoint>, lives: seq<Life>, a: nat, b: nat, i: nat)
    requires Chain(first, lives) && a < b < |lives| && AllLegal(lives)
    requires forall k :: a < k <= b ==> !StateOf(lives[k]).installed
    requires i in StateOf(lives[a]).attempted && i in StateOf(lives[b]).attempted
    ensures i == Position(StoredAfter(first, lives[..a + 1])) == Position(StoredAfter(first, lives[..b]))
    ensures PlanOf(StoredAfter(first, lives[..a + 1])) == PlanOf(StoredAfter(first, lives[..b]))
  {
    PositionAfterLife(first, lives, a);
    PositionAfterLife(first, lives, b);
    PositionsGrow(first, lives, a + 1, b);
    hide StoredAfter, Chain, StateOf;
  }

  lemma PositionAfterLife(first: Option<Checkpoint>, lives: seq<Life>, k: nat)
    requires Chain(first, lives) && k < |lives|
    ensures Legal(lives[k].config, lives[k].journal)
    ensures Advances(StateOf(lives[k]), StoredAfter(first, lives[..k]), StoredAfter(first, lives[..k + 1]))
  {
    assert GoodLife(lives[k], StoredAfter(first, lives[..k]));
    ChainTake(first, lives, k);
    StoredPositionIsExact(first, lives[..k]);
    assert lives[..k + 1][..k] == lives[..k];
    hide Chain, Answered, Sent, Advances, GoodLife, StateOf, LastSaved;
    LifeAdvances(lives[k], StoredAfter(first, lives[..k]));
  }

  lemma ChainTake(first: Option<Checkpoint>, lives: seq<Life>, k: nat)
    requires Chain(first, lives) && k <= |lives|
    ensures Chain(first, lives[..k])
  {
    forall m | 0 <= m < k ensures GoodLife(lives[..k][m], StoredAfter(first, lives[..k][..m])) {
      assert lives[..k][..m] == lives[..m];
      assert GoodLife(lives[m], StoredAfter(first, lives[..m]));
    }
  }

  lemma {:induction false} PositionsGrow(first: Option<Checkpoint>, lives: seq<Life>, a: nat, b: nat)
    requires Chain(first, lives) && a <= b <= |lives| && AllLegal(lives)
    requires forall k :: a <= k < b ==> !StateOf(lives[k]).installed
    ensures Position(StoredAfter(first, lives[..a])) <= Position(StoredAfter(first, lives[..b]))
    ensures PlanOf(StoredAfter(first, lives[..a])) == PlanOf(StoredAfter(first, lives[..b]))
    decreases b
  {
    if a < b {
      hide *;
      PositionsGrow(first, lives, a, b - 1);
      PositionAfterLife(first, lives, b - 1);
      StaysOnPlan(StateOf(lives[b - 1]), StoredAfter(first, lives[..b - 1]), StoredAfter(first, lives[..b]));
    }
  }

  lemma StaysOnPlan(s: State, before: Option<Checkpoint>, after: Option<Checkpoint>)
    requires Advances(s, before, after) && !s.installed
    ensures PlanOf(after) == PlanOf(before) && Position(before) <= Position(after)
  {
  }

  // ----- when a life works on a plan of its own -----

  predicate WasSteered(j: Journal) {
    exists e | e in j :: e.Emit? && e.event.RunSteered?
  }

  predicate SavedAnything(j: Journal) {
    exists e | e in j :: e.Save?
  }

  // The life found no plan to go on with.
  predicate Planless(c: Config) {
    PlanOf(c.resumed) == []
  }

  ghost predicate InstalledInv(c: Config, s: State, saved: bool, steered: bool) {
    && (if saved then !s.phase.Unstarted? && !s.phase.Preparing? && (s.phase.Steering? || (s.installed <==> Planless(c) || steered))
        else !s.installed && !steered && (s.phase.Unstarted? || s.phase.Preparing? || s.phase.Over?))
    && (s.phase.Steering? ==> saved && steered)
    && (s.phase.Unstarted? ==> s.plan == [])
    && (s.phase.Preparing? ==> s.plan == [] || s.plan == PlanOf(c.resumed))
  }

  lemma InstalledStep(c: Config, s: State, e: Entry, saved: bool, steered: bool)
    requires InstalledInv(c, s, saved, steered) && Apply(c, s, e).Some?
    ensures InstalledInv(c, Apply(c, s, e).value, saved || e.Save?, steered || (e.Emit? && e.event.RunSteered?))
  {
    hide Trim, Permitted, CallIdFor, Prepared;
  }

  lemma {:induction false} InstalledHolds(c: Config, j: Journal)
    requires Legal(c, j)
    ensures InstalledInv(c, Replay(c, j).value, SavedAnything(j), WasSteered(j))
  {
    if j != [] {
      var before, e := j[..|j| - 1], j[|j| - 1];
      InstalledHolds(c, before);
      hide Apply, InstalledInv;
      InstalledStep(c, Replay(c, before).value, e, SavedAnything(before), WasSteered(before));
      assert j == before + [e];
      assert SavedAnything(j) <==> SavedAnything(before) || e.Save?;
      assert WasSteered(j) <==> WasSteered(before) || (e.Emit? && e.event.RunSteered?);
    }
  }

  /** A life that has saved anything works on a plan of its own, from that plan's first entry - and so repeats what
      earlier lives did - exactly when it found no plan to go on with or was steered. */
  lemma OwnPlanIff(c: Config, j: Journal)
    requires Legal(c, j) && SavedAnything(j) && !Replay(c, j).value.phase.Steering?
    ensures Replay(c, j).value.installed <==> Planless(c) || WasSteered(j)
  {
    InstalledHolds(c, j);
  }

  // ----- where a life begins -----

  // The first checkpoint that a life saves.
  function FirstSaved(j: Journal): Option<Checkpoint> {
    if j == [] then None
    else
      var before := FirstSaved(j[..|j| - 1]);
      if before.None? && j[|j| - 1].Save? then Some(j[|j| - 1].checkpoint) else before
  }

  predicate CalledAnything(j: Journal) {
    exists e | e in j :: e.Gateway?
  }

  lemma {:induction false} FirstSavedStays(j: Journal, longer: Journal)
    requires j <= longer && FirstSaved(j).Some?
    ensures FirstSaved(longer) == FirstSaved(j)
  {
    if j == longer {
      assert longer == j;
    } else {
      FirstSavedStays(j, longer[..|longer| - 1]);
    }
  }

  // Until it is steered, a life works on the plan it saved first, from the position it saved first.
  ghost predicate FirstPlanInv(s: State, first: Option<Checkpoint>, steered: bool, called: bool) {
    match first
    case None => !steered && !called && (s.phase.Unstarted? || s.phase.Preparing? || s.phase.Over?)
    case Some(cp) =>
      && !s.phase.Unstarted? && !s.phase.Preparing? && (s.phase.Steering? ==> steered)
      && (!steered ==>
            && s.plan == cp.plan && cp.nextIndex <= s.index
            && (!called ==> s.index == cp.nextIndex && !s.phase.Judging? && !s.phase.Recorded?))
  }

  lemma FirstPlanStep(c: Config, s: State, e: Entry, first: Option<Checkpoint>, steered: bool, called: bool)
    requires FirstPlanInv(s, first, steered, called) && Apply(c, s, e).Some?
    ensures FirstPlanInv(Apply(c, s, e).value, if first.None? && e.Save? then Some(e.checkpoint) else first,
                         steered || (e.Emit? && e.event.RunSteered?), called || e.Gateway?)
  {
    hide Trim, Permitted, CallIdFor, Prepared;
  }

  lemma SteeredOrCalled(j: Journal, e: Entry)
    ensures CalledAnything(j + [e]) <==> CalledAnything(j) || e.Gateway?
    ensures WasSteered(j + [e]) <==> WasSteered(j) || (e.Emit? && e.event.RunSteered?)
  {
  }

  lemma {:induction false} FirstPlanHolds(c: Config, j: Journal)
    requires Legal(c, j)
    ensures FirstPlanInv(Replay(c, j).value, FirstSaved(j), WasSteered(j), CalledAnything(j))
  {
    if j != [] {
      var before, e := j[..|j| - 1], j[|j| - 1];
      CrashesAreLegal(c, j, |j| - 1);
      ReplayMore(c, before, e);
      SteeredOrCalled(before, e);
      assert j == before + [e];
      hide Apply, FirstPlanInv, WasSteered, CalledAnything, Replay;
      FirstPlanHolds(c, before);
      FirstPlanStep(c, Replay(c, before).value, e, FirstSaved(before), WasSteered(before), CalledAnything(before));
    }
  }

  lemma SteeredSaysSo(j: Journal)
    requires WasSteered(j)
    ensures exists said :: Emit(RunSteered(said)) in j
  {
    var e :| e in j && e.Emit? && e.event.RunSteered?;
    assert Emit(RunSteered(e.event.instruction)) in j;
  }

  /** The calls of a life that has not been steered are entries of the plan it saved first, none of them before the
      position it saved first, and the first of them at that position. */
  lemma CallsFollowFirstPlan(c: Config, j: Journal, k: nat)
    requires Legal(c, j) && k < |j| && j[k].Gateway? && forall said :: Emit(RunSteered(said)) !in j[..k]
    ensures FirstSaved(j).Some?
    ensures var cp, i, call := FirstSaved(j).value, j[k].index, j[k].call;
            && cp.nextIndex <= i < |cp.plan| && ((forall e :: e in j[..k] ==> !e.Gateway?) ==> i == cp.nextIndex)
            && call.toolName == cp.plan[i].toolName && call.arguments == cp.plan[i].arguments
            && call.idempotencyKey == cp.plan[i].idempotencyKey
  {
    ExecutedCallsArePermitted(c, j, k);
    FirstPlanHolds(c, j[..k]);
    CrashesAreLegal(c, j, k + 1);
    assert j[..k + 1][..k] == j[..k];
    if WasSteered(j[..k]) {
      SteeredSaysSo(j[..k]);
      assert false;
    }
    FirstSavedStays(j[..k], j);
    hide FirstSaved, Permitted, Prepared, CallIdFor;
  }

  // The answers that were announced, in order.
  function AnnouncedAnswers(j: Journal): seq<ToolResult> {
    if j == [] then []
    else
      var e := j[|j| - 1];
      AnnouncedAnswers(j[..|j| - 1]) + if e.Emit? && e.event.ToolCompleted? then [e.event.result] else []
  }

  predicate SaidResumed(j: Journal) {
    exists e | e in j :: e.Emit? && e.event.RunResumed?
  }

  ghost predicate ResultsInv(c: Config, s: State, said: bool, announced: seq<ToolResult>) {
    && (said ==> c.resumed.Some?)
    && (s.phase.Unstarted? || s.phase.Preparing? ==> announced == [] && (!said ==> s.plan == []))
    && s.results == (if said then c.resumed.value.results else []) + announced + (if s.phase.Recorded? then [s.phase.result] else [])
  }

  lemma ResultsOnEvent(c: Config, s: State, e: Event, said: bool, announced: seq<ToolResult>)
    requires ResultsInv(c, s, said, announced) && OnEvent(c, s, e).Some?
    ensures ResultsInv(c, OnEvent(c, s, e).value, said || e.RunResumed?, announced + if e.ToolCompleted? then [e.result] else [])
    ensures e.RunResumed? ==> c.resumed.Some? && e.nextIndex == c.resumed.value.nextIndex
  {
    hide Trim, Permitted, CallIdFor;
    assert announced + [] == announced;
    if s.phase.Recorded? {
      var inherited := if said then c.resumed.value.results else [];
      assert inherited + announced + [s.phase.result] == inherited + (announced + [s.phase.result]) + [];
    }
  }

  lemma ResultsStep(c: Config, s: State, e: Entry, said: bool, announced: seq<ToolResult>)
    requires ResultsInv(c, s, said, announced) && Apply(c, s, e).Some?
    ensures ResultsInv(c, Apply(c, s, e).value, said || (e.Emit? && e.event.RunResumed?),
                       announced + if e.Emit? && e.event.ToolCompleted? then [e.event.result] else [])
    ensures e.Emit? && e.event.RunResumed? ==> c.resumed.Some? && e.event.nextIndex == c.resumed.value.nextIndex
  {
    hide Trim, Permitted, CallIdFor, Prepared, OnEvent;
    if e.Emit? {
      ResultsOnEvent(c, s, e.event, said, announced);
    } else {
      assert announced + [] == announced;
    }
  }

  lemma {:induction false} ResultsHold(c: Config, j: Journal)
    requires Legal(c, j)
    ensures ResultsInv(c, Replay(c, j).value, SaidResumed(j), AnnouncedAnswers(j))
    ensures forall n :: Emit(RunResumed(n)) in j ==> c.resumed.Some? && n == c.resumed.value.nextIndex
  {
    if j != [] {
      var before, e := j[..|j| - 1], j[|j| - 1];
      ResultsHold(c, before);
      hide Apply, ResultsInv;
      ResultsStep(c, Replay(c, before).value, e, SaidResumed(before), AnnouncedAnswers(before));
      assert j == before + [e];
      assert SaidResumed(j) <==> SaidResumed(before) || (e.Emit? && e.event.RunResumed?);
    }
  }

  /** The results of a life, unless it is about to announce one: those of its checkpoint, once it has said that it is
      resumed, and the answers it has announced, in order. */
  lemma ResultsAreInheritedAndAnnounced(c: Config, j: Journal)
    requires Legal(c, j) && !Replay(c, j).value.phase.Recorded?
    ensures (exists n :: Emit(RunResumed(n)) in j) ==> c.resumed.Some?
    ensures Replay(c, j).value.results
         == (if exists n :: Emit(RunResumed(n)) in j then c.resumed.value.results else []) + AnnouncedAnswers(j)
  {
    ResultsHold(c, j);
    if SaidResumed(j) {
      var e :| e in j && e.Emit? && e.event.RunResumed?;
      assert Emit(RunResumed(e.event.nextIndex)) in j;
    }
    hide Replay;
    var s := Replay(c, j).value;
    assert s.results == (if SaidResumed(j) then c.resumed.value.results else []) + AnnouncedAnswers(j) + [];
  }

  // ----- what is saved and announced, in the journal's own terms -----

  lemma {:induction false} EventsOfHas(j: Journal)
    ensures forall e :: e in EventsOf(j) <==> Emit(e) in j
  {
    if j != [] {
      assert j == j[..|j| - 1] + [j[|j| - 1]];
      EventsOfHas(j[..|j| - 1]);
    }
  }

  /** A life that is over has announced its status, and no other end. */
  lemma EndIsAnnounced(c: Config, j: Journal)
    requires Legal(c, j) && Replay(c, j).value.phase.Over?
    ensures var status := Replay(c, j).value.status;
            && (Emit(RunFailed) in j <==> status == Failed) && (Emit(RunCancelled) in j <==> status == Cancelled)
            && (forall s :: Emit(RunFinished(s)) in j <==> s == status && (status == Completed || status == WaitingReview))
            && Emit(RunStarted) in j
  {
    EventsHold(c, j);
    EventsOfHas(j);
    StatusHolds(c, j);
    FinishedWell(c, j);
    var events, s := EventsOf(j), Replay(c, j).value;
    hide Replay, EventsOf;
    var last := events[|events| - 1];
    forall e | e in events ensures Terminal(e) ==> e == last {
      var i :| 0 <= i < |events| && events[i] == e;
    }
    assert last in events && events[0] in events;
  }

  // The event a life ends with: it finishes completed or waiting for review.
  lemma {:induction false} FinishedWell(c: Config, j: Journal)
    requires Legal(c, j)
    ensures forall s :: Emit(RunFinished(s)) in j ==> s == Completed || s == WaitingReview
  {
    if j != [] {
      var before, e := j[..|j| - 1], j[|j| - 1];
      FinishedWell(c, before);
      StatusHolds(c, before);
      assert j == before + [e];
      hide Trim, Permitted, CallIdFor, Prepared, Snapshot, Replay;
    }
  }

  /** The last checkpoint that reached the store, if any did. */
  lemma {:induction false} LastSavedIff(j: Journal)
    ensures LastSaved(j) == None <==> forall e :: e in j && e.Save? ==> !e.durable
    ensures LastSaved(j).Some? ==>
              exists k :: 0 <= k < |j| && j[k] == Save(LastSaved(j).value, true)
                          && forall later :: k < later < |j| && j[later].Save? ==> !j[later].durable
  {
    if j != [] {
      var before, n := j[..|j| - 1], |j| - 1;
      LastSavedIff(before);
      assert j == before + [j[n]];
      if !(j[n].Save? && j[n].durable) && LastSaved(before).Some? {
        var k :| 0 <= k < n && before[k] == Save(LastSaved(before).value, true)
                 && forall later :: k < later < n && before[later].Save? ==> !before[later].durable;
        assert j[k] == before[k];
        forall later | k < later < |j| && j[later].Save? ensures !j[later].durable {
          assert later < n ==> before[later] == j[later];
        }
      }
      if j[n].Save? && j[n].durable {
        assert j[n] == Save(LastSaved(j).value, true);
      }
    }
  }

  // The answer a life has been given and not yet saved.
  function Unsaved(j: Journal): seq<ToolResult> {
    if j != [] && j[|j| - 1].Gateway? && j[|j| - 1].reply.Answer? then [j[|j| - 1].reply.result] else []
  }

  ghost predicate PhaseInv(s: State, j: Journal) {
    && (s.phase.Judging? <==> j != [] && j[|j| - 1].Gateway? && j[|j| - 1].reply.Answer?)
    && (s.phase.Judging? ==> [s.phase.result] == Unsaved(j) && j[|j| - 1].index == s.index)
    && (s.phase.Finishing? <==> j != [] && j[|j| - 1].Emit? && j[|j| - 1].event.RunFinished?)
    && (s.phase.Finishing? ==> j[|j| - 1].event.status == s.status)
    && (s.phase.Steering? <==> j != [] && j[|j| - 1].Emit? && j[|j| - 1].event.RunSteered?)
    && (s.phase.Failing? ==> j != [] && j[|j| - 1].Emit? && j[|j| - 1].event.ToolCompleted?)
  }

  lemma PhaseByLastEntry(c: Config, j: Journal)
    requires Legal(c, j)
    ensures PhaseInv(Replay(c, j).value, j)
  {
    hide Trim, Permitted, CallIdFor, Prepared, Snapshot;
    if j != [] {
      var s := Replay(c, j[..|j| - 1]).value;
    }
  }

  /** Every checkpoint a life saves is its own, and holds all it was given and has been answered: the results it has
      inherited and announced, and the answer just before it. The position is behind that answer. */
  lemma SavedCheckpointIsCurrent(c: Config, j: Journal, k: nat)
    requires Legal(c, j) && k < |j| && j[k].Save?
    ensures (exists n :: Emit(RunResumed(n)) in j[..k]) ==> c.resumed.Some?
    ensures var cp, inherited := j[k].checkpoint, if exists n :: Emit(RunResumed(n)) in j[..k] then c.resumed.value.results else [];
            && cp.runId == c.runId && cp.skillId == c.skillId && cp.skillVersion == c.skillVersion
            && (k > 0 && j[k - 1].Gateway? && j[k - 1].reply.Answer? ==>
                  && cp.results == inherited + AnnouncedAnswers(j[..k]) + [j[k - 1].reply.result]
                  && cp.nextIndex == j[k - 1].index + 1)
            && (!(k > 0 && j[k - 1].Gateway? && j[k - 1].reply.Answer?) ==> cp.results == inherited + AnnouncedAnswers(j[..k]))
            && (k > 0 && j[k - 1].Emit? && j[k - 1].event.RunSteered? ==> cp.nextIndex == 0)
            && (k > 0 && j[k - 1].Emit? && j[k - 1].event.RunFinished? ==>
                  cp.nextIndex == |cp.plan| && cp.status == j[k - 1].event.status)
  {
    SavedWhen(c, j, k);
    PhaseByLastEntry(c, j[..k]);
    ResultsHold(c, j[..k]);
    hide Replay, AnnouncedAnswers;
    if SaidResumed(j[..k]) {
      var e :| e in j[..k] && e.Emit? && e.event.RunResumed?;
      assert Emit(RunResumed(e.event.nextIndex)) in j[..k];
    }
    assert k > 0 ==> j[..k][k - 1] == j[k - 1];
  }

  lemma SavedWhen(c: Config, j: Journal, k: nat)
    requires Legal(c, j) && k < |j| && j[k].Save?
    ensures Legal(c, j[..k]) && OnSave(c, Replay(c, j[..k]).value, j[k].checkpoint).Some?
  {
    CrashesAreLegal(c, j, k);
    CrashesAreLegal(c, j, k + 1);
    assert j[..k + 1][..k] == j[..k];
  }

  // ----- what resuming loses -----

  // An answer that makes the run wait for review: it asks for one and is not retried.
  predicate ReviewAccepted(c: Config, j: Journal)
    requires Legal(c, j)
  {
    j != [] &&
    (CrashesAreLegal(c, j, |j| - 1);
     var before, e := j[..|j| - 1], j[|j| - 1];
     ReviewAccepted(c, before)
     || (e.Emit? && e.event.ToolCompleted? && e.event.result.status == StatusNeedsReview && Replay(c, j).value.phase.Head?))
  }

  /** A life ends in waiting_review exactly when one of its own answers asked for it; the results it
      inherited from a checkpoint do not count. */
  lemma {:induction false} ReviewComesFromOwnAnswers(c: Config, j: Journal)
    requires Legal(c, j)
    ensures var s := Replay(c, j).value;
            !(s.phase.Over? && (s.status == Failed || s.status == Cancelled)) ==>
              (s.status == WaitingReview <==> ReviewAccepted(c, j))
  {
    if j != [] {
      var before, e := j[..|j| - 1], j[|j| - 1];
      ReviewComesFromOwnAnswers(c, before);
      StatusHolds(c, before);
      ReviewStep(c, Replay(c, before).value, e);
      hide Apply, StatusInv;
    }
  }

  lemma ReviewStep(c: Config, s: State, e: Entry)
    requires StatusInv(s) && Apply(c, s, e).Some?
    ensures var s' := Apply(c, s, e).value;
            && !s.phase.Over?
            && (!(s'.phase.Over? && (s'.status == Failed || s'.status == Cancelled)) ==>
                  (s'.status == WaitingReview <==>
                    s.status == WaitingReview
                    || (e.Emit? && e.event.ToolCompleted? && e.event.result.status == StatusNeedsReview && s'.phase.Head?)))
  {
    hide Trim, Permitted, CallIdFor, Prepared, Snapshot;
  }

  // A life that has made no call and was not steered is where it found the plan.
  ghost predicate IdleInv(c: Config, s: State, steered: bool) {
    s.calls == 0 && !steered && !Planless(c) ==>
      && !InCall(s) && !s.phase.Steering? && !s.phase.Failing? && !s.phase.FailureSaved?
      && (s.phase.Unstarted? || s.phase.Preparing? || s.phase.Over? || (s.plan == PlanOf(c.resumed) && s.index == Position(c.resumed)))
      && (s.phase.Finishing? || (s.phase.Over? && (s.status == Completed || s.status == WaitingReview))
          ==> |PlanOf(c.resumed)| <= Position(c.resumed))
  }

  lemma IdleStep(c: Config, s: State, e: Entry, saved: bool, steered: bool)
    requires IdleInv(c, s, steered) && StatusInv(s) && InstalledInv(c, s, saved, steered) && Apply(c, s, e).Some?
    ensures IdleInv(c, Apply(c, s, e).value, steered || (e.Emit? && e.event.RunSteered?))
  {
    hide Trim, Permitted, CallIdFor, Prepared;
  }

  lemma {:induction false} IdleHolds(c: Config, j: Journal)
    requires Legal(c, j)
    ensures IdleInv(c, Replay(c, j).value, WasSteered(j))
  {
    if j != [] {
      var before, e := j[..|j| - 1], j[|j| - 1];
      IdleHolds(c, before);
      StatusHolds(c, before);
      InstalledHolds(c, before);
      hide Apply, InstalledInv, IdleInv, StatusInv;
      IdleStep(c, Replay(c, before).value, e, SavedAnything(before), WasSteered(before));
      assert j == before + [e];
      assert WasSteered(j) <==> WasSteered(before) || (e.Emit? && e.event.RunSteered?);
    }
  }

  /** A life that went on with a stored plan and finished without a call had nothing left to do, or was steered. */
  lemma SilentFinishHadNothingLeft(c: Config, j: Journal)
    requires Legal(c, j) && !Planless(c) && !WasSteered(j) && GatewayCalls(j) == 0
    requires var s := Replay(c, j).value; s.phase.Over? && (s.status == Completed || s.status == WaitingReview)
    ensures |PlanOf(c.resumed)| <= Position(c.resumed)
  {
    IdleHolds(c, j);
    BudgetHolds(c, j);
  }

  lemma StatusOnSave(c: Config, s: State, cp: Checkpoint)
    requires OnSave(c, s, cp).Some?
    ensures s.phase.Preparing? ==> cp.status == Queued
    ensures s.phase.Judging? || s.phase.Steering? ==> cp.status == s.status
    ensures OnEvent(c, OnSave(c, s, cp).value, RunCancelled).Some? ==> cp.status == Cancelled
    ensures s.phase.Failing? ==> cp.status == Failed
    ensures OnEvent(c, OnSave(c, s, cp).value, RunFailed).Some? ==> s.phase.Failing? || s.phase.Preparing? || s.phase.Steering?
  {
    hide Trim, Permitted, CallIdFor;
  }

  /** And its status: the first one is queued, one saved after an answer or a steering says whether an answer has asked
      for a review, and an ended life's says how it ended. */
  lemma SavedStatusIsCurrent(c: Config, j: Journal, k: nat)
    requires Legal(c, j) && k < |j| && j[k].Save?
    ensures Legal(c, j[..k])
    ensures var status, answered := j[k].checkpoint.status, k > 0 && j[k - 1].Gateway? && j[k - 1].reply.Answer?;
            && (!SavedAnything(j[..k]) ==> status == Queued)
            && (answered || (k > 0 && j[k - 1].Emit? && j[k - 1].event.RunSteered?) ==>
                  status == if ReviewAccepted(c, j[..k]) then WaitingReview else Running)
            && (k + 1 < |j| && j[k + 1] == Emit(RunCancelled) ==> status == Cancelled)
            && (k + 1 < |j| && j[k + 1] == Emit(RunFailed) && k > 0 && j[k - 1].Emit? && j[k - 1].event.ToolCompleted? ==> status == Failed)
  {
    SavedWhen(c, j, k);
    PhaseByLastEntry(c, j[..k]);
    StatusHolds(c, j[..k]);
    InstalledHolds(c, j[..k]);
    ReviewComesFromOwnAnswers(c, j[..k]);
    StatusOnSave(c, Replay(c, j[..k]).value, j[k].checkpoint);
    assert k > 0 ==> j[..k][k - 1] == j[k - 1];
    CrashesAreLegal(c, j, k + 1);
    assert j[..k + 1] == j[..k] + [j[k]];
    ReplayMore(c, j[..k], j[k]);
    if k + 1 < |j| {
      CrashesAreLegal(c, j, k + 2);
      assert j[..k + 2] == j[..k + 1] + [j[k + 1]];
      ReplayMore(c, j[..k + 1], j[k + 1]);
    }
    hide Replay, ReviewAccepted, OnEvent, OnSave, SavedAnything;
  }

  function SampleConfig(resumed: Option<Checkpoint>): Config {
    Config("r", "s", "v", 12, 1, map["t" := Descriptor("t", "1", Read)], resumed)
  }

  const SAMPLE_CALL := Call("c", "r", "s", "v", "t", "1", "{}", "")

  // A plan with one entry; the crash comes just after its answer was saved.
  function CrashedAfter(r: ToolResult): Journal {
    var c := SampleConfig(None);
    [Emit(RunStarted),
     Save(Snapshot(c, [SAMPLE_CALL], 0, [], Queued), true),
     Emit(ToolStarted("c")),
     Gateway(0, SAMPLE_CALL, Answer(r)),
     Save(Snapshot(c, [SAMPLE_CALL], 1, [r], Running), true)]
  }

  // The resumed life has nothing left to do.
  function ResumedToNothing(r: ToolResult): Journal {
    var c := SampleConfig(None);
    [Emit(RunStarted), Emit(RunResumed(1)),
     Save(Snapshot(c, [SAMPLE_CALL], 1, [r], Queued), true),
     Emit(RunFinished(Completed)),
     Save(Snapshot(c, [SAMPLE_CALL], 1, [r], Completed), true)]
  }

  lemma Reached(c: Config, j: Journal, k: nat, s: State, s': State)
    requires k < |j| && Replay(c, j[..k]) == Some(s) && Apply(c, s, j[k]) == Some(s')
    ensures Replay(c, j[..k + 1]) == Some(s')
  {
    hide Replay, Apply;
    assert j[..k + 1] == j[..k] + [j[k]];
    ReplayMore(c, j[..k], j[k]);
  }

  lemma CrashedAfterIsLegal(r: ToolResult)
    ensures Legal(SampleConfig(None), CrashedAfter(r))
  {
    var c, j := SampleConfig(None), CrashedAfter(r);
    var s1 := INITIAL.(phase := Preparing);
    var s2 := s1.(phase := Head, plan := [SAMPLE_CALL], status := Running, installed := true);
    var s3 := s2.(phase := Calling(1, "c"), calls := 1);
    Reached(c, j, 0, INITIAL, s1);
    Reached(c, j, 1, s1, s2);
    SampleCallIsPermitted(c);
    Reached(c, j, 2, s2, s3);
    AnsweredAndSaved(c, j, s3, r);
    assert j[..5] == j;
  }

  lemma AnsweredAndSaved(c: Config, j: Journal, s3: State, r: ToolResult)
    requires c == SampleConfig(None) && j == CrashedAfter(r) && Replay(c, j[..3]) == Some(s3)
    requires s3 == State(Calling(1, "c"), [SAMPLE_CALL], 0, [], Running, 1, 0, 0, [], [], true)
    ensures Legal(c, j[..5])
  {
    SampleCallIsPermitted(c);
    var s4 := s3.(phase := Judging(1, "c", r), attempted := [0], completed := [0]);
    var s5 := s4.(phase := Recorded(1, "c", r), results := [r]);
    assert s3.attempted + [0] == s4.attempted && s3.completed + [0] == s4.completed;
    Reached(c, j, 3, s3, s4);
    assert s4.results + [r] == s5.results;
    Reached(c, j, 4, s4, s5);
  }

  lemma CrashedAfterSaved(r: ToolResult)
    ensures LastSaved(CrashedAfter(r)) == Some(Snapshot(SampleConfig(None), [SAMPLE_CALL], 1, [r], Running))
  {
  }

  lemma SampleCallIsPermitted(c: Config)
    requires c == SampleConfig(None)
    ensures Permitted(c, SAMPLE_CALL) && Prepared(c, SAMPLE_CALL, "c") == SAMPLE_CALL && CallIdFor(SAMPLE_CALL, "c")
  {
    assert Trim("1") == "1";
  }

  lemma ResumedIsLegal(r: ToolResult, stored: Checkpoint)
    requires stored == Snapshot(SampleConfig(None), [SAMPLE_CALL], 1, [r], Running)
    ensures Replay(SampleConfig(Some(stored)), ResumedToNothing(r))
         == Some(INITIAL.(phase := Over, plan := [SAMPLE_CALL], index := 1, results := [r], start := 1, status := Completed))
  {
    hide Trim, Permitted, CallIdFor, Prepared;
    var c, j := SampleConfig(Some(stored)), ResumedToNothing(r);
    var s1 := INITIAL.(phase := Preparing);
    var s2 := s1.(plan := [SAMPLE_CALL], index := 1, results := [r]);
    var s3 := s2.(phase := Head, status := Running, start := 1);
    var s4 := s3.(phase := Finishing, status := Completed);
    var s5 := s4.(phase := Over);
    Reached(c, j, 0, INITIAL, s1);
    Reached(c, j, 1, s1, s2);
    Reached(c, j, 2, s2, s3);
    Reached(c, j, 3, s3, s4);
    Reached(c, j, 4, s4, s5);
    assert j[..5] == j;
  }

  /** Whatever the gateway answered last - rejected, failed, to be retried, to be reviewed - a crash right
      after that answer was saved makes the resumed run report "completed" without another call. */
  lemma ResumeForgetsLastAnswer(r: ToolResult)
    ensures Legal(SampleConfig(None), CrashedAfter(r))
    ensures var c, j := SampleConfig(LastSaved(CrashedAfter(r))), ResumedToNothing(r);
            && Legal(c, j) && GatewayCalls(j) == 0
            && Replay(c, j).value.phase.Over? && Replay(c, j).value.status == Completed
  {
    CrashedAfterIsLegal(r);
    CrashedAfterSaved(r);
    ResumedIsLegal(r, LastSaved(CrashedAfter(r)).value);
    NoCalls(ResumedToNothing(r));
    hide Replay, Apply, LastSaved, GatewayCalls;
  }

  lemma {:induction false} NoCalls(j: Journal)
    requires forall e :: e in j ==> !e.Gateway?
    ensures GatewayCalls(j) == 0
  {
    if j != [] {
      NoCalls(j[..|j| - 1]);
    }
  }
}
