/** The runner: it executes a plan through the gateway, retries, replans on instructions, honours
    cancellation and the call budget, and saves a checkpoint after every step. */
module Runner {
  import opened Text
  import opened Wrappers
  import opened RunJournal
  import Inbox
  import RC = RemoteControl

  datatype Error = RunIdRequired | AlreadyActive | GatewayFailure | CapabilityIssue | PlanFailed
                 | PlanNotAllowed | BudgetExceeded | ControlFailure | ContextCancelled

  datatype Limits = Limits(maxToolCalls: int, maxRetries: int, maxResultBytes: int, maxModelTokens: int)

  datatype Request = Request(runId: string, skillId: string, skillVersion: string, limits: Limits, resume: bool)

  datatype PlanAnswer = NoPlan | Plan(calls: seq<Call>, tokens: Option<int>)

  datatype GatewayAnswer = Refused | Replied(result: ToolResult, size: nat)

  // Everything the run cannot know: the n-th answer of each collaborator, the run's event log and how
  // much of it the n-th read is served, and the instructions that arrive before the n-th look at the inbox.
  datatype World = World(
    descriptors: Option<seq<Descriptor>>,
    capability: bool,
    subscription: bool,
    plans: nat -> PlanAnswer,
    answers: nat -> GatewayAnswer,
    cancelled: nat -> bool,
    log: seq<RC.RunEvent>,
    served: nat -> nat,
    readFails: nat -> bool,
    arriving: nat -> seq<string>,
    uuids: nat -> string)

  datatype Result = Result(status: RunStatus, results: seq<ToolResult>, callCount: nat, retryCount: nat, modelTokens: int)

  function Allowed(descriptors: seq<Descriptor>): map<string, Descriptor> {
    if descriptors == [] then map[]
    else
      var last := descriptors[|descriptors| - 1];
      Allowed(descriptors[..|descriptors| - 1])[last.name := last]
  }

  // The checkpoint a run resumes from, if it asks for one and the stored one is for the same skill.
  function Resumable(request: Request, stored: map<string, Checkpoint>): Option<Checkpoint> {
    var runId := Trim(request.runId);
    if request.resume && runId in stored && stored[runId].skillId == request.skillId && stored[runId].skillVersion == request.skillVersion
    then Some(stored[runId]) else None
  }

  // The limits after their defaults.
  function ConfigOf(request: Request, w: World, stored: map<string, Checkpoint>): Config {
    Config(Trim(request.runId), request.skillId, request.skillVersion,
           if request.limits.maxToolCalls <= 0 then 12 else request.limits.maxToolCalls,
           if request.limits.maxRetries < 0 then 0 else request.limits.maxRetries,
           if w.descriptors.Some? then Allowed(w.descriptors.value) else map[],
           Resumable(request, stored))
  }

  function ResultLimit(request: Request): int {
    if request.limits.maxResultBytes <= 0 then 0x20_0000 else request.limits.maxResultBytes
  }

  // The stored checkpoints after a life with the given journal.
  function StoredWith(stored: map<string, Checkpoint>, runId: string, j: Journal): map<string, Checkpoint> {
    if LastSaved(j).Some? then stored[runId := LastSaved(j).value] else stored
  }

  // The journal has brought the protocol to this phase, with the run's own variables.
  ghost predicate At(c: Config, j: Journal, phase: Phase, plan: seq<Call>, index: nat, r: Result) {
    && Legal(c, j)
    && var s := Replay(c, j).value;
       && s.phase == phase && s.plan == plan && s.index == index
       && s.results == r.results && s.status == r.status && s.calls == r.callCount && s.retries == r.retryCount
  }

  // The run is over, and this is its result.
  ghost predicate Settled(c: Config, j: Journal, r: Result) {
    && Legal(c, j)
    && var s := Replay(c, j).value;
       s.phase == Over && s.status == r.status && s.results == r.results && s.calls == r.callCount && s.retries == r.retryCount
  }

  // What the caller gets beside the result.
  predicate Agrees(error: Option<Error>, status: RunStatus) {
    match error
    case None => status == Completed || status == WaitingReview || status == Failed
    case Some(ContextCancelled) => status == RunStatus.Cancelled
    case Some(_) => status == Failed
  }

  /** A finished run made the gateway calls it counts, within the bound, and its events begin with
      run_started and end with the only terminal one, which stands for the result's status. */
  lemma SettledRun(c: Config, j: Journal, r: Result)
    requires Settled(c, j, r)
    ensures GatewayCalls(j) == Announced(j) == r.callCount <= c.maxCalls + c.maxRetries + 1
    ensures r.callCount == EntriesStarted(c, j) + r.retryCount
    ensures var events := EventsOf(j);
            && events != [] && events[0] == RunStarted
            && Terminal(events[|events| - 1]) && StatusOf(events[|events| - 1]) == r.status
            && forall i :: 0 <= i < |events| - 1 ==> !Terminal(events[i])
  {
    hide Replay;
    BudgetHolds(c, j);
    CallsAreEntriesPlusRetries(c, j);
    EventsHold(c, j);
  }

  // What the n-th read of the run's control events says, for a cursor.
  function Seen(w: World, n: nat, cursor: int): Wrappers.Result<RC.Control, ()> {
    if w.readFails(n) then Err(())
    else
      var page := RC.Take(RC.After(w.log, cursor), w.served(n));
      Ok(RC.Control(RC.Instructions(page), RC.Cancels(page), RC.HighWater(page, cursor)))
  }

  // The instruction at hand, or else what the n-th read says.
  function Instruction(w: World, n: nat, local: string, cursor: int): string {
    if local != "" || Seen(w, n, cursor).Err? then local else Inbox.JoinLines(Seen(w, n, cursor).value.instructions)
  }

  // The inbox after a run was steered with each of the instructions.
  function Steered(b: Inbox.Box, runId: string, arriving: seq<string>): Inbox.Box {
    if arriving == [] then b
    else Inbox.Apply(Steered(b, runId, arriving[..|arriving| - 1]), Inbox.Steer(runId, arriving[|arriving| - 1]))
  }

  // What waits for the run when it looks at its inbox for the n-th time.
  function Said(w: World, n: nat, b: Inbox.Box, runId: string): string {
    Inbox.JoinLines(Inbox.Waiting(Steered(b, runId, w.arriving(n)), runId))
  }

  lemma NothingReplayed(c: Config)
    ensures Replay(c, []) == Some(INITIAL) && LastSaved([]) == None
  {
  }

  // The planner's tokens are within the limit, if there is one.
  predicate Within(r: Result, limit: int) {
    limit > 0 ==> r.modelTokens <= limit
  }

  // ----- how a life begins -----

  predicate Ready(w: World) {
    w.descriptors.Some? && w.descriptors.value != [] && w.capability && w.subscription
  }

  predicate Affordable(tokens: Option<int>, limit: int) {
    tokens.Some? ==> tokens.value >= 0 && (limit <= 0 || tokens.value <= limit)
  }

  // The plan a life executes, if it gets one: the checkpoint's, or else the planner's n-th answer.
  function FirstPlan(c: Config, w: World, n: nat, limit: int): Option<seq<Call>> {
    if !Ready(w) then None
    else if !Planless(c) then Some(PlanOf(c.resumed))
    else if w.plans(n).Plan? && Affordable(w.plans(n).tokens, limit) then Some(w.plans(n).calls)
    else None
  }

  // Why a life does not get as far as that.
  function Stops(c: Config, w: World, n: nat, limit: int): Option<Error> {
    if w.descriptors.None? || w.descriptors.value == [] then Some(GatewayFailure)
    else if !w.capability then Some(CapabilityIssue)
    else if Planless(c) && w.plans(n).NoPlan? then Some(PlanFailed)
    else if Planless(c) && !Affordable(w.plans(n).tokens, limit) then Some(BudgetExceeded)
    else if !w.subscription then Some(ControlFailure)
    else None
  }

  function Inherited(c: Config): seq<ToolResult> {
    if c.resumed.Some? then c.resumed.value.results else []
  }

  function FirstResult(c: Config, w: World, n: nat): Result {
    Result(Running, Inherited(c), 0, 0,
           if Planless(c) && w.plans(n).Plan? && w.plans(n).tokens.Some? then w.plans(n).tokens.value else 0)
  }

  predicate NothingSaved(j: Journal) {
    forall e | e in j :: !e.Save?
  }

  lemma {:induction false} UnsavedHasNoFirst(j: Journal)
    requires NothingSaved(j)
    ensures FirstSaved(j) == None
  {
    if j != [] {
      UnsavedHasNoFirst(j[..|j| - 1]);
    }
  }

  lemma SavesFirst(j: Journal, cp: Checkpoint, durable: bool)
    requires NothingSaved(j)
    ensures FirstSaved(j + [Save(cp, durable)]) == Some(cp)
  {
    UnsavedHasNoFirst(j);
    assert (j + [Save(cp, durable)])[..|j|] == j;
  }

  // A resumed life says so, as soon as it has tools and a capability; and the first thing it saves is the plan it found,
  // or else the planner's n-th answer, at the position it found.
  ghost predicate Opened(c: Config, w: World, n: nat, j: Journal) {
    && (c.resumed.Some? && w.descriptors.Some? && w.descriptors.value != [] && w.capability ==>
          RunJournal.Emit(RunResumed(c.resumed.value.nextIndex)) in j)
    && (FirstSaved(j).Some? ==>
          && FirstSaved(j).value.nextIndex == Position(c.resumed)
          && if PlanOf(c.resumed) != [] then FirstSaved(j).value.plan == PlanOf(c.resumed)
             else w.plans(n).Plan? && FirstSaved(j).value.plan == w.plans(n).calls)
  }

  lemma OpensUnsaved(c: Config, w: World, n: nat, j: Journal)
    requires NothingSaved(j)
    requires c.resumed.Some? && w.descriptors.Some? && w.descriptors.value != [] && w.capability ==>
               RunJournal.Emit(RunResumed(c.resumed.value.nextIndex)) in j
    ensures Opened(c, w, n, j)
  {
    UnsavedHasNoFirst(j);
  }

  lemma OpensWith(c: Config, w: World, n: nat, j: Journal, cp: Checkpoint, durable: bool)
    requires NothingSaved(j) && cp.nextIndex == Position(c.resumed)
    requires if Planless(c) then w.plans(n).Plan? && cp.plan == w.plans(n).calls else cp.plan == PlanOf(c.resumed)
    requires c.resumed.Some? ==> RunJournal.Emit(RunResumed(c.resumed.value.nextIndex)) in j
    ensures Opened(c, w, n, j + [Save(cp, durable)]) && FirstSaved(j + [Save(cp, durable)]).Some?
  {
    SavesFirst(j, cp, durable);
  }

  lemma StaysOpened(c: Config, w: World, n: nat, j: Journal, longer: Journal)
    requires Opened(c, w, n, j) && j <= longer && FirstSaved(j).Some?
    ensures Opened(c, w, n, longer)
  {
    FirstSavedStays(j, longer);
    hide FirstSaved;
  }

  // ----- how one entry is executed -----

  // The answer to the k-th attempt leads to another one: a transport error while no more than maxRetries + 1
  // attempts were made, a retryable answer while no more than maxRetries were.
  predicate GoesBack(c: Config, a: GatewayAnswer, maxBytes: int, k: nat) {
    match a
    case Refused => k <= c.maxRetries + 1
    case Replied(r, size) => size <= maxBytes && Retryable(r) && k <= c.maxRetries
  }

  // The answer to the k-th attempt, when the first attempt is given the answer numbered from.
  function AnswerTo(w: World, from: nat, k: nat): GatewayAnswer
    requires k > 0
  {
    w.answers(from + k - 1)
  }

  // From the given answer on, n attempts are made at an entry; a cancellation may cut them short after a transport error.
  ghost predicate MadeAttempts(c: Config, w: World, maxBytes: int, from: nat, n: nat, cancelled: bool) {
    && n > 0
    && (forall k :: 1 <= k < n ==> GoesBack(c, AnswerTo(w, from, k), maxBytes, k))
    && (GoesBack(c, AnswerTo(w, from, n), maxBytes, n) ==> AnswerTo(w, from, n).Refused? && cancelled)
  }

  /** A gateway that cannot be reached is tried maxRetries + 2 times, a retryable answer is asked for
      maxRetries + 1 times: with maxRetries 0 a transport error is still retried once. */
  lemma TransportErrorsGetOneMoreRetry(c: Config, w: World, maxBytes: int, from: nat, n: nat)
    requires MadeAttempts(c, w, maxBytes, from, n, false)
    ensures n <= c.maxRetries + 2
    ensures (forall k :: from <= k < from + c.maxRetries + 2 ==> w.answers(k).Refused?) ==> n == c.maxRetries + 2
    ensures (forall k :: from <= k < from + c.maxRetries + 2 ==>
               && w.answers(k).Replied? && w.answers(k).size <= maxBytes
               && w.answers(k).result.error.Some? && w.answers(k).result.error.value.retryable) ==> n == c.maxRetries + 1
  {
    var last, next := AnswerTo(w, from, c.maxRetries + 1), AnswerTo(w, from, c.maxRetries + 2);
    assert last == w.answers(from + c.maxRetries) && next == w.answers(from + c.maxRetries + 1);
  }

  /** Every attempt but the last is one that cannot reach the gateway, the first maxRetries + 1 times, or is answered by a
      retryable error of an allowed size, the first maxRetries times. The last is none of these, unless the run is
      cancelled after a transport error. */
  lemma AttemptsWhileAskedAgain(c: Config, w: World, maxBytes: int, from: nat, n: nat, cancelled: bool)
    requires MadeAttempts(c, w, maxBytes, from, n, cancelled)
    ensures n > 0
    ensures forall i :: from <= i < from + n - 1 ==>
              if w.answers(i).Refused? then i - from <= c.maxRetries
              else
                && w.answers(i).size <= maxBytes && i - from < c.maxRetries
                && w.answers(i).result.error.Some? && w.answers(i).result.error.value.retryable
    ensures var last := w.answers(from + n - 1);
            if last.Refused? then n > c.maxRetries + 1 || cancelled
            else last.size > maxBytes || n > c.maxRetries || last.result.error.None? || !last.result.error.value.retryable
  {
    forall i | from <= i < from + n - 1 ensures GoesBack(c, w.answers(i), maxBytes, i - from + 1) {
      assert w.answers(i) == AnswerTo(w, from, i - from + 1);
    }
    assert w.answers(from + n - 1) == AnswerTo(w, from, n);
  }

  // The answers that the run keeps, of n attempts.
  function Collected(w: World, maxBytes: int, from: nat, n: nat): seq<ToolResult> {
    if n == 0 then []
    else
      var a := w.answers(from + n - 1);
      Collected(w, maxBytes, from, n - 1) + if a.Replied? && a.size <= maxBytes then [a.result] else []
  }

  // How the last answer ends the attempts at an entry.
  function OutcomeOf(a: GatewayAnswer, maxBytes: int): Outcome {
    match a
    case Refused => Ended(Some(GatewayFailure))
    case Replied(r, size) =>
      if size > maxBytes then Ended(Some(BudgetExceeded))
      else if r.status == StatusFailed || r.status == StatusRejected then Ended(None)
      else Going
  }

  // The result after n attempts at an entry.
  function AfterAttempts(w: World, maxBytes: int, from: nat, n: nat, r: Result): Result
    requires n > 0
  {
    var a := w.answers(from + n - 1);
    Result(if OutcomeOf(a, maxBytes).Ended? then Failed
           else if a.Replied? && a.result.status == StatusNeedsReview then WaitingReview else r.status,
           r.results + Collected(w, maxBytes, from, n), r.callCount + n, r.retryCount + n - 1, r.modelTokens)
  }

  /** How the last answer ends the attempts at an entry, and what the result counts and keeps of them. */
  lemma AttemptsAreCounted(w: World, maxBytes: int, from: nat, n: nat, r: Result)
    requires n > 0
    ensures var last, outcome := w.answers(from + n - 1), OutcomeOf(w.answers(from + n - 1), maxBytes);
            var r' := AfterAttempts(w, maxBytes, from, n, r);
            && (outcome == Ended(Some(GatewayFailure)) <==> last.Refused?)
            && (outcome == Ended(Some(BudgetExceeded)) <==> last.Replied? && last.size > maxBytes)
            && (outcome == Ended(None) <==>
                  last.Replied? && last.size <= maxBytes && last.result.status in {StatusFailed, StatusRejected})
            && (outcome.Ended? ==> r'.status == Failed)
            && (outcome.Going? && last.result.status == StatusNeedsReview ==> r'.status == WaitingReview)
            && (outcome.Going? && last.result.status != StatusNeedsReview ==> r'.status == r.status)
            && r'.callCount == r.callCount + n && r'.retryCount == r.retryCount + n - 1 && r'.modelTokens == r.modelTokens
            && r'.results == (if n == 1 then r.results else AfterAttempts(w, maxBytes, from, n - 1, r).results)
                             + if last.Replied? && last.size <= maxBytes then [last.result] else []
  {
    if n == 1 {
      assert r.results + Collected(w, maxBytes, from, 0) == r.results;
    }
  }

  // ----- a life that nothing disturbs -----

  // No control event and no cancellation says anything, and every answer is kept and leads to the next entry.
  ghost predicate Smooth(w: World, maxBytes: int) {
    && (forall e :: e in w.log ==> RC.Instruction(e) == [] && e.eventType != "run_cancelled")
    && (forall n: nat :: !w.readFails(n)) && (forall n: nat :: !w.cancelled(n)) && (forall n: nat :: w.arriving(n) == [])
    && (forall n: nat :: SmoothAnswer(w.answers(n), maxBytes))
  }

  predicate SmoothAnswer(a: GatewayAnswer, maxBytes: int) {
    && a.Replied? && a.size <= maxBytes && !Retryable(a.result)
    && (a.result.status == StatusCompleted || a.result.status == StatusNeedsReview)
  }

  // The result after n entries with one answer each.
  function Played(w: World, maxBytes: int, from: nat, n: nat, r: Result): Result {
    if n == 0 then r else AfterAttempts(w, maxBytes, from + n - 1, 1, Played(w, maxBytes, from, n - 1, r))
  }

  function Closed(r: Result): Result {
    r.(status := if r.status == Running then Completed else r.status)
  }

  // Every remaining entry may be executed, within the budget.
  predicate Executable(c: Config, plan: seq<Call>, index: nat) {
    index <= |plan| && |plan| - index <= c.maxCalls && forall i | index <= i < |plan| :: Permitted(c, plan[i])
  }

  predicate AsksForReview(a: GatewayAnswer) {
    a.Replied? && a.result.status == StatusNeedsReview
  }

  // The results of n answers, in order.
  function Answers(w: World, from: nat, n: nat): (results: seq<ToolResult>)
    requires forall k :: 1 <= k <= n ==> AnswerTo(w, from, k).Replied?
    ensures |results| == n
    ensures forall k :: 1 <= k <= n ==> results[k - 1] == AnswerTo(w, from, k).result
  {
    seq(n, i requires 0 <= i < n => AnswerTo(w, from, i + 1).result)
  }

  lemma OneMoreAnswer(w: World, maxBytes: int, from: nat, n: nat, r: Result)
    requires n > 0 && SmoothAnswer(AnswerTo(w, from, n), maxBytes)
    ensures var p, a := Played(w, maxBytes, from, n - 1, r), AnswerTo(w, from, n).result;
            Played(w, maxBytes, from, n, r) ==
              p.(status := if a.status == StatusNeedsReview then WaitingReview else p.status,
                 results := p.results + [a], callCount := p.callCount + 1)
  {
    assert Collected(w, maxBytes, from + n - 1, 0) == [];
    assert Collected(w, maxBytes, from + n - 1, 1) == [AnswerTo(w, from, n).result];
  }

  // Some of the n answers asks for a review.
  ghost predicate AnyReview(w: World, from: nat, n: nat) {
    exists k :: 1 <= k <= n && AsksForReview(AnswerTo(w, from, k))
  }

  lemma AnyReviewMore(w: World, from: nat, n: nat)
    requires n > 0
    ensures AnyReview(w, from, n) <==> AnyReview(w, from, n - 1) || AsksForReview(AnswerTo(w, from, n))
  {
    hide AnswerTo, AsksForReview;
  }

  lemma SmoothAnswers(w: World, maxBytes: int, from: nat, n: nat)
    requires Smooth(w, maxBytes)
    ensures forall k :: 1 <= k <= n ==> SmoothAnswer(AnswerTo(w, from, k), maxBytes)
  {
  }

  lemma OneMoreResult(w: World, from: nat, n: nat, results: seq<ToolResult>)
    requires n > 0 && forall k :: 1 <= k <= n ==> AnswerTo(w, from, k).Replied?
    ensures results + Answers(w, from, n) == results + Answers(w, from, n - 1) + [AnswerTo(w, from, n).result]
  {
    hide AnswerTo;
  }

  /** Played is one call per entry: the answers are added in order, and the run waits for review exactly when one
      of them asks for it. */
  lemma {:induction false} PlayedMeaning(w: World, maxBytes: int, from: nat, n: nat, r: Result)
    requires Smooth(w, maxBytes)
    ensures forall k :: 1 <= k <= n ==> AnswerTo(w, from, k).Replied?
    ensures Played(w, maxBytes, from, n, r) ==
            Result(if AnyReview(w, from, n) then WaitingReview else r.status,
                   r.results + Answers(w, from, n), r.callCount + n, r.retryCount, r.modelTokens)
  {
    SmoothAnswers(w, maxBytes, from, n);
    if n > 0 {
      OneMoreAnswer(w, maxBytes, from, n, r);
      AnyReviewMore(w, from, n);
      OneMoreResult(w, from, n, r.results);
      hide *;
      PlayedMeaning(w, maxBytes, from, n - 1, r);
    } else {
      hide Smooth, SmoothAnswer, AnswerTo, AsksForReview;
      assert r.results + Answers(w, from, 0) == r.results;
    }
  }

  lemma {:induction false} SilentInstructions(events: seq<RC.RunEvent>)
    requires forall e :: e in events ==> RC.Instruction(e) == [] && e.eventType != "run_cancelled"
    ensures RC.Instructions(events) == [] && !RC.Cancels(events)
  {
    if events != [] {
      SilentInstructions(events[..|events| - 1]);
    }
  }

  lemma SmoothReads(w: World, maxBytes: int, n: nat, cursor: int)
    requires Smooth(w, maxBytes)
    ensures Seen(w, n, cursor).Ok? && !Seen(w, n, cursor).value.cancelled
    ensures Inbox.JoinLines(Seen(w, n, cursor).value.instructions) == ""
  {
    var page := RC.Take(RC.After(w.log, cursor), w.served(n));
    forall e | e in page ensures e in w.log {
      assert e in RC.After(w.log, cursor);
    }
    SilentInstructions(page);
  }

  lemma SmoothInbox(w: World, maxBytes: int, n: nat, b: Inbox.Box, runId: string)
    requires Smooth(w, maxBytes) && runId !in b.steers
    ensures Said(w, n, b, runId) == ""
  {
    assert w.arriving(n) == [];
  }

  // ----- what is heard -----

  lemma {:induction false} InstructionsAreNotBlank(events: seq<RC.RunEvent>)
    ensures forall i :: i in RC.Instructions(events) ==> i != ""
  {
    if events != [] {
      InstructionsAreNotBlank(events[..|events| - 1]);
    }
  }

  /** A read that delivers any instruction replans the run: the joined instructions are blank only when there are none. */
  lemma AnyInstructionSpeaks(w: World, n: nat, cursor: int)
    requires Seen(w, n, cursor).Ok?
    ensures Inbox.JoinLines(Seen(w, n, cursor).value.instructions) == "" <==> Seen(w, n, cursor).value.instructions == []
  {
    InstructionsAreNotBlank(RC.Take(RC.After(w.log, cursor), w.served(n)));
    Inbox.JoinLinesBlank(Seen(w, n, cursor).value.instructions);
  }

  // The log of a run: numbered upwards, from one.
  predicate Ordered(log: seq<RC.RunEvent>) {
    RC.Increasing(log) && (log != [] ==> 0 < log[0].sequenceNo)
  }

  // The instructions of the first m events of the log, in order.
  ghost predicate HeardFromStart(log: seq<RC.RunEvent>, m: nat, heard: seq<string>) {
    Ordered(log) ==> m <= |log| && heard == RC.Instructions(log[..m])
  }

  // And the cursor behind them.
  ghost predicate HeardUpTo(log: seq<RC.RunEvent>, m: nat, heard: seq<string>, cursor: int) {
    HeardFromStart(log, m, heard) && (Ordered(log) ==> cursor == RC.CursorAt(log, m, 0))
  }

  lemma OneMoreRead(log: seq<RC.RunEvent>, m: nat, heard: seq<string>, cursor: int, n: nat) returns (m': nat)
    requires HeardUpTo(log, m, heard, cursor)
    ensures var page := RC.Take(RC.After(log, cursor), n);
            HeardUpTo(log, m', heard + RC.Instructions(page), RC.HighWater(page, cursor))
  {
    m' := m;
    if Ordered(log) {
      RC.CursorSeparates(log, m, 0);
      RC.AfterIsSuffix(log, m, cursor);
      m' := RC.TakeSlice(log, m, n);
      RC.PageCursor(log, m, m', 0);
      RC.SplitInstructions(log, 0, m, m');
      assert log[0..m'] == log[..m'] && log[0..m] == log[..m];
    }
  }

  /** Every life reads the control events from the beginning, so a resumed life is given again, in order, every
      instruction that an earlier life was given, as far as it reads. */
  lemma ResumedLifeHearsAgain(log: seq<RC.RunEvent>, m: nat, heard: seq<string>, later: seq<RC.RunEvent>, m': nat, heard': seq<string>)
    requires Ordered(log) && Ordered(later) && log <= later
    requires HeardFromStart(log, m, heard) && HeardFromStart(later, m', heard')
    ensures m <= m' ==> heard <= heard'
    ensures m' <= m ==> heard' <= heard
  {
    if m <= m' {
      RC.SplitInstructions(later, 0, m, m');
    } else {
      RC.SplitInstructions(later, 0, m', m);
    }
    assert later[..m] == log[..m] && later[0..m] == later[..m] && later[0..m'] == later[..m'];
    hide RC.Instructions, Ordered;
  }

  datatype Outcome = Going | Ended(error: Option<Error>)

  // The journal has grown, and the run was steered with what was said.
  predicate SteeredWith(before: Journal, after: Journal, said: string) {
    before <= after && RunJournal.Emit(RunSteered(said)) in after[|before|..]
  }

  lemma SteeredLater(a: Journal, b: Journal, c: Journal, said: string)
    requires a <= b <= c && (SteeredWith(a, b, said) || SteeredWith(b, c, said))
    ensures SteeredWith(a, c, said)
  {
    var e := RunJournal.Emit(RunSteered(said));
    if SteeredWith(a, b, said) {
      var i :| |a| <= i < |b| && b[i] == e;
      assert c[i] == e && c[|a|..][i - |a|] == e;
    } else {
      var i :| |b| <= i < |c| && c[i] == e;
      assert c[|a|..][i - |a|] == e;
    }
  }

  // A step of the loop consumes control events or makes calls.
  predicate Progresses(c: Config, w: World, cursor: int, r: Result, cursor': int, r': Result, outcome: Outcome) {
    && |RC.After(w.log, cursor')| <= |RC.After(w.log, cursor)|
    && (outcome.Going? ==> |RC.After(w.log, cursor')| < |RC.After(w.log, cursor)| || (r.callCount < r'.callCount && r.callCount < c.maxCalls))
  }

  // What a control read does before anything else: a failed read or a cancellation ends the run, an instruction makes
  // a new plan, or ends the run when there is none. Nothing is executed then.
  predicate ObeyedFirst(seen: Wrappers.Result<RC.Control, ()>, before: Journal, after: Journal, calls: nat, calls': nat,
                        error: Option<Error>) {
    if seen.Err? then error == Some(ControlFailure) && calls' == calls
    else if seen.value.cancelled then error == Some(ContextCancelled) && calls' == calls
    else var said := Inbox.JoinLines(seen.value.instructions);
         said != "" ==>
           || SteeredWith(before, after, said)
           || ((error == Some(PlanFailed) || error == Some(BudgetExceeded)) && calls' == calls)
  }

  // The control read let the run go on, and what it said was obeyed.
  predicate StillObeyed(seen: Wrappers.Result<RC.Control, ()>, before: Journal, after: Journal) {
    && seen.Ok? && !seen.value.cancelled
    && var said := Inbox.JoinLines(seen.value.instructions);
       said != "" ==> SteeredWith(before, after, said)
  }

  lemma StillObeyedLater(seen: Wrappers.Result<RC.Control, ()>, a: Journal, b: Journal, c: Journal)
    requires StillObeyed(seen, a, b) && a <= b <= c
    ensures StillObeyed(seen, a, c)
    ensures forall calls, calls', error :: ObeyedFirst(seen, a, c, calls, calls', error)
  {
    var said := Inbox.JoinLines(seen.value.instructions);
    hide Inbox.JoinLines, SteeredWith;
    if said != "" {
      SteeredLater(a, b, c, said);
    }
  }

  lemma ObeyedAndGoing(seen: Wrappers.Result<RC.Control, ()>, a: Journal, b: Journal, calls: nat, calls': nat)
    requires ObeyedFirst(seen, a, b, calls, calls', None)
    ensures StillObeyed(seen, a, b)
  {
    hide Inbox.JoinLines, SteeredWith;
  }

  // An undisturbed life after n entries, when the next answer is the one numbered next.
  ghost predicate OnTrack(c: Config, w: World, maxBytes: int, firstPlan: seq<Call>, firstIndex: nat, first: Result, start: nat,
                          n: nat, plan: seq<Call>, index: nat, next: nat, r: Result) {
    && Smooth(w, maxBytes) && Executable(c, firstPlan, firstIndex) && first.callCount == 0
    && plan == firstPlan && index == firstIndex + n <= |plan| && next == start + n
    && r == Played(w, maxBytes, start, n, first) && r.callCount == n
  }

  lemma OnTrackGoesOn(c: Config, w: World, maxBytes: int, firstPlan: seq<Call>, firstIndex: nat, first: Result, start: nat,
                      n: nat, plan: seq<Call>, index: nat, next: nat, r: Result)
    requires OnTrack(c, w, maxBytes, firstPlan, firstIndex, first, start, n, plan, index, next, r) && index < |plan|
    ensures Smooth(w, maxBytes) && Permitted(c, plan[index]) && r.callCount < c.maxCalls
    ensures OnTrack(c, w, maxBytes, firstPlan, firstIndex, first, start, n + 1, plan, index + 1, next + 1,
                    AfterAttempts(w, maxBytes, next, 1, r))
  {
    AttemptsCount(w, maxBytes, next, 1, r);
    hide Smooth, AfterAttempts, Permitted;
  }

  lemma OnTrackAtEnd(c: Config, w: World, maxBytes: int, firstPlan: seq<Call>, firstIndex: nat, first: Result, start: nat,
                     n: nat, plan: seq<Call>, index: nat, next: nat, r: Result)
    requires OnTrack(c, w, maxBytes, firstPlan, firstIndex, first, start, n, plan, index, next, r) && |plan| <= index
    ensures firstIndex <= |firstPlan| && r == Played(w, maxBytes, start, |firstPlan| - firstIndex, first)
  {
    hide Smooth, Played;
  }

  lemma OnTrackAtStart(c: Config, w: World, maxBytes: int, firstPlan: seq<Call>, firstIndex: nat, first: Result, start: nat)
    requires Smooth(w, maxBytes) && Executable(c, firstPlan, firstIndex) && first.callCount == 0
    ensures OnTrack(c, w, maxBytes, firstPlan, firstIndex, first, start, 0, firstPlan, firstIndex, start, first)
  {
    hide Smooth;
  }

  function ErrorOf(outcome: Outcome): Option<Error> {
    if outcome.Ended? then outcome.error else None
  }

  class Runner {
    var active: set<string>
    var steers: map<string, seq<string>>
    var stored: map<string, Checkpoint>  // the checkpoint store
    var journal: Journal                 // of the latest life
    ghost var base: map<string, Checkpoint>  // the store when that life began
    const saves: nat -> bool                 // whether the n-th save reaches the store
    // The instructions that the life's reads of the event log gave it, and how far they got.
    ghost var heard: seq<string>
    ghost var position: nat
    // How many answers of each kind have been used.
    var planned: nat
    var answered: nat
    var checked: nat
    var read: nat
    var looked: nat
    var generated: nat
    var saved: nat

    constructor (saves: nat -> bool)
      ensures this.saves == saves
      ensures active == {} && steers == map[] && stored == map[] && journal == []
    {
      this.saves := saves;
      active, steers, stored, journal, base, heard, position := {}, map[], map[], [], map[], [], 0;
      planned, answered, checked, read, looked, generated, saved := 0, 0, 0, 0, 0, 0, 0;
    }

    function Box(): Inbox.Box
      reads this
    {
      Inbox.Box(active, steers)
    }

    // The store is as the life's saves have made it.
    ghost predicate Kept(c: Config)
      reads this`journal, this`stored, this`base
    {
      stored == StoredWith(base, c.runId, journal) && ((forall n: nat :: saves(n)) ==> AllDurable(journal))
    }

    // In a life, at the given phase.
    ghost predicate Now(c: Config, phase: Phase, plan: seq<Call>, index: nat, r: Result)
      reads this`journal, this`stored, this`base
    {
      At(c, journal, phase, plan, index, r) && Kept(c)
    }

    ghost predicate Finished(c: Config, r: Result)
      reads this`journal, this`stored, this`base
    {
      Settled(c, journal, r) && Kept(c)
    }

    // What the reads so far have said.
    ghost predicate Heard(w: World, cursor: int)
      reads this`heard, this`position
    {
      HeardUpTo(w.log, position, heard, cursor)
    }

    // ----- steering -----

    method Steer(runId: string, instruction: string) returns (ok: bool)
      modifies this`steers
      ensures ok == Inbox.Accepts(old(Box()), runId, instruction)
      ensures Box() == Inbox.Apply(old(Box()), Inbox.Steer(runId, instruction))
      ensures ok <==> Trim(runId) != "" && Trim(instruction) != "" && Trim(runId) in active
      ensures var id := Trim(runId);
              steers == if ok then old(steers)[id := (if id in old(steers) then old(steers)[id] else []) + [Trim(instruction)]]
                        else old(steers)
    {
      var id, text := Trim(runId), Trim(instruction);
      if id == "" || text == "" || id !in active {
        return false;
      }
      steers := steers[id := (if id in steers then steers[id] else []) + [text]];
      ok := true;
    }

    method BeginRun(runId: string) returns (ok: bool)
      modifies this`active
      ensures ok <==> runId !in old(active)
      ensures active == old(active) + {runId}
      ensures Box() == if ok then Inbox.Apply(old(Box()), Inbox.Begin(runId)) else old(Box())
    {
      if runId in active {
        return false;
      }
      active := active + {runId};
      ok := true;
    }

    method EndRun(runId: string)
      modifies this`active, this`steers
      ensures Box() == Inbox.Apply(old(Box()), Inbox.End(runId))
      ensures active == old(active) - {runId} && steers == old(steers) - {runId}
    {
      active := active - {runId};
      steers := steers - {runId};
    }

    method TakeSteer(runId: string) returns (instruction: string)
      modifies this`steers
      ensures instruction == Inbox.JoinLines(Inbox.Waiting(old(Box()), runId))
      ensures Box() == Inbox.Apply(old(Box()), Inbox.Take(runId))
      ensures instruction == Inbox.JoinLines(if runId in old(steers) then old(steers)[runId] else [])
      ensures steers == old(steers) - {runId}
    {
      if runId !in steers {
        instruction := "";
      } else {
        instruction := Inbox.JoinLines(steers[runId]);
        steers := steers - {runId};
      }
      assert steers == old(steers) - {runId};
    }

    /** Other goroutines steer the run before it looks at its inbox. */
    method LookAtInbox(runId: string, w: World) returns (instruction: string)
      requires Trim(runId) == runId
      modifies this`steers, this`looked
      ensures instruction == Said(w, old(looked), old(Box()), runId)
      ensures steers == old(steers) - {runId}
    {
      var arriving := w.arriving(looked);
      looked := looked + 1;
      for i := 0 to |arriving|
        invariant Box() == Steered(old(Box()), runId, arriving[..i])
        invariant steers - {runId} == old(steers) - {runId}
      {
        assert arriving[..i + 1][..i] == arriving[..i];
        ghost var before := steers;
        var _ := Steer(runId, arriving[i]);
        assert steers - {runId} == before - {runId};
      }
      assert arriving[..|arriving|] == arriving;
      instruction := TakeSteer(runId);
    }

    // ----- the journal -----

    method Emit(ghost c: Config, event: Event)
      requires Legal(c, journal) && Kept(c)
      modifies this`journal
      ensures journal == old(journal) + [RunJournal.Emit(event)] && Kept(c)
      ensures Replay(c, journal) == OnEvent(c, Replay(c, old(journal)).value, event)
    {
      ReplayMore(c, journal, RunJournal.Emit(event));
      journal := journal + [RunJournal.Emit(event)];
      assert journal[..|journal| - 1] == old(journal);
    }

    method SaveCheckpoint(c: Config, plan: seq<Call>, nextIndex: nat, r: Result)
      requires Legal(c, journal) && Kept(c)
      modifies this`journal, this`stored, this`saved
      ensures Replay(c, journal) == OnSave(c, Replay(c, old(journal)).value, Snapshot(c, plan, nextIndex, r.results, r.status))
      ensures journal == old(journal) + [Save(Snapshot(c, plan, nextIndex, r.results, r.status), saves(old(saved)))] && Kept(c)
    {
      var cp := Snapshot(c, plan, nextIndex, r.results, r.status);
      var durable := saves(saved);
      saved := saved + 1;
      ReplayMore(c, journal, Save(cp, durable));
      journal := journal + [Save(cp, durable)];
      assert journal[..|journal| - 1] == old(journal);
      if durable {
        stored := stored[c.runId := cp];
      }
    }

    /** Ends the run with status failed. */
    method Fail(ghost c: Config, r: Result) returns (failed: Result)
      requires Legal(c, journal) && Kept(c)
      requires OnEvent(c, Replay(c, journal).value, RunFailed).Some?
      requires var s := Replay(c, journal).value; s.results == r.results && s.calls == r.callCount && s.retries == r.retryCount
      modifies this`journal
      ensures journal == old(journal) + [RunJournal.Emit(RunFailed)]
      ensures Finished(c, failed) && failed == r.(status := Failed)
    {
      failed := r.(status := Failed);
      Emit(c, RunFailed);
    }

    /** Ends the run with status cancelled. */
    method Cancel(c: Config, plan: seq<Call>, index: nat, r: Result) returns (r': Result)
      requires Now(c, Head, plan, index, r)
      modifies this`journal, this`stored, this`saved
      ensures old(journal) <= journal
      ensures Finished(c, r') && r' == r.(status := RunStatus.Cancelled)
    {
      hide Replay, Trim, Permitted, CallIdFor, LastSaved, StoredWith, AllDurable;
      r' := r.(status := RunStatus.Cancelled);
      SaveCheckpoint(c, plan, index, r');
      Emit(c, RunCancelled);
    }

    // ----- planning and controls -----

    method ReadControls(w: World, cursor: int) returns (r: Wrappers.Result<RC.Control, ()>)
      requires Heard(w, cursor)
      modifies this`read, this`heard, this`position
      ensures r == Seen(w, old(read), cursor) && read == old(read) + 1
      ensures Heard(w, if r.Ok? then r.value.next else cursor)
      ensures r.Ok? ==> cursor <= r.value.next
      ensures r.Ok? ==> |RC.After(w.log, r.value.next)| <= |RC.After(w.log, cursor)|
      ensures r.Ok? && Inbox.JoinLines(r.value.instructions) != "" ==> |RC.After(w.log, r.value.next)| < |RC.After(w.log, cursor)|
    {
      var n := w.served(read);
      var fails := w.readFails(read);
      read := read + 1;
      if fails {
        return Err(());
      }
      var page := RC.Take(RC.After(w.log, cursor), n);
      RC.ReadsMakeProgress(w.log, cursor, n);
      ghost var reached := OneMoreRead(w.log, position, heard, cursor, n);
      var control := RC.ReadPage(page, cursor);
      heard, position := heard + control.instructions, reached;
      r := Ok(control);
    }

    /** Adds the planner's reported tokens; a negative report or too large a sum ends the run. */
    method ApplyPlannerUsage(r: Result, tokens: Option<int>, limit: int) returns (sum: Result, ok: bool)
      ensures sum == r.(modelTokens := sum.modelTokens)
      ensures tokens.None? ==> ok && sum == r
      ensures tokens.Some? && tokens.value < 0 ==> !ok && sum == r
      ensures tokens.Some? && tokens.value >= 0 ==>
                sum.modelTokens == r.modelTokens + tokens.value && (ok <==> limit <= 0 || sum.modelTokens <= limit)
    {
      if tokens.None? {
        return r, true;
      }
      if tokens.value < 0 {
        return r, false;
      }
      sum := r.(modelTokens := r.modelTokens + tokens.value);
      ok := limit <= 0 || sum.modelTokens <= limit;
    }

    /** Asks for a new plan with the instruction; the run starts over at its first entry. */
    method Replan(c: Config, w: World, instruction: string, limit: int, plan: seq<Call>, index: nat, r: Result)
      returns (plan': seq<Call>, r': Result, error: Option<Error>)
      requires Now(c, Head, plan, index, r) && instruction != ""
      modifies this`journal, this`stored, this`saved, this`planned
      ensures error.None? ==> Now(c, Head, plan', 0, r')
      ensures error.None? && Within(r, limit) ==> Within(r', limit)
      ensures old(journal) <= journal
      ensures error.None? ==> SteeredWith(old(journal), journal, instruction)
      ensures error.Some? ==> (error == Some(PlanFailed) || error == Some(BudgetExceeded)) && Finished(c, r') && Agrees(error, r'.status)
      ensures r'.callCount == r.callCount
    {
      var answer := w.plans(planned);
      planned := planned + 1;
      if answer.NoPlan? {
        r' := Fail(c, r);
        return plan, r', Some(PlanFailed);
      }
      var ok;
      r', ok := ApplyPlannerUsage(r, answer.tokens, limit);
      if !ok {
        r' := Fail(c, r');
        return plan, r', Some(BudgetExceeded);
      }
      Emit(c, RunSteered(instruction));
      ghost var announced := journal;
      SaveCheckpoint(c, answer.calls, 0, r');
      assert journal[|old(journal)|] == announced[|old(journal)|] == journal[|old(journal)|..][0];
      return answer.calls, r', None;
    }

    // ----- execution -----

    /** Counts and announces the next attempt at the entry. */
    method Announce(ghost c: Config, ghost transport: bool, ghost before: Result, plan: seq<Call>, index: nat, attempts: nat,
                    callId: string, r: Result)
      returns (r': Result)
      requires index < |plan| && Permitted(c, plan[index]) && CallIdFor(plan[index], callId)
      requires attempts == 0 ==> Now(c, Head, plan, index, r) && r.callCount < c.maxCalls
      requires attempts > 0 ==> r == before.(retryCount := before.retryCount + 1) && attempts <= c.maxRetries + (if transport then 1 else 0)
      requires attempts > 0 ==> Now(c, Retrying(attempts, callId, transport), plan, index, before)
      modifies this`journal
      ensures r' == r.(callCount := r.callCount + 1) && old(journal) <= journal
      ensures Now(c, Calling(attempts + 1, callId), plan, index, r')
    {
      hide Replay, Trim, Permitted, CallIdFor, LastSaved, StoredWith;
      r' := r.(callCount := r.callCount + 1);
      Emit(c, ToolStarted(callId));
    }

    /** One gateway call for the entry at index. */
    method CallGateway(c: Config, w: World, plan: seq<Call>, index: nat, ghost attempts: nat, callId: string, ghost r: Result)
      returns (answer: GatewayAnswer)
      requires index < |plan| && Permitted(c, plan[index]) && Now(c, Calling(attempts, callId), plan, index, r)
      modifies this`journal, this`answered
      ensures old(journal) <= journal && answer == w.answers(old(answered)) && answered == old(answered) + 1
      ensures answer.Refused? ==> Now(c, Retrying(attempts, callId, true), plan, index, r)
      ensures answer.Replied? ==> Now(c, Judging(attempts, callId, answer.result), plan, index, r)
    {
      answer := w.answers(answered);
      answered := answered + 1;
      var reply := if answer.Refused? then GatewayError else Answer(answer.result);
      var entry := Gateway(index, Prepared(c, plan[index], callId), reply);
      ReplayMore(c, journal, entry);
      journal := journal + [entry];
      assert journal[..|journal| - 1] == old(journal);
    }

    /** The position moves past the entry as soon as its answer is saved. */
    method SaveAnswer(c: Config, plan: seq<Call>, index: nat, ghost attempts: nat, ghost callId: string, answer: ToolResult, r: Result)
      returns (r': Result)
      requires Now(c, Judging(attempts, callId, answer), plan, index, r)
      modifies this`journal, this`stored, this`saved
      ensures old(journal) <= journal
      ensures r' == r.(results := r.results + [answer]) && Now(c, Recorded(attempts, callId, answer), plan, index, r')
    {
      r' := r.(results := r.results + [answer]);
      SaveCheckpoint(c, plan, index + 1, r');
    }

    /** Announces the answer: a retryable one leads back to the gateway while retries are left, a failed or
        rejected one to the end of the run, any other one to the next entry. */
    method JudgeAnswer(ghost c: Config, maxRetries: nat, plan: seq<Call>, index: nat, attempts: nat, ghost callId: string,
                       answer: ToolResult, r: Result)
      returns (r': Result, again: bool, failed: bool)
      requires maxRetries == c.maxRetries && Now(c, Recorded(attempts, callId, answer), plan, index, r)
      modifies this`journal
      ensures again <==> answer.error.Some? && answer.error.value.retryable && attempts <= c.maxRetries
      ensures failed <==> !again && (answer.status == StatusFailed || answer.status == StatusRejected)
      ensures again ==> r' == r.(retryCount := r.retryCount + 1) && Now(c, Retrying(attempts, callId, false), plan, index, r)
      ensures failed ==> r' == r && Now(c, Failing, plan, index, r')
      ensures !again && !failed ==>
                r' == r.(status := if answer.status == StatusNeedsReview then WaitingReview else r.status) && Now(c, Head, plan, index + 1, r')
      ensures old(journal) <= journal
    {
      r', again, failed := r, false, false;
      Emit(c, ToolCompleted(answer));
      if Retryable(answer) && attempts <= maxRetries {
        r', again := r.(retryCount := r.retryCount + 1), true;
      } else if answer.status == StatusFailed || answer.status == StatusRejected {
        failed := true;
      } else if answer.status == StatusNeedsReview {
        r' := r.(status := WaitingReview);
      }
    }

    /** A tool that failed or was rejected ends the run, without an error for the caller. */
    method FailAfterAnswer(c: Config, plan: seq<Call>, index: nat, r: Result) returns (r': Result)
      requires Now(c, Failing, plan, index, r)
      modifies this`journal, this`stored, this`saved
      ensures old(journal) <= journal
      ensures Finished(c, r') && r' == r.(status := Failed)
    {
      hide Replay, Trim, Permitted, CallIdFor, LastSaved, StoredWith, AllDurable;
      r' := r.(status := Failed);
      SaveCheckpoint(c, plan, index + 1, r');
      Emit(c, RunFailed);
    }

    /** A gateway error or an oversized answer ends the run. */
    method FailInCall(ghost c: Config, ghost phase: Phase, ghost plan: seq<Call>, ghost index: nat, r: Result) returns (r': Result)
      requires Now(c, phase, plan, index, r) && (phase.Judging? || (phase.Retrying? && phase.transport))
      modifies this`journal
      ensures old(journal) <= journal
      ensures Finished(c, r') && r' == r.(status := Failed)
    {
      r' := Fail(c, r);
    }

    /** What a transport error leads to: another attempt, unless there were enough or the run is cancelled. */
    method AfterTransportError(c: Config, w: World, ghost maxBytes: int, ghost plan: seq<Call>, ghost index: nat, attempts: nat,
                               ghost callId: string, r: Result)
      returns (r': Result, again: bool)
      requires Now(c, Retrying(attempts, callId, true), plan, index, r)
      modifies this`journal, this`checked
      ensures old(journal) <= journal
      ensures again ==> attempts <= c.maxRetries + 1 && GoesBack(c, Refused, maxBytes, attempts)
      ensures again ==> r' == r.(retryCount := r.retryCount + 1) && Now(c, Retrying(attempts, callId, true), plan, index, r)
      ensures !again ==> Finished(c, r') && r' == r.(status := Failed)
      ensures !again && GoesBack(c, Refused, maxBytes, attempts) ==> checked > 0 && w.cancelled(checked - 1)
    {
      if attempts <= c.maxRetries + 1 {
        var cancelled := w.cancelled(checked);
        checked := checked + 1;
        if !cancelled {
          return r.(retryCount := r.retryCount + 1), true;
        }
      }
      r' := FailInCall(c, Retrying(attempts, callId, true), plan, index, r);
      again := false;
    }

    /** What an answer leads to: another attempt, the next entry, or the end of the run. */
    method AfterReply(c: Config, maxBytes: int, plan: seq<Call>, index: nat, attempts: nat, ghost callId: string,
                      answer: GatewayAnswer, r: Result)
      returns (r': Result, again: bool, outcome: Outcome)
      requires answer.Replied? && Now(c, Judging(attempts, callId, answer.result), plan, index, r)
      modifies this`journal, this`stored, this`saved
      ensures old(journal) <= journal
      ensures again <==> GoesBack(c, answer, maxBytes, attempts)
      ensures again ==> attempts <= c.maxRetries
      ensures var kept := r.(results := r.results + if answer.size <= maxBytes then [answer.result] else []);
              if again then
                && r' == kept.(retryCount := r.retryCount + 1) && Now(c, Retrying(attempts, callId, false), plan, index, kept)
              else
                && outcome == OutcomeOf(answer, maxBytes)
                && (outcome.Ended? ==> r' == kept.(status := Failed) && Finished(c, r'))
                && (outcome.Going? ==> r' == kept.(status := if answer.result.status == StatusNeedsReview then WaitingReview else r.status)
                                       && Now(c, Head, plan, index + 1, r'))
    {
      again := false;
      if answer.size > maxBytes {
        r' := FailInCall(c, Judging(attempts, callId, answer.result), plan, index, r);
        assert r.(results := r.results + []) == r;
        return r', again, Ended(Some(BudgetExceeded));
      }
      r' := SaveAnswer(c, plan, index, attempts, callId, answer.result, r);
      var failed;
      r', again, failed := JudgeAnswer(c, c.maxRetries, plan, index, attempts, callId, answer.result, r');
      outcome := Going;
      if failed {
        r' := FailAfterAnswer(c, plan, index, r');
        outcome := Ended(None);
      }
    }

    /** Sends the entry at index until it has an answer that is not retried, or the run ends: as many attempts as
        the answers demand, each counted, and then what the last answer says. */
    method ExecuteEntry(c: Config, w: World, maxBytes: int, plan: seq<Call>, index: nat, callId: string, r: Result)
      returns (r': Result, outcome: Outcome)
      requires Now(c, Head, plan, index, r) && index < |plan| && r.callCount < c.maxCalls
      requires Permitted(c, plan[index]) && CallIdFor(plan[index], callId)
      modifies this`journal, this`stored, this`saved, this`answered, this`checked
      ensures old(journal) <= journal && old(answered) < answered
      ensures MadeAttempts(c, w, maxBytes, old(answered), answered - old(answered), checked > 0 && w.cancelled(checked - 1))
      ensures outcome == OutcomeOf(w.answers(answered - 1), maxBytes)
      ensures r' == AfterAttempts(w, maxBytes, old(answered), answered - old(answered), r)
      ensures outcome.Going? ==> Now(c, Head, plan, index + 1, r')
      ensures outcome.Ended? ==> Finished(c, r') && Agrees(outcome.error, r'.status)
    {
      hide Now, Finished, Permitted, CallIdFor, GoesBack;
      var attempts := 0;
      r', outcome := r, Going;
      ghost var from := answered;
      ghost var transport, before := false, r;  // before the retry was counted
      while true
        invariant answered == from + attempts && old(journal) <= journal
        invariant r'.status == r.status && r'.modelTokens == r.modelTokens && r'.callCount == r.callCount + attempts
        invariant r'.retryCount == r.retryCount + attempts && r'.results == r.results + Collected(w, maxBytes, from, attempts)
        invariant forall k :: 1 <= k <= attempts ==> GoesBack(c, AnswerTo(w, from, k), maxBytes, k)
        invariant attempts == 0 ==> Now(c, Head, plan, index, r)
        invariant attempts > 0 ==> r' == before.(retryCount := before.retryCount + 1) && attempts <= c.maxRetries + (if transport then 1 else 0)
        invariant attempts > 0 ==> Now(c, Retrying(attempts, callId, transport), plan, index, before)
        decreases c.maxRetries + 2 - attempts
      {
        assert AnswerTo(w, from, attempts + 1) == w.answers(answered);
        var again;
        r', again, outcome, transport, before := Attempt(c, w, maxBytes, transport, before, plan, index, attempts, callId, r');
        attempts := attempts + 1;
        if !again {
          return;
        }
      }
    }

    /** One attempt at the entry, and what its answer leads to. */
    method Attempt(c: Config, w: World, maxBytes: int, ghost transport: bool, ghost before: Result, plan: seq<Call>, index: nat,
                   attempts: nat, callId: string, r: Result)
      returns (r': Result, again: bool, outcome: Outcome, ghost transport': bool, ghost before': Result)
      requires index < |plan| && Permitted(c, plan[index]) && CallIdFor(plan[index], callId)
      requires attempts == 0 ==> Now(c, Head, plan, index, r) && r.callCount < c.maxCalls
      requires attempts > 0 ==> r == before.(retryCount := before.retryCount + 1) && attempts <= c.maxRetries + (if transport then 1 else 0)
      requires attempts > 0 ==> Now(c, Retrying(attempts, callId, transport), plan, index, before)
      modifies this`journal, this`stored, this`saved, this`answered, this`checked
      ensures old(journal) <= journal && answered == old(answered) + 1
      ensures var a := w.answers(old(answered));
              var kept := r.(callCount := r.callCount + 1, results := r.results + if a.Replied? && a.size <= maxBytes then [a.result] else []);
              if again then
                && GoesBack(c, a, maxBytes, attempts + 1) && attempts + 1 <= c.maxRetries + (if transport' then 1 else 0)
                && before' == kept && r' == kept.(retryCount := kept.retryCount + 1)
                && Now(c, Retrying(attempts + 1, callId, transport'), plan, index, before')
              else
                && (GoesBack(c, a, maxBytes, attempts + 1) ==> a.Refused? && checked > 0 && w.cancelled(checked - 1))
                && outcome == OutcomeOf(a, maxBytes)
                && r' == kept.(status := if outcome.Ended? then Failed
                                         else if a.result.status == StatusNeedsReview then WaitingReview else r.status)
                && (outcome.Going? ==> Now(c, Head, plan, index + 1, r'))
                && (outcome.Ended? ==> Finished(c, r'))
    {
      hide At, Finished, Now, Permitted, CallIdFor, Kept, GoesBack;
      r' := Announce(c, transport, before, plan, index, attempts, callId, r);
      var answer := CallGateway(c, w, plan, index, attempts + 1, callId, r');
      if answer.Refused? {
        before', transport' := r', true;
        assert r'.results + [] == r'.results;
        r', again := AfterTransportError(c, w, maxBytes, plan, index, attempts + 1, callId, r');
        outcome := Ended(Some(GatewayFailure));
      } else {
        before', transport' := r'.(results := r'.results + if answer.size <= maxBytes then [answer.result] else []), false;
        r', again, outcome := AfterReply(c, maxBytes, plan, index, attempts + 1, callId, answer, r');
      }
    }

    /** Whether the entry may be executed now, and under which call id. */
    method CheckEntry(c: Config, w: World, plan: seq<Call>, index: nat, r: Result)
      returns (callId: string, refusal: Option<Error>)
      requires index < |plan|
      modifies this`generated
      ensures refusal.None? <==> r.callCount < c.maxCalls && Permitted(c, plan[index])
      ensures var entry := plan[index];
              refusal == if c.maxCalls <= r.callCount then Some(BudgetExceeded)
                         else if entry.toolName !in c.allowed
                              || (c.allowed[entry.toolName].level != Read && Trim(entry.idempotencyKey) == "") then Some(PlanNotAllowed)
                         else None
      ensures refusal.None? ==> CallIdFor(plan[index], callId)
      ensures refusal.None? ==>
                callId == if Trim(plan[index].callId) == "" then w.uuids(old(generated)) else plan[index].callId
    {
      var entry := plan[index];
      callId := entry.callId;
      if r.callCount >= c.maxCalls {
        return callId, Some(BudgetExceeded);
      }
      if entry.toolName !in c.allowed {
        return callId, Some(PlanNotAllowed);
      }
      if Trim(callId) == "" {
        callId := w.uuids(generated);
        generated := generated + 1;
      }
      if c.allowed[entry.toolName].level != Read && Trim(entry.idempotencyKey) == "" {
        return callId, Some(PlanNotAllowed);
      }
      refusal := None;
    }

    /** Ends the run between two entries with status failed. */
    method FailAtHead(ghost c: Config, ghost plan: seq<Call>, ghost index: nat, r: Result) returns (r': Result)
      requires Now(c, Head, plan, index, r)
      modifies this`journal
      ensures old(journal) <= journal
      ensures Finished(c, r') && r' == r.(status := Failed)
    {
      r' := Fail(c, r);
    }

    /** Ends the run after its last entry. */
    method Finish(c: Config, plan: seq<Call>, ghost index: nat, r: Result) returns (r': Result)
      requires Now(c, Head, plan, index, r) && |plan| <= index
      modifies this`journal, this`stored, this`saved
      ensures old(journal) <= journal
      ensures Finished(c, r') && Agrees(None, r'.status) && r' == Closed(r)
    {
      StatusHolds(c, journal);
      r' := r.(status := if r.status == Running then Completed else r.status);
      Emit(c, RunFinished(r'.status));
      SaveCheckpoint(c, plan, |plan|, r');
    }

    /** Between two entries: reads the controls, unless an instruction is already at hand, and replans, cancels or
        goes on as they say. */
    method ObeyControls(c: Config, w: World, limit: int, local: string, cursor: int, plan: seq<Call>, index: nat, r: Result)
      returns (plan': seq<Call>, index': nat, r': Result, cursor': int, outcome: Outcome, replanned: bool)
      requires Now(c, Head, plan, index, r) && Heard(w, cursor)
      modifies this`journal, this`stored, this`saved, this`planned, this`read, this`heard, this`position
      ensures old(journal) <= journal && Heard(w, cursor')
      ensures var seen := Seen(w, old(read), cursor);
              if local != "" then replanned && cursor' == cursor
              else if seen.Err? then outcome == Ended(Some(ControlFailure))
              else if seen.value.cancelled then outcome == Ended(Some(ContextCancelled)) && cursor' == seen.value.next
              else (replanned <==> Inbox.JoinLines(seen.value.instructions) != "") && cursor' == seen.value.next
      ensures read == old(read) + if local == "" then 1 else 0
      ensures outcome.Ended? && !replanned ==> local == "" && (Seen(w, old(read), cursor).Err? || Seen(w, old(read), cursor).value.cancelled)
      ensures replanned && outcome.Going? ==> SteeredWith(old(journal), journal, Instruction(w, old(read), local, cursor))
      ensures r'.callCount == r.callCount && |RC.After(w.log, cursor')| <= |RC.After(w.log, cursor)|
      ensures outcome.Going? && Within(r, limit) ==> Within(r', limit)
      ensures outcome.Ended? ==> outcome.error.Some?
      ensures outcome.Ended? && replanned ==> outcome.error == Some(PlanFailed) || outcome.error == Some(BudgetExceeded)
      ensures outcome.Going? ==> Now(c, Head, plan', index', r')
      ensures if replanned then index' == 0 else plan' == plan && index' == index && (outcome.Going? ==> r' == r)
      ensures replanned && local == "" ==> |RC.After(w.log, cursor')| < |RC.After(w.log, cursor)|
      ensures outcome.Ended? ==> Finished(c, r') && Agrees(outcome.error, r'.status)
    {
      hide Now, Finished, Heard, Seen, Inbox.JoinLines, SteeredWith;
      plan', index', r', cursor', outcome, replanned := plan, index, r, cursor, Going, false;
      var instruction := local;
      if instruction == "" {
        var control := ReadControls(w, cursor);
        if control.Err? {
          r' := FailAtHead(c, plan, index, r);
          outcome := Ended(Some(ControlFailure));
          return;
        }
        cursor' := control.value.next;
        if control.value.cancelled {
          r' := Cancel(c, plan, index, r);
          outcome := Ended(Some(ContextCancelled));
          return;
        }
        instruction := Inbox.JoinLines(control.value.instructions);
      }
      if instruction != "" {
        var error;
        plan', r', error := Replan(c, w, instruction, limit, plan, index, r);
        index', replanned := 0, true;
        if error.Some? {
          outcome := Ended(error);
        }
      }
    }

    /** Executes the entry at index, unless the run is cancelled or the entry may not be executed. */
    method TakeEntry(c: Config, w: World, maxBytes: int, plan: seq<Call>, index: nat, r: Result) returns (r': Result, outcome: Outcome)
      requires Now(c, Head, plan, index, r) && index < |plan|
      modifies this`journal, this`stored, this`saved, this`answered, this`checked, this`generated
      ensures old(journal) <= journal && r'.modelTokens == r.modelTokens
      ensures outcome.Going? ==> Now(c, Head, plan, index + 1, r') && r.callCount < r'.callCount && r.callCount < c.maxCalls
      ensures outcome.Ended? ==> Finished(c, r') && Agrees(outcome.error, r'.status)
      ensures Smooth(w, maxBytes) && r.callCount < c.maxCalls && Permitted(c, plan[index]) ==>
                outcome.Going? && answered == old(answered) + 1 && r' == AfterAttempts(w, maxBytes, old(answered), 1, r)
    {
      hide Now, Finished, AfterAttempts, Permitted, CallIdFor;
      var cancelled := w.cancelled(checked);
      checked := checked + 1;
      if cancelled {
        r' := Cancel(c, plan, index, r);
        return r', Ended(Some(ContextCancelled));
      }
      var callId, refusal := CheckEntry(c, w, plan, index, r);
      if refusal.Some? {
        r' := FailAtHead(c, plan, index, r);
        return r', Ended(refusal);
      }
      r', outcome := ExecuteEntry(c, w, maxBytes, plan, index, callId, r);
      AttemptsCount(w, maxBytes, old(answered), answered - old(answered), r);
      if Smooth(w, maxBytes) {
        OneSmoothAttempt(c, w, maxBytes, old(answered), answered - old(answered), checked > 0 && w.cancelled(checked - 1));
      }
    }

    /** After an entry: what waits in the inbox, or else what the controls say. */
    method AfterEntry(c: Config, w: World, ghost maxBytes: int, limit: int, cursor: int, plan: seq<Call>, index: nat, r: Result)
      returns (plan': seq<Call>, index': nat, r': Result, cursor': int, outcome: Outcome)
      requires Now(c, Head, plan, index, r) && Heard(w, cursor) && Trim(c.runId) == c.runId
      modifies this`journal, this`stored, this`saved, this`planned, this`read, this`steers, this`looked, this`heard, this`position
      ensures old(journal) <= journal && Heard(w, cursor') && steers == old(steers) - {c.runId}
      ensures outcome.Going? ==> Now(c, Head, plan', index', r')
      ensures outcome.Ended? ==> outcome.error.Some? && Finished(c, r') && Agrees(outcome.error, r'.status)
      ensures r'.callCount == r.callCount && |RC.After(w.log, cursor')| <= |RC.After(w.log, cursor)| && old(read) <= read
      ensures outcome.Going? ==> index' == 0 || (plan' == plan && index' == index)
      ensures var said := Said(w, old(looked), old(Box()), c.runId);
              outcome.Going? && said != "" ==> index' == 0 && SteeredWith(old(journal), journal, said)
      ensures outcome.Going? && Within(r, limit) ==> Within(r', limit)
      ensures Smooth(w, maxBytes) && c.runId !in old(steers) ==> outcome.Going? && plan' == plan && index' == index && r' == r
    {
      hide Now, Finished, Heard, Agrees, Seen, Said, Within, Smooth, Inbox.JoinLines, Trim, SteeredWith;
      if Smooth(w, maxBytes) && c.runId !in steers {
        SmoothInbox(w, maxBytes, looked, Box(), c.runId);
        SmoothReads(w, maxBytes, read, cursor);
      }
      var instruction := LookAtInbox(c.runId, w);
      var replanned;
      plan', index', r', cursor', outcome, replanned := ObeyControls(c, w, limit, instruction, cursor, plan, index, r);
    }

    /** The entry at index, and then the inbox and the controls. */
    method PlayEntry(c: Config, w: World, maxBytes: int, limit: int, cursor: int, plan: seq<Call>, index: nat, r: Result)
      returns (plan': seq<Call>, index': nat, r': Result, cursor': int, outcome: Outcome)
      requires Now(c, Head, plan, index, r) && Heard(w, cursor) && index < |plan| && Trim(c.runId) == c.runId
      modifies this`journal, this`stored, this`saved, this`planned, this`answered, this`checked, this`read,
        this`steers, this`looked, this`generated, this`heard, this`position
      ensures old(journal) <= journal && Heard(w, cursor')
      ensures outcome.Going? ==> Now(c, Head, plan', index', r') && r.callCount < r'.callCount && r.callCount < c.maxCalls
      ensures outcome.Ended? ==> Finished(c, r') && Agrees(outcome.error, r'.status)
      ensures |RC.After(w.log, cursor')| <= |RC.After(w.log, cursor)| && old(read) <= read
      ensures steers == old(steers) || steers == old(steers) - {c.runId}
      ensures outcome.Going? ==> steers == old(steers) - {c.runId} && (index' == 0 || (plan' == plan && index' == index + 1))
      ensures var said := Said(w, old(looked), old(Box()), c.runId);
              outcome.Going? && said != "" ==> index' == 0 && SteeredWith(old(journal), journal, said)
      ensures Within(r, limit) && (outcome.Going? || outcome.error.None?) ==> Within(r', limit)
      ensures Smooth(w, maxBytes) && c.runId !in old(steers) && r.callCount < c.maxCalls && Permitted(c, plan[index]) ==>
                outcome.Going? && plan' == plan && index' == index + 1 && answered == old(answered) + 1
                && r' == AfterAttempts(w, maxBytes, old(answered), 1, r)
    {
      hide SteeredWith, Now, Finished, Heard, Agrees, Seen, Said, Smooth, AfterAttempts, Inbox.JoinLines, Trim, Permitted;
      plan', index', cursor' := plan, index, cursor;
      r', outcome := TakeEntry(c, w, maxBytes, plan, index, r);
      if outcome.Ended? {
        return;
      }
      ghost var executed, said := journal, Said(w, looked, Box(), c.runId);
      plan', index', r', cursor', outcome := AfterEntry(c, w, maxBytes, limit, cursor, plan, index + 1, r');
      if SteeredWith(executed, journal, said) {
        SteeredLater(old(journal), executed, journal, said);
      }
    }

    /** One turn of the loop: controls, the entry, then the inbox and the controls again. */
    method Turn(c: Config, w: World, maxBytes: int, limit: int, cursor: int, plan: seq<Call>, index: nat, r: Result)
      returns (plan': seq<Call>, index': nat, r': Result, cursor': int, outcome: Outcome)
      requires Now(c, Head, plan, index, r) && Heard(w, cursor) && index < |plan| && Trim(c.runId) == c.runId
      modifies this`journal, this`stored, this`saved, this`planned, this`answered, this`checked, this`read,
        this`steers, this`looked, this`generated, this`heard, this`position
      ensures old(journal) <= journal && Heard(w, cursor')
      ensures outcome.Going? ==> Now(c, Head, plan', index', r')
      ensures outcome.Ended? ==> Finished(c, r') && Agrees(outcome.error, r'.status)
      ensures Progresses(c, w, cursor, r, cursor', r', outcome) && old(read) < read
      ensures steers == old(steers) || steers == old(steers) - {c.runId}
      ensures ObeyedFirst(Seen(w, old(read), cursor), old(journal), journal, r.callCount, r'.callCount, ErrorOf(outcome))
      ensures outcome.Going? && r.callCount < r'.callCount ==>
                var said := Said(w, old(looked), old(Box()), c.runId);
                && steers == old(steers) - {c.runId}
                && (index' == 0 || (plan' == plan && index' == index + 1))
                && (said != "" ==> index' == 0 && SteeredWith(old(journal), journal, said))
      ensures Within(r, limit) && (outcome.Going? || outcome.error.None?) ==> Within(r', limit)
      ensures Smooth(w, maxBytes) && c.runId !in old(steers) && r.callCount < c.maxCalls && Permitted(c, plan[index]) ==>
                outcome.Going? && plan' == plan && index' == index + 1 && answered == old(answered) + 1
                && r' == AfterAttempts(w, maxBytes, old(answered), 1, r)
    {
      hide SteeredWith, Now, Finished, Heard, Agrees, Seen, Said, Within, Smooth, AfterAttempts, Inbox.JoinLines, Trim, Permitted;
      if Smooth(w, maxBytes) {
        SmoothReads(w, maxBytes, read, cursor);
      }
      var replanned;
      plan', index', r', cursor', outcome, replanned := ObeyControls(c, w, limit, "", cursor, plan, index, r);
      if outcome.Ended? || replanned {
        return;
      }
      ghost var controlled, said := journal, Said(w, looked, Box(), c.runId);
      plan', index', r', cursor', outcome := PlayEntry(c, w, maxBytes, limit, cursor', plan, index, r');
      if SteeredWith(controlled, journal, said) {
        SteeredLater(old(journal), controlled, journal, said);
      }
    }

    lemma HeardSoFar(w: World, cursor: int)
      requires Heard(w, cursor)
      ensures HeardFromStart(w.log, position, heard)
    {
    }

    /** Executes the plan from index on. It ends whatever the collaborators answer: every turn consumes a
        control event or makes a call. */
    method Entries(c: Config, w: World, maxBytes: int, limit: int, firstPlan: seq<Call>, firstIndex: nat, first: Result)
      returns (plan: seq<Call>, index: nat, r: Result, outcome: Outcome)
      requires Now(c, Head, firstPlan, firstIndex, first) && Trim(c.runId) == c.runId && Heard(w, 0)
      modifies this`journal, this`stored, this`saved, this`planned, this`answered, this`checked, this`read,
        this`steers, this`looked, this`generated, this`heard, this`position
      ensures outcome.Going? ==> Now(c, Head, plan, index, r) && |plan| <= index
      ensures outcome.Ended? ==> Finished(c, r) && Agrees(outcome.error, r.status)
      ensures ErrorOf(outcome).None? && Within(first, limit) ==> Within(r, limit)
      ensures steers - {c.runId} == old(steers) - {c.runId}
      ensures old(journal) <= journal && HeardFromStart(w.log, position, heard)
      ensures |firstPlan| <= firstIndex ==> outcome.Going? && r == first && read == old(read)
      ensures firstIndex < |firstPlan| ==> old(read) < read
      ensures firstIndex < |firstPlan| ==>
                if outcome.Going? then StillObeyed(Seen(w, old(read), 0), old(journal), journal)
                else ObeyedFirst(Seen(w, old(read), 0), old(journal), journal, first.callCount, r.callCount, outcome.error)
      ensures Smooth(w, maxBytes) && c.runId !in old(steers) && Executable(c, firstPlan, firstIndex) && first.callCount == 0 ==>
                outcome.Going? && firstIndex <= |firstPlan| && r == Played(w, maxBytes, old(answered), |firstPlan| - firstIndex, first)
    {
      hide Now, Finished, Heard, Agrees, Seen, Within, Smooth, AfterAttempts, Played, Executable, ObeyedFirst, StillObeyed,
        OnTrack, Permitted, Trim;
      var cursor := 0;
      plan, index, r, outcome := firstPlan, firstIndex, first, Going;
      ghost var begun, n, start, said := false, 0, answered, Seen(w, read, 0);
      ghost var smooth := Smooth(w, maxBytes) && c.runId !in steers && Executable(c, firstPlan, firstIndex) && first.callCount == 0;
      if smooth {
        OnTrackAtStart(c, w, maxBytes, firstPlan, firstIndex, first, start);
      }
      while index < |plan|
        invariant Now(c, Head, plan, index, r) && Heard(w, cursor) && old(journal) <= journal
        invariant outcome.Going? && (Within(first, limit) ==> Within(r, limit))
        invariant steers - {c.runId} == old(steers) - {c.runId}
        invariant if begun then firstIndex < |firstPlan| && old(read) < read && StillObeyed(said, old(journal), journal)
                  else plan == firstPlan && index == firstIndex && cursor == 0 && r == first && read == old(read) && journal == old(journal)
        invariant smooth ==> c.runId !in steers && OnTrack(c, w, maxBytes, firstPlan, firstIndex, first, start, n, plan, index, answered, r)
        decreases |RC.After(w.log, cursor)|, c.maxCalls - r.callCount
      {
        ghost var before := journal;
        if smooth {
          OnTrackGoesOn(c, w, maxBytes, firstPlan, firstIndex, first, start, n, plan, index, answered, r);
        }
        plan, index, r, cursor, outcome := Turn(c, w, maxBytes, limit, cursor, plan, index, r);
        if begun {
          StillObeyedLater(said, old(journal), before, journal);
        } else if outcome.Going? {
          ObeyedAndGoing(said, old(journal), journal, first.callCount, r.callCount);
        }
        if outcome.Ended? {
          HeardSoFar(w, cursor);
          return;
        }
        begun, n := true, n + 1;
      }
      if smooth {
        OnTrackAtEnd(c, w, maxBytes, firstPlan, firstIndex, first, start, n, plan, index, answered, r);
      }
      HeardSoFar(w, cursor);
    }

    /** Executes the plan from index on, and finishes it. A plan whose position is at its end is finished at once,
        without a look at the controls; otherwise the first thing is to obey the controls from the beginning of the
        log. A life that nothing disturbs makes one call per entry and completes. */
    method Drive(c: Config, w: World, maxBytes: int, limit: int, firstPlan: seq<Call>, firstIndex: nat, first: Result)
      returns (r: Result, error: Option<Error>)
      requires Now(c, Head, firstPlan, firstIndex, first) && Trim(c.runId) == c.runId && heard == [] && position == 0
      modifies this`journal, this`stored, this`saved, this`planned, this`answered, this`checked, this`read,
        this`steers, this`looked, this`generated, this`heard, this`position
      ensures old(journal) <= journal && Finished(c, r) && Agrees(error, r.status)
      ensures error.None? && Within(first, limit) ==> Within(r, limit)
      ensures steers - {c.runId} == old(steers) - {c.runId}
      ensures HeardFromStart(w.log, position, heard)
      ensures |firstPlan| <= firstIndex ==> error.None? && r == Closed(first) && read == old(read)
      ensures firstIndex < |firstPlan| ==>
                old(read) < read && ObeyedFirst(Seen(w, old(read), 0), old(journal), journal, first.callCount, r.callCount, error)
      ensures Smooth(w, maxBytes) && c.runId !in old(steers) && Executable(c, firstPlan, firstIndex) && first.callCount == 0 ==>
                error.None? && firstIndex <= |firstPlan|
                && r == Closed(Played(w, maxBytes, old(answered), |firstPlan| - firstIndex, first))
    {
      NothingHeard(w.log);
      assert Heard(w, 0);
      hide Now, Finished, Heard, Agrees, Seen, Within, Smooth, AfterAttempts, Played, Executable, ObeyedFirst, StillObeyed,
        Permitted, Trim, Closed;
      ghost var said := Seen(w, read, 0);
      var plan, index, outcome;
      plan, index, r, outcome := Entries(c, w, maxBytes, limit, firstPlan, firstIndex, first);
      if outcome.Ended? {
        return r, outcome.error;
      }
      ghost var before, last := journal, r;
      r := Finish(c, plan, index, r);
      error := None;
      ClosedKeepsTokens(last, limit);
      if firstIndex < |firstPlan| {
        StillObeyedLater(said, old(journal), before, journal);
      }
    }

    /** Discovery, the capability, and the plan: resumed from a checkpoint or made new. */
    method Prepare(c: Config, w: World, request: Request)
      returns (plan: seq<Call>, index: nat, r: Result, error: Option<Error>)
      requires journal == [] && stored == base && c == ConfigOf(request, w, stored)
      modifies this`journal, this`stored, this`saved, this`planned
      ensures error.None? <==> FirstPlan(c, w, old(planned), request.limits.maxModelTokens).Some?
      ensures error.None? ==>
                && plan == FirstPlan(c, w, old(planned), request.limits.maxModelTokens).value && index == Position(c.resumed)
                && r == FirstResult(c, w, old(planned)) && Now(c, Head, plan, index, r) && Within(r, request.limits.maxModelTokens)
      ensures error == Stops(c, w, old(planned), request.limits.maxModelTokens)
      ensures error.Some? ==> Finished(c, r) && Agrees(error, r.status) && r.status == Failed && r.callCount == 0
      ensures Opened(c, w, old(planned), journal) && (error.None? ==> FirstSaved(journal).Some?)
    {
      NothingReplayed(c);
      hide Replay, Allowed, Trim, Permitted, CallIdFor, LastSaved, Opened, FirstSaved;
      plan, index, r := [], 0, Result(Queued, [], 0, 0, 0);
      Emit(c, RunStarted);
      if w.descriptors.None? || w.descriptors.value == [] {
        r := Fail(c, r);
        OpensUnsaved(c, w, old(planned), journal);
        return plan, index, r, Some(GatewayFailure);
      }
      if !w.capability {
        r := Fail(c, r);
        OpensUnsaved(c, w, old(planned), journal);
        return plan, index, r, Some(CapabilityIssue);
      }
      plan, index, r, error := ChoosePlan(c, w, request, r);
      if error.Some? {
        OpensUnsaved(c, w, old(planned), journal);
        return;
      }
      ghost var chosen := journal;
      SaveCheckpoint(c, plan, index, r);
      OpensWith(c, w, old(planned), chosen, Snapshot(c, plan, index, r.results, r.status), saves(old(saved)));
      ghost var begun := journal;
      r := r.(status := Running);
      if !w.subscription {
        r := Fail(c, r);
        StaysOpened(c, w, old(planned), begun, journal);
        return plan, index, r, Some(ControlFailure);
      }
    }

    /** The checkpoint's plan, if the request asks to resume and the stored checkpoint is for the same skill; otherwise,
        or when that plan is empty, the planner's. */
    method ChoosePlan(c: Config, w: World, request: Request, r0: Result) returns (plan: seq<Call>, index: nat, r: Result,
                      error: Option<Error>)
      requires c == ConfigOf(request, w, stored) && r0 == Result(Queued, [], 0, 0, 0) && At(c, journal, Preparing, [], 0, r0) && Kept(c)
      modifies this`journal, this`planned
      ensures var answer := w.plans(old(planned));
              error.None? <==> !Planless(c) || (answer.Plan? && Affordable(answer.tokens, request.limits.maxModelTokens))
      ensures error.None? ==>
                && plan == (if Planless(c) then w.plans(old(planned)).calls else PlanOf(c.resumed)) && index == Position(c.resumed)
                && r == FirstResult(c, w, old(planned)).(status := Queued) && Within(r, request.limits.maxModelTokens)
                && Kept(c) && At(c, journal, Preparing, PlanOf(c.resumed), index, r.(results := Inherited(c), modelTokens := 0))
      ensures error.Some? ==>
                && Finished(c, r) && Agrees(error, r.status) && r.status == Failed && r.callCount == 0
                && error == Some(if w.plans(old(planned)).NoPlan? then PlanFailed else BudgetExceeded)
      ensures c.resumed.Some? ==> RunJournal.Emit(RunResumed(c.resumed.value.nextIndex)) in journal
      ensures NothingSaved(old(journal)) ==> NothingSaved(journal)
    {
      hide Replay, Allowed, Trim, Permitted, CallIdFor, LastSaved, Snapshot;
      plan, index, r := [], 0, r0;
      var checkpoint := Resumable(request, stored);
      if checkpoint.Some? {
        plan, index := checkpoint.value.plan, checkpoint.value.nextIndex;
        r := r.(results := checkpoint.value.results);
        Emit(c, RunResumed(index));
      }
      if plan == [] {
        var answer := w.plans(planned);
        planned := planned + 1;
        if answer.NoPlan? {
          r := Fail(c, r);
          return plan, index, r, Some(PlanFailed);
        }
        plan := answer.calls;
        var ok;
        r, ok := ApplyPlannerUsage(r, answer.tokens, request.limits.maxModelTokens);
        if !ok {
          r := Fail(c, r);
          return plan, index, r, Some(BudgetExceeded);
        }
      }
      error := None;
    }

    /** A whole run. Whatever the planner, the gateway, the store and the event log do, it ends; what it
        did is a legal, finished journal that agrees with the result; the store holds the last durable
        checkpoint; and the run is no longer active, with nothing left waiting for it. It reads the log from the
        beginning, whatever an earlier life has read. */
    method Run(request: Request, w: World) returns (r: Result, error: Option<Error>)
      modifies this
      ensures var runId := Trim(request.runId);
              if runId == "" || runId in old(active) then
                && error == Some(if runId == "" then RunIdRequired else AlreadyActive)
                && stored == old(stored) && journal == old(journal) && Box() == old(Box())
              else
                var c := ConfigOf(request, w, old(stored));
                && Settled(c, journal, r) && Agrees(error, r.status)
                && (error.None? ==> Within(r, request.limits.maxModelTokens))
                && stored == StoredWith(old(stored), runId, journal) && ((forall n: nat :: saves(n)) ==> AllDurable(journal))
                && active == old(active) && steers == old(steers) - {runId}
                && HeardFromStart(w.log, position, heard)
                && Begins(c, w, request.limits.maxModelTokens, old(planned), old(read), read, r, error, journal)
                && (Smooth(w, ResultLimit(request)) && runId !in old(steers)
                    ==> Completes(c, w, request.limits.maxModelTokens, ResultLimit(request), old(planned), old(answered), r, error))
      ensures var runId, before := Trim(request.runId), old(stored);
              var resumes := request.resume && runId in before && before[runId].skillId == request.skillId
                             && before[runId].skillVersion == request.skillVersion;
              runId != "" && runId !in old(active) ==>
                && (resumes && w.descriptors.Some? && w.descriptors.value != [] && w.capability ==>
                      RunJournal.Emit(RunResumed(before[runId].nextIndex)) in journal && before[runId].results <= r.results)
                && (!resumes ==> forall n :: RunJournal.Emit(RunResumed(n)) !in journal)
                && forall k :: 0 <= k < |journal| && journal[k].Gateway?
                               && (forall said :: RunJournal.Emit(RunSteered(said)) !in journal[..k]) ==>
                     var plan := if resumes && before[runId].plan != [] then before[runId].plan
                                 else if w.plans(old(planned)).Plan? then w.plans(old(planned)).calls else [];
                     var start, i, call := if resumes then before[runId].nextIndex else 0, journal[k].index, journal[k].call;
                     && start <= i < |plan| && ((forall e :: e in journal[..k] ==> !e.Gateway?) ==> i == start)
                     && call.toolName == plan[i].toolName && call.arguments == plan[i].arguments
                     && call.idempotencyKey == plan[i].idempotencyKey
      ensures Trim(request.runId) != "" && Trim(request.runId) !in old(active) ==>
                && (forall k :: 0 <= k < |journal| && journal[k].Gateway? ==>
                      var tools, call := if w.descriptors.Some? then w.descriptors.value else [], journal[k].call;
                      && call.runId == Trim(request.runId) && call.skillId == request.skillId && call.skillVersion == request.skillVersion
                      && exists d :: 0 <= d < |tools| && tools[d].name == call.toolName
                                     && (forall later :: d < later < |tools| ==> tools[later].name != call.toolName)
                                     && (tools[d].level != Read ==> Trim(call.idempotencyKey) != ""))
                && (error.None? ==> r.status == Completed || r.status == WaitingReview || r.status == Failed)
                && (error == Some(ContextCancelled) <==> r.status == RunStatus.Cancelled)
                && (error.Some? && error != Some(ContextCancelled) ==> r.status == Failed)
                && (error.None? && 0 < request.limits.maxModelTokens ==> r.modelTokens <= request.limits.maxModelTokens)
                && GatewayCalls(journal) == r.callCount
                   <= (if request.limits.maxToolCalls <= 0 then 12 else request.limits.maxToolCalls)
                      + (if request.limits.maxRetries < 0 then 0 else request.limits.maxRetries) + 1
    {
      hide *;
      var runId := Trim(request.runId);
      r := Result(Queued, [], 0, 0, 0);
      if runId == "" {
        return r, Some(RunIdRequired);
      }
      var begun := BeginRun(runId);
      if !begun {
        return r, Some(AlreadyActive);
      }
      var c := ConfigOf(request, w, stored);
      r, error := RunActive(c, w, request, runId);
      ResumesAsAsked(request, w, old(stored), old(planned), journal, r);
      forall k | 0 <= k < |journal| && journal[k].Gateway? && (forall said :: RunJournal.Emit(RunSteered(said)) !in journal[..k])
        ensures var before := old(stored);
                var resumes := request.resume && runId in before && before[runId].skillId == request.skillId
                               && before[runId].skillVersion == request.skillVersion;
                var plan := if resumes && before[runId].plan != [] then before[runId].plan
                            else if w.plans(old(planned)).Plan? then w.plans(old(planned)).calls else [];
                var start, i, call := if resumes then before[runId].nextIndex else 0, journal[k].index, journal[k].call;
                && start <= i < |plan| && ((forall e :: e in journal[..k] ==> !e.Gateway?) ==> i == start)
                && call.toolName == plan[i].toolName && call.arguments == plan[i].arguments
                && call.idempotencyKey == plan[i].idempotencyKey
      {
        CallsAsPlanned(request, w, old(stored), old(planned), journal, r, k);
      }
      ConfigOfRun(request, w, old(stored));
      CallsAreDescribed(c, if w.descriptors.Some? then w.descriptors.value else [], journal, r);
      SettledRun(c, journal, r);
    }

    /** An active run, and its end. */
    method RunActive(c: Config, w: World, request: Request, runId: string) returns (r: Result, error: Option<Error>)
      requires runId == Trim(request.runId) && c == ConfigOf(request, w, stored) && runId in active
      modifies this
      ensures Settled(c, journal, r) && Agrees(error, r.status) && Opened(c, w, old(planned), journal)
      ensures error.None? ==> r.status == Completed || r.status == WaitingReview || r.status == Failed
      ensures error == Some(ContextCancelled) <==> r.status == RunStatus.Cancelled
      ensures error.Some? && error != Some(ContextCancelled) ==> r.status == Failed
      ensures error.None? ==> Within(r, request.limits.maxModelTokens)
      ensures error.None? && 0 < request.limits.maxModelTokens ==> r.modelTokens <= request.limits.maxModelTokens
      ensures stored == StoredWith(old(stored), runId, journal) && ((forall n: nat :: saves(n)) ==> AllDurable(journal))
      ensures active == old(active) - {runId} && steers == old(steers) - {runId}
      ensures HeardFromStart(w.log, position, heard)
      ensures Begins(c, w, request.limits.maxModelTokens, old(planned), old(read), read, r, error, journal)
      ensures Smooth(w, ResultLimit(request)) && runId !in old(steers)
              ==> Completes(c, w, request.limits.maxModelTokens, ResultLimit(request), old(planned), old(answered), r, error)
    {
      ConfigOfRun(request, w, stored);
      hide Settled, At, Legal, Completes, Begins, Smooth, ConfigOf, HeardFromStart, StoredWith, AllDurable, Trim,
        ResultLimit, Opened;
      TrimIdempotent(request.runId);
      journal, base, heard, position := [], stored, [], 0;
      r, error := Live(c, w, request);
      EndRun(runId);
    }

    /** One life: preparation, and the plan. */
    method Live(c: Config, w: World, request: Request) returns (r: Result, error: Option<Error>)
      requires journal == [] && heard == [] && position == 0 && stored == base
      requires c == ConfigOf(request, w, stored) && Trim(c.runId) == c.runId
      modifies this`journal, this`stored, this`saved, this`planned, this`answered, this`checked, this`read,
        this`steers, this`looked, this`generated, this`heard, this`position
      ensures Finished(c, r) && Agrees(error, r.status) && Opened(c, w, old(planned), journal)
      ensures error.None? ==> Within(r, request.limits.maxModelTokens)
      ensures steers - {c.runId} == old(steers) - {c.runId}
      ensures HeardFromStart(w.log, position, heard)
      ensures Begins(c, w, request.limits.maxModelTokens, old(planned), old(read), read, r, error, journal)
      ensures Smooth(w, ResultLimit(request)) && c.runId !in old(steers)
              ==> Completes(c, w, request.limits.maxModelTokens, ResultLimit(request), old(planned), old(answered), r, error)
    {
      hide Now, Finished, Completes, Begins, Smooth, Within, ConfigOf, FirstPlan, FirstResult, ObeyedFirst, Executable, Played, ResultLimit,
        HeardFromStart, Trim, Closed, Opened, FirstSaved;
      NothingHeard(w.log);
      var limit := request.limits.maxModelTokens;
      var plan, index;
      plan, index, r, error := Prepare(c, w, request);
      if error.Some? {
        NoPlanNoRun(c, w, limit, ResultLimit(request), old(planned), old(answered), old(read), r, error, journal);
        return;
      }
      ghost var prepared, first, clean := journal, r, c.runId !in steers;
      NoCallsYet(c, w, old(planned));
      r, error := Drive(c, w, ResultLimit(request), limit, plan, index, r);
      StaysOpened(c, w, old(planned), prepared, journal);
      RunsAsPlanned(c, w, limit, ResultLimit(request), old(planned), old(answered), old(read), read, first, r, error, prepared, journal, clean);
    }
  }

  lemma ClosedKeepsTokens(r: Result, limit: int)
    ensures Within(Closed(r), limit) <==> Within(r, limit)
  {
  }

  /** A run that is asked to resume, and finds a checkpoint of its skill and version, says so as soon as it has tools and
      a capability, and keeps the results it found; no other run says so. */
  lemma ResumesAsAsked(request: Request, w: World, before: map<string, Checkpoint>, n: nat, j: Journal, r: Result)
    requires Settled(ConfigOf(request, w, before), j, r) && Opened(ConfigOf(request, w, before), w, n, j)
    ensures var runId := Trim(request.runId);
            var resumes := request.resume && runId in before && before[runId].skillId == request.skillId
                           && before[runId].skillVersion == request.skillVersion;
            && (resumes && w.descriptors.Some? && w.descriptors.value != [] && w.capability ==>
                  RunJournal.Emit(RunResumed(before[runId].nextIndex)) in j && before[runId].results <= r.results)
            && (!resumes ==> forall n :: RunJournal.Emit(RunResumed(n)) !in j)
  {
    ConfigOfRun(request, w, before);
    ResultsHold(ConfigOf(request, w, before), j);
    hide Replay, FirstSaved, ConfigOf, Trim;
  }

  /** Until it is steered, a run calls the entries of the checkpoint's plan from its position on, or else those of the
      planner's answer. */
  lemma CallsAsPlanned(request: Request, w: World, before: map<string, Checkpoint>, n: nat, j: Journal, r: Result, k: nat)
    requires Settled(ConfigOf(request, w, before), j, r) && Opened(ConfigOf(request, w, before), w, n, j)
    requires k < |j| && j[k].Gateway? && forall said :: RunJournal.Emit(RunSteered(said)) !in j[..k]
    ensures var runId := Trim(request.runId);
            var resumes := request.resume && runId in before && before[runId].skillId == request.skillId
                           && before[runId].skillVersion == request.skillVersion;
            var plan := if resumes && before[runId].plan != [] then before[runId].plan
                        else if w.plans(n).Plan? then w.plans(n).calls else [];
            var start, i, call := if resumes then before[runId].nextIndex else 0, j[k].index, j[k].call;
            && start <= i < |plan| && ((forall e :: e in j[..k] ==> !e.Gateway?) ==> i == start)
            && call.toolName == plan[i].toolName && call.arguments == plan[i].arguments
            && call.idempotencyKey == plan[i].idempotencyKey
  {
    ConfigOfRun(request, w, before);
    CallsFollowFirstPlan(ConfigOf(request, w, before), j, k);
    hide Replay, FirstSaved, ConfigOf, Trim;
  }

  /** How a run starts: the first of these that goes wrong ends it - discovery, the capability, the planner when there is
      no plan to resume, its token report, the subscription - and with nothing left to do it completes at once. */
  lemma StartsAsAsked(request: Request, w: World, before: map<string, Checkpoint>, n: nat, read: nat, read': nat, r: Result,
                      error: Option<Error>, j: Journal)
    requires Begins(ConfigOf(request, w, before), w, request.limits.maxModelTokens, n, read, read', r, error, j)
    ensures var runId, answer, limit := Trim(request.runId), w.plans(n), request.limits.maxModelTokens;
            var resumes := request.resume && runId in before && before[runId].skillId == request.skillId
                           && before[runId].skillVersion == request.skillVersion;
            var asks := !resumes || before[runId].plan == [];
            var stops := if w.descriptors.None? || w.descriptors.value == [] then Some(GatewayFailure)
                         else if !w.capability then Some(CapabilityIssue)
                         else if asks && answer.NoPlan? then Some(PlanFailed)
                         else if asks && answer.tokens.Some? && (answer.tokens.value < 0 || 0 < limit < answer.tokens.value)
                         then Some(BudgetExceeded)
                         else if !w.subscription then Some(ControlFailure) else None;
            if stops.Some? then error == stops && r.status == Failed && r.callCount == 0
            else
              var plan, start := if asks then answer.calls else before[runId].plan, if resumes then before[runId].nextIndex else 0;
              && (|plan| <= start ==>
                    && error == None && r.status == Completed && r.callCount == 0 && read' == read
                    && r.modelTokens == (if asks && answer.tokens.Some? then answer.tokens.value else 0)
                    && r.results == if resumes then before[runId].results else [])
              && (start < |plan| ==> read < read' && (w.readFails(read) ==> error == Some(ControlFailure) && r.callCount == 0))
  {
    ConfigOfRun(request, w, before);
    hide ConfigOf, Trim, Seen, Inbox.JoinLines, SteeredWith;
    if w.readFails(read) {
      FailedRead(w, read);
    }
  }

  lemma FailedRead(w: World, n: nat)
    requires w.readFails(n)
    ensures Seen(w, n, 0).Err?
  {
  }

  /** What a finished run leaves: its own last durable checkpoint, if it has one, and nothing else in the store; and one
      announced end, that of its result. */
  lemma LeavesItsCheckpoint(c: Config, j: Journal, r: Result, before: map<string, Checkpoint>, after: map<string, Checkpoint>)
    requires Settled(c, j, r) && after == StoredWith(before, c.runId, j)
    ensures forall id :: id != c.runId ==> (id in after <==> id in before) && (id in after ==> after[id] == before[id])
    ensures forall k :: 0 <= k < |j| && j[k].Save? && j[k].durable
                        && (forall later :: k < later < |j| && j[later].Save? ==> !j[later].durable)
              ==> c.runId in after && after[c.runId] == j[k].checkpoint
    ensures (forall e :: e in j && e.Save? ==> !e.durable) ==> after == before
    ensures forall k :: 0 <= k < |j| && j[k].Save? ==>
              var cp := j[k].checkpoint; cp.runId == c.runId && cp.skillId == c.skillId && cp.skillVersion == c.skillVersion
    ensures RunJournal.Emit(RunStarted) in j
    ensures RunJournal.Emit(RunFailed) in j <==> r.status == Failed
    ensures RunJournal.Emit(RunJournal.RunCancelled) in j <==> r.status == RunStatus.Cancelled
    ensures forall s :: RunJournal.Emit(RunFinished(s)) in j <==> s == r.status && (s == Completed || s == WaitingReview)
  {
    LastSavedIff(j);
    EndIsAnnounced(c, j);
    hide Replay, LastSaved;
    forall k | 0 <= k < |j| && j[k].Save?
      ensures var cp := j[k].checkpoint; cp.runId == c.runId && cp.skillId == c.skillId && cp.skillVersion == c.skillVersion
    {
      SavedCheckpointIsCurrent(c, j, k);
    }
    if e :| e in j && e.Save? && e.durable {
      assert LastSaved(j).Some?;
      var k :| 0 <= k < |j| && j[k] == Save(LastSaved(j).value, true)
               && forall later :: k < later < |j| && j[later].Save? ==> !j[later].durable;
      forall i | 0 <= i < |j| && j[i].Save? && j[i].durable
                 && (forall later :: i < later < |j| && j[later].Save? ==> !j[later].durable)
        ensures j[i].checkpoint == LastSaved(j).value
      {
        assert i == k;
      }
    }
  }

  // A tool is allowed as the last of its descriptions says.
  lemma {:induction false} AllowedAsLastDescribed(tools: seq<Descriptor>, name: string)
    requires name in Allowed(tools)
    ensures exists d :: 0 <= d < |tools| && tools[d].name == name && tools[d] == Allowed(tools)[name]
                        && forall later :: d < later < |tools| ==> tools[later].name != name
  {
    var n := |tools| - 1;
    if tools[n].name != name {
      AllowedAsLastDescribed(tools[..n], name);
      var d :| 0 <= d < n && tools[..n][d].name == name && tools[..n][d] == Allowed(tools[..n])[name]
               && forall later :: d < later < n ==> tools[..n][later].name != name;
      assert tools[d] == Allowed(tools)[name];
      forall later | d < later < |tools| ensures tools[later].name != name {
        assert later < n ==> tools[..n][later] == tools[later];
      }
    }
  }

  lemma {:induction false} LastDescribedIsAllowed(tools: seq<Descriptor>, d: nat)
    requires d < |tools| && forall later :: d < later < |tools| ==> tools[later].name != tools[d].name
    ensures tools[d].name in Allowed(tools) && Allowed(tools)[tools[d].name] == tools[d]
  {
    var n := |tools| - 1;
    if d < n {
      assert tools[n].name != tools[d].name;
      forall later | d < later < n ensures tools[..n][later].name != tools[..n][d].name {
        assert tools[..n][later] == tools[later];
      }
      LastDescribedIsAllowed(tools[..n], d);
    }
  }

  /** A run that nothing disturbs, with a plan of described tools within the budget - and a key for each that may write -
      makes one call for each remaining entry and keeps the answers in order; it waits for review exactly when one of
      them asks for it. */
  lemma CompletesAsAsked(request: Request, w: World, before: map<string, Checkpoint>, n: nat, answered: nat, r: Result, error: Option<Error>,
                         plan: seq<Call>, start: nat, count: nat)
    requires forall e :: e in w.log ==>
               && e.eventType != "run_cancelled"
               && !(e.eventType in {"run_steer", "run_follow_up"} && e.instruction.Some? && Trim(e.instruction.value) != "")
    requires forall m: nat :: !w.readFails(m) && !w.cancelled(m) && w.arriving(m) == []
    requires forall m: nat ::
               var a := w.answers(m);
               && a.Replied? && a.size <= (if request.limits.maxResultBytes <= 0 then 2097152 else request.limits.maxResultBytes)
               && (a.result.error.Some? ==> !a.result.error.value.retryable)
               && a.result.status in {StatusCompleted, StatusNeedsReview}
    requires Completes(ConfigOf(request, w, before), w, request.limits.maxModelTokens, ResultLimit(request), n, answered, r, error)
    requires w.descriptors.Some? && w.descriptors.value != [] && w.capability && w.subscription
    requires var runId, answer := Trim(request.runId), w.plans(n);
             var resumes := request.resume && runId in before && before[runId].skillId == request.skillId
                            && before[runId].skillVersion == request.skillVersion;
             && start == (if resumes then before[runId].nextIndex else 0)
             && if resumes && before[runId].plan != [] then plan == before[runId].plan
                else answer.Plan? && plan == answer.calls && answer.tokens.None?
    requires |plan| == start + count && count <= if request.limits.maxToolCalls <= 0 then 12 else request.limits.maxToolCalls
    requires forall i :: start <= i < |plan| ==> Described(w.descriptors.value, plan[i])
    ensures error.None? && r.callCount == count && r.retryCount == 0
    ensures forall k :: 1 <= k <= count ==> AnswerTo(w, answered, k).Replied?
    ensures var runId := Trim(request.runId);
            var resumes := request.resume && runId in before && before[runId].skillId == request.skillId
                           && before[runId].skillVersion == request.skillVersion;
            var inherited := if resumes then before[runId].results else [];
            r.results == inherited + Answers(w, answered, count)
    ensures r.status == if exists k :: 1 <= k <= count && AnswerTo(w, answered, k).result.status == StatusNeedsReview
                        then WaitingReview else Completed
  {
    var c := ConfigOf(request, w, before);
    ConfigOfRun(request, w, before);
    IsSmooth(w, ResultLimit(request));
    hide *;
    CompletesAsPlanned(c, w, ResultLimit(request), request.limits.maxModelTokens, n, answered, r, error, plan, start, count);
  }

  lemma IsSmooth(w: World, max: int)
    requires forall e :: e in w.log ==>
               && e.eventType != "run_cancelled"
               && !(e.eventType in {"run_steer", "run_follow_up"} && e.instruction.Some? && Trim(e.instruction.value) != "")
    requires forall m: nat :: !w.readFails(m) && !w.cancelled(m) && w.arriving(m) == []
    requires forall m: nat ::
               var a := w.answers(m);
               && a.Replied? && a.size <= max && (a.result.error.Some? ==> !a.result.error.value.retryable)
               && a.result.status in {StatusCompleted, StatusNeedsReview}
    ensures Smooth(w, max)
  {
    hide Trim;
  }

  lemma CompletesAsPlanned(c: Config, w: World, max: int, limit: int, n: nat, answered: nat, r: Result, error: Option<Error>,
                           plan: seq<Call>, start: nat, count: nat)
    requires Smooth(w, max) && Completes(c, w, limit, max, n, answered, r, error)
    requires w.descriptors.Some? && w.descriptors.value != [] && w.capability && w.subscription
    requires c.allowed == Allowed(w.descriptors.value)
    requires start == if c.resumed.Some? then c.resumed.value.nextIndex else 0
    requires if c.resumed.Some? && c.resumed.value.plan != [] then plan == c.resumed.value.plan
             else w.plans(n).Plan? && plan == w.plans(n).calls && w.plans(n).tokens.None?
    requires |plan| == start + count && count <= c.maxCalls
    requires forall i :: start <= i < |plan| ==> Described(w.descriptors.value, plan[i])
    ensures error.None? && r.callCount == count && r.retryCount == 0
    ensures forall k :: 1 <= k <= count ==> AnswerTo(w, answered, k).Replied?
    ensures var inherited := if c.resumed.Some? then c.resumed.value.results else [];
            r.results == inherited + Answers(w, answered, count)
    ensures r.status == if exists k :: 1 <= k <= count && AnswerTo(w, answered, k).result.status == StatusNeedsReview
                        then WaitingReview else Completed
  {
    PlansAsResumed(c, w, n, limit, plan, start);
    hide *;
    PlayedInOrder(w, max, answered, count, FirstResult(c, w, n));
    IsPlayed(c, w, limit, max, n, answered, r, error, plan, start, count);
  }

  lemma IsPlayed(c: Config, w: World, limit: int, max: int, n: nat, answered: nat, r: Result, error: Option<Error>,
                 plan: seq<Call>, start: nat, count: nat)
    requires Completes(c, w, limit, max, n, answered, r, error)
    requires FirstPlan(c, w, n, limit) == Some(plan) && Executable(c, plan, start)
    requires start == (if c.resumed.Some? then c.resumed.value.nextIndex else 0) && |plan| == start + count
    ensures error.None? && r == Closed(Played(w, max, answered, count, FirstResult(c, w, n)))
  {
    hide FirstPlan, Executable, Closed, Played, FirstResult;
  }

  lemma PlansAsResumed(c: Config, w: World, n: nat, limit: int, plan: seq<Call>, start: nat)
    requires Ready(w) && c.allowed == Allowed(w.descriptors.value)
    requires start == Position(c.resumed) && start <= |plan| <= start + c.maxCalls
    requires if !Planless(c) then plan == PlanOf(c.resumed) else w.plans(n).Plan? && plan == w.plans(n).calls && w.plans(n).tokens.None?
    requires forall i :: start <= i < |plan| ==> Described(w.descriptors.value, plan[i])
    ensures FirstPlan(c, w, n, limit) == Some(plan) && Executable(c, plan, start)
    ensures var first := FirstResult(c, w, n);
            && first.status == Running && first.callCount == 0 && first.retryCount == 0
            && first.results == if c.resumed.Some? then c.resumed.value.results else []
  {
    hide Described, Permitted, Allowed;
    forall i | start <= i < |plan| ensures Permitted(c, plan[i]) {
      DescribedIsPermitted(c, w.descriptors.value, plan[i]);
    }
  }

  lemma PlayedInOrder(w: World, max: int, from: nat, n: nat, first: Result)
    requires Smooth(w, max) && first.status == Running && first.callCount == 0 && first.retryCount == 0
    ensures forall k :: 1 <= k <= n ==> AnswerTo(w, from, k).Replied?
    ensures var r := Closed(Played(w, max, from, n, first));
            && r.callCount == n && r.retryCount == 0 && r.results == first.results + Answers(w, from, n)
            && r.status == if exists k :: 1 <= k <= n && AnswerTo(w, from, k).result.status == StatusNeedsReview then WaitingReview
                           else Completed
  {
    PlayedMeaning(w, max, from, n, first);
    hide Played, Smooth, AnswerTo, Answers;
    assert AnyReview(w, from, n) <==> exists k :: 1 <= k <= n && AnswerTo(w, from, k).result.status == StatusNeedsReview;
  }

  // The last description of the planned tool lets it be called as it is planned.
  ghost predicate Described(tools: seq<Descriptor>, planned: Call) {
    exists d :: 0 <= d < |tools| && tools[d].name == planned.toolName
                && (forall later :: d < later < |tools| ==> tools[later].name != planned.toolName)
                && (tools[d].level == Read || Trim(planned.idempotencyKey) != "")
  }

  lemma DescribedIsPermitted(c: Config, tools: seq<Descriptor>, planned: Call)
    requires c.allowed == Allowed(tools) && Described(tools, planned)
    ensures Permitted(c, planned)
  {
    hide Trim, Allowed;
    var d :| 0 <= d < |tools| && tools[d].name == planned.toolName
             && (forall later :: d < later < |tools| ==> tools[later].name != planned.toolName)
             && (tools[d].level == Read || Trim(planned.idempotencyKey) != "");
    LastDescribedIsAllowed(tools, d);
  }

  lemma ConfigOfRun(request: Request, w: World, stored: map<string, Checkpoint>)
    ensures var c, runId := ConfigOf(request, w, stored), Trim(request.runId);
            && c.runId == runId && c.skillId == request.skillId && c.skillVersion == request.skillVersion
            && c.maxCalls == (if request.limits.maxToolCalls <= 0 then 12 else request.limits.maxToolCalls)
            && c.maxRetries == (if request.limits.maxRetries < 0 then 0 else request.limits.maxRetries)
            && c.allowed == Allowed(if w.descriptors.Some? then w.descriptors.value else [])
            && ResultLimit(request) == (if request.limits.maxResultBytes <= 0 then 2097152 else request.limits.maxResultBytes)
            && c.resumed == (if request.resume && runId in stored && stored[runId].skillId == request.skillId
                                && stored[runId].skillVersion == request.skillVersion then Some(stored[runId]) else None)
  {
  }

  /** Every call is bound to the run and its skill, and its tool is a described one; a tool that may write has its key. */
  lemma CallsAreDescribed(c: Config, tools: seq<Descriptor>, j: Journal, r: Result)
    requires c.allowed == Allowed(tools) && Settled(c, j, r)
    ensures forall k :: 0 <= k < |j| && j[k].Gateway? ==>
              var call := j[k].call;
              && call.runId == c.runId && call.skillId == c.skillId && call.skillVersion == c.skillVersion
              && exists d :: 0 <= d < |tools| && tools[d].name == call.toolName
                             && (forall later :: d < later < |tools| ==> tools[later].name != call.toolName)
                             && (tools[d].level != Read ==> Trim(call.idempotencyKey) != "")
  {
    hide Replay, Allowed, Trim;
    forall k | 0 <= k < |j| && j[k].Gateway?
      ensures var call := j[k].call;
              && call.runId == c.runId && call.skillId == c.skillId && call.skillVersion == c.skillVersion
              && exists d :: 0 <= d < |tools| && tools[d].name == call.toolName
                             && (forall later :: d < later < |tools| ==> tools[later].name != call.toolName)
                             && (tools[d].level != Read ==> Trim(call.idempotencyKey) != "")
    {
      ExecutedCallsArePermitted(c, j, k);
      AllowedAsLastDescribed(tools, j[k].call.toolName);
    }
  }

  lemma NoCallsYet(c: Config, w: World, n: nat)
    ensures FirstResult(c, w, n).callCount == 0
  {
  }

  // How a run begins. Without a plan it fails. With nothing left of the plan it completes at once, with the results it
  // has inherited, whatever they say, without a call and without a look at the controls - and only then. Otherwise it
  // first obeys the controls, from the beginning of the log.
  predicate Begins(c: Config, w: World, limit: int, planned: nat, read: nat, read': nat, r: Result, error: Option<Error>, j: Journal) {
    var plan := FirstPlan(c, w, planned, limit);
    if plan.None? then error == Stops(c, w, planned, limit) && r.status == Failed && r.callCount == 0
    else if |plan.value| <= Position(c.resumed) then
      error == None && r == FirstResult(c, w, planned).(status := Completed) && read' == read
    else
      read < read' && ObeyedFirst(Seen(w, read, 0), [], j, 0, r.callCount, error)
  }

  // Every entry of the first plan is executed once, and the run completes or waits for review.
  predicate Completes(c: Config, w: World, limit: int, maxBytes: int, planned: nat, answered: nat, r: Result, error: Option<Error>) {
    var plan, index := FirstPlan(c, w, planned, limit), Position(c.resumed);
    plan.Some? && Executable(c, plan.value, index) ==>
      error == None && r == Closed(Played(w, maxBytes, answered, |plan.value| - index, FirstResult(c, w, planned)))
  }

  lemma NoPlanNoRun(c: Config, w: World, limit: int, maxBytes: int, planned: nat, answered: nat, read: nat, r: Result,
                    error: Option<Error>, j: Journal)
    requires FirstPlan(c, w, planned, limit).None? && error == Stops(c, w, planned, limit) && r.status == Failed && r.callCount == 0
    ensures Begins(c, w, limit, planned, read, read, r, error, j)
    ensures Completes(c, w, limit, maxBytes, planned, answered, r, error)
  {
  }

  lemma RunsAsPlanned(c: Config, w: World, limit: int, maxBytes: int, planned: nat, answered: nat, read: nat, read': nat,
                      first: Result, r: Result, error: Option<Error>, prepared: Journal, j: Journal, clean: bool)
    requires FirstPlan(c, w, planned, limit).Some? && first == FirstResult(c, w, planned)
    requires var plan, index := FirstPlan(c, w, planned, limit).value, Position(c.resumed);
             && (|plan| <= index ==> error.None? && r == Closed(first) && read' == read)
             && (index < |plan| ==> read < read' && ObeyedFirst(Seen(w, read, 0), prepared, j, first.callCount, r.callCount, error))
             && (Smooth(w, maxBytes) && clean && Executable(c, plan, index) && first.callCount == 0 ==>
                   error.None? && r == Closed(Played(w, maxBytes, answered, |plan| - index, first)))
    ensures Begins(c, w, limit, planned, read, read', r, error, j)
    ensures Smooth(w, maxBytes) && clean ==> Completes(c, w, limit, maxBytes, planned, answered, r, error)
  {
    hide FirstPlan, Seen, Smooth, Executable, Played, Inbox.JoinLines;
    if SteeredWith(prepared, j, FirstSaid(w, read)) {
      SteeredFromStart(prepared, j, FirstSaid(w, read));
    }
  }

  // What the first read of a life says.
  function FirstSaid(w: World, read: nat): string {
    if Seen(w, read, 0).Ok? then Inbox.JoinLines(Seen(w, read, 0).value.instructions) else ""
  }

  lemma SteeredFromStart(before: Journal, after: Journal, said: string)
    requires SteeredWith(before, after, said)
    ensures SteeredWith([], after, said)
  {
    SteeredLater([], before, after, said);
  }

  lemma NothingHeard(log: seq<RC.RunEvent>)
    ensures HeardUpTo(log, 0, [], 0) && HeardFromStart(log, 0, [])
  {
    assert log[..0] == [];
  }

  lemma AttemptsCount(w: World, maxBytes: int, from: nat, n: nat, r: Result)
    requires n > 0
    ensures AfterAttempts(w, maxBytes, from, n, r).callCount == r.callCount + n
    ensures AfterAttempts(w, maxBytes, from, n, r).modelTokens == r.modelTokens
  {
  }

  lemma OneSmoothAttempt(c: Config, w: World, maxBytes: int, from: nat, n: nat, cancelled: bool)
    requires Smooth(w, maxBytes) && MadeAttempts(c, w, maxBytes, from, n, cancelled)
    ensures n == 1 && OutcomeOf(w.answers(from), maxBytes).Going?
  {
    assert SmoothAnswer(w.answers(from), maxBytes);
    var first := AnswerTo(w, from, 1);
  }

  /** A resumed run that finished without a call and without a new plan had nothing left of its plan. */
  lemma SilentRunHadNothingLeft(c: Config, j: Journal, r: Result)
    requires Settled(c, j, r) && !Planless(c) && !WasSteered(j) && r.callCount == 0
    requires r.status == Completed || r.status == WaitingReview
    ensures |PlanOf(c.resumed)| <= Position(c.resumed)
  {
    SettledRun(c, j, r);
    SilentFinishHadNothingLeft(c, j);
  }

  /** A finished life that was steered - by an instruction an earlier life had already obeyed, say - works on a plan
      of its own, and so repeats what earlier lives did. */
  lemma SteeredRunStartsOver(c: Config, j: Journal, r: Result, said: string)
    requires Settled(c, j, r) && SteeredWith([], j, said)
    ensures Replay(c, j).value.installed
  {
    assert RunJournal.Emit(RunSteered(said)) in j[0..];
    InstalledHolds(c, j);
    hide Replay;
  }

  // ----- runs that are started again -----

  // A run of the id, and how much of what it did had happened when the process died.
  datatype Start = Start(request: Request, world: World, whole: Journal, r: Result, crash: nat)

  function Lookup(stored: map<string, Checkpoint>, runId: string): Option<Checkpoint> {
    if runId in stored then Some(stored[runId]) else None
  }

  // The run began with one store and left another, as Run promises for saves that succeed; what other runs did to the
  // store in the meantime does not matter.
  ghost predicate Leaves(runId: string, before: map<string, Checkpoint>, x: Start, after: map<string, Checkpoint>) {
    && Trim(x.request.runId) == runId && x.crash <= |x.whole|
    && Settled(ConfigOf(x.request, x.world, before), x.whole, x.r) && AllDurable(x.whole)
    && Lookup(after, runId) == Lookup(StoredWith(before, runId, x.whole[..x.crash]), runId)
  }

  ghost predicate Starts(runId: string, stores: seq<map<string, Checkpoint>>, starts: seq<Start>) {
    |stores| == |starts| + 1 && forall k :: 0 <= k < |starts| ==> Leaves(runId, stores[k], starts[k], stores[k + 1])
  }

  function LifeOf(before: map<string, Checkpoint>, x: Start): Life
    requires x.crash <= |x.whole|
  {
    Life(ConfigOf(x.request, x.world, before), x.whole[..x.crash])
  }

  ghost function LivesOf(runId: string, stores: seq<map<string, Checkpoint>>, starts: seq<Start>): (lives: seq<Life>)
    requires Starts(runId, stores, starts)
    ensures |lives| == |starts|
    ensures forall k :: 0 <= k < |lives| ==> Leaves(runId, stores[k], starts[k], stores[k + 1]) && lives[k] == LifeOf(stores[k], starts[k])
  {
    seq(|starts|, k requires 0 <= k < |starts| => assert Leaves(runId, stores[k], starts[k], stores[k + 1]); LifeOf(stores[k], starts[k]))
  }

  lemma StartIsGoodLife(runId: string, before: map<string, Checkpoint>, x: Start, after: map<string, Checkpoint>)
    requires Leaves(runId, before, x, after)
    ensures GoodLife(LifeOf(before, x), Lookup(before, runId))
    ensures var saved := LastSaved(LifeOf(before, x).journal);
            Lookup(after, runId) == if saved.Some? then saved else Lookup(before, runId)
  {
    CrashesAreLegal(ConfigOf(x.request, x.world, before), x.whole, x.crash);
    forall e | e in x.whole[..x.crash] && e.Save? ensures e.durable {
      assert e in x.whole;
    }
    hide Replay, Allowed, LastSaved;
  }

  lemma {:induction false} StoresFollowLives(runId: string, stores: seq<map<string, Checkpoint>>, starts: seq<Start>, k: nat)
    requires Starts(runId, stores, starts) && k <= |starts|
    ensures StoredAfter(Lookup(stores[0], runId), LivesOf(runId, stores, starts)[..k]) == Lookup(stores[k], runId)
  {
    hide Leaves, LifeOf, Lookup, LastSaved, LivesOf;
    var lives := LivesOf(runId, stores, starts);
    if k > 0 {
      StoresFollowLives(runId, stores, starts, k - 1);
      assert Leaves(runId, stores[k - 1], starts[k - 1], stores[k]);
      StartIsGoodLife(runId, stores[k - 1], starts[k - 1], stores[k]);
      assert lives[..k][..k - 1] == lives[..k - 1] && lives[..k][k - 1] == lives[k - 1];
    }
  }

  /** Runs of one id that are started again and again, with any requests, planners and gateways, and cut off anywhere,
      are a chain of lives: what is proved of the stored position holds of them. */
  lemma StartsAreLives(runId: string, stores: seq<map<string, Checkpoint>>, starts: seq<Start>)
    requires Starts(runId, stores, starts) && NothingDone(Lookup(stores[0], runId))
    ensures Chain(Lookup(stores[0], runId), LivesOf(runId, stores, starts))
    ensures StoredAfter(Lookup(stores[0], runId), LivesOf(runId, stores, starts)) == Lookup(stores[|starts|], runId)
  {
    var first, lives := Lookup(stores[0], runId), LivesOf(runId, stores, starts);
    forall k | 0 <= k < |lives| ensures GoodLife(lives[k], StoredAfter(first, lives[..k])) {
      StoresFollowLives(runId, stores, starts, k);
      StartIsGoodLife(runId, stores[k], starts[k], stores[k + 1]);
    }
    StoresFollowLives(runId, stores, starts, |starts|);
    assert lives[..|starts|] == lives;
    hide Leaves, LifeOf, Lookup, GoodLife, StoredAfter;
  }

  /** When the last of them completes, or waits for review, every entry of its plan has been answered in one of them. */
  lemma CompletedRunAnsweredItsPlan(runId: string, stores: seq<map<string, Checkpoint>>, starts: seq<Start>)
    requires Starts(runId, stores, starts) && NothingDone(Lookup(stores[0], runId)) && starts != []
    requires var last := starts[|starts| - 1];
             last.crash == |last.whole| && (last.r.status == Completed || last.r.status == WaitingReview)
    ensures var lives := LivesOf(runId, stores, starts);
            && AllLegal(lives)
            && forall i :: 0 <= i < |StateOf(lives[|lives| - 1]).plan| ==> i in Answered(lives)
  {
    var first, lives, last := Lookup(stores[0], runId), LivesOf(runId, stores, starts), starts[|starts| - 1];
    StartsAreLives(runId, stores, starts);
    assert Leaves(runId, stores[|starts| - 1], last, stores[|starts|]);
    assert last.whole[..last.crash] == last.whole;
    hide Replay, Answered, Chain, StoredAfter, Lookup, ConfigOf, LastSaved;
    FinishedPlanFullyAnswered(first, lives);
  }
}
