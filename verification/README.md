# Verification of the agent runtime

A Dafny model of the agent runtime of the core service, with proofs of what it keeps under every interleaving,
crash, store failure and model answer. Each module follows one source file or component:

| module | what it models |
|---|---|
| `AccessScope`, `GrantStore`, `Capability`, `RevocationProtocol`, `RevocationRuns` | data-access scopes; delegated capability tokens over a shared grants table; the distributed revocation protocol and concrete runs of it |
| `RemoteControl`, `Inbox`, `RunJournal`, `Runner` | the runner: control readers, local steering, the protocol of a run with checkpoints and crashes, and the run itself |
| `ChatRun`, `ChatRuntime`, `ChatHistory` | the chat run lifecycle over a store that may fail, the session lease, and the history given to continuations |
| `ToolCall`, `AgentLoop`, `AgentQueue`, `AgentRuns`, `FileLoop` | the agent loop and its hooks, its queues, the stateful wrapper, and the file pipeline on top |
| `ToolPolicy`, `ToolRegistry`, `ToolRuntime` | tool validation, discovery and execution |
| `ContextKey` | the isolation key and its cache string |
| `SkillVersion`, `SkillRegistry` | version order and skill selection |
| `IntakeValue`, `IntakeEvidence`, `IntakeGate`, `IntakePayment`, `PaymentTable` | payment intake: the producing side and the consuming gate |
| `ColumnLetter`, `Text`, `TextSort`, `Wrappers` | column names, strings, and option and result types |

`dafny verify dfyconfig.toml` checks everything.

How the world enters: a collaborator that the code cannot see into (planner, gateway, model, store, clock, uuid,
hooks, parsers) is a function parameter giving its n-th answer, so a statement for all parameters is a statement
for all behaviours. A store operation succeeds, fails, or takes effect without being acknowledged. Concurrency
is a state machine whose steps are what one goroutine does under a lock or what one SQL statement does.
Where code changes state, a class with the code's fields is proved against a specification function or a
protocol, and the properties are lemmas about that. Main results are stated over inputs, rows, journals and traces;
functions that decide or build a value are also spelled out over their inputs (`ContextKey.CacheText`,
`IntakePayment.ColumnsOfSchedule`, `PaymentTable.AnswersOfTable` and others), which the table below does not list.

## Where the code differs from what it promises

Each point is proved, as an exact condition or a concrete run:

- A token whose revocation is in the table is accepted by a parse that stalls across the token's expiry and the
  cleanup of its row, and by no other (`RevocationProtocol.RevokedTokenAcceptedIff`,
  `RevocationRuns.StalledParseIsAccepted`).
- The instance that revoked a run accepts its tokens in parses that read their clock before the mark, as long as the
  table has not heard of the revocation; marking the run again lets later parses through
  (`RevocationProtocol.PassesOwnCheckIff`, `RevocationRuns.StaleClockIsAccepted`, `RevocationRuns.SecondMarkReopensRun`).
- A token widens an issuing scope whose entity or values are not trimmed, or that has a list of blanks only
  (`Capability.TokenScopeWithinIssuingScopeIff`).
- A fresh token is refused while its run has an expired or revoked sibling row
  (`GrantStore.LiveTokenRefusedIffSiblingDead`).
- A run that is resumed with nothing left of its plan completes at once, whatever the saved results say - a
  rejection, a pending retry, a review request - and without a look at the controls (`Runner.Runner.Run`,
  `Runner.SilentRunHadNothingLeft`, `RunJournal.ResumeForgetsLastAnswer`). Resumed with something left it first obeys
  the control events from the beginning, because the cursor is not part of the checkpoint: an old cancellation ends
  it, an old instruction makes it start over with a new plan (`Runner.ResumedLifeHearsAgain`,
  `Runner.SteeredRunStartsOver`).
- With MaxRetries 0 a transport error is still retried once (`Runner.TransportErrorsGetOneMoreRetry`).
- `Start` and `Run` lose the session lease when preparation fails after taking it; `Run` and `Continue` execute
  runs queued for the worker (`ChatRuntime.LeaseLeaksIffStoreFails`, `ChatRuntime.OnlyStartHonoursTheQueue`).
- A chat run gets two terminal events exactly when the acknowledgement of its own is lost and it is then marked
  failed (`ChatRun.AtMostOneTerminalEvent`, `ChatRun.LostAcknowledgementEndsRunTwice`), and an executor can emit a
  terminal event type (`ChatRun.EmittedTerminalTypeEndsRunEarly`).
- The documented event order of the loop allows no `ToolExecutionEnd` without a start, but a call of an
  unregistered tool emits one (`AgentLoop.CallGrammar`). Rewritten arguments do not survive `ChainBefore`
  (`ToolCall.ChainedRewritesNeverReachTheTool`).
- `WaitForIdle` can report a failed run as clean (`AgentRuns.LaterRunOrResetHidesFailure`).
- A tool whose name or version is padded with space is discoverable but cannot be executed
  (`ToolRegistry.ResolvableIffTrimmed`); a draft handler's own failure is reported as needs_review
  (`ToolRuntime.DraftsEndInReviewOrFailure`).
- A quote is accepted as evidence although it does not occur in the source, exactly when it is longer
  (`IntakeEvidence.MatchOccursInSourceIff`, `IntakeEvidence.QuoteMayExceedSource`).

## Model

| member | source | states |
|---|---|---|
| `AccessScope.IntersectDimensionLoop` | core-service/internal/access/scope.go:115-139 | the loop with its lookup and seen sets computes the common members of the left list in order, or fails when two non-empty lists share nothing |
| `AccessScope.DimensionMeaning` | core-service/internal/access/scope.go:46-56 | an intersected list admits exactly the values both lists admit; a failed one means no value is admitted by both |
| `AccessScope.IntersectionIsConjunction` | core-service/internal/access/scope.go:70-103 | a successful intersection of scopes with trimmed entities allows exactly the contracts both operands allow |
| `AccessScope.RestrictedIntersection` | core-service/internal/access/scope.go:70-139 | two restricted scopes intersect exactly when their trimmed entities are one and no two non-empty lists of the same dimension are disjoint; each list of the result is what that dimension of both has in common |
| `AccessScope.IntersectionAllowsExactly` | core-service/internal/access/scope.go:34-103 | what a successful intersection of trimmed scopes allows, dimension by dimension: the common entity, and a store, region and brand that each operand lists or does not restrict |
| `AccessScope.OneDimensionRefuses` | core-service/internal/access/scope.go:34-56 | a restricted scope refuses a contract for its entity, store, region or brand alone, and for nothing else |
| `AccessScope.FailureMeansNothingShared` | core-service/internal/access/scope.go:70-103 | a failure caused by entity, store, region or brand means no contract is allowed by both operands |
| `AccessScope.FailureSharesContractsIff` | core-service/internal/access/scope.go:86-102 | a failed intersection still leaves contracts both operands allow exactly when only plant, production-line or equipment lists were disjoint |
| `AccessScope.StaysWithinLeftIffTrimmed` | core-service/internal/access/scope.go:77-82 | the result stays within a restricted left operand exactly when that operand's entity is trimmed |
| `AccessScope.IntersectionCommutes` | core-service/internal/access/scope.go:70-103 | commutative up to list order, failures included |
| `AccessScope.IntersectionAssociates` | core-service/internal/access/scope.go:70-103 | three scopes have the same intersection however they are grouped, up to list order, failures included |
| `GrantStore.PostgresStore.Register` | core-service/internal/agentcapability/postgres.go:31-45 | inserts or overwrites the row of a token; every row keeps its revocation time and all other rows stay as they are; a fault leaves the table as it was or the insert unacknowledged |
| `GrantStore.PostgresStore.RevokeRun` | core-service/internal/agentcapability/postgres.go:62-75 | every row of the run whose owner matches has its earliest revocation time and an expiry no shorter than before or than the given one; no other row changes, none appears or disappears |
| `GrantStore.PostgresStore.Lookup` | core-service/internal/agentcapability/postgres.go:77-93 | lets a token through only when its own row and every row of its run are unexpired and unrevoked; a fault is an error |
| `GrantStore.PostgresStore.CleanupExpired` | core-service/internal/agentcapability/postgres.go:130-142 | deletes exactly the rows that expire at or before the given time, revoked or not, leaves the others as they are, and returns how many were deleted |
| `GrantStore.RevocationTimeStands` | core-service/internal/agentcapability/postgres.go:31-142 | over any history of statements a revoked row keeps its first revocation time until a cleanup deletes it, even when its token is registered again or revoked again |
| `GrantStore.RowOnlyGrows` | core-service/internal/agentcapability/postgres.go:31-142 | a row keeps its run, owner, revocation and at least its expiry over any history that neither registers its token again nor cleans it up |
| `GrantStore.LiveTokenRefusedIffSiblingDead` | core-service/internal/agentcapability/postgres.go:82-87 | a live token's row does not save it: it is refused exactly when some other row of its run is expired or revoked |
| `GrantStore.TokenRevocationRefusesWholeRun` | core-service/internal/agentcapability/postgres.go:47-93 | after revoking one token every token of its run is refused, whatever else is executed, until the row is registered again or cleaned up |
| `GrantStore.RunRevocationRefusesWholeRun` | core-service/internal/agentcapability/postgres.go:62-93 | the same for a run revocation that reached at least one row of the run |
| `Capability.NormalizeLoop` | core-service/internal/agentcapability/token.go:366-382 | keeps the first trimmed spelling of every non-blank value, by case-folded key |
| `Capability.NormalizeSound` | core-service/internal/agentcapability/token.go:366-382 | every normalised value is a trimmed, non-blank spelling of a given value |
| `Capability.NormalizeComplete` | core-service/internal/agentcapability/token.go:366-382 | every non-blank value keeps a spelling |
| `Capability.NormalizeDistinct` | core-service/internal/agentcapability/token.go:366-382 | no two normalised values have the same key |
| `Capability.NormalizeKeepsFirstSpellings` | core-service/internal/agentcapability/token.go:366-382 | the normalised values are exactly the trimmed first spellings of the non-blank values |
| `Capability.NormalizeOneMore` | core-service/internal/agentcapability/token.go:366-382 | one more value is kept, trimmed, at the end, exactly when it has text and no earlier value is the same up to space and case |
| `Capability.TokenScopeWithinIssuingScopeIff` | core-service/internal/agentcapability/token.go:160-183 | a token's claims scope allows no contract the issuing scope refuses exactly when the issuing scope is global or has a blank entity, or its entity is trimmed and each list is empty or has a non-blank value and the trimmed form of every first spelling |
| `Capability.CleanScopeNeverWidens` | core-service/internal/agentcapability/token.go:160-183 | issued from a scope whose entity and values are trimmed and not blank, a token never widens it |
| `Capability.Issuer.Issue` | core-service/internal/agentcapability/token.go:127-199 | issues exactly for a request with a user, a run, a tool and a permission that are not blank and a lifetime that fits, when its grant reaches the store; the claims are the trimmed and normalised request with whole-second dates; remembers the owners and registers the expiry |
| `Capability.Issuer.Parse` | core-service/internal/agentcapability/token.go:201-231 | accepts exactly genuine tokens of the audience within their dates, with user, run, tools and permissions, that this instance has not marked and whose run has only unexpired and unrevoked rows; a failing store refuses |
| `Capability.Issuer.RevokeRun` | core-service/internal/agentcapability/token.go:253-267 | marks the run in this instance first, whatever the store does, then revokes the rows of the remembered owner |
| `Capability.Issuer.RevokeRunForUser` | core-service/internal/agentcapability/token.go:289-307 | changes nothing unless the user owns the run, in memory or in the store |
| `RevocationProtocol.InvHolds` | core-service/internal/agentcapability/postgres.go:31-142 | in every interleaving of all instances' steps a registered token's row is there, with the token's run and owner, until the token has expired |
| `RevocationProtocol.RevokedTokenAcceptedIff` | core-service/internal/agentcapability/token.go:201-336 | once a registered token or its run is revoked in the table, a lookup accepts the token exactly when its row has been cleaned up and all other rows of its run are alive; then the parse checked the dates before the expiry and looks up after it, and not before the mark plus the revoking instance's token lifetime |
| `RevocationProtocol.RevokedTokenNotAcceptedAlive` | core-service/internal/agentcapability/token.go:201-336 | so no instance accepts it while it lives |
| `RevocationRuns.StalledParseIsAccepted` | core-service/internal/agentcapability/token.go:216-336 | the remaining case is real, at the earliest time it leaves open: another instance revokes the run while the parse stands between its own check and the lookup |
| `RevocationProtocol.PassesOwnCheckIff` | core-service/internal/agentcapability/token.go:253-322 | after an instance marked a run, a parse of a token of that run passes the instance's own check exactly when it read its clock before the time of the last mark and the token itself is not marked, whether or not the store was reached |
| `RevocationProtocol.ReadAfterMarkIsRefused` | core-service/internal/agentcapability/token.go:309-322 | a parse that reads its clock after the last mark is refused by the marking instance |
| `RevocationRuns.StaleClockIsAccepted` | core-service/internal/agentcapability/token.go:253-336 | a parse that read its clock before the mark is accepted by the marking instance after the mark, when the statement does not reach the table |
| `RevocationRuns.SecondMarkReopensRun` | core-service/internal/agentcapability/token.go:253-322 | marking a run again moves the mark forward: a parse that started after the first mark is accepted |
| `RevocationProtocol.OneOwnerRevokesWholeRun` | core-service/internal/agentcapability/token.go:253-267 | with one owner per run, every run revocation that reaches the table revokes every token of that run |
| `RemoteControl.ReadPage` | core-service/internal/agentrunner/runner.go:243-283 | a polled page gives its instructions in order, its cancellation, and the highest sequence number |
| `RemoteControl.ReadStream` | core-service/internal/agentrunner/runner.go:285-342 | a drained stream gives the instructions of the events whose numbers exceed every earlier one, and stops at the first error |
| `RemoteControl.WhatAPageSays` | core-service/internal/agentrunner/runner.go:243-283 | the instructions of a page are the trimmed, non-blank texts of its run_steer and run_follow_up events, a run_cancelled cancels, and the cursor is the highest number seen |
| `RemoteControl.PagesSayInOrder` | core-service/internal/agentrunner/runner.go:243-283 | and each of them once, in the order of the events |
| `RemoteControl.FreshIfHigher` | core-service/internal/agentrunner/runner.go:302-340 | the stream reader lets an event through exactly when its number is above the cursor and above every number before it |
| `RemoteControl.StreamReadsCompose` | core-service/internal/agentrunner/runner.go:285-342 | cutting a stream into reads at any points loses and repeats nothing |
| `RemoteControl.PollsDeliverLog` | core-service/internal/agentrunner/runner.go:243-283 | polling with any page sizes delivers the log's instructions in order, each exactly once |
| `RemoteControl.StreamAgreesWithPolling` | core-service/internal/agentrunner/runner.go:243-342 | for any cut points and any redelivery of old events both readers deliver the same instructions and reach the same cursor |
| `RemoteControl.ReadsMakeProgress` | core-service/internal/agentrunner/runner.go:243-283 | the cursor never moves back, and a read that delivers an instruction leaves fewer events unread |
| `Inbox.SteersConserved` | core-service/internal/agentrunner/runner.go:191-241 | for every sequence of calls: the instructions handed to the planner or dropped at the end of a run, followed by those waiting, are exactly those accepted, in order |
| `Inbox.LinesAreJoined` | core-service/internal/agentrunner/runner.go:232-241 | waiting instructions are joined by line ends, in order |
| `Inbox.NothingWaitsForIdleRun` | core-service/internal/agentrunner/runner.go:191-241 | an inactive run has nothing waiting, so a later run of the same id starts clean |
| `RunJournal.CallsBounded` | core-service/internal/agentrunner/runner.go:499-533 | whatever the planner answers, a life makes at most MaxToolCalls + MaxRetries + 1 gateway calls, each announced |
| `RunJournal.CallsAreEntriesPlusRetries` | core-service/internal/agentrunner/runner.go:518-544 | the call count is the number of plan entries started plus the retry count |
| `RunJournal.EventGrammar` | core-service/internal/agentrunner/runner.go:378-590 | run_started comes first and only once; a terminal event is the last one, there exactly when the life is over, and stands for its status |
| `RunJournal.ExecutedCallsArePermitted` | core-service/internal/agentrunner/runner.go:502-517 | every gateway call is an entry of the current plan for a discovered tool, bound to the run and skill, under the planned call id and tool version or the defaults for blank ones; a call that may write has its idempotency key |
| `RunJournal.CheckpointIsLiveAtHead` | core-service/internal/agentrunner/runner.go:436-472 | at every loop head the stored plan and position equal the live ones, after replanning too |
| `RunJournal.SavedCheckpointIsCurrent` | core-service/internal/agentrunner/runner.go:535-602 | every saved checkpoint is the run's own and holds the inherited results, the announced answers and the answer just before it, with the position behind that answer, at the start after a steering, or at the end of a finished plan |
| `RunJournal.SavedStatusIsCurrent` | core-service/internal/agentrunner/runner.go:438-602 | the first one is queued, one saved after an answer or a steering says whether an answer has asked for a review, and the last one of a cancelled, failed or finished run says so |
| `RunJournal.EndIsAnnounced` | core-service/internal/agentrunner/runner.go:540-638 | a life that is over has announced its status and no other end |
| `RunJournal.ResultsAreInheritedAndAnnounced` | core-service/internal/agentrunner/runner.go:414-420 | a life's results are those of its checkpoint, once it has said that it is resumed, followed by the answers it has announced |
| `RunJournal.CallsFollowFirstPlan` | core-service/internal/agentrunner/runner.go:408-524 | until it is steered a life calls only entries of the plan it saved first, none before the position it saved first, and the first of them at that position |
| `RunJournal.StoredPositionIsExact` | core-service/internal/agentrunner/runner.go:414-472 | from an empty store, over any number of fresh and resumed lives that crash anywhere, the stored position is exact: every entry of the stored plan before it has been answered, none after it, and the entries were sent in plan order across the lives |
| `RunJournal.FinishedPlanFullyAnswered` | core-service/internal/agentrunner/runner.go:414-589 | when the last life finishes, every entry of its plan has been answered in some life |
| `RunJournal.OnlyInFlightEntryRepeats` | core-service/internal/agentrunner/runner.go:414-541 | two lives on the same plan, fresh first life included, share at most the entry that was in flight between them |
| `RunJournal.OwnPlanIff` | core-service/internal/agentrunner/runner.go:414-450 | a life works on a plan of its own, from its first entry, exactly when it found none to go on with or was steered |
| `RunJournal.ReviewComesFromOwnAnswers` | core-service/internal/agentrunner/runner.go:551-554 | a life ends in waiting_review exactly when one of its own answers asked for it; inherited results do not count |
| `RunJournal.ResumeForgetsLastAnswer` | core-service/internal/agentrunner/runner.go:414-435 | the concrete run: a crash right after any answer was saved - rejected, retryable or needing review - makes the resumed run report completed without another call |
| `Runner.SettledRun` | core-service/internal/agentrunner/runner.go:344-590 | a finished run's call count is its gateway calls, its announcements, and its entries plus retries, within the bound; its events begin with run_started and end with the one terminal event |
| `Runner.StartsAreLives` | core-service/internal/agentrunner/runner.go:344-590 | runs of one id, started again and again with any requests and collaborators and cut off anywhere, with the configuration Run makes from what is stored, are such a chain of lives |
| `Runner.CompletedRunAnsweredItsPlan` | core-service/internal/agentrunner/runner.go:344-590 | when the last of them completes or waits for review, every entry of its plan has been answered in one of them |
| `Runner.ResumedLifeHearsAgain` | core-service/internal/agentrunner/runner.go:436-453 | every life reads the control events from the beginning, so a resumed life is given again, in order, every instruction an earlier life was given, as far as it reads |
| `Runner.SteeredRunStartsOver` | core-service/internal/agentrunner/runner.go:438-472 | a finished life that was steered, also by an instruction that an earlier life had obeyed, works on its own plan from the first entry |
| `Runner.SilentRunHadNothingLeft` | core-service/internal/agentrunner/runner.go:414-589 | a resumed run that finished without a call and without being steered had nothing left of its plan: with Run's promise for that case, exactly those runs do |
| `Runner.AnyInstructionSpeaks` | core-service/internal/agentrunner/runner.go:454-472 | a read that delivers any instruction replans the run |
| `Runner.TransportErrorsGetOneMoreRetry` | core-service/internal/agentrunner/runner.go:518-544 | an unreachable gateway is tried MaxRetries + 2 times, a retryable answer asked for MaxRetries + 1 times: with MaxRetries 0 a transport error is still retried once |
| `Runner.PlayedMeaning` | core-service/internal/agentrunner/runner.go:518-589 | an undisturbed life makes one call per entry, keeps the answers in order, and waits for review exactly when one of them asks for it |
| `Runner.Runner.Run` | core-service/internal/agentrunner/runner.go:344-590 | whatever planner, gateway, store and event log do: a run ends, its journal is legal and agrees with the result, the store keeps the last durable checkpoint. A run asked to resume, with a stored checkpoint of its skill and version, says run_resumed with that checkpoint's position, extends its results and calls nothing before that position until it is steered; no other run says so, and then the first plan is the planner's from its first entry. Every call is bound to the run and its tool described, and the calls are bounded by the limits or their defaults |
| `Runner.ResumesAsAsked` | core-service/internal/agentrunner/runner.go:411-423 | exactly the request to resume and a stored checkpoint of the same skill and version make a run resume: it says so, and its results extend the checkpoint's |
| `Runner.CallsAsPlanned` | core-service/internal/agentrunner/runner.go:408-440 | until a steering the calls are the entries of the checkpoint's plan from its position on, or of the planner's answer |
| `Runner.CallsAreDescribed` | core-service/internal/agentrunner/runner.go:390-396 | each call's tool is a described one, and its last description decides whether it needs an idempotency key |
| `Runner.StartsAsAsked` | core-service/internal/agentrunner/runner.go:386-453 | which error ends a run before its first entry - discovery, capability, plan, token report, subscription, in this order - and that nothing left to do completes it at once |
| `Runner.CompletesAsAsked` | core-service/internal/agentrunner/runner.go:362-590 | a run that nothing disturbs, with described tools within the budget, makes one call per remaining entry, keeps the answers in order, and waits for review exactly when one asks for it |
| `Runner.LeavesItsCheckpoint` | core-service/internal/agentrunner/runner.go:584-638 | the store ends with the run's last durable checkpoint and is otherwise as it was; one end is announced, that of the result |
| `Runner.AttemptsWhileAskedAgain` | core-service/internal/agentrunner/runner.go:518-541 | an entry is tried again after a transport error in the first maxRetries + 1 attempts and after a retryable answer of an allowed size in the first maxRetries, and otherwise never |
| `Runner.AttemptsAreCounted` | core-service/internal/agentrunner/runner.go:518-553 | the last answer decides how the entry ends; every attempt is counted, and every answer of an allowed size is kept |
| `Runner.Runner.Drive` | core-service/internal/agentrunner/runner.go:472-589 | the main loop terminates: every turn consumes a control event or makes a call; nothing left completes at once, and an undisturbed life completes with one call per entry |
| `Runner.Runner.ExecuteEntry` | core-service/internal/agentrunner/runner.go:518-577 | one entry is sent exactly as often as its answers demand - a transport error gets one retry more than a retryable answer - and the result counts every call and retry, keeps every answer that fits, and ends as the last answer says |
| `Runner.Runner.JudgeAnswer` | core-service/internal/agentrunner/runner.go:541-554 | a retryable answer goes back to the gateway while retries are left, a failed or rejected one ends the run, a review request is remembered, any other moves to the next entry |
| `Runner.Runner.ObeyControls` | core-service/internal/agentrunner/runner.go:454-486 | between two entries: a read error fails the run, a cancellation cancels it, an instruction replans it from the first entry, announced with that instruction |
| `Runner.Runner.Turn` | core-service/internal/agentrunner/runner.go:472-583 | one turn first obeys the controls it reads - a failed read, a cancellation or an instruction comes before any call - and after a call takes every waiting local instruction, replanning when there is one |
| `Runner.Runner.LookAtInbox` | core-service/internal/agentrunner/runner.go:232-241 | the run takes every instruction that was accepted for it, joined in order, and leaves other runs' instructions alone |
| `ChatRun.TerminalEventsCounted` | core-service/internal/aichat/runtime.go:361-549 | exactly how many terminal events a run gets, by the answers of the store at the operations of the work and of marking it failed, for every executor emission |
| `ChatRun.AtMostOneTerminalEvent` | core-service/internal/aichat/runtime.go:361-549 | two terminal events occur exactly when the answer of the run's own terminal write was lost and marking it failed was stored, none exactly when neither was stored; if there is one, a terminal event is last |
| `ChatRun.TerminalEventAgreesWithStatus` | core-service/internal/aichat/runtime.go:434-512 | by the answers of the store: exactly when the last event is a terminal one that stands for the stored status |
| `ChatRun.OneTerminalEventUnlessLost` | core-service/internal/aichat/runtime.go:361-512 | over a store that loses no answer there is at most one terminal event, and exactly one means that it is last and stands for the stored status |
| `ChatRun.FlawlessRunEndsOnce` | core-service/internal/aichat/runtime.go:361-512 | without store failures there is exactly one terminal event, last, agreeing with the status; an invalid artifact fails the run |
| `ChatRun.LostAcknowledgementEndsRunTwice` | core-service/internal/aichat/runtime.go:443-512 | one lost acknowledgement gives a completed run the status failed and the events run_end and run_error |
| `ChatRun.EmittedTerminalTypeEndsRunEarly` | core-service/internal/repository/agent_run_audit.go:67-143 | the event writer marks terminal types by itself, so an executor emission can end a run before it is over |
| `ChatRuntime.PrepareSucceedsIff` | core-service/internal/aichat/runtime.go:217-359 | preparation succeeds exactly when the request is complete, its session resolves and each of its store operations succeeds |
| `ChatRuntime.LeaseLeaksIffStoreFails` | core-service/internal/aichat/runtime.go:152-359 | Start and Run release the session lease exactly once and last, except exactly when preparation fails after taking it: then never |
| `ChatRuntime.OnlyStartHonoursTheQueue` | core-service/internal/aichat/runtime.go:152-192 | Start never executes a run queued for the worker; Run and Continue execute it although its row still says queued |
| `ChatRuntime.PreparedHasNoTerminals` | core-service/internal/aichat/runtime.go:313-359 | preparation stores no terminal event, so the counts above apply to every prepared run |
| `ChatRun.ExecuteByAnswers` | core-service/internal/aichat/runtime.go:361-512 | by the answers of the store alone: the work is acknowledged exactly when every one of its operations succeeds and no artifact is invalid; otherwise marking the run failed begins right after the first failed operation or invalid artifact |
| `ChatRun.WorkIsStoredInOrder` | core-service/internal/aichat/runtime.go:361-549 | behind its emissions a run stores, as far as it gets, message_end, then unless it failed tool_end, review_prompt and one artifact_ready per artifact as it has them, and the terminal event; when all is acknowledged all is there, with the status |
| `ChatRun.EmissionIsStoredInOrder` | core-service/internal/repository/agent_run_audit.go:67-143 | an emission is stored behind the earlier ones or not at all, and is terminal exactly for the four terminal types |
| `ChatRun.BrokenRunIsMarked` | core-service/internal/aichat/runtime.go:502-512 | a broken run gets the failed status and then run_error |
| `ChatRun.PreparationIsStoredInOrder` | core-service/internal/aichat/runtime.go:313-359 | preparation stores message_start and then run_dispatched for a queued run or run_status for a running one |
| `ChatRuntime.Runtime.Start` | core-service/internal/aichat/runtime.go:152-176 | the run and the lease end as the two specifications say, for every store and plan |
| `ChatRuntime.Runtime.Run` | core-service/internal/aichat/runtime.go:178-192 | as Start, executed in the caller and reporting persistence failures |
| `ChatRuntime.Runtime.Continue` | core-service/internal/aichat/continuation.go:27-82 | takes the lease of an owned session, prepares with it, executes, and gives it back on every path |
| `ChatHistory.CompressedHistory` | core-service/internal/aichat/continuation.go:214-254 | the history is a contiguous, ordered part of the conversation: all of it when short, else its last twelve messages or the twelve around the anchor, which is among them |
| `ChatHistory.OldestFirst` | core-service/internal/aichat/continuation.go:214-224 | the conversation is the user's and the assistant's messages, in the order opposite to the store's |
| `ChatHistory.WindowIsAroundAnchor` | core-service/internal/aichat/continuation.go:244-253 | the window is eight messages before the anchor and three behind it, moved as little as needed to lie inside the conversation |
| `ToolCall.ChainBefore` | core-service/internal/agentcore/hooks.go:59-78 | runs the hooks in order, each seeing the arguments the earlier ones left, up to the first decision |
| `ToolCall.ChainHearsFirstDecision` | core-service/internal/agentcore/hooks.go:59-78 | the first hook that decides, on the rewritten arguments, is the chain's answer |
| `ToolCall.ChainDropsRewrites` | core-service/internal/agentcore/hooks.go:72-76 | a chain that decides nothing answers nothing: the rewritten arguments are lost |
| `ToolCall.ChainedRewritesNeverReachTheTool` | core-service/internal/agentcore/hooks.go:59-78 | behind a chain a tool is always given the model's own arguments |
| `ToolCall.ChainOfOneDiffersIffItRewrites` | core-service/internal/agentcore/hooks.go:59-78 | chaining one hook is the same as using it alone exactly when it does not rewrite the call |
| `ToolCall.ChainAfter` | core-service/internal/agentcore/hooks.go:81-94 | every after-hook runs and the errors are those of all of them |
| `ToolCall.DecidedCall` | core-service/internal/agentcore/loop.go:159-194 | a hook's error fails the call and the run, its block rejects the call with its reason, its result is taken as it is; start and end are announced |
| `ToolCall.ExecutedCall` | core-service/internal/agentcore/loop.go:195-231 | a call that reaches its tool announces its start, each partial update and its end; a tool error fails the call, an after-hook's error the call and the run |
| `AgentLoop.CallGrammar` | core-service/internal/agentcore/loop.go:146-232 | a registered call's events follow the documented grammar; an unregistered call's end comes without a start and breaks it; either way its end is announced exactly once |
| `AgentLoop.MessageGrammar` | core-service/internal/agentcore/loop.go:88-102 | a round's message events are in order exactly when the model opened, updated and closed its message or sent none |
| `AgentLoop.GrammarIsFollowing` | core-service/internal/agentcore/event.go:9-81 | a stream is in the grammar exactly when it begins with the run's start and each event may come behind the one before it |
| `AgentLoop.MessageEvents` | core-service/internal/agentcore/loop.go:88-100 | a round's message is its start, one event per update, and its end |
| `AgentLoop.UpdatesInOrder` | core-service/internal/agentcore/loop.go:92-96 | each update carries all the text so far |
| `AgentLoop.EventsOfRound` | core-service/internal/agentcore/loop.go:81-115 | a complete round emits the start of its turn, the message, each call's events in call order, and the end of the turn with the message and the results |
| `AgentLoop.VerdictIff` | core-service/internal/agentcore/loop.go:81-136 | why a run ends after a round: the stream, a hook, a result that terminates, a round without calls, ShouldStop, PrepareNext, in this order |
| `AgentLoop.Session.RunToolCall` | core-service/internal/agentcore/loop.go:146-232 | a call's events, pending set, result and hook failure, on every path |
| `AgentLoop.Session.Loop` | core-service/internal/agentcore/loop.go:60-137 | over every finite script of rounds, where the run stops and why, and the whole trace and conversation entry by entry; the trace is in the documented grammar exactly when all rounds are well formed and all calls registered; each call ends once, in order; nothing is pending at a boundary; only model and hook errors cut a turn short |
| `AgentLoop.StopIsUnique` | core-service/internal/agentcore/loop.go:64-137 | the script, the hooks and the cancellations determine how far a run goes and how it ends: at the first round that ends it, or the first cancellation |
| `AgentLoop.ResultOfCall` | core-service/internal/agentcore/loop.go:104-117 | the k-th result of a round is the k-th call's |
| `AgentQueue.MessagesConserved` | core-service/internal/agentcore/queue.go:28-62 | in both modes, what was drained or cleared followed by what is queued is exactly what was pushed, in order |
| `AgentQueue.MessageQueue.Drain` | core-service/internal/agentcore/queue.go:36-50 | takes the whole queue, or in one-at-a-time mode exactly its first message, and leaves the rest |
| `AgentRuns.InvHolds` | core-service/internal/agentcore/agent.go:70-234 | the invariant of every interleaving of Prompt, Continue, Abort, WaitForIdle, Reset and the goroutines |
| `AgentRuns.OneLoopAtATime` | core-service/internal/agentcore/agent.go:70-115 | at most one loop is active, that of the latest run |
| `AgentRuns.ChannelClosedOnce` | core-service/internal/agentcore/agent.go:92-115 | each run's channel is closed once, by its own goroutine, and is the one that run made |
| `AgentRuns.AbortSparesOtherRuns` | core-service/internal/agentcore/agent.go:92-177 | Abort reaches the latest run only: a run started later is not cancelled, and earlier ones are not cancelled by it |
| `AgentRuns.IdleMeansClean` | core-service/internal/agentcore/agent.go:167-223 | when WaitForIdle returns nil with no later run and no Reset, the run's loop returned nil and no critical subscriber failed on any event |
| `AgentRuns.LaterRunOrResetHidesFailure` | core-service/internal/agentcore/agent.go:92-234 | without that proviso any failure can be reported as clean: a later run or a Reset clears it before it is read |
| `AgentRuns.WaitingBeforeAnyRunOnlyTimesOut` | core-service/internal/agentcore/agent.go:54-66 | before any run WaitForIdle only ends with the caller's context |
| `FileLoop.Run` | core-service/internal/aiagent/agent_file_loop.go:82-144 | for any model and any maxRounds, negative ones included, the run goes exactly as far as the loop's stopping rule says, at most max(maxRounds, 0) + 1 model calls; the final conversation is the initial one followed by what each answered round adds; the answer is its newest one |
| `FileLoop.OverBudgetIff` | core-service/internal/aiagent/agent_file_loop.go:134-141 | the run ends over its budget exactly when the last round the budget allows still calls tools and none asks to stop |
| `FileLoop.RoundAddsMessageThenRows` | core-service/internal/aiagent/agent_file_loop.go:116-133 | a round adds its committed message and then one tool row per call, in call order |
| `FileLoop.NewestAnswerIsUnique` | core-service/internal/aiagent/agent_file_loop.go:148-156 | every conversation has exactly one newest answer |
| `FileLoop.LastAssistantContent` | core-service/internal/aiagent/agent_file_loop.go:148-156 | the newest assistant message that is not blank, or nothing |
| `ToolPolicy.EvaluationIsDiscovery` | core-service/internal/agenttools/policy.go:34-75 | for every valid descriptor and authenticated principal a call passes evaluation exactly when it is well formed for the tool and the tool is discoverable |
| `ToolPolicy.PermittedIff` | core-service/internal/agenttools/context.go:69-82 | a permission is granted by "*:*", or by the resource, a colon, and the action or a star, up to space and case |
| `ToolPolicy.CapableIff` | core-service/internal/agenttools/context.go:84-93 | a tool is granted by a star, its name, or its name behind "tool:" |
| `ToolPolicy.PassesIff` | core-service/internal/agenttools/policy.go:34-78 | the whole decision in terms of the descriptor, the call and the texts of the grants |
| `ToolPolicy.OtherGrantsAreRefused` | core-service/internal/agenttools/policy.go:55-60 | a principal whose grants all name other resources or other actions is refused, and does not see the tool |
| `ToolRegistry.Registry.Register` | core-service/internal/agenttools/registry.go:33-56 | registers exactly valid definitions with a handler under a free name and version, and changes no other entry |
| `ToolRegistry.Registry.Definitions` | core-service/internal/agenttools/registry.go:72-111 | the listing is exactly the definitions that pass the filter, strictly ascending by name and version |
| `ToolRegistry.ListingIsUnique` | core-service/internal/agenttools/registry.go:104-110 | strictly ascending listings with the same members are equal, so the order in which maps are walked does not matter |
| `ToolRegistry.ResolvableIffTrimmed` | core-service/internal/agenttools/registry.go:58-70 | a registered tool is found under its own name and version exactly when both are trimmed |
| `ToolRuntime.HandlersRunExactlyForDiscoveredTools` | core-service/internal/agenttools/runtime.go:137-290 | without a guard, over every reachable registry, a handler runs exactly for discovered tools and well-formed calls, unless the tool is a command or its name or version is padded |
| `ToolRuntime.CommandHandlersNeverRun` | core-service/internal/agenttools/runtime.go:242-245 | no command-level handler ever runs, under any policy, guard, principal or call |
| `ToolRuntime.DraftsEndInReviewOrFailure` | core-service/internal/agenttools/runtime.go:254-289 | a draft handler that ran ends in needs_review exactly when it replied and neither guard nor audit failed it, and in failed otherwise, never completed |
| `ToolRuntime.LetThroughRuns` | core-service/internal/agenttools/runtime.go:242-290 | a call that is let through runs its handler, unless it is a command, and the reply is the result unless handler or guard failed |
| `ToolRuntime.Runtime.Describe` | core-service/internal/agenttools/runtime.go:137-160 | an authenticated principal gets exactly the discoverable tools that pass the filter, in listing order |
| `ToolRuntime.Runtime.Execute` | core-service/internal/agenttools/runtime.go:162-179 | one execution, at most one handler call, and exactly one audit record of the result before the audit's own failure |
| `ContextKey.SplitUndoesJoin` | core-service/internal/agentcontext/key.go:129-136 | parts without the separator are recovered from their join |
| `ContextKey.JoinsFlatten` | core-service/internal/agentcontext/key.go:109-155 | the fingerprint embedded with the same separator flattens into the cache string |
| `TextSort.SortedEqualIffSameElements` | core-service/internal/agentcontext/key.go:160-167 | sorting forgets the order of a list and nothing else |
| `ContextKey.CacheIsCanonical` | core-service/internal/agentcontext/key.go:109-167 | list order never matters, for any identifiers |
| `ContextKey.CleanCallersHaveCleanKeys` | core-service/internal/agentcontext/key.go:72-107 | which callers the next result is about: identifiers without the separators, and no blank ones in a list |
| `ContextKey.CacheEqualIffSameContext` | core-service/internal/agentcontext/key.go:72-167 | keys made from non-empty identifiers without the separators share a cache string exactly when every dimension agrees and each scope list is the same multiset |
| `ContextKey.UncleanIdentifiersCollide` | core-service/internal/agentcontext/key.go:160-167 | outside such identifiers different scopes share a fingerprint |
| `SkillVersion.ParseParts` | core-service/internal/agentskill/registry.go:346-364 | the numeric parts of a version, with 64-bit wrap-around |
| `SkillVersion.CompareVersions` | core-service/internal/agentskill/registry.go:319-344 | the comparison loop, with missing parts as zero and the text as tie-break |
| `SkillVersion.VersionOfNumbers` | core-service/internal/agentskill/registry.go:346-364 | dotted decimal numbers below 2^63, with or without a v and space around, are read as those numbers |
| `SkillVersion.LargerNumberIsNewer` | core-service/internal/agentskill/registry.go:319-344 | where the numbers first differ, missing ones as zero, the larger number is newer |
| `SkillVersion.EqualNumbersCompareTexts` | core-service/internal/agentskill/registry.go:336-344 | with equal numbers the order of the trimmed texts decides |
| `SkillVersion.CompareIsTotal` | core-service/internal/agentskill/registry.go:319-344 | swapping the versions swaps the answer, and only versions equal up to trimming compare as equal |
| `SkillVersion.CompareIsTransitive` | core-service/internal/agentskill/registry.go:319-344 | newer-than is transitive, for mixed lengths and unreadable parts too |
| `SkillRegistry.ChoiceIsOrderFreeIffNoTie` | core-service/internal/agentskill/registry.go:176-243 | sorting and taking the first gives the same definition for every order of the candidates exactly when no two tie for the best place |
| `SkillRegistry.OutcomeIsUnique` | core-service/internal/agentskill/registry.go:176-243 | with trimmed versions, and one id behind a requested name, the chosen definition is the same for every walk of the maps |
| `SkillRegistry.PaddedVersionsTie` | core-service/internal/agentskill/registry.go:283-286 | registration accepts a version padded with space beside the same version without, and the two tie |
| `SkillRegistry.Registry.Choose` | core-service/internal/agentskill/registry.go:176-243 | collects all candidates in any order and returns one that no other precedes, or none when there is none |
| `SkillRegistry.Registry.Resolve` | core-service/internal/agentskill/registry.go:176-203 | returns a registered skill that goes by the name, in the requested version or one whose numbers no other such skill exceeds, and none only when there is none |
| `SkillRegistry.ResolvedIsNewest` | core-service/internal/agentskill/registry.go:176-203 | what Resolve returns goes by the name, has the requested version, and without one no other that goes by the name has larger numbers; there is none only when none fits |
| `SkillRegistry.SelectedIsBestFit` | core-service/internal/agentskill/registry.go:205-243 | what Select chooses by the message matches it, and no other match drafts better, has a higher priority, a smaller id or, for the same id, larger numbers |
| `SkillRegistry.RoleAllowedIff` | core-service/internal/agentskill/registry.go:375-386 | which roles may use a skill |
| `SkillRegistry.Registry.Select` | core-service/internal/agentskill/registry.go:205-243 | a requested skill is resolved and refused to roles that may not use it; otherwise the best match is chosen |
| `ColumnLetter.ReverseInPlace` | core-service/internal/aiintake/excel.go:219-222 | reverses the letters in place |
| `ColumnLetter.Of` | core-service/internal/aiintake/excel.go:211-224 | the division loop followed by the reversal computes the column's letters |
| `ColumnLetter.LettersReadBack` | core-service/internal/aiintake/excel.go:211-224 | every positive column gets a non-empty string of capital letters that reads back as the column |
| `ColumnLetter.EveryNameIsAColumn` | core-service/internal/aiintake/excel.go:211-224 | every string of capital letters names exactly the column it reads as |
| `IntakeEvidence.ResolvedIffBacked` | core-service/internal/aiintake/evidence.go:13-62 | an item yields a locator exactly when it proposes a field and a quote that an adapter locator backs, and the locator's source, page and coordinates are that locator's |
| `IntakeEvidence.ResolvedCopiesFirstMatch` | core-service/internal/aiintake/evidence.go:30-64 | an item's locator has its own field and quote and the source, page and coordinates of the first adapter locator on its page whose quote matches |
| `IntakeEvidence.QuotesMatchIff` | core-service/internal/aiintake/evidence.go:107-123 | quotes match when, without space and in small letters, neither is blank and one occurs in the other |
| `IntakeEvidence.LastOfItsKeyCounts` | core-service/internal/aiintake/evidence.go:65-73 | of several locators for one field, source and quote the last one counts |
| `IntakeEvidence.EvidenceIsAnchored` | core-service/internal/aiintake/evidence.go:13-74 | all evidence is anchored in the adapter's locators |
| `IntakeEvidence.QuoteMayExceedSource` | core-service/internal/aiintake/evidence.go:107-117 | any text around the source's own quote is accepted as evidence, and occurs in the source only when what surrounds it is blank |
| `IntakeEvidence.MatchOccursInSourceIff` | core-service/internal/aiintake/evidence.go:107-117 | a quote that matches occurs in the source, up to space and case, exactly when it is not longer than it |
| `IntakeEvidence.ResolvedQuoteOccursIff` | core-service/internal/aiintake/evidence.go:13-117 | so the quote of a resolved locator occurs in the adapter's quote exactly when it is not longer |
| `IntakeEvidence.ResolveEvidence` | core-service/internal/aiintake/evidence.go:13-74 | returns the resolved locators, the last one for each field, source and quote, in any order |
| `IntakeEvidence.EvidenceCovers` | core-service/internal/aiintake/evidence.go:78-105 | true exactly when there are locators and fields and every field, or a part of it, has a locator |
| `IntakePayment.ValidateSchedules` | core-service/internal/aiintake/payment.go:70-138 | keeps exactly the usable rows in order, with the warnings and missing fields of every row |
| `IntakePayment.RowIsReported` | core-service/internal/aiintake/payment.go:79-105 | what is said about each row: each date of another length, and the first defect for which it is skipped |
| `IntakePayment.SummaryIff` | core-service/internal/aiintake/payment.go:125-137 | how many schedules have a confidence below 0.8, and whether both timings occur |
| `IntakePayment.KeptAreAcceptable` | core-service/internal/aiintake/payment.go:76-120 | every kept row has a positive amount, a timing, a confidence between 0 and 1 and filled dates; all rows are kept exactly when all are usable |
| `IntakePayment.EvidenceFields` | core-service/internal/aiintake/produce.go:398-426 | the names of all filled columns of all schedules, or none when a row was skipped |
| `IntakePayment.ProducePayment` | core-service/internal/aiintake/produce.go:195-235 | for any model answer the draft passes every consumer check except date formats; it is complete exactly when no row was skipped and every filled column has a verified locator; its locators are verified ones or the adapter's own; its scores, missing fields and warnings are those of the answer and the rows |
| `IntakePayment.MetadataAcceptedIffIdentified` | core-service/internal/aiintake/assemble.go:10-72 | the consumer rejects the metadata exactly when the source identity is missing or a locator is incomplete |
| `IntakePayment.CoveredColumnsCoverRecords` | core-service/internal/aiintake/metadata.go:27-45 | covering every filled column covers every record the consumer asks for |
| `PaymentTable.FallbackParse` | core-service/internal/aiintake/payment.go:187-304 | the table reader reads the rows, the header and the readable data rows as specified |
| `PaymentTable.RowIff` | core-service/internal/aiintake/payment.go:189-211 | which lines are rows |
| `PaymentTable.CellUnderLastHeader` | core-service/internal/aiintake/payment.go:257-264 | the cell under a name is that of the last column with that header |
| `PaymentTable.FallbackNeverFabricates` | core-service/internal/aiintake/payment.go:187-304 | every schedule repeats the due date, amount and currency of one row below the header, with confidence 0.65 |
| `PaymentTable.FallbackIsNeverComplete` | core-service/internal/aiintake/payment.go:187-304 | a draft read from the table is never marked complete |
| `TextSort.SortedUnique` | core-service/internal/aiintake/produce.go:352-364 | the non-empty strings, each once, ascending |

## Left out

- Text: case folding is that of ASCII letters; Unicode normalisation and Go's `EqualFold` beyond ASCII are not modelled.
- Numbers: confidences and amounts are reals, so NaN and infinities, which Go's parser accepts, are not modelled; token counts do not overflow.
- JSON, regular expressions, dates, hashing, JWT signing and HTTP or SQL transport: a decoded value, a parser as a parameter, unforgeable claims, rows of a table.
- `RevokeTokenForUser`, `AllowsTool`, `Stats`: like their modelled counterparts, or plain membership tests.
- RevocationProtocol.RevokedTokenNotAcceptedAlive: is about registered tokens and one common clock that never goes back; a token whose registration failed is never handed out.
- RevocationProtocol.PassesOwnCheckIff: an instance without a store decides by this check alone; the protocol gives every instance the store.
- Runner.Runner.Run: the polling reader with any page sizes drives the run; that the stream reader delivers the same is proved of the readers (`RemoteControl.StreamAgreesWithPolling`). The event log is finite. Lease heartbeats and deadlines are cancellations. The planner's answers do not depend on the request in a fixed way: they are arbitrary.
- RunJournal.StoredPositionIsExact: is about lives whose checkpoint saves succeed, as the code ignores failed saves; a lost save is covered by the other journal lemmas. A stored empty plan counts as no plan, as both checkpoint stores load it as nil.
- File-backed checkpoints and `CompactContext`.
- ChatRuntime.Runtime.Start: the dispatched goroutine runs where it is dispatched; requests without a session owner take no lease. The rows of messages, attachments and artifacts are not part of this model, only whether their operations succeed.
- AgentLoop.Session.Loop: hooks and executors do not change the session's messages or tools while the loop runs, and a script of rounds ends with a cancelled context, so endless runs are represented by their beginnings. An after-hook does not change the result it is given.
- FileLoop.Run: a tool result always encodes as JSON.
- AgentRuns.InvHolds: subscribers and abort are events without content; an unsubscribed or failing non-critical subscriber does not matter for the outcome.
- ToolRuntime.Runtime.Execute: the result's data and sources, timeouts and metrics; a nil registry is a flag of the specification.
- SkillRegistry.Registry.Select: the phrase list that recognises a draft request and the tool-name suffixes are flags.
- IntakePayment.ProducePayment: the parsed answer is any decoded value, whether it came from the model's text or the table; sheet, cell range and file hash of locators are not modelled. Contract, batch and event intake produce the same envelope by the same functions.
- PaymentTable.FallbackParse: the header alias table is a parameter.
- Retail answers, runbooks, tool bundles, the CLI, the web front end and the IFRS 16 engine are not part of this model.
