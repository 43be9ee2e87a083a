/** The file pipeline's use of the agent loop: a budget of tool rounds, and tool results folded into the
    conversation. */
module FileLoop {
  import opened Wrappers
  import opened Text
  import opened ToolCall
  import opened AgentLoop

  // The pipeline's surroundings: no hooks, no early stop, and an error from PrepareNext beyond the budget.
  function DepsFor(cancelled: nat -> bool, maxRounds: int, row: ToolResult -> string): Deps {
    Deps(cancelled, (n: nat) => false, (n: nat) => n + 1 > maxRounds, true, row)
  }

  function ToolingFor(tools: seq<Descriptor>, execute: (nat, Call) -> Execution): Tooling {
    Tooling(tools, None, None, execute)
  }

  function Initial(conversation: seq<Message>, userMessage: string): seq<Message> {
    if conversation == [] || conversation[|conversation| - 1].content != userMessage
    then conversation + [Message(User, userMessage)] else conversation
  }

  predicate Answers(m: Message) {
    m.role == Role.Assistant && Trim(m.content) != ""
  }

  // The newest assistant message that says something, or nothing.
  ghost predicate IsNewestAnswer(messages: seq<Message>, answer: string) {
    && ((forall m :: m in messages ==> !Answers(m)) ==> answer == "")
    && forall i :: 0 <= i < |messages| && Answers(messages[i]) && (forall j :: i < j < |messages| ==> !Answers(messages[j])) ==>
         answer == messages[i].content
  }

  /** Every conversation has exactly one newest answer. */
  lemma {:induction false} NewestAnswerIsUnique(messages: seq<Message>, a: string, b: string)
    requires IsNewestAnswer(messages, a) && IsNewestAnswer(messages, b)
    ensures a == b
  {
    if messages != [] {
      if Answers(messages[|messages| - 1]) {
        LastAnswers(messages, a);
        LastAnswers(messages, b);
      } else {
        WithoutLast(messages, a);
        WithoutLast(messages, b);
        hide IsNewestAnswer, Answers;
        NewestAnswerIsUnique(messages[..|messages| - 1], a, b);
      }
    }
  }

  lemma LastAnswers(messages: seq<Message>, answer: string)
    requires messages != [] && Answers(messages[|messages| - 1]) && IsNewestAnswer(messages, answer)
    ensures answer == messages[|messages| - 1].content
  {
    hide Answers;
  }

  lemma WithoutLast(messages: seq<Message>, answer: string)
    requires messages != [] && !Answers(messages[|messages| - 1]) && IsNewestAnswer(messages, answer)
    ensures IsNewestAnswer(messages[..|messages| - 1], answer)
  {
    hide Answers;
    var before, last := messages[..|messages| - 1], messages[|messages| - 1];
    assert messages == before + [last];
    forall i | 0 <= i < |before| && Answers(before[i]) && (forall j :: i < j < |before| ==> !Answers(before[j]))
      ensures answer == before[i].content
    {
      assert messages[i] == before[i];
      assert forall j :: i < j < |before| ==> messages[j] == before[j];
    }
  }

  method LastAssistantContent(messages: seq<Message>) returns (answer: string)
    ensures IsNewestAnswer(messages, answer)
    ensures answer == "" || exists i :: 0 <= i < |messages| && messages[i].role == Role.Assistant && messages[i].content == answer
    ensures forall i :: 0 <= i < |messages| && messages[i].role == Role.Assistant && Trim(messages[i].content) != ""
                        && (forall j :: i < j < |messages| ==> messages[j].role != Role.Assistant || Trim(messages[j].content) == "")
              ==> answer == messages[i].content
  {
    answer := "";
    ghost var last := -1;
    for k := 0 to |messages|
      invariant -1 <= last < k
      invariant last >= 0 ==> Answers(messages[last]) && answer == messages[last].content
      invariant forall j :: last < j < k ==> !Answers(messages[j])
      invariant last < 0 ==> answer == ""
    {
      if messages[k].role == Role.Assistant && Trim(messages[k].content) != "" {
        answer := messages[k].content;
        last := k;
      }
    }
    hide Answers;
  }

  /** The loop of the pipeline: no hooks and no early stop, one row per result, and an error from PrepareNext once
      the tool rounds exceed the budget. */
  lemma LoopOfPipeline(cancelled: nat -> bool, maxRounds: int, row: ToolResult -> string, tools: seq<Descriptor>,
                       execute: (nat, Call) -> Execution, n: nat)
    ensures var d, t := DepsFor(cancelled, maxRounds, row), ToolingFor(tools, execute);
            && d.cancelled(n) == cancelled(n) && !d.shouldStop(n) && (d.prepareFails(n) <==> maxRounds <= n) && d.fold && d.row == row
            && t.tools == tools && t.before == None && t.after == None && t.execute == execute
    ensures Budget(maxRounds) == if maxRounds < 0 then 1 else maxRounds + 1
  {
  }

  function Budget(maxRounds: int): nat {
    if maxRounds < 0 then 1 else maxRounds + 1
  }

  /** Whatever the model does and whatever the budget is, the model is called until the loop stops: at most one time
      more than the budget allows tool rounds, and once even with a negative budget. The final conversation is the
      initial one followed, for every round the model answered, by its message and one row per call, in call order,
      and the answer is its newest one. */
  method Run(cancelled: nat -> bool, maxRounds: int, row: ToolResult -> string, tools: seq<Descriptor>,
             execute: (nat, Call) -> Execution, rounds: seq<Round>, conversation: seq<Message>, userMessage: string)
    returns (answer: string, error: Option<Error>, messages: seq<Message>, modelCalls: nat)
    ensures modelCalls <= |rounds| && modelCalls <= if maxRounds < 0 then 1 else maxRounds + 1
    ensures error == Some(StreamFailed) <==> modelCalls > 0 && rounds[modelCalls - 1].StreamError?
    ensures error != Some(HookFailed)
    ensures StopsAt(DepsFor(cancelled, maxRounds, row), ToolingFor(tools, execute), rounds, modelCalls, error)
    ensures IsNewestAnswer(messages, answer)
    ensures var asked := conversation != [] && conversation[|conversation| - 1].content == userMessage;
            messages == (if asked then conversation else conversation + [Message(User, userMessage)])
              + History(DepsFor(cancelled, maxRounds, row), ToolingFor(tools, execute),
                        rounds[..if error == Some(StreamFailed) then modelCalls - 1 else modelCalls])
  {
    hide StopsAt, IsNewestAnswer, Emitted, History, AllCalls, StateAfter, EventsOf, EndIds, Ids, Tidy, QuietAtBoundaries;
    var d, t := DepsFor(cancelled, maxRounds, row), ToolingFor(tools, execute);
    var session := new Session();
    session.messages := Initial(conversation, userMessage);
    error := session.Loop(d, t, rounds);
    messages, modelCalls := session.messages, session.turns;
    answer := LastAssistantContent(messages);
    assert d.prepareFails(if maxRounds < 0 then 0 else maxRounds);
  }

  /** The run ends over its budget exactly when the last round the budget allows still calls tools and none of them
      asks to stop. */
  lemma OverBudgetIff(cancelled: nat -> bool, maxRounds: int, row: ToolResult -> string, tools: seq<Descriptor>,
                      execute: (nat, Call) -> Execution, rounds: seq<Round>, modelCalls: nat, error: Option<Error>)
    requires StopsAt(DepsFor(cancelled, maxRounds, row), ToolingFor(tools, execute), rounds, modelCalls, error)
    ensures error == Some(PrepareFailed) <==>
              && modelCalls == (if maxRounds < 0 then 1 else maxRounds + 1)
              && rounds[modelCalls - 1].Round? && rounds[modelCalls - 1].calls != []
              && forall r :: r in Results(ToolingFor(tools, execute), |AllCalls(rounds[..modelCalls - 1])|, rounds[modelCalls - 1].calls)
                             ==> !r.terminate
  {
    var d, t := DepsFor(cancelled, maxRounds, row), ToolingFor(tools, execute);
    hide Stops, Results, AllCalls, HookFails;
    if modelCalls > 0 {
      var last := rounds[modelCalls - 1];
      if last.Round? {
        NoHooksFail(t, |AllCalls(rounds[..modelCalls - 1])|, last.calls);
        StopsIff(Results(t, |AllCalls(rounds[..modelCalls - 1])|, last.calls));
      }
      if modelCalls > 1 {
        assert VerdictAt(d, t, rounds, modelCalls - 2).GoesOn?;
      }
    }
  }

  lemma NoHooksFail(t: Tooling, n: nat, calls: seq<Call>)
    requires !Hooked(t)
    ensures !HookFails(t, n, calls)
  {
    forall i | 0 <= i < |calls| ensures !Perform(t, n + i, calls[i]).hookFailed {
      OnlyHooksFailRuns(t, n + i, calls[i]);
    }
  }

  /** A complete round adds its committed message and then exactly one row per call, the k-th row being that of
      the k-th call's result. */
  lemma RoundAddsMessageThenRows(d: Deps, t: Tooling, before: seq<Round>, last: Round, k: nat)
    requires d.fold && last.Round? && k < |last.calls|
    ensures var n := |AllCalls(before)|;
            var rows := Rows(d, Results(t, n, last.calls));
            && History(d, t, before + [last]) == History(d, t, before) + Committed(last) + rows
            && |rows| == |last.calls|
            && rows[k] == Message(Tool, d.row(Perform(t, n + k, last.calls[k]).result))
  {
    hide *;
    HistoryMore(d, t, before, last);
    RowOfCall(d, t, |AllCalls(before)|, last.calls, k);
  }

  lemma RowOfCall(d: Deps, t: Tooling, n: nat, calls: seq<Call>, k: nat)
    requires k < |calls|
    ensures var rows := Rows(d, Results(t, n, calls));
            |rows| == |calls| && rows[k] == Message(Tool, d.row(Perform(t, n + k, calls[k]).result))
  {
    hide *;
    ResultOfCall(t, n, calls, k);
    RowsAreOnePerResult(d, Results(t, n, calls));
  }

  lemma HistoryMore(d: Deps, t: Tooling, before: seq<Round>, last: Round)
    requires d.fold && last.Round?
    ensures History(d, t, before + [last]) == History(d, t, before) + Committed(last) + Rows(d, Results(t, |AllCalls(before)|, last.calls))
  {
    assert (before + [last])[..|before|] == before;
    hide Results, Rows, Committed;
  }

  lemma {:induction false} RowsAreOnePerResult(d: Deps, results: seq<ToolResult>)
    ensures |Rows(d, results)| == |results|
    ensures forall k :: 0 <= k < |results| ==> Rows(d, results)[k] == Message(Tool, d.row(results[k]))
  {
    if results != [] {
      RowsAreOnePerResult(d, results[..|results| - 1]);
    }
  }
}
