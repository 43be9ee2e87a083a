/** One tool call of the agent loop: the hooks around it, and the events it emits. */
module ToolCall {
  import opened Wrappers

  datatype Role = System | User | Assistant | Tool

  datatype Message = Message(role: Role, content: string)

  datatype Descriptor = Descriptor(name: string, version: string)

  datatype Call = Call(id: string, tool: string, version: string, args: string)

  datatype Status = Completed | NeedsReview | Failed | Rejected

  datatype ToolResult = ToolResult(callId: string, status: Status, error: Option<string>, terminate: bool)

  // What a before-hook answers; an empty args rewrites nothing.
  datatype HookAnswer = HookAnswer(error: Option<string>, block: bool, reason: string, args: string, short: Option<ToolResult>)

  const PASS := HookAnswer(None, false, "", "", None)

  // A hook may answer the n-th call of a run as it likes.
  type Hook = (nat, Call) -> HookAnswer

  // An execution: its partial updates, then a result or an error.
  datatype Execution = Execution(partials: seq<string>, outcome: Result<ToolResult, string>)

  type AfterHook = (nat, Call, ToolResult) -> Option<string>

  datatype Tooling = Tooling(tools: seq<Descriptor>, before: Option<Hook>, after: Option<AfterHook>, execute: (nat, Call) -> Execution)

  datatype Event =
    | AgentStart
    | TurnStart
    | MessageStart(message: Message)
    | MessageUpdate(message: Message, delta: string)
    | MessageEnd(message: Message)
    | ToolStart(callId: string, tool: string, args: string)
    | ToolUpdate(callId: string, partial: string)
    | ToolEnd(callId: string, result: ToolResult, isError: bool)
    | TurnEnd(committed: Option<Message>, results: seq<ToolResult>)
    | AgentEnd(messages: seq<Message>)

  // ----- hooks -----

  predicate Decides(a: HookAnswer) {
    a.error.Some? || a.block || a.short.Some?
  }

  function Rewritten(call: Call, a: HookAnswer): Call {
    if a.args != "" then call.(args := a.args) else call
  }

  // The hooks in order, each seeing the arguments the hooks before it left; the first to decide is heard.
  function Chain(hooks: seq<Hook>, n: nat, call: Call): HookAnswer {
    if hooks == [] then PASS
    else
      var a := hooks[0](n, call);
      if Decides(a) then a else Chain(hooks[1..], n, Rewritten(call, a))
  }

  // The call as the i-th hook of a chain sees it, when no hook before it decides.
  function SeenBy(hooks: seq<Hook>, n: nat, call: Call, i: nat): Call
    requires i <= |hooks|
  {
    if i == 0 then call else SeenBy(hooks[1..], n, Rewritten(call, hooks[0](n, call)), i - 1)
  }

  method ChainBefore(hooks: seq<Hook>, n: nat, call: Call) returns (a: HookAnswer)
    ensures a == Chain(hooks, n, call)
  {
    var current := call;
    for i := 0 to |hooks|
      invariant Chain(hooks, n, call) == Chain(hooks[i..], n, current)
    {
      assert hooks[i..][1..] == hooks[i + 1..];
      a := hooks[i](n, current);
      if Decides(a) {
        return;
      }
      current := Rewritten(current, a);
    }
    a := PASS;
  }

  /** A chain decides exactly when one of its hooks, seeing the arguments rewritten by those before it,
      decides; the first such hook is heard, and no other answer leaves the chain. */
  lemma {:induction false} ChainHearsFirstDecision(hooks: seq<Hook>, n: nat, call: Call, i: nat)
    requires i < |hooks|
    requires forall k :: 0 <= k < i ==> !Decides(hooks[k](n, SeenBy(hooks, n, call, k)))
    requires Decides(hooks[i](n, SeenBy(hooks, n, call, i)))
    ensures Chain(hooks, n, call) == hooks[i](n, SeenBy(hooks, n, call, i))
  {
    if i > 0 {
      assert !Decides(hooks[0](n, SeenBy(hooks, n, call, 0)));
      var rest := Rewritten(call, hooks[0](n, call));
      forall k | 0 <= k < i - 1 ensures !Decides(hooks[1..][k](n, SeenBy(hooks[1..], n, rest, k))) {
        assert hooks[1..][k] == hooks[k + 1];
        assert SeenBy(hooks[1..], n, rest, k) == SeenBy(hooks, n, call, k + 1);
        assert !Decides(hooks[k + 1](n, SeenBy(hooks, n, call, k + 1)));
      }
      assert SeenBy(hooks[1..], n, rest, i - 1) == SeenBy(hooks, n, call, i);
      ChainHearsFirstDecision(hooks[1..], n, rest, i - 1);
    }
  }

  /** A chain that decides nothing answers nothing at all: what its hooks rewrote is lost. */
  lemma {:induction false} ChainDropsRewrites(hooks: seq<Hook>, n: nat, call: Call)
    ensures !Decides(Chain(hooks, n, call)) ==> Chain(hooks, n, call) == PASS
  {
    if hooks != [] {
      var a := hooks[0](n, call);
      if !Decides(a) {
        ChainDropsRewrites(hooks[1..], n, Rewritten(call, a));
      }
    }
  }

  // Every hook runs, whatever the others answer.
  function ErrorsOf(hooks: seq<AfterHook>, n: nat, call: Call, r: ToolResult): seq<string> {
    if hooks == [] then []
    else
      var last := hooks[|hooks| - 1](n, call, r);
      ErrorsOf(hooks[..|hooks| - 1], n, call, r) + if last.Some? then [last.value] else []
  }

  lemma ErrorsHookByHook(hooks: seq<AfterHook>, hook: AfterHook, n: nat, call: Call, r: ToolResult)
    ensures ErrorsOf([], n, call, r) == []
    ensures ErrorsOf(hooks + [hook], n, call, r) == ErrorsOf(hooks, n, call, r) +
              match hook(n, call, r) case Some(error) => [error] case None => []
  {
    assert (hooks + [hook])[..|hooks|] == hooks;
  }

  method ChainAfter(hooks: seq<AfterHook>, n: nat, call: Call, r: ToolResult) returns (errors: seq<string>)
    ensures errors == ErrorsOf(hooks, n, call, r)
    ensures errors == [] <==> forall h :: h in hooks ==> h(n, call, r).None?
  {
    errors := [];
    for i := 0 to |hooks|
      invariant errors == ErrorsOf(hooks[..i], n, call, r)
      invariant errors == [] <==> forall j :: 0 <= j < i ==> hooks[j](n, call, r).None?
    {
      assert hooks[..i + 1][..i] == hooks[..i];
      var error := hooks[i](n, call, r);
      if error.Some? {
        errors := errors + [error.value];
      }
    }
    assert hooks[..|hooks|] == hooks;
  }

  // ----- the call -----

  function Resolve(tools: seq<Descriptor>, call: Call): Option<Descriptor> {
    if tools == [] then None
    else if tools[0].name == call.tool && (call.version == "" || tools[0].version == call.version) then Some(tools[0])
    else Resolve(tools[1..], call)
  }

  predicate Registered(tools: seq<Descriptor>, call: Call) {
    Resolve(tools, call).Some?
  }

  // A call's events, its result, and whether a hook failed the run.
  datatype Outcome = Outcome(events: seq<Event>, result: ToolResult, hookFailed: bool)

  function Ending(call: Call, r: ToolResult, isError: bool): seq<Event> {
    [ToolEnd(call.id, r, isError)]
  }

  function Starting(call: Call): seq<Event> {
    [ToolStart(call.id, call.tool, call.args)]
  }

  function Updates(call: Call, partials: seq<string>): seq<Event> {
    if partials == [] then [] else Updates(call, partials[..|partials| - 1]) + [ToolUpdate(call.id, partials[|partials| - 1])]
  }

  function Failure(call: Call, message: string): ToolResult {
    ToolResult(call.id, Failed, Some(message), false)
  }

  function BlockReason(a: HookAnswer): string {
    if a.reason == "" then "blocked by policy" else a.reason
  }

  function Asked(t: Tooling, n: nat, call: Call): HookAnswer {
    if t.before.Some? then t.before.value(n, call) else PASS
  }

  function AfterExecution(t: Tooling, n: nat, call: Call, r: ToolResult): (ToolResult, bool) {
    var error := if t.after.Some? then t.after.value(n, call, r) else None;
    if error.None? then (r, false)
    else (r.(status := Failed, error := if r.error.None? then error else r.error), true)
  }

  function Executed(t: Tooling, n: nat, call: Call): Outcome {
    var e := t.execute(n, call);
    var started := Updates(call, e.partials);
    match e.outcome
    case Err(message) => Outcome(started + Ending(call, Failure(call, message), true), Failure(call, message), false)
    case Ok(r) =>
      var (result, failed) := AfterExecution(t, n, call, r);
      Outcome(started + Ending(call, result, result.status == Failed), result, failed)
  }

  // What follows the start event.
  function Proceed(t: Tooling, n: nat, call: Call): Outcome {
    var a := Asked(t, n, call);
    if a.error.Some? then
      Outcome(Ending(call, Failure(call, a.error.value), true), Failure(call, a.error.value), true)
    else if a.block then
      var r := ToolResult(call.id, Rejected, Some(BlockReason(a)), false);
      Outcome(Ending(call, r, false), r, false)
    else if a.short.Some? then
      var r := a.short.value.(callId := if a.short.value.callId == "" then call.id else a.short.value.callId);
      Outcome(Ending(call, r, r.status == Failed), r, false)
    else
      Executed(t, n, Rewritten(call, a))
  }

  function NotRegistered(call: Call): ToolResult {
    Failure(call, "tool not registered: " + call.tool)
  }

  function Perform(t: Tooling, n: nat, call: Call): Outcome {
    if !Registered(t.tools, call) then
      Outcome(Ending(call, NotRegistered(call), true), NotRegistered(call), false)
    else
      var o := Proceed(t, n, call);
      o.(events := Starting(call) + o.events)
  }

  // ----- what a call comes to -----

  /** A call is of a registered tool when some tool has its name and, if the call asks for one, its version. */
  lemma {:induction false} RegisteredIff(tools: seq<Descriptor>, call: Call)
    ensures Registered(tools, call) <==>
              exists i :: 0 <= i < |tools| && tools[i].name == call.tool && (call.version != "" ==> tools[i].version == call.version)
  {
    if tools != [] {
      RegisteredIff(tools[1..], call);
      assert forall i :: 1 <= i < |tools| ==> tools[i] == tools[1..][i - 1];
      assert forall i :: 0 <= i < |tools| - 1 ==> tools[1..][i] == tools[i + 1];
    }
  }

  /** A call of no registered tool: one end event, with the error, and a failed result; the run goes on. */
  lemma UnregisteredCall(t: Tooling, n: nat, call: Call)
    requires !Registered(t.tools, call)
    ensures var r := ToolResult(call.id, Failed, Some("tool not registered: " + call.tool), false);
            Perform(t, n, call) == Outcome([ToolEnd(call.id, r, true)], r, false)
  {
  }

  /** A call that its before-hook answers: start and end, and the hook's answer as the result. A hook's error comes
      before a block, and a block before a result; only the error fails the run, and a block is no error event. */
  lemma DecidedCall(t: Tooling, n: nat, call: Call)
    requires Registered(t.tools, call) && t.before.Some?
    ensures var a, o, start := t.before.value(n, call), Perform(t, n, call), ToolStart(call.id, call.tool, call.args);
            && (a.error.Some? ==>
                  && o.result == ToolResult(call.id, Failed, a.error, false) && o.hookFailed
                  && o.events == [start, ToolEnd(call.id, o.result, true)])
            && (a.error.None? && a.block ==>
                  && o.result == ToolResult(call.id, Rejected, Some(if a.reason == "" then "blocked by policy" else a.reason), false)
                  && !o.hookFailed && o.events == [start, ToolEnd(call.id, o.result, false)])
            && (a.error.None? && !a.block && a.short.Some? ==>
                  && o.result == a.short.value.(callId := if a.short.value.callId == "" then call.id else a.short.value.callId)
                  && !o.hookFailed && o.events == [start, ToolEnd(call.id, o.result, o.result.status == Failed)])
  {
  }

  /** A call that reaches its tool, with the arguments of the model or those of the hook: start, one event per partial
      update, and the end. A tool's error fails the call and not the run; an after-hook's error fails both, and an
      error that the result already has is kept. */
  lemma ExecutedCall(t: Tooling, n: nat, call: Call)
    requires Registered(t.tools, call)
    requires t.before.Some? ==> var a := t.before.value(n, call); a.error.None? && !a.block && a.short.None?
    ensures var given := if t.before.Some? && t.before.value(n, call).args != "" then call.(args := t.before.value(n, call).args) else call;
            var e, o := t.execute(n, given), Perform(t, n, call);
            && |o.events| == |e.partials| + 2 && o.events[0] == ToolStart(call.id, call.tool, call.args)
            && (forall k :: 0 <= k < |e.partials| ==> o.events[k + 1] == ToolUpdate(call.id, e.partials[k]))
            && o.events[|e.partials| + 1] == ToolEnd(call.id, o.result, o.result.status == Failed)
            && (e.outcome.Err? ==> o.result == ToolResult(call.id, Failed, Some(e.outcome.error), false) && !o.hookFailed)
            && (e.outcome.Ok? ==>
                  var failure := if t.after.Some? then t.after.value(n, given, e.outcome.value) else None;
                  && (o.hookFailed <==> failure.Some?)
                  && (failure.None? ==> o.result == e.outcome.value)
                  && (failure.Some? ==>
                        o.result == e.outcome.value.(status := Failed,
                                                     error := if e.outcome.value.error.Some? then e.outcome.value.error else failure)))
  {
    var given := if t.before.Some? && t.before.value(n, call).args != "" then call.(args := t.before.value(n, call).args) else call;
    assert Rewritten(call, Asked(t, n, call)) == given;
    UpdatesOneByOne(given, t.execute(n, given).partials);
  }

  lemma {:induction false} UpdatesOneByOne(call: Call, partials: seq<string>)
    ensures |Updates(call, partials)| == |partials|
    ensures forall k :: 0 <= k < |partials| ==> Updates(call, partials)[k] == ToolUpdate(call.id, partials[k])
  {
    if partials != [] {
      UpdatesOneByOne(call, partials[..|partials| - 1]);
    }
  }

  // The call reaches the tool, and this is what the tool is given.
  function Reaches(t: Tooling, n: nat, call: Call): Option<Call> {
    if Registered(t.tools, call) && !Decides(Asked(t, n, call)) then Some(Rewritten(call, Asked(t, n, call))) else None
  }

  /** With its hooks chained, a tool that is reached is always given the arguments of the model, whatever the
      hooks rewrote; a single hook that is not chained does rewrite them. */
  lemma ChainedRewritesNeverReachTheTool(t: Tooling, hooks: seq<Hook>, n: nat, call: Call)
    requires t.before == Some((k: nat, c: Call) => Chain(hooks, k, c))
    ensures Reaches(t, n, call).Some? ==> Reaches(t, n, call) == Some(call)
  {
    ChainDropsRewrites(hooks, n, call);
  }

  /** Chaining one hook is the same as using it alone exactly when it does not rewrite this call. */
  lemma ChainOfOneDiffersIffItRewrites(t: Tooling, h: Hook, n: nat, call: Call)
    requires Registered(t.tools, call)
    ensures var alone, chained := t.(before := Some(h)), t.(before := Some((k: nat, c: Call) => Chain([h], k, c)));
            Reaches(alone, n, call) == Reaches(chained, n, call) <==>
              Decides(h(n, call)) || h(n, call).args == "" || h(n, call).args == call.args
  {
    assert [h][1..] == [];
    assert Chain([], n, Rewritten(call, h(n, call))) == PASS;
    assert Chain([h], n, call) == if Decides(h(n, call)) then h(n, call) else PASS;
  }
}
