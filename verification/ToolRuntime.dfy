/** Discovery and execution of tools: which handlers run, and what a result can say. */
module ToolRuntime {
  import opened Text
  import opened Wrappers
  import opened ToolPolicy
  import opened ToolRegistry

  datatype Status = Unset | Completed | NeedsReview | Failed | Rejected

  datatype Code = InvalidArguments | SystemFailure | Unauthenticated | NotFound | CapabilityDenied | PermissionDenied
                | Cancelled | Timeout | BusinessFailure | Other(code: string)

  datatype Review = Review(required: bool, reasons: seq<string>, actions: seq<string>)

  const NO_REVIEW := Review(false, [], [])

  datatype ToolResult = ToolResult(callId: string, status: Status, error: Option<Code>, review: Review)

  // A handler replies, or ends with an error or a panic.
  datatype HandlerAnswer = Replied(result: ToolResult) | ContextCancelled | DeadlineExceeded | HandlerFailed

  // The governance guard's answers; a block may carry no code.
  datatype GuardAnswer = GuardError(code: Code) | Block(carried: Option<Code>) | Short(result: ToolResult) | Pass

  datatype Guard = Guard(before: GuardAnswer, afterFails: bool)

  datatype Audit = Audit(callId: string, status: Status, error: Option<Code>, reviewRequired: bool)

  // What surrounds one execution: the runtime's parts, the caller, and the answers of guard and handlers.
  datatype Env = Env(
    registered: bool, policy: Policy, context: Option<Principal>, guard: Option<Guard>,
    handle: (Definition, Call) -> HandlerAnswer)

  datatype Outcome = Outcome(result: ToolResult, ran: bool, failed: bool)

  function Refusal(c: Call, code: Code): Outcome {
    Outcome(ToolResult(c.callId, Rejected, Some(code), NO_REVIEW), false, false)
  }

  function ErrorCode(e: Error): Code {
    match e
    case ContextRequired => Unauthenticated
    case CapabilityRequired => CapabilityDenied
    case NotPermitted => PermissionDenied
    case _ => InvalidArguments
  }

  function Failure(c: Call, code: Code, failed: bool): Outcome {
    Outcome(ToolResult(c.callId, Status.Failed, Some(code), NO_REVIEW), true, failed)
  }

  // After the gates: a command stops for review, anything else runs its handler.
  function Handled(env: Env, d: Definition, c: Call, decision: Decision): Outcome {
    if decision.requiresReview && d.descriptor.level.Command? then
      Outcome(ToolResult(c.callId, NeedsReview, None, Review(true, decision.reasons, [])), false, false)
    else
      match env.handle(d, c)
      case ContextCancelled => Failure(c, Cancelled, false)
      case DeadlineExceeded => Failure(c, Timeout, false)
      case HandlerFailed => Failure(c, BusinessFailure, true)
      case Replied(reply) => Shaped(env, d, c, decision, reply)
  }

  function Shaped(env: Env, d: Definition, c: Call, decision: Decision, reply: ToolResult): Outcome {
    var r := reply.(callId := c.callId, status := if reply.status.Unset? then Completed else reply.status);
    if env.guard.Some? && env.guard.value.afterFails then
      Outcome(r.(status := Status.Failed, error := if r.error.None? then Some(SystemFailure) else r.error), true, true)
    else
      Outcome(r.(status := if decision.requiresReview then NeedsReview else r.status,
                 review := Review(decision.requiresReview, decision.reasons, [d.descriptor.confirmAction])), true, false)
  }

  function Gated(env: Env, d: Definition, c: Call): Outcome {
    match env.guard
    case None =>
      var decision := Evaluate(env.context, d.descriptor, c, env.policy);
      if decision.Err? then Refusal(c, ErrorCode(decision.error)) else Handled(env, d, c, decision.value)
    case Some(g) =>
      match g.before
      case GuardError(code) => Refusal(c, code)
      case Block(carried) => Refusal(c, if carried.Some? then carried.value else SystemFailure)
      case Short(r) => Outcome(if r.callId == "" then r.(callId := c.callId) else r, false, false)
      case Pass => Handled(env, d, c, ReviewDecision(d.descriptor, env.policy))
  }

  function Executed(env: Env, tools: Tools, c: Call): Outcome {
    if !ValidCall(c) then Refusal(c, InvalidArguments)
    else if !env.registered then Refusal(c, SystemFailure)
    else if !Authenticated(env.context) then Refusal(c, Unauthenticated)
    else
      var d := Resolved(tools, c.name, c.version);
      if d.None? then Refusal(c, NotFound) else Gated(env, d.value, c)
  }

  // A failed audit overrides a result that has no error of its own.
  function Audited(o: Outcome, auditFails: bool): Outcome {
    if !auditFails then o
    else if o.result.error.None? then Outcome(o.result.(status := Status.Failed, error := Some(SystemFailure)), o.ran, true)
    else o.(failed := true)
  }

  // ----- what a caller gets -----

  /** A call that does not get to a handler or a guard: rejected, with the code of the first check it fails. */
  lemma RefusedBeforeTheGate(env: Env, tools: Tools, c: Call)
    ensures var o, known := Executed(env, tools, c), Trim(c.name) in tools && Trim(c.version) in tools[Trim(c.name)];
            var identified := env.context.Some? && Trim(env.context.value.userId) != "";
            !ValidCall(c) || !env.registered || !identified || !known ==>
              o == Outcome(ToolResult(c.callId, Rejected,
                                      Some(if !ValidCall(c) then InvalidArguments
                                           else if !env.registered then SystemFailure
                                           else if !identified then Unauthenticated else NotFound),
                                      Review(false, [], [])), false, false)
  {
    hide ValidCall, Trim;
  }

  // The call has got to the tool.
  predicate AtTheGate(env: Env, tools: Tools, c: Call) {
    && ValidCall(c) && env.registered && env.context.Some? && Trim(env.context.value.userId) != ""
    && Trim(c.name) in tools && Trim(c.version) in tools[Trim(c.name)]
  }

  /** A call that the policy or the guard refuses is rejected with their code; a guard that answers itself is heard. */
  lemma RefusedAtTheGate(env: Env, tools: Tools, c: Call)
    requires AtTheGate(env, tools, c)
    ensures var o, d := Executed(env, tools, c), tools[Trim(c.name)][Trim(c.version)];
            var e := Evaluate(env.context, d.descriptor, c, env.policy);
            && (env.guard.None? && e.Err? ==>
                  o == Outcome(ToolResult(c.callId, Rejected,
                                          Some(if e.error == ContextRequired then Unauthenticated
                                               else if e.error == CapabilityRequired then CapabilityDenied
                                               else if e.error == NotPermitted then PermissionDenied else InvalidArguments),
                                          Review(false, [], [])), false, false))
            && (env.guard.Some? && env.guard.value.before.GuardError? ==>
                  o == Outcome(ToolResult(c.callId, Rejected, Some(env.guard.value.before.code), Review(false, [], [])), false, false))
            && (env.guard.Some? && env.guard.value.before.Block? ==>
                  o == Outcome(ToolResult(c.callId, Rejected,
                                          if env.guard.value.before.carried.Some? then env.guard.value.before.carried else Some(SystemFailure),
                                          Review(false, [], [])), false, false))
            && (env.guard.Some? && env.guard.value.before.Short? ==>
                  var r := env.guard.value.before.result;
                  o == Outcome(r.(callId := if r.callId == "" then c.callId else r.callId), false, false))
  {
    hide ValidCall, Trim, Evaluate;
  }

  // The policy, or else the guard, lets the call through.
  predicate LetThrough(env: Env, d: Definition, c: Call) {
    if env.guard.None? then Evaluate(env.context, d.descriptor, c, env.policy).Ok? else env.guard.value.before.Pass?
  }

  /** A call that is let through: a command that needs review stops, with the reasons, and nothing runs; otherwise the
      handler runs, and its reply is the result - completed if it says nothing else, to be reviewed if the tool's
      calls are - unless the handler or the guard's second half failed. */
  lemma LetThroughRuns(env: Env, tools: Tools, c: Call)
    requires AtTheGate(env, tools, c) && LetThrough(env, tools[Trim(c.name)][Trim(c.version)], c)
    ensures var o, d := Executed(env, tools, c), tools[Trim(c.name)][Trim(c.version)];
            var a, desc := env.handle(d, c), d.descriptor;
            var review := desc.reviewRequired || (desc.level == Draft && env.policy.requireDraftReview);
            var reasons := if !review then [] else if desc.reasons == [] then ["tool policy requires human review"] else desc.reasons;
            if review && desc.level == Command then
              o == Outcome(ToolResult(c.callId, NeedsReview, None, Review(true, reasons, [])), false, false)
            else
              && o.ran && o.result.callId == c.callId
              && (a.ContextCancelled? ==> !o.failed && o.result == ToolResult(c.callId, Status.Failed, Some(Cancelled), Review(false, [], [])))
              && (a.DeadlineExceeded? ==> !o.failed && o.result == ToolResult(c.callId, Status.Failed, Some(Timeout), Review(false, [], [])))
              && (a.HandlerFailed? ==> o.failed && o.result == ToolResult(c.callId, Status.Failed, Some(BusinessFailure), Review(false, [], [])))
              && (a.Replied? && env.guard.Some? && env.guard.value.afterFails ==>
                    && o.failed && o.result.status == Status.Failed && o.result.review == a.result.review
                    && o.result.error == if a.result.error.Some? then a.result.error else Some(SystemFailure))
              && (a.Replied? && !(env.guard.Some? && env.guard.value.afterFails) ==>
                    && !o.failed && o.result.error == a.result.error && o.result.review == Review(review, reasons, [desc.confirmAction])
                    && o.result.status == if review then NeedsReview else if a.result.status == Unset then Completed else a.result.status)
  {
    var d := tools[Trim(c.name)][Trim(c.version)];
    DecisionAtTheGate(env, tools, c, d);
    hide ValidCall, Trim, Evaluate, ReviewDecision, Gated, Executed, AtTheGate, LetThrough;
  }

  lemma DecisionAtTheGate(env: Env, tools: Tools, c: Call, d: Definition)
    requires AtTheGate(env, tools, c) && d == tools[Trim(c.name)][Trim(c.version)] && LetThrough(env, d, c)
    ensures var decision := ReviewDecision(d.descriptor, env.policy);
            && Executed(env, tools, c) == Handled(env, d, c, decision)
            && decision.requiresReview == (d.descriptor.reviewRequired || (d.descriptor.level == Draft && env.policy.requireDraftReview))
            && decision.reasons == if !decision.requiresReview then []
                                   else if d.descriptor.reasons == [] then ["tool policy requires human review"] else d.descriptor.reasons
  {
    hide ValidCall, ValidDescriptor, HasCapability, HasPermission, Trim, Handled;
  }

  /** A failed audit fails the execution, and the result too unless it has an error of its own. */
  lemma AuditOverrides(o: Outcome, auditFails: bool)
    ensures var a := Audited(o, auditFails);
            && a.ran == o.ran && a.result.callId == o.result.callId && a.result.review == o.result.review
            && (!auditFails ==> a == o)
            && (auditFails ==> a.failed && a.result.error == (if o.result.error.Some? then o.result.error else Some(SystemFailure))
                               && a.result.status == if o.result.error.Some? then o.result.status else Status.Failed)
  {
  }

  // What discovery lists for a principal.
  predicate Described(env: Env, tools: Tools, f: Filter, d: Definition) {
    env.registered && Authenticated(env.context) && Listed(tools, d) && Passes(f, d) && Discoverable(env.context.value, d.descriptor, env.policy)
  }

  const NO_FILTER := Filter([], [], "")

  // ----- what can run -----

  lemma ResolvedIsListed(tools: Tools, c: Call)
    requires Filed(tools) && Resolved(tools, c.name, c.version).Some?
    ensures var d := Resolved(tools, c.name, c.version).value;
            Listed(tools, d) && ValidDescriptor(d.descriptor) && d.descriptor.name == Trim(c.name) && d.descriptor.version == Trim(c.version)
  {
    hide ValidDescriptor, Trim;
  }

  /** Without a guard, over every registry that registration can produce: a handler runs exactly for the tools
      that discovery lists, for well-formed calls, unless the tool is a command or its name or version is
      padded with space. */
  lemma HandlersRunExactlyForDiscoveredTools(env: Env, tools: Tools, c: Call)
    requires Filed(tools) && env.guard.None?
    ensures Executed(env, tools, c).ran <==>
      exists d :: Described(env, tools, NO_FILTER, d) && WellFormedFor(d.descriptor, c) && !d.descriptor.level.Command?
                  && Trimmed(d.descriptor.name) && Trimmed(d.descriptor.version)
  {
    hide ValidDescriptor, ValidCall, HasCapability, HasPermission, Discoverable, Trim, Filed;
    var found := Resolved(tools, c.name, c.version);
    if ValidCall(c) && env.registered && Authenticated(env.context) && found.Some? {
      ResolvedIsListed(tools, c);
      var d := found.value;
      EvaluationIsDiscovery(env.context.value, d.descriptor, c, env.policy);
      CommandsStop(env, d, c);
    }
    if d :| Described(env, tools, NO_FILTER, d) && WellFormedFor(d.descriptor, c) && !d.descriptor.level.Command?
            && Trimmed(d.descriptor.name) && Trimmed(d.descriptor.version) {
      ResolvableIffTrimmed(tools, d);
    }
  }

  lemma CommandsStop(env: Env, d: Definition, c: Call)
    requires ValidDescriptor(d.descriptor)
    ensures forall decision: Decision ::
      decision == ReviewDecision(d.descriptor, env.policy) ==> (Handled(env, d, c, decision).ran <==> !d.descriptor.level.Command?)
  {
    hide ValidDescriptor;
    if !d.descriptor.level.Read? {
      WritesNeedReview(d.descriptor, env.policy);
    }
  }

  /** No handler of a command-level tool ever runs: under any policy, any guard, any principal, any call. */
  lemma CommandHandlersNeverRun(env: Env, tools: Tools, c: Call)
    requires Filed(tools)
    ensures Executed(env, tools, c).ran ==>
      Resolved(tools, c.name, c.version).Some? && !Resolved(tools, c.name, c.version).value.descriptor.level.Command?
  {
    hide ValidDescriptor, ValidCall, HasCapability, HasPermission, Trim, Filed;
    if Resolved(tools, c.name, c.version).Some? {
      ResolvedIsListed(tools, c);
      CommandsStop(env, Resolved(tools, c.name, c.version).value, c);
    }
  }

  /** A draft handler that ran never ends completed: the result is needs_review when it replied and neither
      the guard nor the audit failed, and failed otherwise. A reply that says failed or rejected becomes
      needs_review too. */
  lemma DraftsEndInReviewOrFailure(env: Env, tools: Tools, c: Call, auditFails: bool)
    requires Filed(tools)
    ensures var r, found := Audited(Executed(env, tools, c), auditFails).result, Resolved(tools, c.name, c.version);
            Executed(env, tools, c).ran && found.Some? && found.value.descriptor.level.Draft? ==>
              && (r.status == NeedsReview || r.status == Status.Failed)
              && (r.status == NeedsReview <==>
                    env.handle(found.value, c).Replied? && !(env.guard.Some? && env.guard.value.afterFails)
                    && (auditFails ==> env.handle(found.value, c).result.error.Some?))
              && (r.status == NeedsReview ==> r.review.required && r.review.reasons != [])
  {
    hide ValidDescriptor, ValidCall, HasCapability, HasPermission, Trim, Filed;
    var found := Resolved(tools, c.name, c.version);
    if found.Some? {
      ResolvedIsListed(tools, c);
      if found.value.descriptor.level.Draft? {
        WritesNeedReview(found.value.descriptor, env.policy);
      }
    }
  }

  function Discovered(p: Principal, policy: Policy, all: seq<Definition>): seq<Definition> {
    if all == [] then []
    else
      var last := all[|all| - 1];
      Discovered(p, policy, all[..|all| - 1]) + if Discoverable(p, last.descriptor, policy) then [last] else []
  }

  lemma {:induction false} DiscoveredInOrder(p: Principal, policy: Policy, all: seq<Definition>)
    requires Ascending(all)
    ensures Ascending(Discovered(p, policy, all))
    ensures forall d :: d in Discovered(p, policy, all) <==> d in all && Discoverable(p, d.descriptor, policy)
  {
    hide Discoverable, Before;
    if all != [] {
      var init, last := all[..|all| - 1], all[|all| - 1];
      DiscoveredInOrder(p, policy, init);
      assert all == init + [last];
      forall d | d in init ensures Before(d, last) {
        var j :| 0 <= j < |init| && init[j] == d;
        assert Before(all[j], all[|all| - 1]);
      }
    }
  }

  class Runtime {
    const registry: Registry
    const policy: Policy
    var ran: seq<Call>       // the calls that reached a handler
    var audits: seq<Audit>

    constructor (registry: Registry, policy: Policy)
      ensures this.registry == registry && this.policy == policy && ran == [] && audits == []
    {
      this.registry, this.policy, ran, audits := registry, policy, [], [];
    }

    /** The descriptors the principal may discover, in listing order. */
    method Describe(context: Option<Principal>, f: Filter) returns (found: Result<seq<Definition>, Error>)
      requires Filed(registry.tools)
      ensures found.Ok? <==> context.Some? && Trim(context.value.userId) != ""
      ensures found.Ok? ==> Ascending(found.value)
      ensures found.Ok? ==> forall d :: d in found.value <==>
                Listed(registry.tools, d) && Passes(f, d) && Discoverable(context.value, d.descriptor, policy)
    {
      hide Discoverable, Passes, Filed;
      if !Authenticated(context) {
        return Err(ContextRequired);
      }
      var all := registry.Definitions(f);
      var kept: seq<Definition> := [];
      for i := 0 to |all|
        invariant kept == Discovered(context.value, policy, all[..i])
      {
        assert all[..i + 1][..i] == all[..i];
        if Discoverable(context.value, all[i].descriptor, policy) {
          kept := kept + [all[i]];
        }
      }
      assert all[..|all|] == all;
      DiscoveredInOrder(context.value, policy, all);
      found := Ok(kept);
    }

    method RunHandler(env: Env, d: Definition, c: Call, decision: Decision) returns (r: ToolResult, failed: bool)
      modifies this`ran
      ensures Outcome(r, ran != old(ran), failed) == Handled(env, d, c, decision)
      ensures ran == old(ran) || ran == old(ran) + [c]
    {
      if decision.requiresReview && d.descriptor.level.Command? {
        return ToolResult(c.callId, NeedsReview, None, Review(true, decision.reasons, [])), false;
      }
      ran := ran + [c];
      match env.handle(d, c) {
        case ContextCancelled =>
          return ToolResult(c.callId, Status.Failed, Some(Cancelled), NO_REVIEW), false;
        case DeadlineExceeded =>
          return ToolResult(c.callId, Status.Failed, Some(Timeout), NO_REVIEW), false;
        case HandlerFailed =>
          return ToolResult(c.callId, Status.Failed, Some(BusinessFailure), NO_REVIEW), true;
        case Replied(reply) =>
          r, failed := reply.(callId := c.callId), false;
          if r.status == Unset {
            r := r.(status := Completed);
          }
          if env.guard.Some? && env.guard.value.afterFails {
            r := r.(status := Status.Failed);
            if r.error.None? {
              r := r.(error := Some(SystemFailure));
            }
            return r, true;
          }
          if decision.requiresReview {
            r := r.(status := NeedsReview);
          }
          r := r.(review := Review(decision.requiresReview, decision.reasons, [d.descriptor.confirmAction]));
      }
    }

    method ExecuteCall(env: Env, c: Call) returns (r: ToolResult, failed: bool)
      requires env.registered
      modifies this`ran
      ensures Outcome(r, ran != old(ran), failed) == Executed(env, registry.tools, c)
      ensures ran == old(ran) || ran == old(ran) + [c]
    {
      hide ValidCall, ValidDescriptor, Evaluate, ReviewDecision, Handled, Trim, Lower;
      if !ValidCall(c) {
        return Refusal(c, InvalidArguments).result, false;
      }
      if !Authenticated(env.context) {
        return Refusal(c, Unauthenticated).result, false;
      }
      var found := registry.Resolve(c.name, c.version);
      if found.None? {
        return Refusal(c, NotFound).result, false;
      }
      var d := found.value;
      if env.guard.None? {
        var decision := Evaluate(env.context, d.descriptor, c, env.policy);
        if decision.Err? {
          return Refusal(c, ErrorCode(decision.error)).result, false;
        }
        r, failed := RunHandler(env, d, c, decision.value);
        return;
      }
      match env.guard.value.before {
        case GuardError(code) =>
          return Refusal(c, code).result, false;
        case Block(carried) =>
          return Refusal(c, if carried.Some? then carried.value else SystemFailure).result, false;
        case Short(short) =>
          return if short.callId == "" then short.(callId := c.callId) else short, false;
        case Pass =>
          r, failed := RunHandler(env, d, c, ReviewDecision(d.descriptor, env.policy));
      }
    }

    /** Executes a call and audits it: exactly one record, of the result before the audit's own failure. */
    method Execute(context: Option<Principal>, guard: Option<Guard>, handle: (Definition, Call) -> HandlerAnswer, auditFails: bool, c: Call)
      returns (r: ToolResult, failed: bool)
      modifies this
      ensures var o := Executed(Env(true, policy, context, guard, handle), registry.tools, c);
              && Outcome(r, o.ran, failed) == Audited(o, auditFails)
              && ran == (if o.ran then old(ran) + [c] else old(ran))
              && audits == old(audits) + [Audit(c.callId, o.result.status, o.result.error, o.result.review.required)]
    {
      hide Executed;
      r, failed := ExecuteCall(Env(true, policy, context, guard, handle), c);
      audits := audits + [Audit(c.callId, r.status, r.error, r.review.required)];
      if auditFails {
        if r.error.None? {
          r := r.(status := Status.Failed, error := Some(SystemFailure));
        }
        failed := true;
      }
    }
  }
}
