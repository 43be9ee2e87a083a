/** The chat runtime's entry points: they take a session's lease, prepare a run, execute it and give the
    lease back. */
module ChatRuntime {
  import opened ChatRun
  import opened Text

  // What an entry point does with the lease and the execution, in order.
  datatype Action = TakeLease | Settled | ReleaseLease

  function Once(happens: bool, a: Action): seq<Action> {
    if happens then [a] else []
  }

  function StartActions(w: World, input: Input): seq<Action> {
    var prepared := Prepare(w, input).Fine?;
    Once(HoldsLease(input), TakeLease) + Once(prepared && !w.queueForWorker, Settled) + Once(prepared && HoldsLease(input), ReleaseLease)
  }

  function RunActions(w: World, input: Input): seq<Action> {
    var prepared := Prepare(w, input).Fine?;
    Once(HoldsLease(input), TakeLease) + Once(prepared, Settled) + Once(prepared && HoldsLease(input), ReleaseLease)
  }

  // A continuation: whether its target resolves, and the lease of its session, if there is a session owner.
  datatype Continuation = Continuation(resolves: bool, owned: bool, granted: bool, input: Input)

  predicate Proceeds(k: Continuation) {
    k.resolves && (k.owned ==> k.granted)
  }

  function ContinueActions(w: World, k: Continuation): seq<Action> {
    var leased := Proceeds(k) && k.owned;
    Once(leased, TakeLease) + Once(Proceeds(k) && Prepare(w, k.input).Fine?, Settled) + Once(leased, ReleaseLease)
  }

  function Count(s: seq<Action>, a: Action): nat {
    multiset(s)[a]
  }

  // Every lease taken is released exactly once, and nothing happens after that.
  predicate Balanced(s: seq<Action>) {
    && Count(s, TakeLease) == Count(s, ReleaseLease) <= 1
    && (ReleaseLease in s ==> s[0] == TakeLease && s[|s| - 1] == ReleaseLease)
  }

  // How many store operations preparation takes.
  function PrepareOps(w: World, input: Input): nat {
    (if input.session.FromStore? then 1 else 0) + 6 + (if input.hasFile then 1 else 0) + (if w.queueForWorker then 2 else 3)
  }

  lemma LaunchSucceedsIff(w: World, r: Run)
    ensures Launch(w, r).Fine? <==> AllDone(w, r.used, r.used + if w.queueForWorker then 2 else 3)
  {
    var n := r.used;
    if AllDone(w, n, n + if w.queueForWorker then 2 else 3) {
      assert w.store(n) == Done && w.store(n + 1) == Done;
      assert !w.queueForWorker ==> w.store(n + 2) == Done;
    }
  }

  lemma RowsSucceedIff(w: World, r: Run)
    ensures CreateRows(w, r).Fine? <==> AllDone(w, r.used, r.used + 4)
    ensures CreateRows(w, r).Fine? ==> CreateRows(w, r).run == r.(used := r.used + 4)
  {
    var n := r.used;
    if AllDone(w, n, n + 4) {
      assert w.store(n) == Done && w.store(n + 1) == Done && w.store(n + 2) == Done && w.store(n + 3) == Done;
    }
  }

  lemma MessageSucceedsIff(w: World, r: Run, hasFile: bool)
    ensures var s := Append(w, r, MessageStart, false);
            (s.Fine? && TouchIf(w, s.run, hasFile).Fine?) <==> AllDone(w, r.used, r.used + 2 + if hasFile then 1 else 0)
    ensures var s := Append(w, r, MessageStart, false);
            s.Fine? && TouchIf(w, s.run, hasFile).Fine? ==> TouchIf(w, s.run, hasFile).run.used == r.used + 2 + if hasFile then 1 else 0
  {
    var n := r.used;
    if AllDone(w, n, n + 2 + if hasFile then 1 else 0) {
      assert w.store(n) == Done && w.store(n + 1) == Done;
      assert hasFile ==> w.store(n + 2) == Done;
    }
  }

  /** Preparation succeeds exactly when the request is complete, its session resolves, and every one of its
      store operations succeeds. */
  lemma PrepareSucceedsIff(w: World, input: Input)
    ensures Prepare(w, input).Fine? <==>
              && input.userId != "" && Trim(input.message) != ""
              && (input.session == Given || input.session == FromOwner(true)
                  || (input.session.FromStore? && (input.session.stored ==> input.session.boundary)))
              && AllDone(w, 0, PrepareOps(w, input))
    ensures PrepareOps(w, input)
         == (if input.session.FromStore? then 7 else 6) + (if input.hasFile then 1 else 0) + if w.queueForWorker then 2 else 3
  {
    var s0 := ResolveSession(w, input);
    if Guarded(input) && s0.Fine? {
      RowsSucceedIff(w, s0.run);
      var s1 := CreateRows(w, s0.run);
      if s1.Fine? {
        MessageSucceedsIff(w, s1.run, input.hasFile);
        var s2 := Append(w, s1.run, MessageStart, false);
        if s2.Fine? && TouchIf(w, s2.run, input.hasFile).Fine? {
          LaunchSucceedsIff(w, TouchIf(w, s2.run, input.hasFile).run);
        }
      }
    }
  }

  /** What the entry points do, in this order: a lease granted by the session's owner to a complete request, the execution
      of a prepared run, and the return of the lease. */
  lemma ActionsOfEntryPoints(w: World, input: Input, k: Continuation)
    ensures var lease := input.session == FromOwner(true) && input.userId != "" && Trim(input.message) != "";
            var ready := Prepare(w, input).Fine?;
            && StartActions(w, input) == (if lease then [TakeLease] else []) + (if ready && !w.queueForWorker then [Settled] else [])
                                         + (if ready && lease then [ReleaseLease] else [])
            && RunActions(w, input) == (if lease then [TakeLease] else []) + (if ready then [Settled] else [])
                                       + (if ready && lease then [ReleaseLease] else [])
    ensures var proceeds := k.resolves && (k.owned ==> k.granted);
            ContinueActions(w, k) ==
              (if proceeds && k.owned then [TakeLease] else []) + (if proceeds && Prepare(w, k.input).Fine? then [Settled] else [])
              + (if proceeds && k.owned then [ReleaseLease] else [])
  {
    hide Prepare;
  }

  lemma BalancedIff(taken: bool, settled: bool, released: bool)
    requires released ==> taken
    ensures Balanced(Once(taken, TakeLease) + Once(settled, Settled) + Once(released, ReleaseLease)) <==> taken == released
  {
  }

  /** Start and Run release the lease exactly once, last, except when preparation fails after the lease was
      taken: then they never release it. */
  lemma LeaseLeaksIffStoreFails(w: World, input: Input)
    ensures Balanced(StartActions(w, input)) <==> !(HoldsLease(input) && !AllDone(w, 0, PrepareOps(w, input)))
    ensures Balanced(RunActions(w, input)) <==> !(HoldsLease(input) && !AllDone(w, 0, PrepareOps(w, input)))
    ensures !Balanced(StartActions(w, input)) ==> StartActions(w, input) == RunActions(w, input) == [TakeLease]
  {
    PrepareSucceedsIff(w, input);
    var prepared := Prepare(w, input).Fine?;
    BalancedIff(HoldsLease(input), prepared && !w.queueForWorker, prepared && HoldsLease(input));
    BalancedIff(HoldsLease(input), prepared, prepared && HoldsLease(input));
  }

  /** A continuation releases the lease exactly once, last, whatever fails. */
  lemma ContinueAlwaysReleases(w: World, k: Continuation)
    ensures Balanced(ContinueActions(w, k))
  {
  }

  /** A run queued for the worker is never executed here by Start; Run and Continue execute it anyway, while
      its row still says queued. */
  lemma OnlyStartHonoursTheQueue(w: World, input: Input, k: Continuation)
    ensures Settled in StartActions(w, input) <==> Prepare(w, input).Fine? && !w.queueForWorker
    ensures Settled in RunActions(w, input) <==> Prepare(w, input).Fine?
    ensures Settled in ContinueActions(w, k) <==> Proceeds(k) && Prepare(w, k.input).Fine?
    ensures Prepare(w, input).Fine? ==> Prepare(w, input).run.status == if w.queueForWorker then Queued else Running
  {
    if Prepare(w, input).Fine? {
      PreparedStatus(w, input);
    }
    hide Prepare, HoldsLease, Proceeds;
  }

  lemma RowsKeepStatus(w: World, r: Run)
    ensures CreateRows(w, r).run.status == r.status
  {
  }

  lemma LaunchStatus(w: World, r: Run)
    requires Launch(w, r).Fine? && r.status == Queued
    ensures Launch(w, r).run.status == if w.queueForWorker then Queued else Running
  {
  }

  lemma PreparedStatus(w: World, input: Input)
    requires Prepare(w, input).Fine?
    ensures Prepare(w, input).run.status == if w.queueForWorker then Queued else Running
  {
    var s1 := ResolveSession(w, input);
    assert s1.run.status == Queued;
    RowsKeepStatus(w, s1.run);
    var s2 := CreateRows(w, s1.run);
    AppendCounts(w, s2.run, MessageStart, false);
    var s3 := Append(w, s2.run, MessageStart, false);
    var s4 := TouchIf(w, s3.run, input.hasFile);
    assert s4.run.status == s3.run.status;
    LaunchStatus(w, s4.run);
    hide ResolveSession, CreateRows, Append, TouchIf, Launch;
  }

  /** Preparation stores no terminal event, so what is proved of settling holds of every prepared run. */
  lemma PreparedHasNoTerminals(w: World, input: Input)
    ensures Terminals(Prepare(w, input).run.events) == 0
  {
    var s0 := ResolveSession(w, input);
    if Guarded(input) && s0.Fine? {
      RowsKeepEvents(w, s0.run);
      var s1 := CreateRows(w, s0.run);
      if s1.Fine? {
        PreparedFromRows(w, s1.run, input);
      }
    }
  }

  lemma RowsKeepEvents(w: World, r: Run)
    ensures CreateRows(w, r).run.events == r.events
  {
  }

  lemma PreparedFromRows(w: World, r: Run, input: Input)
    requires Guarded(input) && ResolveSession(w, input).Fine? && CreateRows(w, ResolveSession(w, input).run) == Fine(r)
    ensures Terminals(Prepare(w, input).run.events) == Terminals(r.events)
  {
    hide CreateRows, Launch, Append, Terminals;
    AppendIsQuiet(w, r, MessageStart);
    var s2 := Append(w, r, MessageStart, false);
    if s2.Fine? {
      var s3 := TouchIf(w, s2.run, input.hasFile);
      if s3.Fine? {
        LaunchIsQuiet(w, s3.run);
      }
    }
  }

  lemma LaunchIsQuiet(w: World, r: Run)
    ensures Terminals(Launch(w, r).run.events) == Terminals(r.events)
  {
    AppendIsQuiet(w, r, RunDispatched);
    AppendIsQuiet(w, Update(w, r, Running).run, RunStatus);
  }

  ghost function Outcome(run: Run, ok: bool, ended: bool): Step {
    if ok then Fine(run) else Broken(run, ended)
  }

  class Runtime {
    var run: Run              // the run being prepared or executed
    var actions: seq<Action>  // since the runtime was made

    constructor ()
      ensures run == NO_RUN && actions == []
    {
      run, actions := NO_RUN, [];
    }

    // ----- the store -----

    method Call(w: World, after: Run, terminal: bool) returns (ok: bool, ghost ended: bool)
      modifies this`run
      ensures Outcome(run, ok, ended) == Attempt(w, old(run), after, terminal)
    {
      var answer := w.store(run.used);
      var used := run.used + 1;
      run := if answer == Refused then run.(used := used) else after.(used := used);
      return answer == Done, answer == Lost && terminal;
    }

    method AppendEvent(w: World, kind: Kind, flag: bool) returns (ok: bool, ghost ended: bool)
      modifies this`run
      ensures Outcome(run, ok, ended) == Append(w, old(run), kind, flag)
    {
      ok, ended := Call(w, run, false);
      if !ok {
        return;
      }
      var terminal := flag || TerminalKind(kind);
      ok, ended := Call(w, run.(events := run.events + [Event(kind, terminal)]), terminal);
    }

    method UpdateRunStatus(w: World, status: Status) returns (ok: bool, ghost ended: bool)
      modifies this`run
      ensures Outcome(run, ok, ended) == Update(w, old(run), status)
    {
      ok, ended := Call(w, run.(status := status), false);
    }

    // ----- execution -----

    method PersistAssistant(w: World) returns (ok: bool, ghost ended: bool)
      modifies this`run
      ensures Outcome(run, ok, ended) == PersistAssistantMessage(w, old(run))
    {
      ok, ended := Call(w, run, false);
      if !ok {
        return;
      }
      ok, ended := Call(w, run, false);
      if !ok {
        return;
      }
      ok, ended := AppendEvent(w, MessageEnd, false);
    }

    method PersistArtifacts(w: World) returns (ok: bool, ghost ended: bool)
      modifies this`run
      ensures Outcome(run, ok, ended) == Artifacts(w, old(run), w.work.artifacts)
    {
      ghost var before := run;
      var drafts := w.work.artifacts;
      ok, ended := true, false;
      for i := 0 to |drafts|
        invariant ok && Artifacts(w, before, drafts[..i]) == Fine(run)
      {
        ArtifactsStep(w, before, drafts, i);
        ghost var r := run;
        ok, ended := drafts[i], false;
        if ok {
          ok, ended := Call(w, run, false);
          if ok {
            ok, ended := AppendEvent(w, ArtifactReady, false);
          }
        }
        assert Outcome(run, ok, ended) == OneArtifact(w, r, drafts[i]);
        if !ok {
          return;
        }
      }
      assert drafts[..|drafts|] == drafts;
    }

    method AppendExtras(w: World) returns (ok: bool, ghost ended: bool)
      modifies this`run
      ensures Outcome(run, ok, ended) == Extras(w, old(run))
    {
      ok, ended := true, false;
      if w.work.toolCalls {
        ok, ended := AppendEvent(w, ToolEnd, false);
        if !ok {
          return;
        }
      }
      if w.work.prompts {
        ok, ended := AppendEvent(w, ReviewPrompt, false);
        if !ok {
          return;
        }
      }
      ok, ended := PersistArtifacts(w);
    }

    method EndRun(w: World, status: Status) returns (ok: bool, ghost ended: bool)
      modifies this`run
      ensures Outcome(run, ok, ended) == End(w, old(run), status)
    {
      ok, ended := UpdateRunStatus(w, status);
      if ok {
        ok, ended := AppendEvent(w, EndKind(status), true);
      }
    }

    method CompleteRun(w: World) returns (ok: bool, ghost ended: bool)
      modifies this`run
      ensures Outcome(run, ok, ended) == Complete(w, old(run))
    {
      ok, ended := PersistAssistant(w);
      if !ok {
        return;
      }
      ok, ended := AppendExtras(w);
      if !ok {
        return;
      }
      ok, ended := EndRun(w, if w.work.review then WaitingReview else Completed);
    }

    method FailRun(w: World) returns (ok: bool, ghost ended: bool)
      modifies this`run
      ensures Outcome(run, ok, ended) == Fail(w, old(run))
    {
      ok, ended := PersistAssistant(w);
      if ok {
        ok, ended := EndRun(w, Failed);
      }
    }

    method ExecuteRun(w: World) returns (ok: bool, ghost ended: bool)
      modifies this`run
      ensures Outcome(run, ok, ended) == Execute(w, old(run))
    {
      ghost var before := run;
      var kinds := w.work.emitted;
      for i := 0 to |kinds|
        invariant run == EmitAll(w, before, kinds[..i])
      {
        assert kinds[..i + 1][..i] == kinds[..i];
        var _, _ := AppendEvent(w, Emitted(kinds[i]), false);
      }
      assert kinds[..|kinds|] == kinds;
      if w.work.failed {
        ok, ended := FailRun(w);
      } else {
        ok, ended := CompleteRun(w);
      }
    }

    /** Executes the run; a persistence failure marks it failed. */
    method ExecuteDispatched(w: World) returns (ok: bool)
      modifies this`run, this`actions
      ensures run == Settle(w, old(run)) && (ok <==> Execute(w, old(run)).Fine?)
      ensures actions == old(actions) + [Settled]
    {
      ghost var ended;
      ok, ended := ExecuteRun(w);
      if !ok {
        var _, _ := EndRun(w, Failed);
      }
      actions := actions + [Settled];
    }

    // ----- preparation -----

    method CreateRunRows(w: World) returns (ok: bool, ghost ended: bool)
      modifies this`run
      ensures Outcome(run, ok, ended) == CreateRows(w, old(run))
    {
      ok, ended := Call(w, run, false);
      if !ok {
        return;
      }
      ok, ended := Call(w, run, false);
      if !ok {
        return;
      }
      ok, ended := Call(w, run, false);
      if !ok {
        return;
      }
      ok, ended := Call(w, run, false);
    }

    method LaunchRun(w: World) returns (ok: bool, ghost ended: bool)
      modifies this`run
      ensures Outcome(run, ok, ended) == Launch(w, old(run))
    {
      if w.queueForWorker {
        ok, ended := AppendEvent(w, RunDispatched, false);
        return;
      }
      ok, ended := UpdateRunStatus(w, Running);
      if ok {
        ok, ended := AppendEvent(w, RunStatus, false);
      }
    }

    /** Prepares a run. When it succeeds it hands the lease on; when it fails the lease, if taken, is lost. */
    method PrepareRun(w: World, input: Input) returns (ok: bool, leased: bool, ghost ended: bool)
      modifies this`run, this`actions
      ensures Outcome(run, ok, ended) == Prepare(w, input)
      ensures ok ==> (leased <==> HoldsLease(input))
      ensures actions == old(actions) + Once(HoldsLease(input), TakeLease)
    {
      run := NO_RUN;
      leased, ended := false, false;
      if !Guarded(input) {
        return false, leased, ended;
      }
      match input.session {
        case Given =>
        case FromOwner(granted) =>
          if !granted {
            return false, leased, ended;
          }
          actions := actions + [TakeLease];
          leased := true;
        case FromStore(stored, boundary) =>
          if stored && !boundary {
            return false, leased, ended;
          }
          ok, ended := Call(w, run, false);
          if !ok {
            return;
          }
      }
      ok, ended := CreateRunRows(w);
      if !ok {
        return;
      }
      ok, ended := AppendEvent(w, MessageStart, false);
      if !ok {
        return;
      }
      if input.hasFile {
        ok, ended := Call(w, run, false);
        if !ok {
          return;
        }
      }
      ok, ended := LaunchRun(w);
    }

    // ----- entry points -----

    method Release(leased: bool)
      modifies this`actions
      ensures actions == old(actions) + Once(leased, ReleaseLease)
    {
      if leased {
        actions := actions + [ReleaseLease];
      }
    }

    method Start(w: World, input: Input) returns (ok: bool)
      modifies this
      ensures ok <==> Prepare(w, input).Fine?
      ensures actions == old(actions) + StartActions(w, input)
      ensures run == if ok && !w.queueForWorker then Settle(w, Prepare(w, input).run) else Prepare(w, input).run
    {
      var leased;
      ghost var ended;
      ok, leased, ended := PrepareRun(w, input);
      if !ok {
        return;
      }
      if !w.queueForWorker {
        var _ := ExecuteDispatched(w);
      }
      Release(leased);
    }

    method Run(w: World, input: Input) returns (ok: bool)
      modifies this
      ensures ok <==> Prepare(w, input).Fine? && Execute(w, Prepare(w, input).run).Fine?
      ensures actions == old(actions) + RunActions(w, input)
      ensures run == if Prepare(w, input).Fine? then Settle(w, Prepare(w, input).run) else Prepare(w, input).run
    {
      var leased;
      ghost var ended;
      ok, leased, ended := PrepareRun(w, input);
      if !ok {
        return;
      }
      ok := ExecuteDispatched(w);
      Release(leased);
    }

    method Continue(w: World, k: Continuation) returns (ok: bool)
      requires k.input.session == Given
      modifies this
      ensures ok <==> Proceeds(k) && Prepare(w, k.input).Fine?
      ensures actions == old(actions) + ContinueActions(w, k)
      ensures ok ==> run == Settle(w, Prepare(w, k.input).run)
    {
      if !k.resolves || (k.owned && !k.granted) {
        return false;
      }
      if k.owned {
        actions := actions + [TakeLease];
      }
      var leased;
      ghost var ended;
      ok, leased, ended := PrepareRun(w, k.input);
      if ok {
        var _ := ExecuteDispatched(w);
      }
      Release(k.owned);
    }
  }
}
