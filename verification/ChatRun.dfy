/** The life of one chat run: how it is prepared, executed and settled over a store in which any
    operation may fail, and how the session's lease is taken and given back. */
module ChatRun {
  import opened Text
  import opened Wrappers

  // What a store operation does: it succeeds, it fails without effect, or it takes effect but its
  // acknowledgement is lost, so that the caller sees a failure.
  datatype Answer = Done | Refused | Lost

  datatype Status = Queued | Running | Completed | WaitingReview | Failed

  // The runtime's own event types, and those of the executor.
  datatype Kind = MessageStart | RunDispatched | RunStatus | MessageEnd | ToolEnd | ReviewPrompt | ArtifactReady
                | RunEnd | RunError | Emitted(eventType: string)

  datatype Event = Event(kind: Kind, terminal: bool)

  // The run's row and events; used counts the store operations so far.
  datatype Run = Run(status: Status, events: seq<Event>, used: nat)

  const NO_RUN := Run(Queued, [], 0)

  // What the executor emits, and its projected result; artifacts says which of the drafts are valid.
  datatype Work = Work(emitted: seq<string>, failed: bool, toolCalls: bool, prompts: bool, artifacts: seq<bool>, review: bool)

  // Where the session comes from: handed over, leased from the owner, or loaded from the store.
  datatype Session = Given | FromOwner(granted: bool) | FromStore(stored: bool, boundary: bool)

  datatype Input = Input(userId: string, message: string, hasFile: bool, session: Session)

  // The n-th answer of the store, the plan's queue flag, and the executor's work.
  datatype World = World(store: nat -> Answer, queueForWorker: bool, work: Work)

  // An operation's outcome; ended says that the failing operation has nevertheless stored a terminal event.
  datatype Step = Fine(run: Run) | Broken(run: Run, ended: bool) {
    predicate IsFailure() { Broken? }
    function PropagateFailure(): Step requires Broken? { this }
    function Extract(): Run requires Fine? { run }
  }

  // ----- the store -----

  // The event types that the event writer marks as terminal by itself.
  predicate TerminalType(eventType: string) {
    Lower(Trim(eventType)) in {"run_finished", "run_failed", "run_error", "run_cancelled"}
  }

  predicate TerminalKind(kind: Kind) {
    kind.RunError? || (kind.Emitted? && TerminalType(kind.eventType))
  }

  function Attempt(w: World, r: Run, after: Run, terminal: bool): Step {
    match w.store(r.used)
    case Done => Fine(after.(used := r.used + 1))
    case Refused => Broken(r.(used := r.used + 1), false)
    case Lost => Broken(after.(used := r.used + 1), terminal)
  }

  // An operation on other tables, or a read.
  function Touch(w: World, r: Run): Step {
    Attempt(w, r, r, false)
  }

  function Update(w: World, r: Run, status: Status): Step {
    Attempt(w, r, r.(status := status), false)
  }

  function Append(w: World, r: Run, kind: Kind, flag: bool): Step {
    var terminal := flag || TerminalKind(kind);
    var r1 :- Touch(w, r);
    Attempt(w, r1, r1.(events := r1.events + [Event(kind, terminal)]), terminal)
  }

  // ----- settling -----

  // The executor may go on after a failed emission.
  function EmitAll(w: World, r: Run, kinds: seq<string>): Run {
    if kinds == [] then r else Append(w, EmitAll(w, r, kinds[..|kinds| - 1]), Emitted(kinds[|kinds| - 1]), false).run
  }

  function PersistAssistantMessage(w: World, r: Run): Step {
    var r1 :- Touch(w, r);
    var r2 :- Touch(w, r1);
    Append(w, r2, MessageEnd, false)
  }

  function AppendIf(w: World, r: Run, wanted: bool, kind: Kind): Step {
    if wanted then Append(w, r, kind, false) else Fine(r)
  }

  function Artifacts(w: World, r: Run, drafts: seq<bool>): Step {
    if drafts == [] then Fine(r)
    else
      var r1 :- Artifacts(w, r, drafts[..|drafts| - 1]);
      OneArtifact(w, r1, drafts[|drafts| - 1])
  }

  function OneArtifact(w: World, r: Run, valid: bool): Step {
    if !valid then Broken(r, false)
    else
      var r1 :- Touch(w, r);
      Append(w, r1, ArtifactReady, false)
  }

  function EndStatus(work: Work): Status {
    if work.failed then Failed else if work.review then WaitingReview else Completed
  }

  function EndKind(status: Status): Kind {
    if status == Failed then RunError else RunEnd
  }

  function Extras(w: World, r: Run): Step {
    var r1 :- AppendIf(w, r, w.work.toolCalls, ToolEnd);
    var r2 :- AppendIf(w, r1, w.work.prompts, ReviewPrompt);
    Artifacts(w, r2, w.work.artifacts)
  }

  function Complete(w: World, r: Run): Step {
    var r1 :- PersistAssistantMessage(w, r);
    var r2 :- Extras(w, r1);
    End(w, r2, if w.work.review then WaitingReview else Completed)
  }

  function Fail(w: World, r: Run): Step {
    var r1 :- PersistAssistantMessage(w, r);
    End(w, r1, Failed)
  }

  // The final status first, then the terminal event.
  function End(w: World, r: Run, status: Status): Step {
    var r1 :- Update(w, r, status);
    Append(w, r1, EndKind(status), true)
  }

  function Execute(w: World, r: Run): Step {
    var r1 := EmitAll(w, r, w.work.emitted);
    if w.work.failed then Fail(w, r1) else Complete(w, r1)
  }

  // A persistence failure is answered by marking the run failed.
  function Settle(w: World, r: Run): Run {
    var s := Execute(w, r);
    if s.Fine? then s.run else End(w, s.run, Failed).run
  }

  // ----- preparing -----

  predicate Guarded(input: Input) {
    input.userId != "" && Trim(input.message) != ""
  }

  // The session's lease has been taken when the session is resolved.
  predicate HoldsLease(input: Input) {
    Guarded(input) && input.session == FromOwner(true)
  }

  function ResolveSession(w: World, input: Input): Step {
    match input.session
    case Given => Fine(NO_RUN)
    case FromOwner(granted) => if granted then Fine(NO_RUN) else Broken(NO_RUN, false)
    case FromStore(stored, boundary) => if stored && !boundary then Broken(NO_RUN, false) else Touch(w, NO_RUN)
  }

  // The run's row, the message's sequence number, the message, and its link to the run.
  function CreateRows(w: World, r: Run): Step {
    var r1 :- Touch(w, r);
    var r2 :- Touch(w, r1);
    var r3 :- Touch(w, r2);
    Touch(w, r3)
  }

  function TouchIf(w: World, r: Run, wanted: bool): Step {
    if wanted then Touch(w, r) else Fine(r)
  }

  function Launch(w: World, r: Run): Step {
    if w.queueForWorker then Append(w, r, RunDispatched, false)
    else
      var r1 :- Update(w, r, Running);
      Append(w, r1, RunStatus, false)
  }

  function Prepare(w: World, input: Input): Step {
    if !Guarded(input) then Broken(NO_RUN, false)
    else
      var r1 :- ResolveSession(w, input);
      var r2 :- CreateRows(w, r1);
      var r3 :- Append(w, r2, MessageStart, false);
      var r4 :- TouchIf(w, r3, input.hasFile);
      Launch(w, r4)
  }

  // ----- terminal events -----

  function Terminals(events: seq<Event>): nat {
    if events == [] then 0 else Terminals(events[..|events| - 1]) + if events[|events| - 1].terminal then 1 else 0
  }

  predicate EndsRun(r: Run) {
    r.events != [] && r.events[|r.events| - 1].terminal
  }

  // The last event is terminal, and it is the one that stands for the status.
  predicate Agrees(r: Run) {
    && EndsRun(r)
    && r.events[|r.events| - 1].kind == EndKind(r.status)
    && (r.status == Failed || r.status == Completed || r.status == WaitingReview)
  }

  // Step s is an outcome of work that stores no terminal event.
  predicate Quiet(r: Run, s: Step) {
    Terminals(s.run.events) == Terminals(r.events) && s.run.status == r.status && (s.Broken? ==> !s.ended)
  }

  lemma AppendCounts(w: World, r: Run, kind: Kind, flag: bool)
    ensures var s, terminal := Append(w, r, kind, flag), flag || TerminalKind(kind);
            && s.run.status == r.status
            && (s.run.events == r.events || s.run.events == r.events + [Event(kind, terminal)])
            && (s.Fine? ==> s.run.events == r.events + [Event(kind, terminal)])
            && (s.Broken? && s.ended ==> terminal && s.run.events == r.events + [Event(kind, terminal)])
            && (s.Broken? && terminal && !s.ended ==> s.run.events == r.events)
            && Terminals(r.events + [Event(kind, terminal)]) == Terminals(r.events) + if terminal then 1 else 0
  {
    var e := Event(kind, flag || TerminalKind(kind));
    assert (r.events + [e])[..|r.events|] == r.events;
  }

  // The store fails nothing.
  ghost predicate Flawless(w: World) {
    forall n :: w.store(n) == Done
  }

  predicate AllValid(drafts: seq<bool>) {
    false !in drafts
  }

  lemma AppendIsQuiet(w: World, r: Run, kind: Kind)
    requires !TerminalKind(kind)
    ensures Quiet(r, Append(w, r, kind, false)) && (Flawless(w) ==> Append(w, r, kind, false).Fine?)
  {
    AppendCounts(w, r, kind, false);
  }

  lemma ArtifactsStep(w: World, r: Run, drafts: seq<bool>, i: nat)
    requires i < |drafts| && Artifacts(w, r, drafts[..i]).Fine?
    ensures Artifacts(w, r, drafts[..i + 1]) == OneArtifact(w, Artifacts(w, r, drafts[..i]).run, drafts[i])
    ensures Artifacts(w, r, drafts[..i + 1]).Broken? ==> Artifacts(w, r, drafts) == Artifacts(w, r, drafts[..i + 1])
  {
    assert drafts[..i + 1][..i] == drafts[..i];
    BrokenStays(w, r, drafts, i + 1);
  }

  lemma {:induction false} BrokenStays(w: World, r: Run, drafts: seq<bool>, i: nat)
    requires i <= |drafts|
    ensures Artifacts(w, r, drafts[..i]).Broken? ==> Artifacts(w, r, drafts) == Artifacts(w, r, drafts[..i])
  {
    if i == |drafts| {
      assert drafts[..i] == drafts;
    } else {
      BrokenStays(w, r, drafts[..|drafts| - 1], i);
      assert drafts[..|drafts| - 1][..i] == drafts[..i];
    }
  }

  lemma PersistIsQuiet(w: World, r: Run)
    ensures Quiet(r, PersistAssistantMessage(w, r)) && (Flawless(w) ==> PersistAssistantMessage(w, r).Fine?)
  {
    var s1 := Touch(w, r);
    if s1.Fine? {
      var s2 := Touch(w, s1.run);
      if s2.Fine? {
        AppendIsQuiet(w, s2.run, MessageEnd);
      }
    }
  }

  lemma OneArtifactIsQuiet(w: World, r: Run, valid: bool)
    ensures Quiet(r, OneArtifact(w, r, valid)) && (Flawless(w) && valid ==> OneArtifact(w, r, valid).Fine?)
  {
    if valid && Touch(w, r).Fine? {
      AppendIsQuiet(w, Touch(w, r).run, ArtifactReady);
    }
  }

  lemma {:induction false} ArtifactsAreQuiet(w: World, r: Run, drafts: seq<bool>)
    ensures Quiet(r, Artifacts(w, r, drafts)) && (Flawless(w) && AllValid(drafts) ==> Artifacts(w, r, drafts).Fine?)
  {
    if drafts != [] {
      var init := drafts[..|drafts| - 1];
      ArtifactsAreQuiet(w, r, init);
      assert drafts == init + [drafts[|drafts| - 1]];
      if Artifacts(w, r, init).Fine? {
        OneArtifactIsQuiet(w, Artifacts(w, r, init).run, drafts[|drafts| - 1]);
      }
    }
  }

  lemma ExtrasAreQuiet(w: World, r: Run)
    ensures Quiet(r, Extras(w, r)) && (Flawless(w) && AllValid(w.work.artifacts) ==> Extras(w, r).Fine?)
  {
    AppendIsQuiet(w, r, ToolEnd);
    var s1 := AppendIf(w, r, w.work.toolCalls, ToolEnd);
    if s1.Fine? {
      AppendIsQuiet(w, s1.run, ReviewPrompt);
      var s2 := AppendIf(w, s1.run, w.work.prompts, ReviewPrompt);
      if s2.Fine? {
        ArtifactsAreQuiet(w, s2.run, w.work.artifacts);
      }
    }
  }

  // An outcome of work that ends with the terminal event of the given status, and stores no other one.
  predicate EndsWith(r: Run, s: Step, status: Status) {
    if s.Fine? || s.ended
    then s.run.status == status && Terminals(s.run.events) == Terminals(r.events) + 1
         && EndsRun(s.run) && s.run.events[|s.run.events| - 1].kind == EndKind(status)
    else Terminals(s.run.events) == Terminals(r.events) && (s.run.status == r.status || s.run.status == status)
  }

  lemma EndEnds(w: World, r: Run, status: Status)
    ensures EndsWith(r, End(w, r, status), status) && (Flawless(w) ==> End(w, r, status).Fine?)
    ensures !(End(w, r, status).Fine? || End(w, r, status).ended) ==>
              End(w, r, status).run.events == r.events
              && End(w, r, status).run.status == if w.store(r.used) == Refused then r.status else status
  {
    var s := Update(w, r, status);
    if s.Fine? {
      AppendCounts(w, s.run, EndKind(status), true);
    }
  }

  lemma CompleteEnds(w: World, r: Run)
    ensures EndsWith(r, Complete(w, r), if w.work.review then WaitingReview else Completed)
    ensures Flawless(w) && AllValid(w.work.artifacts) ==> Complete(w, r).Fine?
    ensures Flawless(w) && Complete(w, r).Broken? ==> !Complete(w, r).ended
  {
    PersistIsQuiet(w, r);
    var s1 := PersistAssistantMessage(w, r);
    if s1.Fine? {
      ExtrasAreQuiet(w, s1.run);
      var s2 := Extras(w, s1.run);
      if s2.Fine? {
        EndEnds(w, s2.run, if w.work.review then WaitingReview else Completed);
      }
    }
  }

  lemma ExecuteEnds(w: World, r: Run)
    ensures EndsWith(EmitAll(w, r, w.work.emitted), Execute(w, r), EndStatus(w.work))
    ensures Flawless(w) && (!w.work.failed ==> AllValid(w.work.artifacts)) ==> Execute(w, r).Fine?
    ensures Flawless(w) && Execute(w, r).Broken? ==> !Execute(w, r).ended
  {
    var r1 := EmitAll(w, r, w.work.emitted);
    if w.work.failed {
      PersistIsQuiet(w, r1);
      if PersistAssistantMessage(w, r1).Fine? {
        EndEnds(w, PersistAssistantMessage(w, r1).run, Failed);
      }
    } else {
      CompleteEnds(w, r1);
    }
  }

  lemma {:induction false} EmissionsAreQuiet(w: World, r: Run, kinds: seq<string>)
    requires forall k :: k in kinds ==> !TerminalType(k)
    ensures Terminals(EmitAll(w, r, kinds).events) == Terminals(r.events) && EmitAll(w, r, kinds).status == r.status
  {
    if kinds != [] {
      EmissionsAreQuiet(w, r, kinds[..|kinds| - 1]);
      AppendCounts(w, EmitAll(w, r, kinds[..|kinds| - 1]), Emitted(kinds[|kinds| - 1]), false);
    }
  }

  // ----- which events are stored, in which order -----

  // A step adds the given events, or the first of them before it breaks.
  predicate Adds(r: Run, s: Step, tail: seq<Event>) {
    r.events <= s.run.events <= r.events + tail && (s.Fine? ==> s.run.events == r.events + tail)
  }

  lemma AddsThen(r: Run, s1: Step, tail1: seq<Event>, s: Step, tail2: seq<Event>)
    requires Adds(r, s1, tail1) && if s1.Fine? then Adds(s1.run, s, tail2) else s == s1
    ensures Adds(r, s, tail1 + tail2)
  {
    assert r.events + tail1 + tail2 == r.events + (tail1 + tail2);
  }

  lemma TouchAdds(w: World, r: Run)
    ensures Adds(r, Touch(w, r), [])
  {
  }

  lemma AppendAdds(w: World, r: Run, kind: Kind, flag: bool)
    ensures Adds(r, Append(w, r, kind, flag), [Event(kind, flag || TerminalKind(kind))])
  {
    AppendCounts(w, r, kind, flag);
  }

  lemma PersistAdds(w: World, r: Run)
    ensures Adds(r, PersistAssistantMessage(w, r), [Event(MessageEnd, false)])
  {
    var s1 := Touch(w, r);
    if s1.Fine? && Touch(w, s1.run).Fine? {
      AppendAdds(w, Touch(w, s1.run).run, MessageEnd, false);
    }
  }

  lemma AppendIfAdds(w: World, r: Run, wanted: bool, kind: Kind)
    requires !TerminalKind(kind)
    ensures Adds(r, AppendIf(w, r, wanted, kind), if wanted then [Event(kind, false)] else [])
  {
    AppendAdds(w, r, kind, false);
  }

  function Ready(n: nat): (events: seq<Event>)
    ensures |events| == n && forall i :: 0 <= i < n ==> events[i] == Event(ArtifactReady, false)
  {
    seq(n, _ => Event(ArtifactReady, false))
  }

  lemma {:induction false} ArtifactsAdd(w: World, r: Run, drafts: seq<bool>)
    ensures Adds(r, Artifacts(w, r, drafts), Ready(|drafts|))
  {
    if drafts != [] {
      var init := drafts[..|drafts| - 1];
      ArtifactsAdd(w, r, init);
      var s1 := Artifacts(w, r, init);
      if s1.Fine? {
        OneArtifactAdds(w, s1.run, drafts[|drafts| - 1]);
      }
      assert Ready(|drafts|) == Ready(|init|) + [Event(ArtifactReady, false)];
      hide OneArtifact, Adds, Ready;
      AddsThen(r, s1, Ready(|init|), Artifacts(w, r, drafts), [Event(ArtifactReady, false)]);
    }
  }

  lemma OneArtifactAdds(w: World, r: Run, valid: bool)
    ensures Adds(r, OneArtifact(w, r, valid), [Event(ArtifactReady, false)])
  {
    if valid && Touch(w, r).Fine? {
      AppendAdds(w, Touch(w, r).run, ArtifactReady, false);
    }
  }

  lemma ExtrasAdd(w: World, r: Run)
    ensures Adds(r, Extras(w, r), (if w.work.toolCalls then [Event(ToolEnd, false)] else [])
                                  + (if w.work.prompts then [Event(ReviewPrompt, false)] else []) + Ready(|w.work.artifacts|))
  {
    var ends, prompts, ready := if w.work.toolCalls then [Event(ToolEnd, false)] else [],
        if w.work.prompts then [Event(ReviewPrompt, false)] else [], Ready(|w.work.artifacts|);
    var s1 := AppendIf(w, r, w.work.toolCalls, ToolEnd);
    AppendIfAdds(w, r, w.work.toolCalls, ToolEnd);
    hide AppendIf, Artifacts, Adds, Ready;
    var s2 := if s1.Fine? then AppendIf(w, s1.run, w.work.prompts, ReviewPrompt) else s1;
    if s1.Fine? {
      AppendIfAdds(w, s1.run, w.work.prompts, ReviewPrompt);
    }
    AddsThen(r, s1, ends, s2, prompts);
    if s2.Fine? {
      ArtifactsAdd(w, s2.run, w.work.artifacts);
    }
    AddsThen(r, s2, ends + prompts, Extras(w, r), ready);
  }

  lemma EndAdds(w: World, r: Run, status: Status)
    ensures Adds(r, End(w, r, status), [Event(if status == Failed then RunError else RunEnd, true)])
    ensures End(w, r, status).Fine? ==> End(w, r, status).run.status == status
  {
    if Update(w, r, status).Fine? {
      AppendAdds(w, Update(w, r, status).run, EndKind(status), true);
      AppendCounts(w, Update(w, r, status).run, EndKind(status), true);
    }
  }

  /** What the work stores after its emissions, in this order, as far as it gets: the message's end; unless it failed, the
      end of its tool calls, the review prompts and each artifact; and the only terminal event. All of it is there, and
      the status with it, when every operation is acknowledged. */
  lemma WorkIsStoredInOrder(w: World, r: Run)
    ensures var s, before, work := Execute(w, r), EmitAll(w, r, w.work.emitted).events, w.work;
            var tail := if work.failed then [Event(MessageEnd, false), Event(RunError, true)]
                        else
                          [Event(MessageEnd, false)] + (if work.toolCalls then [Event(ToolEnd, false)] else [])
                          + (if work.prompts then [Event(ReviewPrompt, false)] else [])
                          + seq(|work.artifacts|, _ => Event(ArtifactReady, false)) + [Event(RunEnd, true)];
            && before <= s.run.events <= before + tail
            && (s.Fine? ==> s.run.events == before + tail
                            && s.run.status == if work.failed then Failed else if work.review then WaitingReview else Completed)
  {
    var r1 := EmitAll(w, r, w.work.emitted);
    if w.work.failed {
      FailAdds(w, r1);
      assert [Event(MessageEnd, false)] + [Event(RunError, true)] == [Event(MessageEnd, false), Event(RunError, true)];
    } else {
      CompleteAdds(w, r1);
      assert Ready(|w.work.artifacts|) == seq(|w.work.artifacts|, _ => Event(ArtifactReady, false));
    }
    hide EmitAll, Fail, Complete;
  }

  lemma FailAdds(w: World, r: Run)
    ensures Adds(r, Fail(w, r), [Event(MessageEnd, false)] + [Event(RunError, true)])
    ensures Fail(w, r).Fine? ==> Fail(w, r).run.status == Failed
  {
    hide Adds, PersistAssistantMessage, End;
    PersistAdds(w, r);
    var s1 := PersistAssistantMessage(w, r);
    if s1.Fine? {
      EndAdds(w, s1.run, Failed);
    }
    AddsThen(r, s1, [Event(MessageEnd, false)], Fail(w, r), [Event(RunError, true)]);
  }

  lemma CompleteAdds(w: World, r: Run)
    ensures Adds(r, Complete(w, r), [Event(MessageEnd, false)] + (if w.work.toolCalls then [Event(ToolEnd, false)] else [])
                                    + (if w.work.prompts then [Event(ReviewPrompt, false)] else [])
                                    + Ready(|w.work.artifacts|) + [Event(RunEnd, true)])
    ensures Complete(w, r).Fine? ==> Complete(w, r).run.status == if w.work.review then WaitingReview else Completed
  {
    hide Adds, PersistAssistantMessage, End, Extras, Ready;
    PersistAdds(w, r);
    var s1, m := PersistAssistantMessage(w, r), [Event(MessageEnd, false)];
    var ends, prompts, ready := if w.work.toolCalls then [Event(ToolEnd, false)] else [],
        if w.work.prompts then [Event(ReviewPrompt, false)] else [], Ready(|w.work.artifacts|);
    var s2 := if s1.Fine? then Extras(w, s1.run) else s1;
    if s1.Fine? {
      ExtrasAdd(w, s1.run);
    }
    AddsThen(r, s1, m, s2, ends + prompts + ready);
    if s2.Fine? {
      EndAdds(w, s2.run, if w.work.review then WaitingReview else Completed);
    }
    AddsThen(r, s2, m + (ends + prompts + ready), Complete(w, r), [Event(RunEnd, true)]);
    assert m + (ends + prompts + ready) == m + ends + prompts + ready;
  }

  /** An emission is stored behind the earlier ones, or not at all; the writer marks these four types as terminal. */
  lemma EmissionIsStoredInOrder(w: World, r: Run, kinds: seq<string>, eventType: string)
    ensures EmitAll(w, r, []) == r
    ensures var before, after := EmitAll(w, r, kinds), EmitAll(w, r, kinds + [eventType]);
            var terminal := Lower(Trim(eventType)) in {"run_finished", "run_failed", "run_error", "run_cancelled"};
            && (after.events == before.events || after.events == before.events + [Event(Emitted(eventType), terminal)])
            && after.status == before.status
            && (w.store(before.used) == Done && w.store(before.used + 1) != Refused ==>
                  after.events == before.events + [Event(Emitted(eventType), terminal)])
  {
    hide Lower, Trim, Append;
    assert (kinds + [eventType])[..|kinds|] == kinds;
    EmissionIsAppended(w, EmitAll(w, r, kinds), eventType);
  }

  lemma EmissionIsAppended(w: World, r: Run, eventType: string)
    ensures var after, terminal := Append(w, r, Emitted(eventType), false).run,
                                   Lower(Trim(eventType)) in {"run_finished", "run_failed", "run_error", "run_cancelled"};
            && (after.events == r.events || after.events == r.events + [Event(Emitted(eventType), terminal)])
            && after.status == r.status
            && (w.store(r.used) == Done && w.store(r.used + 1) != Refused ==>
                  after.events == r.events + [Event(Emitted(eventType), terminal)])
  {
    hide Lower, Trim, Terminals;
    AppendCounts(w, r, Emitted(eventType), false);
  }

  /** A run that breaks is marked failed: its status, and then the terminal event. */
  lemma BrokenRunIsMarked(w: World, r: Run)
    requires Execute(w, r).Broken?
    ensures var broken := Execute(w, r).run;
            && broken.events <= Settle(w, r).events <= broken.events + [Event(RunError, true)]
            && (w.store(broken.used) != Refused ==> Settle(w, r).status == Failed)
            && (w.store(broken.used) == w.store(broken.used + 1) == Done && w.store(broken.used + 2) != Refused ==>
                  Settle(w, r).events == broken.events + [Event(RunError, true)])
  {
    EndAdds(w, Execute(w, r).run, Failed);
    hide Execute;
  }

  /** Preparation stores the message's start and then that the run is handed to a worker, or that it runs. */
  lemma PreparationIsStoredInOrder(w: World, input: Input)
    ensures var s, tail := Prepare(w, input), [Event(MessageStart, false), Event(if w.queueForWorker then RunDispatched else RunStatus, false)];
            && s.run.events <= tail
            && (s.Fine? ==> s.run.events == tail && s.run.status == if w.queueForWorker then Queued else Running)
  {
    hide Guarded, CreateRows, Append, Launch, Adds, TouchIf;
    if Guarded(input) && ResolveSession(w, input).Fine? {
      var r, first := ResolveSession(w, input).run, [Event(MessageStart, false)];
      var last := [Event(if w.queueForWorker then RunDispatched else RunStatus, false)];
      var s4 := StartAdds(w, r, input);
      var s := if s4.Fine? then Launch(w, s4.run) else s4;
      if s4.Fine? {
        LaunchAdds(w, s4.run);
      }
      AddsThen(r, s4, first, s, last);
      assert first + last == [first[0], last[0]];
      Added(r, s, first + last);
    }
  }

  lemma StartAdds(w: World, r: Run, input: Input) returns (s: Step)
    ensures var s2 := CreateRows(w, r);
            var s3 := if s2.Fine? then Append(w, s2.run, MessageStart, false) else s2;
            s == if s3.Fine? then TouchIf(w, s3.run, input.hasFile) else s3
    ensures Adds(r, s, [Event(MessageStart, false)]) && s.run.status == r.status
  {
    hide CreateRows, Append, TouchIf, Adds;
    var s2, first := CreateRows(w, r), [Event(MessageStart, false)];
    RowsAdd(w, r);
    var s3 := if s2.Fine? then Append(w, s2.run, MessageStart, false) else s2;
    if s2.Fine? {
      AppendAdds(w, s2.run, MessageStart, false);
      AppendCounts(w, s2.run, MessageStart, false);
    }
    AddsThen(r, s2, [], s3, first);
    s := if s3.Fine? then TouchIf(w, s3.run, input.hasFile) else s3;
    if s3.Fine? {
      TouchIfAdds(w, s3.run, input.hasFile);
    }
    AddsThen(r, s3, [] + first, s, []);
    assert [] + first + [] == first;
  }

  lemma Added(r: Run, s: Step, tail: seq<Event>)
    requires Adds(r, s, tail) && r.events == []
    ensures s.run.events <= tail && (s.Fine? ==> s.run.events == tail)
  {
    assert r.events + tail == tail;
  }

  lemma TouchIfAdds(w: World, r: Run, wanted: bool)
    ensures Adds(r, TouchIf(w, r, wanted), []) && TouchIf(w, r, wanted).run.status == r.status
  {
  }

  lemma RowsAdd(w: World, r: Run)
    ensures Adds(r, CreateRows(w, r), []) && CreateRows(w, r).run.status == r.status
  {
  }

  lemma LaunchAdds(w: World, r: Run)
    ensures Adds(r, Launch(w, r), [Event(if w.queueForWorker then RunDispatched else RunStatus, false)])
    ensures Launch(w, r).Fine? ==> Launch(w, r).run.status == if w.queueForWorker then r.status else Running
  {
    if w.queueForWorker {
      AppendCounts(w, r, RunDispatched, false);
    } else if Update(w, r, Running).Fine? {
      AppendCounts(w, Update(w, r, Running).run, RunStatus, false);
    }
  }

  // ----- the same, by the answers of the store -----

  // The operations from n up to m all succeed.
  predicate AllDone(w: World, n: nat, m: nat) {
    forall i | n <= i < m :: w.store(i) == Done
  }

  // The first operation from n up to m that does not succeed; m, if they all do.
  function FirstFailure(w: World, n: nat, m: nat): nat
    decreases m - n
  {
    if n >= m then m else if w.store(n) != Done then n else FirstFailure(w, n + 1, m)
  }

  lemma {:induction false} FirstFailureMeaning(w: World, n: nat, m: nat)
    requires n <= m
    ensures n <= FirstFailure(w, n, m) <= m && AllDone(w, n, FirstFailure(w, n, m))
    ensures FirstFailure(w, n, m) < m ==> w.store(FirstFailure(w, n, m)) != Done
    decreases m - n
  {
    if n < m && w.store(n) == Done {
      FirstFailureMeaning(w, n + 1, m);
    }
  }

  lemma {:induction false} FirstFailureSplits(w: World, n: nat, k: nat, m: nat)
    requires n <= k <= m
    ensures FirstFailure(w, n, m) == if FirstFailure(w, n, k) < k then FirstFailure(w, n, k) else FirstFailure(w, k, m)
    decreases k - n
  {
    if n < k && w.store(n) == Done {
      FirstFailureSplits(w, n + 1, k, m);
    }
    FirstFailureMeaning(w, k, m);
  }

  // From run r on, step s consists of k operations, one after the other until one fails; sound says that nothing
  // but the store can make it fail.
  predicate Takes(w: World, r: Run, s: Step, k: nat, sound: bool) {
    var b := FirstFailure(w, r.used, r.used + k);
    && (s.Fine? <==> sound && b == r.used + k)
    && s.run.used == if b < r.used + k then b + 1 else r.used + k
  }

  lemma TakesThen(w: World, r: Run, s1: Step, k1: nat, s: Step, k2: nat, sound: bool)
    requires Takes(w, r, s1, k1, true)
    requires if s1.Fine? then Takes(w, s1.run, s, k2, sound) else s == s1
    ensures Takes(w, r, s, k1 + k2, sound)
  {
    FirstFailureMeaning(w, r.used, r.used + k1);
    FirstFailureSplits(w, r.used, r.used + k1, r.used + k1 + k2);
    FirstFailureMeaning(w, r.used + k1, r.used + k1 + k2);
  }

  // The step stores a terminal event without acknowledgement exactly when its last operation's answer is lost.
  predicate EndsLast(w: World, r: Run, s: Step, k: nat, sound: bool) {
    var last := r.used + k - 1;
    s.Broken? ==> (s.ended <==> sound && k > 0 && FirstFailure(w, r.used, r.used + k) == last && w.store(last) == Lost)
  }

  lemma EndsLastThen(w: World, r: Run, s1: Step, k1: nat, s: Step, k2: nat, sound: bool)
    requires Takes(w, r, s1, k1, true) && k2 > 0
    requires if s1.Fine? then EndsLast(w, s1.run, s, k2, sound) else s == s1 && !s1.ended
    ensures EndsLast(w, r, s, k1 + k2, sound)
  {
    FirstFailureMeaning(w, r.used, r.used + k1);
    FirstFailureSplits(w, r.used, r.used + k1, r.used + k1 + k2);
  }

  lemma AppendEndsLast(w: World, r: Run, kind: Kind)
    ensures EndsLast(w, r, Append(w, r, kind, true), 2, true)
  {
    var n := r.used;
    assert FirstFailure(w, n + 1, n + 2) == if w.store(n + 1) == Done then n + 2 else n + 1;
  }

  lemma AttemptTakes(w: World, r: Run, after: Run, terminal: bool)
    ensures Takes(w, r, Attempt(w, r, after, terminal), 1, true)
  {
    assert FirstFailure(w, r.used + 1, r.used + 1) == r.used + 1;
  }

  lemma AppendTakes(w: World, r: Run, kind: Kind, flag: bool)
    ensures Takes(w, r, Append(w, r, kind, flag), 2, true)
  {
    var s1, s := Touch(w, r), Append(w, r, kind, flag);
    var terminal := flag || TerminalKind(kind);
    hide Takes, TerminalKind;
    AttemptTakes(w, r, r, false);
    if s1.Fine? {
      AttemptTakes(w, s1.run, s1.run.(events := s1.run.events + [Event(kind, terminal)]), terminal);
    }
    TakesThen(w, r, s1, 1, s, 1, true);
  }

  lemma PersistTakes(w: World, r: Run)
    ensures Takes(w, r, PersistAssistantMessage(w, r), 4, true)
  {
    hide Takes, Append;
    var s1, s := Touch(w, r), PersistAssistantMessage(w, r);
    AttemptTakes(w, r, r, false);
    if s1.Fine? {
      var s2 := Touch(w, s1.run);
      AttemptTakes(w, s1.run, s1.run, false);
      if s2.Fine? {
        AppendTakes(w, s2.run, MessageEnd, false);
      }
      TakesThen(w, s1.run, s2, 1, s, 2, true);
    }
    TakesThen(w, r, s1, 1, s, 3, true);
  }

  // The valid drafts before the first invalid one.
  function Usable(drafts: seq<bool>): nat {
    if drafts == [] then 0
    else
      var init := drafts[..|drafts| - 1];
      Usable(init) + if AllValid(drafts) then 1 else 0
  }

  lemma OneArtifactTakes(w: World, r: Run, valid: bool)
    ensures Takes(w, r, OneArtifact(w, r, valid), if valid then 3 else 0, valid)
  {
    if valid {
      var s1 := Touch(w, r);
      AttemptTakes(w, r, r, false);
      if s1.Fine? {
        AppendTakes(w, s1.run, ArtifactReady, false);
      }
      hide Takes, Append;
      TakesThen(w, r, s1, 1, OneArtifact(w, r, valid), 2, true);
    }
  }

  lemma {:induction false} ArtifactsTake(w: World, r: Run, drafts: seq<bool>)
    ensures Takes(w, r, Artifacts(w, r, drafts), 3 * Usable(drafts), AllValid(drafts))
  {
    if drafts != [] {
      var init, last := drafts[..|drafts| - 1], drafts[|drafts| - 1];
      assert drafts == init + [last];
      ArtifactsTake(w, r, init);
      var s1, s := Artifacts(w, r, init), Artifacts(w, r, drafts);
      if AllValid(init) {
        if s1.Fine? {
          OneArtifactTakes(w, s1.run, last);
        }
        hide Takes, OneArtifact;
        TakesThen(w, r, s1, 3 * Usable(init), s, if last then 3 else 0, last);
      } else {
        assert s == s1 && Usable(drafts) == Usable(init);
      }
    }
  }

  function ExtraOps(work: Work): nat {
    (if work.toolCalls then 2 else 0) + (if work.prompts then 2 else 0) + 3 * Usable(work.artifacts)
  }

  lemma AppendIfTakes(w: World, r: Run, wanted: bool, kind: Kind)
    ensures Takes(w, r, AppendIf(w, r, wanted, kind), if wanted then 2 else 0, true)
  {
    AppendTakes(w, r, kind, false);
  }

  lemma ExtrasTake(w: World, r: Run)
    ensures Takes(w, r, Extras(w, r), ExtraOps(w.work), AllValid(w.work.artifacts))
  {
    hide Takes, AppendIf, Artifacts, AllValid;
    var s1, s := AppendIf(w, r, w.work.toolCalls, ToolEnd), Extras(w, r);
    var k1, k2 := if w.work.toolCalls then 2 else 0, if w.work.prompts then 2 else 0;
    var drafts, sound := w.work.artifacts, AllValid(w.work.artifacts);
    AppendIfTakes(w, r, w.work.toolCalls, ToolEnd);
    if s1.Fine? {
      var s2 := AppendIf(w, s1.run, w.work.prompts, ReviewPrompt);
      AppendIfTakes(w, s1.run, w.work.prompts, ReviewPrompt);
      if s2.Fine? {
        ArtifactsTake(w, s2.run, drafts);
      }
      TakesThen(w, s1.run, s2, k2, s, 3 * Usable(drafts), sound);
    }
    TakesThen(w, r, s1, k1, s, k2 + 3 * Usable(drafts), sound);
  }

  lemma EndTakes(w: World, r: Run, status: Status)
    ensures Takes(w, r, End(w, r, status), 3, true) && EndsLast(w, r, End(w, r, status), 3, true)
  {
    var s1, s := Update(w, r, status), End(w, r, status);
    AttemptTakes(w, r, r.(status := status), false);
    if s1.Fine? {
      AppendTakes(w, s1.run, EndKind(status), true);
      AppendEndsLast(w, s1.run, EndKind(status));
    }
    TakesThen(w, r, s1, 1, s, 2, true);
    EndsLastThen(w, r, s1, 1, s, 2, true);
  }

  // Nothing but the store can keep the work from its terminal event.
  predicate Sound(work: Work) {
    work.failed || AllValid(work.artifacts)
  }

  // The operations of the work after its emissions, up to the terminal event or an invalid artifact.
  function WorkOps(work: Work): nat {
    if work.failed then 7 else 4 + ExtraOps(work) + if AllValid(work.artifacts) then 3 else 0
  }

  // The operation after k emissions that begin with operation n: a failed one costs one or two operations.
  function AfterEmissions(w: World, n: nat, k: nat): nat {
    if k == 0 then n
    else
      var m := AfterEmissions(w, n, k - 1);
      m + if w.store(m) == Done then 2 else 1
  }

  lemma {:induction false} EmissionsTake(w: World, r: Run, kinds: seq<string>)
    ensures EmitAll(w, r, kinds).used == AfterEmissions(w, r.used, |kinds|)
  {
    if kinds != [] {
      EmissionsTake(w, r, kinds[..|kinds| - 1]);
    }
  }

  // The first operation of the work after the emissions.
  function WorkFrom(w: World, r: Run): nat {
    AfterEmissions(w, r.used, |w.work.emitted|)
  }

  // Everything is stored and acknowledged.
  predicate Acknowledged(w: World, n: nat) {
    Sound(w.work) && AllDone(w, n, n + WorkOps(w.work))
  }

  // Everything is stored, but the last answer, that of the terminal event, is lost.
  predicate TerminalLost(w: World, n: nat) {
    var t := n + WorkOps(w.work) - 1;
    Sound(w.work) && t >= n && AllDone(w, n, t) && w.store(t) == Lost
  }

  // The first operation of marking the run failed.
  function MarkFrom(w: World, n: nat): nat {
    var end := n + WorkOps(w.work);
    if FirstFailure(w, n, end) < end then FirstFailure(w, n, end) + 1 else end
  }

  // Marking the run failed from operation m on stores its terminal event.
  predicate Marks(w: World, m: nat) {
    w.store(m) == Done && w.store(m + 1) == Done && w.store(m + 2) != Refused
  }

  function FinishOps(work: Work): nat {
    ExtraOps(work) + if AllValid(work.artifacts) then 3 else 0
  }

  // What completes the run once the assistant's message is stored.
  function Finish(w: World, r: Run): Step {
    var r1 :- Extras(w, r);
    End(w, r1, if w.work.review then WaitingReview else Completed)
  }

  lemma FinishTakes(w: World, r: Run)
    ensures Takes(w, r, Finish(w, r), FinishOps(w.work), AllValid(w.work.artifacts))
    ensures EndsLast(w, r, Finish(w, r), FinishOps(w.work), AllValid(w.work.artifacts))
  {
    var s1, s, k := Extras(w, r), Finish(w, r), ExtraOps(w.work);
    ExtrasTake(w, r);
    ExtrasAreQuiet(w, r);
    hide Extras, End, ExtraOps, Terminals;
    if AllValid(w.work.artifacts) {
      if s1.Fine? {
        EndTakes(w, s1.run, if w.work.review then WaitingReview else Completed);
      }
      TakesThen(w, r, s1, k, s, 3, true);
      EndsLastThen(w, r, s1, k, s, 3, true);
    }
  }

  lemma WorkTakes(w: World, r: Run)
    ensures var s := if w.work.failed then Fail(w, r) else Complete(w, r);
            Takes(w, r, s, WorkOps(w.work), Sound(w.work)) && EndsLast(w, r, s, WorkOps(w.work), Sound(w.work))
  {
    var s1, s := PersistAssistantMessage(w, r), if w.work.failed then Fail(w, r) else Complete(w, r);
    PersistTakes(w, r);
    PersistIsQuiet(w, r);
    if s1.Fine? {
      if w.work.failed {
        EndTakes(w, s1.run, Failed);
      } else {
        FinishTakes(w, s1.run);
      }
    }
    hide Takes, EndsLast, PersistAssistantMessage, Extras, End, ExtraOps, AllValid, Terminals;
    var k := if w.work.failed then 3 else FinishOps(w.work);
    TakesThen(w, r, s1, 4, s, k, Sound(w.work));
    EndsBehind(w, r, s1, s, k, Sound(w.work));
  }

  lemma EndsBehind(w: World, r: Run, s1: Step, s: Step, k: nat, sound: bool)
    requires Takes(w, r, s1, 4, true) && (sound ==> k > 0)
    requires if s1.Fine? then EndsLast(w, s1.run, s, k, sound) else s == s1 && !s1.ended
    ensures EndsLast(w, r, s, 4 + k, sound)
  {
    if sound {
      EndsLastThen(w, r, s1, 4, s, k, sound);
    }
  }

  lemma OutcomeByAnswers(w: World, r: Run, s: Step)
    requires Takes(w, r, s, WorkOps(w.work), Sound(w.work)) && EndsLast(w, r, s, WorkOps(w.work), Sound(w.work))
    ensures s.Fine? <==> Acknowledged(w, r.used)
    ensures s.Broken? ==> (s.ended <==> TerminalLost(w, r.used)) && s.run.used == MarkFrom(w, r.used)
  {
    var n, k := r.used, WorkOps(w.work);
    FirstFailureMeaning(w, n, n + k);
    hide WorkOps, Sound, FirstFailure;
  }

  /** How the work ends, by the answers of the store alone. */
  lemma ExecuteByAnswers(w: World, r: Run)
    ensures var s, n := Execute(w, r), WorkFrom(w, r);
            && (s.Fine? <==> Acknowledged(w, n))
            && (s.Broken? ==> (s.ended <==> TerminalLost(w, n)) && s.run.used == MarkFrom(w, n))
  {
    var r1 := EmitAll(w, r, w.work.emitted);
    EmissionsTake(w, r, w.work.emitted);
    WorkTakes(w, r1);
    OutcomeByAnswers(w, r1, Execute(w, r));
    hide EmitAll, Fail, Complete, Acknowledged, TerminalLost, MarkFrom, Takes, EndsLast;
  }

  // Marking the run failed stores a terminal event.
  predicate MarkEnds(w: World, r: Run) {
    End(w, r, Failed).Fine? || End(w, r, Failed).ended
  }

  lemma MarkByAnswers(w: World, r: Run)
    ensures MarkEnds(w, r) <==> Marks(w, r.used)
  {
  }

  // Everything the work stores of its own terminal event.
  predicate WorkEnds(w: World, n: nat) {
    Acknowledged(w, n) || TerminalLost(w, n)
  }

  // A failure is answered by marking the run failed.
  predicate MarkedFailed(w: World, n: nat) {
    !Acknowledged(w, n) && Marks(w, MarkFrom(w, n))
  }

  /** How many terminal events a run gets, by the answers of the store: those the executor emitted itself, one if
      the work's terminal event is stored, and another one if a broken run is marked failed. */
  lemma TerminalEventsCounted(w: World, r: Run)
    ensures var n := WorkFrom(w, r);
            Terminals(Settle(w, r).events) ==
              Terminals(EmitAll(w, r, w.work.emitted).events)
              + (if WorkEnds(w, n) then 1 else 0) + (if MarkedFailed(w, n) then 1 else 0)
  {
    hide Execute, EmitAll, End, Acknowledged, TerminalLost, MarkFrom, WorkFrom, Marks;
    ExecuteEnds(w, r);
    ExecuteByAnswers(w, r);
    AcknowledgedIsNotLost(w, WorkFrom(w, r));
    if Execute(w, r).Broken? {
      EndEnds(w, Execute(w, r).run, Failed);
      MarkByAnswers(w, Execute(w, r).run);
    }
  }

  lemma AcknowledgedIsNotLost(w: World, n: nat)
    ensures TerminalLost(w, n) ==> !Acknowledged(w, n)
  {
    var t := n + WorkOps(w.work) - 1;
    assert t >= n && w.store(t) == Lost ==> w.store(t) != Done;
  }

  /** For every pattern of store answers and every executor that emits no event of a terminal type: a run has two
      terminal events exactly when the answer of its own terminal write was lost and marking it failed was stored,
      and none exactly when neither was stored. If there is one, the last event is terminal. */
  lemma AtMostOneTerminalEvent(w: World, r: Run)
    requires Terminals(r.events) == 0 && forall k :: k in w.work.emitted ==> !TerminalType(k)
    ensures var n, count := WorkFrom(w, r), Terminals(Settle(w, r).events);
            && count <= 2
            && (count == 2 <==> TerminalLost(w, n) && Marks(w, n + WorkOps(w.work)))
            && (count == 0 <==> !WorkEnds(w, n) && !Marks(w, MarkFrom(w, n)))
            && (count > 0 ==> EndsRun(Settle(w, r)))
  {
    hide Execute, EmitAll, End, TerminalType, Acknowledged, TerminalLost, MarkFrom, WorkFrom, Marks;
    EmissionsAreQuiet(w, r, w.work.emitted);
    TerminalEventsCounted(w, r);
    ExecuteEnds(w, r);
    ExecuteByAnswers(w, r);
    AcknowledgedIsNotLost(w, WorkFrom(w, r));
    MarkAfterLost(w, WorkFrom(w, r));
    if Execute(w, r).Broken? {
      EndEnds(w, Execute(w, r).run, Failed);
    }
  }

  lemma MarkAfterLost(w: World, n: nat)
    ensures TerminalLost(w, n) ==> MarkFrom(w, n) == n + WorkOps(w.work)
  {
    FirstFailureMeaning(w, n, n + WorkOps(w.work));
  }

  /** The last event is a terminal one that stands for the stored status, exactly when everything was acknowledged,
      or the broken run was marked, or the answer of the terminal write was lost and the mark's status update did
      not reach a run that had not failed anyway. */
  lemma TerminalEventAgreesWithStatus(w: World, r: Run)
    requires Terminals(r.events) == 0 && forall k :: k in w.work.emitted ==> !TerminalType(k)
    ensures var n := WorkFrom(w, r);
            Agrees(Settle(w, r)) <==>
              || Acknowledged(w, n) || Marks(w, MarkFrom(w, n))
              || (TerminalLost(w, n) && (w.work.failed || w.store(n + WorkOps(w.work)) == Refused))
  {
    hide Execute, EmitAll, End, TerminalType, Acknowledged, TerminalLost, MarkFrom, WorkFrom, Marks;
    EmissionsAreQuiet(w, r, w.work.emitted);
    ExecuteEnds(w, r);
    ExecuteByAnswers(w, r);
    var s := Execute(w, r);
    if s.Broken? {
      EndEnds(w, s.run, Failed);
      MarkByAnswers(w, s.run);
      MarkAfterLost(w, WorkFrom(w, r));
      if !s.ended && !MarkEnds(w, s.run) {
        NoTerminalsNoEnd(Settle(w, r));
      }
    }
  }

  // The store loses no answer: an operation that it reports as failed had no effect.
  ghost predicate NothingLost(w: World) {
    forall n :: w.store(n) != Lost
  }

  /** Over a store that loses no answer a run has at most one terminal event, and exactly one means that it is the
      last event and stands for the stored status. */
  lemma OneTerminalEventUnlessLost(w: World, r: Run)
    requires NothingLost(w) && Terminals(r.events) == 0 && forall k :: k in w.work.emitted ==> !TerminalType(k)
    ensures Terminals(Settle(w, r).events) <= 1
    ensures Terminals(Settle(w, r).events) == 1 <==> Agrees(Settle(w, r))
  {
    AtMostOneTerminalEvent(w, r);
    TerminalEventAgreesWithStatus(w, r);
    hide Execute, EmitAll, End, TerminalType, Acknowledged, MarkFrom, WorkFrom, Settle, Agrees;
  }

  lemma NoTerminalsNoEnd(r: Run)
    requires Terminals(r.events) == 0
    ensures !EndsRun(r)
  {
  }

  /** Without store failures there is exactly one terminal event, last, agreeing with the status - failed
      executions and invalid artifacts included. */
  lemma FlawlessRunEndsOnce(w: World, r: Run)
    requires Flawless(w) && Terminals(r.events) == 0 && forall k :: k in w.work.emitted ==> !TerminalType(k)
    ensures Terminals(Settle(w, r).events) == 1 && Agrees(Settle(w, r))
    ensures Settle(w, r).status == if !w.work.failed && !AllValid(w.work.artifacts) then Failed else EndStatus(w.work)
  {
    AtMostOneTerminalEvent(w, r);
    TerminalEventAgreesWithStatus(w, r);
    ExecuteEnds(w, r);
    var s := Execute(w, r);
    if s.Broken? {
      EndEnds(w, s.run, Failed);
    } else if !w.work.failed && !AllValid(w.work.artifacts) {
      InvalidArtifactBreaks(w, EmitAll(w, r, w.work.emitted));
    }
  }

  lemma {:induction false} BadDraftBreaks(w: World, r: Run, drafts: seq<bool>)
    requires !AllValid(drafts)
    ensures Artifacts(w, r, drafts).Broken?
  {
    var init := drafts[..|drafts| - 1];
    if !AllValid(init) {
      BadDraftBreaks(w, r, init);
    } else {
      assert drafts == init + [drafts[|drafts| - 1]];
    }
  }

  lemma InvalidArtifactBreaks(w: World, r: Run)
    requires !AllValid(w.work.artifacts)
    ensures Complete(w, r).Broken?
  {
    var s1 := PersistAssistantMessage(w, r);
    if s1.Fine? {
      var s2 := AppendIf(w, s1.run, w.work.toolCalls, ToolEnd);
      if s2.Fine? {
        BadDraftBreaks(w, AppendIf(w, s2.run, w.work.prompts, ReviewPrompt).run, w.work.artifacts);
      }
    }
  }

  // ----- what goes wrong -----

  const PLAIN_WORK := Work([], false, false, false, [], false)

  // Only the acknowledgement of the run_end event is lost.
  const LOSSY := World(n => if n == 6 then Lost else Done, false, PLAIN_WORK)

  lemma LossyEnd()
    ensures End(LOSSY, Run(Running, [Event(MessageEnd, false)], 4), Completed)
         == Broken(Run(Completed, [Event(MessageEnd, false), Event(RunEnd, true)], 7), true)
  {
    assert [Event(MessageEnd, false)] + [Event(RunEnd, true)] == [Event(MessageEnd, false), Event(RunEnd, true)];
  }

  lemma LossyMark(r: Run)
    requires r.used == 7
    ensures End(LOSSY, r, Failed) == Fine(Run(Failed, r.events + [Event(RunError, true)], 10))
  {
  }

  /** One lost acknowledgement: the completed run is marked failed and has run_end and run_error. */
  lemma LostAcknowledgementEndsRunTwice()
    ensures var r := Settle(LOSSY, Run(Running, [], 0));
            r.status == Failed && Terminals(r.events) == 2
            && r.events == [Event(MessageEnd, false), Event(RunEnd, true), Event(RunError, true)]
  {
    var r0, r4 := Run(Running, [], 0), Run(Running, [Event(MessageEnd, false)], 4);
    assert PersistAssistantMessage(LOSSY, r0) == Fine(r4);
    LossyEnd();
    assert Extras(LOSSY, r4) == Fine(r4);
    var s := Execute(LOSSY, r0);
    assert EmitAll(LOSSY, r0, []) == r0;
    assert s == End(LOSSY, r4, Completed);
    LossyMark(s.run);
    AtMostOneTerminalEvent(LOSSY, r0);
  }

  /** The event writer marks terminal types itself, so an executor can end the run before it is over. */
  lemma EmittedTerminalTypeEndsRunEarly()
    ensures var w := World(n => Done, false, PLAIN_WORK.(emitted := ["run_error"]));
            var r := Settle(w, Run(Running, [], 0));
            r.status == Completed && Terminals(r.events) == 2 && r.events[0] == Event(Emitted("run_error"), true)
  {
    var w := World(n => Done, false, PLAIN_WORK.(emitted := ["run_error"]));
    var r0 := Run(Running, [], 0);
    assert TerminalType("run_error") by {
      assert Trim("run_error") == "run_error" && Lower("run_error") == "run_error";
    }
    assert ["run_error"][..0] == [];
    var r2 := Run(Running, [Event(Emitted("run_error"), true)], 2);
    assert EmitAll(w, r0, []) == r0;
    assert EmitAll(w, r0, ["run_error"]) == r2;
    var r6 := Run(Running, [Event(Emitted("run_error"), true), Event(MessageEnd, false)], 6);
    assert PersistAssistantMessage(w, r2) == Fine(r6);
    assert Artifacts(w, r6, []) == Fine(r6);
    var r9 := Run(Completed, [Event(Emitted("run_error"), true), Event(MessageEnd, false), Event(RunEnd, true)], 9);
    assert End(w, r6, Completed) == Fine(r9);
    assert Complete(w, r2) == Fine(r9);
    hide EmitAll, PersistAssistantMessage, Artifacts, End, TerminalType;
  }
}
