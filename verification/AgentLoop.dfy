/** The agent loop: rounds of model output and tool calls over a mutable state, and the order of the
    events it emits. */
module AgentLoop {
  import opened Wrappers
  import opened ToolCall

  datatype Error = ContextDone | StreamFailed | HookFailed | Stalled | PrepareFailed

  // One answer of the model.
  datatype Round =
    | StreamError
    | Round(start: bool, updates: seq<string>, end: Option<Message>, calls: seq<Call>, terminate: bool)

  // What surrounds the loop; n counts the rounds or the calls to PrepareNext. fold says that the event
  // handler appends one tool row per result when a turn ends.
  datatype Deps = Deps(cancelled: nat -> bool, shouldStop: nat -> bool, prepareFails: nat -> bool, fold: bool, row: ToolResult -> string)

  // ----- the documented event grammar -----

  datatype Grammar = Fresh | Between | InTurn | Streaming | Tools | InTool(callId: string) | Ended | Dead

  function Read(g: Grammar, e: Event): Grammar {
    match (g, e)
    case (Fresh, AgentStart) => Between
    case (Between, TurnStart) => InTurn
    case (Between, AgentEnd(_)) => Ended
    case (InTurn, MessageStart(_)) => Streaming
    case (InTurn, ToolStart(id, _, _)) => InTool(id)
    case (InTurn, TurnEnd(_, _)) => Between
    case (InTurn, AgentEnd(_)) => Ended
    case (Streaming, MessageUpdate(_, _)) => Streaming
    case (Streaming, MessageEnd(_)) => Tools
    case (Tools, ToolStart(id, _, _)) => InTool(id)
    case (Tools, TurnEnd(_, _)) => Between
    case (Tools, AgentEnd(_)) => Ended
    case (InTool(id), ToolUpdate(same, _)) => if same == id then g else Dead
    case (InTool(id), ToolEnd(same, _, _)) => if same == id then Tools else Dead
    case _ => Dead
  }

  function ReadAll(g: Grammar, events: seq<Event>): Grammar {
    if events == [] then g else Read(ReadAll(g, events[..|events| - 1]), events[|events| - 1])
  }

  lemma {:induction false} ReadAllConcat(g: Grammar, a: seq<Event>, b: seq<Event>)
    ensures ReadAll(g, a + b) == ReadAll(ReadAll(g, a), b)
  {
    if b == [] {
      assert a + b == a;
    } else {
      ReadAllConcat(g, a, b[..|b| - 1]);
      assert (a + b)[..|a + b| - 1] == a + b[..|b| - 1];
    }
  }

  predicate Boundary(e: Event) {
    e.AgentStart? || e.TurnStart? || e.TurnEnd? || e.AgentEnd?
  }

  predicate Inner(events: seq<Event>) {
    forall i | 0 <= i < |events| :: !Boundary(events[i])
  }

  // The calls whose end was announced, in order.
  function EndIds(events: seq<Event>): seq<string> {
    if events == [] then []
    else
      var last := events[|events| - 1];
      EndIds(events[..|events| - 1]) + if last.ToolEnd? then [last.callId] else []
  }

  lemma {:induction false} EndIdsConcat(a: seq<Event>, b: seq<Event>)
    ensures EndIds(a + b) == EndIds(a) + EndIds(b)
  {
    if b == [] {
      assert a + b == a;
    } else {
      EndIdsConcat(a, b[..|b| - 1]);
      assert (a + b)[..|a + b| - 1] == a + b[..|b| - 1];
    }
  }

  // What is read from one event more, and from two parts.
  lemma ReadMore(g: Grammar, events: seq<Event>, e: Event)
    ensures ReadAll(g, events + [e]) == Read(ReadAll(g, events), e)
    ensures EndIds(events + [e]) == EndIds(events) + if e.ToolEnd? then [e.callId] else []
    ensures Inner(events + [e]) <==> Inner(events) && !Boundary(e)
  {
    assert (events + [e])[..|events|] == events;
    assert (events + [e])[|events|] == e;
    if Inner(events + [e]) {
      forall i | 0 <= i < |events| ensures !Boundary(events[i]) {
        assert (events + [e])[i] == events[i];
      }
    }
  }

  lemma ReadOne(g: Grammar, e: Event)
    ensures ReadAll(g, [e]) == Read(g, e)
    ensures EndIds([e]) == if e.ToolEnd? then [e.callId] else []
    ensures Inner([e]) <==> !Boundary(e)
  {
    ReadMore(g, [], e);
    assert [] + [e] == [e];
  }

  lemma Join(g: Grammar, a: seq<Event>, b: seq<Event>)
    ensures ReadAll(g, a + b) == ReadAll(ReadAll(g, a), b)
    ensures EndIds(a + b) == EndIds(a) + EndIds(b)
    ensures Inner(a) && Inner(b) ==> Inner(a + b)
  {
    ReadAllConcat(g, a, b);
    EndIdsConcat(a, b);
  }

  lemma {:induction false} DeadStays(events: seq<Event>)
    ensures ReadAll(Dead, events) == Dead
  {
    if events != [] {
      DeadStays(events[..|events| - 1]);
    }
  }

  // An emitted event, with the calls that were pending when it was emitted.
  datatype Entry = Entry(event: Event, pending: set<string>)

  function EventsOf(trace: seq<Entry>): (r: seq<Event>)
    ensures |r| == |trace|
    ensures forall i :: 0 <= i < |trace| ==> r[i] == trace[i].event
  {
    seq(|trace|, i requires 0 <= i < |trace| => trace[i].event)
  }

  lemma EventsConcat(a: seq<Entry>, b: seq<Entry>)
    ensures EventsOf(a + b) == EventsOf(a) + EventsOf(b)
  {
  }

  function Tag(events: seq<Event>, pending: set<string>): (r: seq<Entry>)
    ensures |r| == |events|
    ensures forall i :: 0 <= i < |events| ==> r[i] == Entry(events[i], pending)
  {
    seq(|events|, i requires 0 <= i < |events| => Entry(events[i], pending))
  }

  function StateAfter(trace: seq<Entry>): Grammar {
    ReadAll(Fresh, EventsOf(trace))
  }

  lemma StateAfterMore(trace: seq<Entry>, more: seq<Entry>)
    ensures StateAfter(trace + more) == ReadAll(StateAfter(trace), EventsOf(more))
  {
    ReadAllConcat(Fresh, EventsOf(trace), EventsOf(more));
    EventsConcat(trace, more);
  }

  predicate QuietAtBoundaries(trace: seq<Entry>) {
    forall e | e in trace :: Boundary(e.event) ==> e.pending == {}
  }

  // ----- the message section -----

  function Content(buffer: Option<string>): string {
    if buffer.Some? then buffer.value else ""
  }

  function Said(content: string): Message {
    Message(Role.Assistant, content)
  }

  function UpdateEvents(buffer: Option<string>, updates: seq<string>): seq<Event> {
    if updates == [] then []
    else
      var before, last := updates[..|updates| - 1], updates[|updates| - 1];
      UpdateEvents(buffer, before) + [Update(buffer, before, last)]
  }

  function Update(buffer: Option<string>, before: seq<string>, last: string): (e: Event)
    ensures e.MessageUpdate?
  {
    MessageUpdate(Said(Content(buffer) + Concat(before) + last), last)
  }

  function Concat(parts: seq<string>): string {
    if parts == [] then "" else Concat(parts[..|parts| - 1]) + parts[|parts| - 1]
  }

  // The buffer that the round's updates are appended to.
  function Opened(buffer: Option<string>, round: Round): Option<string>
    requires round.Round?
  {
    if round.start then Some("") else buffer
  }

  function MessageSection(buffer: Option<string>, round: Round): seq<Event>
    requires round.Round?
  {
    Unfinished(buffer, round) + if round.end.Some? then [MessageEnd(round.end.value)] else []
  }

  function Unfinished(buffer: Option<string>, round: Round): seq<Event>
    requires round.Round?
  {
    (if round.start then [MessageStart(Said(""))] else []) + UpdateEvents(Opened(buffer, round), round.updates)
  }

  // The model opened, updated and closed its message in that order, or sent none.
  predicate WellFormed(round: Round) {
    round.Round? ==> (round.start <==> round.end.Some?) && (round.updates != [] ==> round.start)
  }

  lemma {:induction false} UpdatesGrammar(buffer: Option<string>, updates: seq<string>)
    ensures ReadAll(Streaming, UpdateEvents(buffer, updates)) == Streaming
    ensures ReadAll(InTurn, UpdateEvents(buffer, updates)) == if updates == [] then InTurn else Dead
    ensures EndIds(UpdateEvents(buffer, updates)) == [] && Inner(UpdateEvents(buffer, updates))
  {
    if updates != [] {
      hide Read, Update, UpdateEvents, ReadAll, EndIds, Inner, Boundary;
      var before, last := updates[..|updates| - 1], updates[|updates| - 1];
      OneMoreUpdate(buffer, updates, before, last);
      UpdatesGrammar(buffer, before);
      ReadUpdate(Update(buffer, before, last));
      ReadMore(Streaming, UpdateEvents(buffer, before), Update(buffer, before, last));
      ReadMore(InTurn, UpdateEvents(buffer, before), Update(buffer, before, last));
    }
  }

  lemma ReadUpdate(e: Event)
    requires e.MessageUpdate?
    ensures Read(Streaming, e) == Streaming && Read(InTurn, e) == Dead && Read(Dead, e) == Dead && !Boundary(e)
  {
  }

  lemma ReadStart(e: Event)
    requires e.MessageStart?
    ensures Read(InTurn, e) == Streaming && !Boundary(e)
  {
  }

  lemma OneMoreUpdate(buffer: Option<string>, updates: seq<string>, before: seq<string>, last: string)
    requires updates != [] && before == updates[..|updates| - 1] && last == updates[|updates| - 1]
    ensures UpdateEvents(buffer, updates) == UpdateEvents(buffer, before) + [Update(buffer, before, last)]
  {
  }

  lemma UnfinishedGrammar(buffer: Option<string>, round: Round)
    requires round.Round?
    ensures ReadAll(InTurn, Unfinished(buffer, round)) == if round.start then Streaming else if round.updates == [] then InTurn else Dead
    ensures EndIds(Unfinished(buffer, round)) == [] && Inner(Unfinished(buffer, round))
  {
    var updates := UpdateEvents(Opened(buffer, round), round.updates);
    var start := MessageStart(Said(""));
    assert Unfinished(buffer, round) == if round.start then [start] + updates else updates;
    hide Unfinished, UpdateEvents, Said, Read, ReadAll, EndIds, Inner, Boundary;
    UpdatesGrammar(Opened(buffer, round), round.updates);
    ReadOne(InTurn, start);
    ReadStart(start);
    Join(InTurn, [start], updates);
  }

  lemma MessageGrammar(buffer: Option<string>, round: Round)
    requires round.Round?
    ensures var g := ReadAll(InTurn, MessageSection(buffer, round));
            if WellFormed(round) then g == (if round.start then Tools else InTurn) else g == Streaming || g == Dead
    ensures EndIds(MessageSection(buffer, round)) == [] && Inner(MessageSection(buffer, round))
  {
    var before := Unfinished(buffer, round);
    assert MessageSection(buffer, round) == if round.end.Some? then before + [MessageEnd(round.end.value)] else before;
    hide Unfinished, MessageSection, ReadAll, EndIds, Inner;
    UnfinishedGrammar(buffer, round);
    if round.end.Some? {
      ReadMore(InTurn, before, MessageEnd(round.end.value));
    }
  }

  // ----- tool calls -----

  function Own(call: Call): set<string> {
    if call.id == "" then {} else {call.id}
  }

  function CallEntries(t: Tooling, n: nat, call: Call): seq<Entry> {
    if Registered(t.tools, call) then Tag(Starting(call), {}) + Tag(Proceed(t, n, call).events, Own(call))
    else Tag(Perform(t, n, call).events, {})
  }

  lemma OneMorePartial(call: Call, partials: seq<string>, before: seq<string>, e: Event)
    requires partials != [] && before == partials[..|partials| - 1] && e == ToolUpdate(call.id, partials[|partials| - 1])
    ensures Updates(call, partials) == Updates(call, before) + [e]
  {
  }

  lemma {:induction false} PartialsGrammar(call: Call, partials: seq<string>)
    ensures ReadAll(InTool(call.id), Updates(call, partials)) == InTool(call.id)
    ensures EndIds(Updates(call, partials)) == [] && Inner(Updates(call, partials))
  {
    if partials != [] {
      hide Updates, ReadAll, EndIds, Inner;
      var before, e := partials[..|partials| - 1], ToolUpdate(call.id, partials[|partials| - 1]);
      OneMorePartial(call, partials, before, e);
      PartialsGrammar(call, before);
      ReadMore(InTool(call.id), Updates(call, before), e);
    }
  }

  lemma EndingGrammar(call: Call, partials: seq<string>, r: ToolResult, isError: bool)
    ensures var events := Updates(call, partials) + Ending(call, r, isError);
            ReadAll(InTool(call.id), events) == Tools && EndIds(events) == [call.id] && Inner(events)
  {
    hide Updates, ReadAll, EndIds, Inner;
    PartialsGrammar(call, partials);
    ReadMore(InTool(call.id), Updates(call, partials), ToolEnd(call.id, r, isError));
  }

  lemma ExecutedShape(t: Tooling, n: nat, call: Call)
    ensures var o := Executed(t, n, call);
            o.events == Updates(call, t.execute(n, call).partials) + Ending(call, o.result, o.result.status == Failed)
  {
  }

  lemma ProceedShape(t: Tooling, n: nat, call: Call) returns (partials: seq<string>, r: ToolResult, isError: bool)
    ensures Proceed(t, n, call).events == Updates(call, partials) + Ending(call, r, isError)
  {
    var a, o := Asked(t, n, call), Proceed(t, n, call);
    if Decides(a) {
      partials, r, isError := [], o.result, a.error.Some? || (!a.block && o.result.status == Failed);
      assert Updates(call, []) + Ending(call, r, isError) == Ending(call, r, isError);
    } else {
      var current := Rewritten(call, a);
      ExecutedShape(t, n, current);
      partials, r, isError := t.execute(n, current).partials, o.result, o.result.status == Failed;
      SameIdSameUpdates(call, current, partials);
    }
  }

  lemma {:induction false} SameIdSameUpdates(a: Call, b: Call, partials: seq<string>)
    requires a.id == b.id
    ensures Updates(a, partials) == Updates(b, partials)
  {
    if partials != [] {
      SameIdSameUpdates(a, b, partials[..|partials| - 1]);
    }
  }

  lemma ProceedGrammar(t: Tooling, n: nat, call: Call)
    ensures ReadAll(InTool(call.id), Proceed(t, n, call).events) == Tools
    ensures EndIds(Proceed(t, n, call).events) == [call.id] && Inner(Proceed(t, n, call).events)
  {
    hide Proceed, Updates, Ending, ReadAll, EndIds, Inner;
    var partials, r, isError := ProceedShape(t, n, call);
    EndingGrammar(call, partials, r, isError);
  }

  lemma EntriesAreTheEvents(t: Tooling, n: nat, call: Call)
    ensures EventsOf(CallEntries(t, n, call)) == Perform(t, n, call).events
  {
  }

  lemma PerformShape(t: Tooling, n: nat, call: Call)
    ensures Perform(t, n, call).events ==
              if Registered(t.tools, call) then [ToolStart(call.id, call.tool, call.args)] + Proceed(t, n, call).events
              else [ToolEnd(call.id, NotRegistered(call), true)]
  {
  }

  /** A registered call's events follow the grammar; the end of an unregistered one comes without a start
      and breaks it. Either way its end is announced exactly once. */
  lemma CallGrammar(t: Tooling, n: nat, call: Call, g: Grammar)
    requires g == InTurn || g == Tools || g == Streaming || g == Dead
    ensures var events := Perform(t, n, call).events;
            && ReadAll(g, events) == (if (g == InTurn || g == Tools) && Registered(t.tools, call) then Tools else Dead)
            && EndIds(events) == [call.id]
            && Inner(events)
  {
    hide Perform, Proceed, NotRegistered, ReadAll, EndIds, Inner;
    PerformShape(t, n, call);
    var start, rest := ToolStart(call.id, call.tool, call.args), Proceed(t, n, call).events;
    ProceedGrammar(t, n, call);
    DeadStays(rest);
    ReadOne(g, start);
    Join(g, [start], rest);
    ReadOne(g, ToolEnd(call.id, NotRegistered(call), true));
  }

  // ----- rounds -----

  function Results(t: Tooling, n: nat, calls: seq<Call>): (r: seq<ToolResult>)
    ensures |r| == |calls|
  {
    if calls == [] then []
    else
      var before := calls[..|calls| - 1];
      Results(t, n, before) + [Perform(t, n + |before|, calls[|calls| - 1]).result]
  }

  lemma AllButLast<T>(s: seq<T>, e: T)
    ensures (s + [e])[..|s + [e]| - 1] == s
  {
  }

  lemma Assoc<T>(a: seq<T>, b: seq<T>, c: seq<T>)
    ensures (a + b) + c == a + (b + c)
  {
  }

  predicate Hooked(t: Tooling) {
    t.before.Some? || t.after.Some?
  }

  lemma OnlyHooksFailRuns(t: Tooling, n: nat, call: Call)
    ensures Perform(t, n, call).hookFailed ==> Hooked(t)
  {
  }

  // Some result asks the loop to stop.
  predicate Stops(results: seq<ToolResult>) {
    results != [] && (Stops(results[..|results| - 1]) || results[|results| - 1].terminate)
  }

  function CallsEntries(t: Tooling, n: nat, calls: seq<Call>): seq<Entry> {
    if calls == [] then []
    else
      var before := calls[..|calls| - 1];
      CallsEntries(t, n, before) + CallEntries(t, n + |before|, calls[|calls| - 1])
  }

  predicate AllRegistered(t: Tooling, calls: seq<Call>) {
    forall c | c in calls :: Registered(t.tools, c)
  }

  function Ids(calls: seq<Call>): seq<string> {
    if calls == [] then [] else Ids(calls[..|calls| - 1]) + [calls[|calls| - 1].id]
  }

  lemma TurnStep(t: Tooling, n: nat, before: seq<Call>, last: Call, k: nat, trace: seq<Entry>)
    requires k == n + |before|
    ensures Results(t, n, before + [last]) == Results(t, n, before) + [Perform(t, k, last).result]
    ensures trace + CallsEntries(t, n, before + [last]) == trace + CallsEntries(t, n, before) + CallEntries(t, k, last)
  {
    assert (before + [last])[..|before|] == before;
  }

  lemma NothingDone(t: Tooling, n: nat)
    ensures Results(t, n, []) == [] && CallsEntries(t, n, []) == [] && !Stops([])
  {
  }

  lemma StopsMore(results: seq<ToolResult>, r: ToolResult)
    ensures Stops(results + [r]) == (Stops(results) || r.terminate)
  {
    assert (results + [r])[..|results|] == results;
  }

  lemma OneMoreCall(t: Tooling, n: nat, before: seq<Call>, last: Call)
    ensures var calls := before + [last];
            && EventsOf(CallsEntries(t, n, calls)) == EventsOf(CallsEntries(t, n, before)) + Perform(t, n + |before|, last).events
            && Ids(calls) == Ids(before) + [last.id]
            && (AllRegistered(t, calls) <==> AllRegistered(t, before) && Registered(t.tools, last))
  {
    hide EventsOf, Perform, CallEntries, Registered, Tag;
    var calls := before + [last];
    assert calls[..|calls| - 1] == before;
    EventsConcat(CallsEntries(t, n, before), CallEntries(t, n + |before|, last));
    EntriesAreTheEvents(t, n + |before|, last);
    OneMoreRegistered(t, before, last);
  }

  lemma OneMoreRegistered(t: Tooling, before: seq<Call>, last: Call)
    ensures AllRegistered(t, before + [last]) <==> AllRegistered(t, before) && Registered(t.tools, last)
  {
    hide Registered;
    assert last in before + [last] && forall c :: c in before + [last] <==> c in before || c == last;
  }

  // The calls' events lead from one state of the grammar to another, and end each call once.
  ghost predicate CallsRead(t: Tooling, n: nat, calls: seq<Call>, g: Grammar) {
    var events := EventsOf(CallsEntries(t, n, calls));
    && ReadAll(g, events) == (if calls == [] then g else if (g == InTurn || g == Tools) && AllRegistered(t, calls) then Tools else Dead)
    && EndIds(events) == Ids(calls)
    && Inner(events)
  }

  lemma NextCallRead(t: Tooling, n: nat, before: seq<Call>, last: Call, g: Grammar)
    requires g == InTurn || g == Tools || g == Streaming || g == Dead
    requires CallsRead(t, n, before, g)
    ensures CallsRead(t, n, before + [last], g)
  {
    hide Perform, CallEntries, CallsEntries, AllRegistered, Registered, Ids, EventsOf, Read, ReadAll, EndIds, Inner;
    OneMoreCall(t, n, before, last);
    NoneRegistered(t);
    var head, tail := EventsOf(CallsEntries(t, n, before)), Perform(t, n + |before|, last).events;
    CallGrammar(t, n + |before|, last, ReadAll(g, head));
    Join(g, head, tail);
  }

  lemma NoCallsRead(t: Tooling, n: nat, g: Grammar)
    ensures CallsRead(t, n, [], g)
  {
    assert EventsOf(CallsEntries(t, n, [])) == [];
  }

  lemma {:induction false} CallsGrammar(t: Tooling, n: nat, calls: seq<Call>, g: Grammar)
    requires g == InTurn || g == Tools || g == Streaming || g == Dead
    ensures CallsRead(t, n, calls, g)
  {
    hide CallsRead;
    if calls == [] {
      NoCallsRead(t, n, g);
    } else {
      CallsGrammar(t, n, calls[..|calls| - 1], g);
      NextCallRead(t, n, calls[..|calls| - 1], calls[|calls| - 1], g);
      assert calls == calls[..|calls| - 1] + [calls[|calls| - 1]];
    }
  }

  lemma NoneRegistered(t: Tooling)
    ensures AllRegistered(t, [])
  {
  }

  /** The k-th result of a round is the k-th call's. */
  lemma {:induction false} ResultOfCall(t: Tooling, n: nat, calls: seq<Call>, k: nat)
    requires k < |calls|
    ensures Results(t, n, calls)[k] == Perform(t, n + k, calls[k]).result
  {
    if k < |calls| - 1 {
      hide Perform;
      ResultOfCall(t, n, calls[..|calls| - 1], k);
    }
  }

  lemma {:induction false} IdsConcat(a: seq<Call>, b: seq<Call>)
    ensures Ids(a + b) == Ids(a) + Ids(b)
  {
    if b == [] {
      assert a + b == a;
    } else {
      IdsConcat(a, b[..|b| - 1]);
      assert (a + b)[..|a + b| - 1] == a + b[..|b| - 1];
    }
  }

  function CallsOf(round: Round): seq<Call> {
    if round.Round? then round.calls else []
  }

  function AllCalls(rounds: seq<Round>): seq<Call> {
    if rounds == [] then [] else AllCalls(rounds[..|rounds| - 1]) + CallsOf(rounds[|rounds| - 1])
  }

  function Committed(round: Round): seq<Message> {
    if round.Round? && round.end.Some? then [round.end.value] else []
  }

  function Rows(d: Deps, results: seq<ToolResult>): seq<Message> {
    if results == [] then [] else Rows(d, results[..|results| - 1]) + [Message(Tool, d.row(results[|results| - 1]))]
  }

  function Folded(d: Deps, results: seq<ToolResult>): seq<Message> {
    if d.fold then Rows(d, results) else []
  }

  // What complete rounds add to the conversation: round by round, the committed message and then one row
  // per call, in call order.
  function History(d: Deps, t: Tooling, rounds: seq<Round>): seq<Message> {
    if rounds == [] then []
    else
      var before, last := rounds[..|rounds| - 1], rounds[|rounds| - 1];
      History(d, t, before) + Committed(last) + Folded(d, Results(t, |AllCalls(before)|, CallsOf(last)))
  }

  function BufferAfter(buffer: Option<string>, round: Round): Option<string> {
    if round.StreamError? then buffer
    else if round.end.Some? then None
    else if round.updates == [] then Opened(buffer, round)
    else Some(Content(Opened(buffer, round)) + Concat(round.updates))
  }

  function RunBuffer(rounds: seq<Round>, buffer: Option<string>): Option<string> {
    if rounds == [] then buffer else BufferAfter(RunBuffer(rounds[..|rounds| - 1], buffer), rounds[|rounds| - 1])
  }

  predicate Tidy(t: Tooling, rounds: seq<Round>, performed: seq<Call>) {
    (forall r | r in rounds :: WellFormed(r)) && AllRegistered(t, performed)
  }

  // What a round that the model answered emits, up to its end if it gets there.
  function RoundEntries(t: Tooling, n: nat, buffer: Option<string>, round: Round, done: seq<Call>): seq<Entry>
    requires round.Round?
  {
    [Entry(TurnStart, {})] + Tag(MessageSection(buffer, round), {}) + CallsEntries(t, n, done)
  }

  // All that a complete round emits.
  function WholeRound(t: Tooling, n: nat, buffer: Option<string>, round: Round): seq<Entry>
    requires round.Round?
  {
    RoundEntries(t, n, buffer, round, round.calls) + [Entry(TurnEnd(round.end, Results(t, n, round.calls)), {})]
  }

  // All that a round emits that the model or a hook cut short after some calls.
  function CutRound(t: Tooling, n: nat, buffer: Option<string>, round: Round, done: seq<Call>): seq<Entry> {
    if round.StreamError? then [Entry(TurnStart, {})] else RoundEntries(t, n, buffer, round, done)
  }

  // All that complete rounds emit.
  function RunEntries(t: Tooling, rounds: seq<Round>, buffer: Option<string>): seq<Entry> {
    if rounds == [] then []
    else
      var before, last := rounds[..|rounds| - 1], rounds[|rounds| - 1];
      RunEntries(t, before, buffer)
      + if last.Round? then WholeRound(t, |AllCalls(before)|, RunBuffer(before, buffer), last) else []
  }

  lemma RoundInOrder(trace: seq<Entry>, t: Tooling, n: nat, buffer: Option<string>, round: Round, done: seq<Call>)
    requires round.Round?
    ensures trace + [Entry(TurnStart, {})] + Tag(MessageSection(buffer, round), {}) + CallsEntries(t, n, done)
         == trace + RoundEntries(t, n, buffer, round, done)
  {
    hide MessageSection, CallsEntries, Tag;
  }

  lemma RoundShape(t: Tooling, n: nat, buffer: Option<string>, round: Round, done: seq<Call>)
    requires round.Round?
    ensures EventsOf(RoundEntries(t, n, buffer, round, done))
         == ([TurnStart] + MessageSection(buffer, round)) + EventsOf(CallsEntries(t, n, done))
  {
    hide MessageSection, CallsEntries;
    var section, calls := Tag(MessageSection(buffer, round), {}), CallsEntries(t, n, done);
    assert EventsOf(section) == MessageSection(buffer, round);
    EventsConcat([Entry(TurnStart, {})], section);
    EventsConcat([Entry(TurnStart, {})] + section, calls);
    assert EventsOf([Entry(TurnStart, {})]) == [TurnStart];
  }

  lemma TurnOpens()
    ensures ReadAll(Between, [TurnStart]) == InTurn && EndIds([TurnStart]) == []
  {
    ReadOne(Between, TurnStart);
  }

  lemma RoundGrammar(t: Tooling, n: nat, buffer: Option<string>, round: Round, done: seq<Call>)
    requires round.Round?
    ensures var events := EventsOf(RoundEntries(t, n, buffer, round, done));
            var g := ReadAll(Between, events);
            && (if WellFormed(round) && AllRegistered(t, done) then g == InTurn || g == Tools
                else g == Dead || (g == Streaming && done == []))
            && ReadAll(Dead, events) == Dead
            && EndIds(events) == Ids(done)
  {
    var section, calls := MessageSection(buffer, round), EventsOf(CallsEntries(t, n, done));
    hide MessageSection, CallsEntries, EventsOf, RoundEntries, AllRegistered, WellFormed, Ids, Read, ReadAll, EndIds, Inner;
    var events := EventsOf(RoundEntries(t, n, buffer, round, done));
    RoundShape(t, n, buffer, round, done);
    NoneRegistered(t);
    TurnOpens();
    Join(Between, [TurnStart], section);
    MessageGrammar(buffer, round);
    Join(Between, [TurnStart] + section, calls);
    CallsGrammar(t, n, done, ReadAll(InTurn, section));
    DeadStays(events);
  }

  // The state of the grammar after a trace that was in order, or broken, is extended.
  lemma TraceMore(trace: seq<Entry>, more: seq<Entry>)
    ensures StateAfter(trace + more) == ReadAll(StateAfter(trace), EventsOf(more))
    ensures EndIds(EventsOf(trace + more)) == EndIds(EventsOf(trace)) + EndIds(EventsOf(more))
    ensures QuietAtBoundaries(trace) && QuietAtBoundaries(more) ==> QuietAtBoundaries(trace + more)
  {
    StateAfterMore(trace, more);
    EndIdsConcat(EventsOf(trace), EventsOf(more));
    EventsConcat(trace, more);
  }

  lemma TraceOne(trace: seq<Entry>, e: Event)
    ensures var more := trace + [Entry(e, {})];
            && StateAfter(more) == Read(StateAfter(trace), e)
            && EndIds(EventsOf(more)) == EndIds(EventsOf(trace)) + (if e.ToolEnd? then [e.callId] else [])
            && (QuietAtBoundaries(trace) ==> QuietAtBoundaries(more))
  {
    var more := [Entry(e, {})];
    TraceMore(trace, more);
    assert EventsOf(more) == [e];
    ReadOne(StateAfter(trace), e);
  }

  lemma NoBoundaryIsQuiet(entries: seq<Entry>)
    requires Inner(EventsOf(entries))
    ensures QuietAtBoundaries(entries)
  {
    forall e | e in entries ensures !Boundary(e.event) {
      var i :| 0 <= i < |entries| && entries[i] == e;
      assert EventsOf(entries)[i] == e.event;
    }
  }

  lemma RoundIsQuiet(t: Tooling, n: nat, buffer: Option<string>, round: Round, done: seq<Call>)
    requires round.Round?
    ensures QuietAtBoundaries(RoundEntries(t, n, buffer, round, done))
  {
    hide MessageSection, CallsEntries;
    var section, calls := Tag(MessageSection(buffer, round), {}), CallsEntries(t, n, done);
    MessageGrammar(buffer, round);
    assert EventsOf(section) == MessageSection(buffer, round);
    NoBoundaryIsQuiet(section);
    CallsGrammar(t, n, done, Dead);
    NoBoundaryIsQuiet(calls);
  }

  // How a turn leaves a trace: cut short by the model or by a hook, or ended.
  ghost predicate TurnLeaves(t: Tooling, before: seq<Entry>, after: seq<Entry>, round: Round, done: seq<Call>, error: Option<Error>) {
    && (if StateAfter(before) == Between && WellFormed(round) && AllRegistered(t, done)
        then if error.None? then StateAfter(after) == Between else StateAfter(after) == InTurn || StateAfter(after) == Tools
        else StateAfter(after) == Dead)
    && EndIds(EventsOf(after)) == EndIds(EventsOf(before)) + Ids(done)
    && (QuietAtBoundaries(before) ==> QuietAtBoundaries(after))
    && |before| <= |after|
  }

  lemma FailedTurn(t: Tooling, before: seq<Entry>)
    requires StateAfter(before) == Between || StateAfter(before) == Dead
    ensures TurnLeaves(t, before, before + [Entry(TurnStart, {})], StreamError, [], Some(StreamFailed))
  {
    TraceOne(before, TurnStart);
  }

  lemma CutTurn(t: Tooling, n: nat, before: seq<Entry>, buffer: Option<string>, round: Round, done: seq<Call>, error: Option<Error>)
    requires StateAfter(before) == Between || StateAfter(before) == Dead
    requires round.Round? && done != [] && error.Some?
    ensures TurnLeaves(t, before, before + RoundEntries(t, n, buffer, round, done), round, done, error)
  {
    hide RoundEntries, ReadAll, EndIds, QuietAtBoundaries, EventsOf, Ids;
    TraceMore(before, RoundEntries(t, n, buffer, round, done));
    RoundGrammar(t, n, buffer, round, done);
    RoundIsQuiet(t, n, buffer, round, done);
  }

  lemma EndedTurn(t: Tooling, n: nat, before: seq<Entry>, buffer: Option<string>, round: Round, done: seq<Call>, end: Event)
    requires StateAfter(before) == Between || StateAfter(before) == Dead
    requires round.Round? && end.TurnEnd?
    ensures TurnLeaves(t, before, before + RoundEntries(t, n, buffer, round, done) + [Entry(end, {})], round, done, None)
  {
    hide RoundEntries, ReadAll, EndIds, QuietAtBoundaries, EventsOf, StateAfter, Ids;
    TraceMore(before, RoundEntries(t, n, buffer, round, done));
    TraceOne(before + RoundEntries(t, n, buffer, round, done), end);
    RoundGrammar(t, n, buffer, round, done);
    RoundIsQuiet(t, n, buffer, round, done);
  }

  // ----- where a run stops -----

  // A hook fails one of the calls.
  predicate HookFails(t: Tooling, n: nat, calls: seq<Call>) {
    exists i | 0 <= i < |calls| :: Perform(t, n + i, calls[i]).hookFailed
  }

  lemma HookFailsMore(t: Tooling, n: nat, before: seq<Call>, last: Call)
    ensures HookFails(t, n, before + [last]) <==> HookFails(t, n, before) || Perform(t, n + |before|, last).hookFailed
  {
    hide Perform;
    var calls := before + [last];
    if HookFails(t, n, before) {
      var i :| 0 <= i < |before| && Perform(t, n + i, before[i]).hookFailed;
      assert calls[i] == before[i];
    }
    assert calls[|before|] == last;
    if HookFails(t, n, calls) {
      var i :| 0 <= i < |calls| && Perform(t, n + i, calls[i]).hookFailed;
      assert i < |before| ==> calls[i] == before[i];
    }
  }

  lemma HookFailsOfPart(t: Tooling, n: nat, calls: seq<Call>, i: nat)
    requires i <= |calls| && HookFails(t, n, calls[..i])
    ensures HookFails(t, n, calls)
  {
    hide Perform;
    var j :| 0 <= j < i && Perform(t, n + j, calls[..i][j]).hookFailed;
    assert calls[..i][j] == calls[j];
  }

  lemma NoHookFails(t: Tooling, n: nat)
    ensures !HookFails(t, n, [])
  {
  }

  // The first call of the round whose hook fails is the last one that is done.
  predicate CutByHook(t: Tooling, n: nat, calls: seq<Call>, done: seq<Call>) {
    HookFails(t, n, calls) && HookFails(t, n, done) && done != [] && !HookFails(t, n, done[..|done| - 1])
  }

  lemma HookCuts(t: Tooling, n: nat, calls: seq<Call>, i: nat)
    requires i < |calls| && !HookFails(t, n, calls[..i]) && HookFails(t, n, calls[..i + 1])
    ensures CutByHook(t, n, calls, calls[..i + 1])
  {
    HookFailsOfPart(t, n, calls, i + 1);
    hide HookFails;
    assert calls[..i + 1][..i] == calls[..i];
  }

  datatype Verdict = GoesOn | Ends(error: Option<Error>)

  // Whether a run goes on after its k-th round, whose calls are numbered from n.
  function VerdictOn(d: Deps, t: Tooling, k: nat, n: nat, round: Round): Verdict {
    if round.StreamError? then Ends(Some(StreamFailed))
    else if HookFails(t, n, round.calls) then Ends(Some(HookFailed))
    else if Stops(Results(t, n, round.calls)) then Ends(None)
    else if round.calls == [] then Ends(if round.terminate then None else Some(Stalled))
    else if d.shouldStop(k) then Ends(None)
    else if d.prepareFails(k) then Ends(Some(PrepareFailed))
    else GoesOn
  }

  function VerdictAt(d: Deps, t: Tooling, rounds: seq<Round>, k: nat): Verdict
    requires k < |rounds|
  {
    VerdictOn(d, t, k, |AllCalls(rounds[..k])|, rounds[k])
  }

  // A run of the script ends after so many rounds, with this error: every round before the last one lets it go on
  // and no cancellation comes earlier; the last one ends it, or else the context does.
  ghost predicate StopsAt(d: Deps, t: Tooling, rounds: seq<Round>, turns: nat, error: Option<Error>) {
    && turns <= |rounds|
    && (forall k :: 0 <= k < turns ==> !d.cancelled(k))
    && (forall k :: 0 <= k < turns - 1 ==> VerdictAt(d, t, rounds, k).GoesOn?)
    && if turns > 0 && VerdictAt(d, t, rounds, turns - 1).Ends? then error == VerdictAt(d, t, rounds, turns - 1).error
       else error == Some(ContextDone) && (turns == |rounds| || d.cancelled(turns))
  }

  /** The script, the hooks and the cancellations determine how far a run goes and how it ends. */
  lemma StopIsUnique(d: Deps, t: Tooling, rounds: seq<Round>, m: nat, e: Option<Error>, n: nat, f: Option<Error>)
    requires StopsAt(d, t, rounds, m, e) && StopsAt(d, t, rounds, n, f)
    ensures m == n && e == f
  {
  }

  lemma StopsByPrepareNext(d: Deps, t: Tooling, rounds: seq<Round>, turns: nat, error: Option<Error>)
    requires StopsAt(d, t, rounds, turns, error)
    ensures forall n: nat :: d.prepareFails(n) ==> turns <= n + 1
  {
    forall n: nat | d.prepareFails(n) ensures turns <= n + 1 {
      var verdict := if n < |rounds| then VerdictAt(d, t, rounds, n) else GoesOn;
    }
  }

  // ----- the parts of a run, in the events' own terms -----

  // The state of a stream in the grammar, by its last event.
  function StateBehind(last: Event): Grammar {
    match last
    case AgentStart => Between
    case TurnStart => InTurn
    case MessageStart(_) => Streaming
    case MessageUpdate(_, _) => Streaming
    case MessageEnd(_) => Tools
    case ToolStart(id, _, _) => InTool(id)
    case ToolUpdate(id, _) => InTool(id)
    case ToolEnd(_, _, _) => Tools
    case TurnEnd(_, _) => Between
    case AgentEnd(_) => Ended
  }

  lemma StateByLastEvent(events: seq<Event>)
    requires events != [] && ReadAll(Fresh, events) != Dead
    ensures ReadAll(Fresh, events) == StateBehind(events[|events| - 1])
  {
  }

  // The event e may come behind the event last.
  predicate Follows(last: Event, e: Event) {
    || ((last.AgentStart? || last.TurnEnd?) && (e.TurnStart? || e.AgentEnd?))
    || (last.TurnStart? && (e.MessageStart? || e.ToolStart? || e.TurnEnd? || e.AgentEnd?))
    || ((last.MessageStart? || last.MessageUpdate?) && (e.MessageUpdate? || e.MessageEnd?))
    || ((last.MessageEnd? || last.ToolEnd?) && (e.ToolStart? || e.TurnEnd? || e.AgentEnd?))
    || ((last.ToolStart? || last.ToolUpdate?) && (e.ToolUpdate? || e.ToolEnd?) && e.callId == last.callId)
  }

  lemma ReadFollows(last: Event, e: Event)
    ensures Read(StateBehind(last), e) != Dead <==> Follows(last, e)
    ensures Read(Fresh, e) != Dead <==> e == AgentStart
    ensures Read(Dead, e) == Dead
  {
  }

  /** A stream is in the grammar when it begins with the start of the run and each event may come behind the one before:
      a turn and its message open before they close, updates belong to the message or call that is open, and nothing
      comes behind the end of the run. */
  lemma {:induction false} GrammarIsFollowing(events: seq<Event>)
    requires events != []
    ensures ReadAll(Fresh, events) != Dead <==>
              events[0] == AgentStart && forall i :: 0 < i < |events| ==> Follows(events[i - 1], events[i])
  {
    hide Read, Follows, StateBehind, EndIds, Inner, ReadAll;
    var before, e := events[..|events| - 1], events[|events| - 1];
    assert events == before + [e];
    ReadMore(Fresh, before, e);
    if before == [] {
      ReadFollows(e, e);
      NothingRead();
    } else {
      GrammarIsFollowing(before);
      ReadFollows(before[|before| - 1], e);
      if ReadAll(Fresh, before) != Dead {
        StateByLastEvent(before);
      }
      assert events[|events| - 2] == before[|before| - 1];
    }
  }

  lemma NothingRead()
    ensures ReadAll(Fresh, []) == Fresh
  {
  }

  /** The message of a round: its start, one event per update with all the text so far, and its end. */
  lemma MessageEvents(buffer: Option<string>, round: Round, k: nat)
    requires round.Round?
    ensures var n, first := |round.updates|, if round.start then 1 else 0;
            && |MessageSection(buffer, round)| == first + n + (if round.end.Some? then 1 else 0)
            && (round.start ==> MessageSection(buffer, round)[0] == MessageStart(Message(Role.Assistant, "")))
            && (round.end.Some? ==> MessageSection(buffer, round)[first + n] == MessageEnd(round.end.value))
    ensures var first := if round.start then 1 else 0;
            k < |round.updates| ==>
              MessageSection(buffer, round)[first + k] == UpdateEvents(if round.start then Some("") else buffer, round.updates)[k]
  {
    hide UpdateEvents;
    EachUpdateOnce(Opened(buffer, round), round.updates);
  }

  lemma {:induction false} EachUpdateOnce(buffer: Option<string>, updates: seq<string>)
    ensures |UpdateEvents(buffer, updates)| == |updates|
  {
    if updates != [] {
      EachUpdateOnce(buffer, updates[..|updates| - 1]);
    }
  }

  lemma {:induction false} UpdatesInOrder(buffer: Option<string>, updates: seq<string>, k: nat)
    requires k < |updates|
    ensures k < |UpdateEvents(buffer, updates)|
    ensures var text := (if buffer.Some? then buffer.value else "") + Concat(updates[..k]) + updates[k];
            UpdateEvents(buffer, updates)[k] == MessageUpdate(Message(Role.Assistant, text), updates[k])
  {
    hide Concat;
    var before := updates[..|updates| - 1];
    EachUpdateOnce(buffer, updates);
    EachUpdateOnce(buffer, before);
    if k < |before| {
      UpdatesInOrder(buffer, before, k);
      assert before[..k] == updates[..k];
    }
  }

  lemma PartsAreJoined(parts: seq<string>, part: string)
    ensures Concat([]) == "" && Concat(parts + [part]) == Concat(parts) + part
  {
    assert (parts + [part])[..|parts|] == parts;
  }

  /** A complete round: the start of its turn, the message, the events of its calls one after the other, and the end of the
      turn with the message and the results. While a registered call with an id is performed, it is what is pending. */
  lemma EventsOfRound(t: Tooling, n: nat, buffer: Option<string>, round: Round, before: seq<Call>, call: Call)
    requires round.Round?
    ensures EventsOf(WholeRound(t, n, buffer, round))
         == [TurnStart] + MessageSection(buffer, round) + EventsOf(CallsEntries(t, n, round.calls))
            + [TurnEnd(round.end, Results(t, n, round.calls))]
    ensures CallsEntries(t, n, []) == []
    ensures EventsOf(CallsEntries(t, n, before + [call])) == EventsOf(CallsEntries(t, n, before)) + Perform(t, n + |before|, call).events
  {
    RoundShape(t, n, buffer, round, round.calls);
    OneMoreCall(t, n, before, call);
    var end := [Entry(TurnEnd(round.end, Results(t, n, round.calls)), {})];
    EventsConcat(RoundEntries(t, n, buffer, round, round.calls), end);
    assert EventsOf(end) == [TurnEnd(round.end, Results(t, n, round.calls))];
    hide RoundEntries, MessageSection, Perform, Results, CallEntries;
  }

  lemma PendingWhilePerformed(t: Tooling, n: nat, call: Call, k: nat)
    requires k < |CallEntries(t, n, call)|
    ensures CallEntries(t, n, call)[k].pending == if Registered(t.tools, call) && k > 0 && call.id != "" then {call.id} else {}
  {
    hide Registered, Proceed, Perform;
  }

  /** A round adds its message and, with folding, one row per call in call order to the conversation. */
  lemma RoundAddsToHistory(d: Deps, t: Tooling, rounds: seq<Round>, round: Round)
    ensures History(d, t, []) == [] && AllCalls([]) == []
    ensures var calls := if round.Round? then round.calls else [];
            && AllCalls(rounds + [round]) == AllCalls(rounds) + calls
            && History(d, t, rounds + [round]) == History(d, t, rounds)
               + (if round.Round? && round.end.Some? then [round.end.value] else []) + Folded(d, Results(t, |AllCalls(rounds)|, calls))
  {
    hide Results, Folded;
    assert (rounds + [round])[..|rounds|] == rounds;
  }

  lemma FoldedRows(d: Deps, t: Tooling, n: nat, calls: seq<Call>, k: nat)
    ensures |Folded(d, Results(t, n, calls))| == if d.fold then |calls| else 0
    ensures d.fold && k < |calls| ==>
              Folded(d, Results(t, n, calls))[k] == Message(Tool, d.row(Perform(t, n + k, calls[k]).result))
  {
    hide Perform, Results;
    RowsInOrder(d, Results(t, n, calls));
    if k < |calls| {
      ResultOfCall(t, n, calls, k);
    }
  }

  lemma {:induction false} RowsInOrder(d: Deps, results: seq<ToolResult>)
    ensures |Rows(d, results)| == |results| && forall k :: 0 <= k < |results| ==> Rows(d, results)[k] == Message(Tool, d.row(results[k]))
  {
    if results != [] {
      RowsInOrder(d, results[..|results| - 1]);
    }
  }

  lemma {:induction false} StopsIff(results: seq<ToolResult>)
    ensures Stops(results) <==> exists k :: 0 <= k < |results| && results[k].terminate
  {
    if results != [] {
      StopsIff(results[..|results| - 1]);
      assert forall k :: 0 <= k < |results| - 1 ==> results[..|results| - 1][k] == results[k];
    }
  }

  lemma {:induction false} IdsInOrder(calls: seq<Call>, e: Event)
    ensures |Ids(calls)| == |calls| && forall k :: 0 <= k < |calls| ==> Ids(calls)[k] == calls[k].id
    ensures EndIds([]) == [] && EndIds([e]) == if e.ToolEnd? then [e.callId] else []
  {
    ReadOne(Fresh, e);
    if calls != [] {
      IdsInOrder(calls[..|calls| - 1], e);
    }
  }

  /** Why a run ends after a round: the first of these that holds. */
  lemma VerdictIff(d: Deps, t: Tooling, k: nat, n: nat, round: Round)
    ensures var calls := if round.Round? then round.calls else [];
            var hook := exists i :: 0 <= i < |calls| && Perform(t, n + i, calls[i]).hookFailed;
            var stop := exists i :: 0 <= i < |calls| && Perform(t, n + i, calls[i]).result.terminate;
            VerdictOn(d, t, k, n, round) ==
              if round.StreamError? then Ends(Some(StreamFailed))
              else if hook then Ends(Some(HookFailed))
              else if stop then Ends(None)
              else if calls == [] then Ends(if round.terminate then None else Some(Stalled))
              else if d.shouldStop(k) then Ends(None)
              else if d.prepareFails(k) then Ends(Some(PrepareFailed)) else GoesOn
  {
    var calls := if round.Round? then round.calls else [];
    hide Perform, Results, Stops;
    StopsIff(Results(t, n, calls));
    forall i | 0 <= i < |calls| ensures Results(t, n, calls)[i] == Perform(t, n + i, calls[i]).result {
      ResultOfCall(t, n, calls, i);
    }
  }

  /** What is left of an open message behind a round. */
  lemma OpenMessageBehind(buffer: Option<string>, round: Round)
    ensures round.StreamError? ==> BufferAfter(buffer, round) == buffer
    ensures round.Round? && round.end.Some? ==> BufferAfter(buffer, round) == None
    ensures round.Round? && round.end.None? ==>
              var base := if round.start then Some("") else buffer;
              BufferAfter(buffer, round) ==
                if round.updates == [] then base else Some((if base.Some? then base.value else "") + Concat(round.updates))
  {
  }

  predicate Cut(error: Option<Error>) {
    error == Some(StreamFailed) || error == Some(HookFailed)
  }

  // Where a run stands after a number of rounds, the last of which may have been cut short.
  ghost predicate Standing(t: Tooling, taken: seq<Round>, performed: seq<Call>, trace: seq<Entry>, cut: bool) {
    && (if Tidy(t, taken, performed)
        then if cut then StateAfter(trace) == InTurn || StateAfter(trace) == Tools else StateAfter(trace) == Between
        else StateAfter(trace) == Dead)
    && EndIds(EventsOf(trace)) == Ids(performed)
    && QuietAtBoundaries(trace)
  }

  lemma StandingIsReadable(t: Tooling, taken: seq<Round>, performed: seq<Call>, trace: seq<Entry>)
    requires Standing(t, taken, performed, trace, false)
    ensures StateAfter(trace) == Between || StateAfter(trace) == Dead
  {
  }

  lemma StandingAtStart(d: Deps, t: Tooling, messages: seq<Message>)
    ensures Standing(t, [], [], [Entry(AgentStart, {})], false) && Told(d, t, [], [], messages, messages, false)
    ensures forall buffer :: Emitted(t, [], [], buffer, buffer, [Entry(AgentStart, {})], false)
  {
    ReadOne(Fresh, AgentStart);
    assert EventsOf([Entry(AgentStart, {})]) == [AgentStart];
  }

  // What the end event makes of a run.
  lemma StandingAtEnd(t: Tooling, taken: seq<Round>, performed: seq<Call>, trace: seq<Entry>, cut: bool, messages: seq<Message>)
    requires Standing(t, taken, performed, trace, cut)
    ensures var all := trace + [Entry(AgentEnd(messages), {})];
            && StateAfter(all) == (if Tidy(t, taken, performed) then Ended else Dead)
            && EndIds(EventsOf(all)) == Ids(performed) && QuietAtBoundaries(all)
            && (Tidy(t, taken, performed) && !cut ==> StateAfter(all[..|all| - 1]) == Between)
  {
    TraceOne(trace, AgentEnd(messages));
    assert (trace + [Entry(AgentEnd(messages), {})])[..|trace|] == trace;
  }

  lemma StandingAfterTurn(t: Tooling, taken: seq<Round>, performed: seq<Call>, before: seq<Entry>, after: seq<Entry>,
                          round: Round, done: seq<Call>, error: Option<Error>)
    requires Standing(t, taken, performed, before, false)
    requires TurnLeaves(t, before, after, round, done, error) && (error.Some? ==> Cut(error))
    ensures Standing(t, taken + [round], performed + done, after, error.Some?)
  {
    assert forall r :: r in taken + [round] <==> r in taken || r == round;
    assert forall c :: c in performed + done <==> c in performed || c in done;
    IdsConcat(performed, done);
  }

  lemma OneMoreRound(d: Deps, t: Tooling, rounds: seq<Round>, k: nat, n: nat)
    requires k < |rounds| && n == |AllCalls(rounds[..k])|
    ensures rounds[..k + 1] == rounds[..k] + [rounds[k]]
    ensures AllCalls(rounds[..k + 1]) == AllCalls(rounds[..k]) + CallsOf(rounds[k])
    ensures History(d, t, rounds[..k + 1]) == History(d, t, rounds[..k]) + Committed(rounds[k]) + Folded(d, Results(t, n, CallsOf(rounds[k])))
  {
    assert rounds[..k + 1][..k] == rounds[..k];
  }

  // The conversation and the calls after a number of rounds, the last of which may have been cut short.
  ghost predicate Told(d: Deps, t: Tooling, taken: seq<Round>, performed: seq<Call>, initial: seq<Message>,
                       messages: seq<Message>, cut: bool) {
    if cut then
      && taken != []
      && AllCalls(taken[..|taken| - 1]) <= performed <= AllCalls(taken)
      && messages == initial + History(d, t, taken[..|taken| - 1]) + Committed(taken[|taken| - 1])
    else
      performed == AllCalls(taken) && messages == initial + History(d, t, taken)
  }

  lemma ToldAfterTurn(d: Deps, t: Tooling, rounds: seq<Round>, k: nat, n: nat, performed: seq<Call>, initial: seq<Message>,
                      before: seq<Message>, after: seq<Message>, done: seq<Call>, error: Option<Error>)
    requires k < |rounds| && n == |performed| && Told(d, t, rounds[..k], performed, initial, before, false)
    requires done <= CallsOf(rounds[k]) && (error.None? ==> done == CallsOf(rounds[k])) && (error.Some? ==> Cut(error))
    requires after == before + Committed(rounds[k]) + if error.None? then Folded(d, Results(t, n, done)) else []
    ensures Told(d, t, rounds[..k + 1], performed + done, initial, after, error.Some?)
  {
    hide Results, CallsOf, History, AllCalls, Committed, Folded;
    OneMoreRound(d, t, rounds, k, n);
    var taken := rounds[..k + 1];
    assert taken[..|taken| - 1] == rounds[..k] && taken[|taken| - 1] == rounds[k];
    if error.None? {
      assert initial + History(d, t, rounds[..k]) + Committed(rounds[k]) + Folded(d, Results(t, n, done))
          == initial + (History(d, t, rounds[..k]) + Committed(rounds[k]) + Folded(d, Results(t, n, done)));
    } else {
      assert after == before + Committed(rounds[k]);
    }
  }

  // The whole trace of a run after a number of rounds, the last of which may have been cut short.
  ghost predicate Emitted(t: Tooling, taken: seq<Round>, performed: seq<Call>, initial: Option<string>, buffer: Option<string>,
                          trace: seq<Entry>, cut: bool) {
    if cut then
      && taken != []
      && var before, last := taken[..|taken| - 1], taken[|taken| - 1];
         && |AllCalls(before)| <= |performed|
         && trace == [Entry(AgentStart, {})] + RunEntries(t, before, initial)
                     + CutRound(t, |AllCalls(before)|, RunBuffer(before, initial), last, performed[|AllCalls(before)|..])
    else
      trace == [Entry(AgentStart, {})] + RunEntries(t, taken, initial) && buffer == RunBuffer(taken, initial)
  }

  lemma RunEntriesMore(t: Tooling, before: seq<Round>, last: Round, buffer: Option<string>)
    requires last.Round?
    ensures RunEntries(t, before + [last], buffer)
         == RunEntries(t, before, buffer) + WholeRound(t, |AllCalls(before)|, RunBuffer(before, buffer), last)
    ensures RunBuffer(before + [last], buffer) == BufferAfter(RunBuffer(before, buffer), last)
  {
    hide WholeRound, BufferAfter;
    assert (before + [last])[..|before|] == before;
  }

  lemma EmittedAfterTurn(t: Tooling, before: seq<Round>, last: Round, n: nat, performed: seq<Call>, initial: Option<string>,
                         buffer: Option<string>,
                         buffer': Option<string>, trace: seq<Entry>, trace': seq<Entry>, done: seq<Call>, cut: bool)
    requires n == |performed| && performed == AllCalls(before) && Emitted(t, before, performed, initial, buffer, trace, false)
    requires if cut then trace' == trace + CutRound(t, n, buffer, last, done)
             else last.Round? && trace' == trace + WholeRound(t, n, buffer, last) && buffer' == BufferAfter(buffer, last)
    ensures Emitted(t, before + [last], performed + done, initial, buffer', trace', cut)
  {
    hide CutRound, WholeRound, BufferAfter, RunEntries, RunBuffer, AllCalls;
    var taken := before + [last];
    assert taken[..|taken| - 1] == before && taken[|taken| - 1] == last;
    if cut {
      assert (performed + done)[n..] == done;
    } else {
      RunEntriesMore(t, before, last, initial);
      Assoc([Entry(AgentStart, {})], RunEntries(t, before, initial), WholeRound(t, n, buffer, last));
    }
  }

  lemma AfterTurn(d: Deps, t: Tooling, rounds: seq<Round>, k: nat, n: nat, performed: seq<Call>, initial: seq<Message>,
                  spoken: seq<Message>, said: seq<Message>, before: seq<Entry>, after: seq<Entry>, done: seq<Call>, error: Option<Error>)
    requires k < |rounds| && n == |performed|
    requires Told(d, t, rounds[..k], performed, initial, spoken, false) && Standing(t, rounds[..k], performed, before, false)
    requires TurnLeaves(t, before, after, rounds[k], done, error) && (error.Some? ==> Cut(error))
    requires done <= CallsOf(rounds[k]) && (error.None? ==> done == CallsOf(rounds[k]))
    requires said == spoken + Committed(rounds[k]) + if error.None? then Folded(d, Results(t, n, done)) else []
    ensures Told(d, t, rounds[..k + 1], performed + done, initial, said, error.Some?)
    ensures Standing(t, rounds[..k + 1], performed + done, after, error.Some?)
  {
    hide Results, CallsOf, Told, Standing, TurnLeaves, Folded, Committed;
    StandingAfterTurn(t, rounds[..k], performed, before, after, rounds[k], done, error);
    ToldAfterTurn(d, t, rounds, k, n, performed, initial, spoken, said, done, error);
    assert rounds[..k + 1] == rounds[..k] + [rounds[k]];
  }

  // What the conversation's state says about the number of rounds taken.
  lemma ToldAtEnd(d: Deps, t: Tooling, rounds: seq<Round>, turns: nat, performed: seq<Call>, initial: seq<Message>,
                  messages: seq<Message>, cut: bool)
    requires turns <= |rounds| && Told(d, t, rounds[..turns], performed, initial, messages, cut)
    ensures cut ==>
              turns > 0 && AllCalls(rounds[..turns - 1]) <= performed <= AllCalls(rounds[..turns])
              && messages == initial + History(d, t, rounds[..turns - 1]) + Committed(rounds[turns - 1])
    ensures !cut ==> performed == AllCalls(rounds[..turns]) && messages == initial + History(d, t, rounds[..turns])
  {
    hide AllCalls, History, Committed;
    if turns > 0 {
      assert rounds[..turns][..turns - 1] == rounds[..turns - 1];
    }
  }

  lemma CalledSoFar(d: Deps, t: Tooling, taken: seq<Round>, performed: seq<Call>, initial: seq<Message>, messages: seq<Message>)
    requires Told(d, t, taken, performed, initial, messages, false)
    ensures performed == AllCalls(taken)
  {
  }

  class Session {
    var messages: seq<Message>
    var streaming: Option<string>  // the content of the open message
    var pending: set<string>
    var lastError: Option<Error>
    // Of the latest run: what it emitted, how many rounds it asked the model for, which calls it performed.
    var trace: seq<Entry>
    var turns: nat
    var performed: seq<Call>

    constructor ()
      ensures messages == [] && streaming == None && pending == {} && lastError == None
    {
      messages, streaming, pending, lastError, trace, turns, performed := [], None, {}, None, [], 0, [];
    }

    method Emit(e: Event)
      modifies this`trace
      ensures trace == old(trace) + [Entry(e, pending)]
    {
      trace := trace + [Entry(e, pending)];
    }

    // ----- the message -----

    method AppendDeltas(updates: seq<string>)
      modifies this`trace, this`streaming
      ensures trace == old(trace) + Tag(UpdateEvents(old(streaming), updates), pending)
      ensures streaming == if updates == [] then old(streaming) else Some(Content(old(streaming)) + Concat(updates))
    {
      for i := 0 to |updates|
        invariant trace == old(trace) + Tag(UpdateEvents(old(streaming), updates[..i]), pending)
        invariant streaming == if i == 0 then old(streaming) else Some(Content(old(streaming)) + Concat(updates[..i]))
      {
        assert updates[..i + 1][..i] == updates[..i];
        assert i == 0 ==> Content(streaming) + updates[i] == Content(old(streaming)) + Concat(updates[..i + 1]);
        streaming := Some(Content(streaming) + updates[i]);
        assert Content(old(streaming)) + Concat(updates[..i]) + updates[i] == Content(old(streaming)) + Concat(updates[..i + 1]);
        Emit(MessageUpdate(Said(streaming.value), updates[i]));
      }
      assert updates[..|updates|] == updates;
    }

    method StreamMessage(round: Round)
      requires round.Round?
      modifies this`trace, this`streaming, this`messages
      ensures trace == old(trace) + Tag(MessageSection(old(streaming), round), pending)
      ensures messages == old(messages) + Committed(round)
      ensures streaming == BufferAfter(old(streaming), round)
    {
      hide UpdateEvents, Concat;
      if round.start {
        streaming := Some("");
        Emit(MessageStart(Said("")));
      }
      AppendDeltas(round.updates);
      if round.end.Some? {
        messages := messages + [round.end.value];
        streaming := None;
        Emit(MessageEnd(round.end.value));
      }
    }

    // ----- tool calls -----

    method EmitUpdates(call: Call, partials: seq<string>)
      modifies this`trace
      ensures trace == old(trace) + Tag(Updates(call, partials), pending)
    {
      for i := 0 to |partials|
        invariant trace == old(trace) + Tag(Updates(call, partials[..i]), pending)
      {
        assert partials[..i + 1][..i] == partials[..i];
        Emit(ToolUpdate(call.id, partials[i]));
      }
      assert partials[..|partials|] == partials;
    }

    /** Executes a call that no hook decided. */
    method Execute(t: Tooling, n: nat, call: Call) returns (result: ToolResult, hookFailed: bool)
      modifies this`trace
      ensures trace == old(trace) + Tag(Executed(t, n, call).events, pending)
      ensures result == Executed(t, n, call).result && hookFailed == Executed(t, n, call).hookFailed
    {
      var e := t.execute(n, call);
      EmitUpdates(call, e.partials);
      if e.outcome.Err? {
        result := Failure(call, e.outcome.error);
        Emit(ToolEnd(call.id, result, true));
        return result, false;
      }
      result, hookFailed := e.outcome.value, false;
      if t.after.Some? {
        var error := t.after.value(n, call, result);
        if error.Some? {
          result := result.(status := Failed, error := if result.error.None? then error else result.error);
          hookFailed := true;
        }
      }
      Emit(ToolEnd(call.id, result, result.status == Failed));
    }

    method AskAndExecute(t: Tooling, n: nat, call: Call) returns (result: ToolResult, hookFailed: bool)
      modifies this`trace
      ensures trace == old(trace) + Tag(Proceed(t, n, call).events, pending)
      ensures result == Proceed(t, n, call).result && hookFailed == Proceed(t, n, call).hookFailed
    {
      var current := call;
      if t.before.Some? {
        var a := t.before.value(n, call);
        if a.error.Some? {
          result := Failure(call, a.error.value);
          Emit(ToolEnd(call.id, result, true));
          return result, true;
        }
        if a.block {
          result := ToolResult(call.id, Rejected, Some(BlockReason(a)), false);
          Emit(ToolEnd(call.id, result, false));
          return result, false;
        }
        if a.short.Some? {
          result := a.short.value;
          if result.callId == "" {
            result := result.(callId := call.id);
          }
          Emit(ToolEnd(call.id, result, result.status == Failed));
          return result, false;
        }
        if a.args != "" {
          current := call.(args := a.args);
        }
      }
      result, hookFailed := Execute(t, n, current);
    }

    method RunToolCall(t: Tooling, n: nat, call: Call) returns (result: ToolResult, hookFailed: bool)
      requires pending == {}
      modifies this`trace, this`pending
      ensures pending == {}
      ensures trace == old(trace) + CallEntries(t, n, call)
      ensures result == Perform(t, n, call).result && hookFailed == Perform(t, n, call).hookFailed
    {
      var tool := Resolve(t.tools, call);
      if tool.None? {
        result := NotRegistered(call);
        Emit(ToolEnd(call.id, result, true));
        assert Perform(t, n, call).events == [ToolEnd(call.id, result, true)];
        return result, false;
      }
      Emit(ToolStart(call.id, call.tool, call.args));
      if call.id != "" {
        pending := pending + {call.id};
      }
      assert pending == Own(call);
      result, hookFailed := AskAndExecute(t, n, call);
      assert trace == old(trace) + (Tag(Starting(call), {}) + Tag(Proceed(t, n, call).events, Own(call)));
      if call.id != "" {
        pending := pending - {call.id};
      }
    }

    /** One more call of a round, after those already done. */
    method NextToolCall(t: Tooling, ghost n: nat, k: nat, ghost start: seq<Entry>, ghost done: seq<Call>,
                        results: seq<ToolResult>, call: Call)
      returns (results': seq<ToolResult>, hookFailed: bool, stop: bool)
      requires pending == {} && k == n + |done|
      requires trace == start + CallsEntries(t, n, done) && results == Results(t, n, done)
      modifies this`trace, this`pending
      ensures pending == {}
      ensures trace == start + CallsEntries(t, n, done + [call]) && results' == Results(t, n, done + [call])
      ensures Stops(results') == (Stops(results) || stop)
      ensures HookFails(t, n, done + [call]) == (HookFails(t, n, done) || hookFailed)
      ensures hookFailed ==> Hooked(t)
    {
      hide HookFails, Perform, CallEntries, CallsEntries, Results, Stops, Hooked;
      HookFailsMore(t, n, done, call);
      OnlyHooksFailRuns(t, k, call);
      TurnStep(t, n, done, call, k, start);
      var result;
      result, hookFailed := RunToolCall(t, k, call);
      StopsMore(results, result);
      results', stop := results + [result], result.terminate;
    }

    method RunToolCalls(t: Tooling, n: nat, calls: seq<Call>)
      returns (results: seq<ToolResult>, hookFailed: bool, earlyStop: bool, done: seq<Call>)
      requires pending == {}
      modifies this`trace, this`pending
      ensures pending == {} && done <= calls
      ensures trace == old(trace) + CallsEntries(t, n, done)
      ensures results == Results(t, n, done)
      ensures hookFailed ==> done != [] && Hooked(t)
      ensures !hookFailed ==> done == calls && earlyStop == Stops(results)
      ensures if hookFailed then CutByHook(t, n, calls, done) else !HookFails(t, n, calls)
    {
      NothingDone(t, n);
      NoHookFails(t, n);
      hide Perform, CallEntries, CallsEntries, Results, Stops, HookFails, CutByHook;
      results, hookFailed, earlyStop, done := [], false, false, [];
      var k := n;
      for i := 0 to |calls|
        invariant pending == {} && done == calls[..i] && k == n + |done|
        invariant !hookFailed && !HookFails(t, n, done)
        invariant trace == old(trace) + CallsEntries(t, n, done)
        invariant results == Results(t, n, done)
        invariant earlyStop == Stops(results)
      {
        var stop;
        results, hookFailed, stop := NextToolCall(t, n, k, old(trace), done, results, calls[i]);
        assert done + [calls[i]] == calls[..i + 1];
        done, k := done + [calls[i]], k + 1;
        if hookFailed {
          HookCuts(t, n, calls, i);
          return;
        }
        earlyStop := earlyStop || stop;
      }
    }

    /** One round: the model's message, then its calls in order. A failing model or hook cuts it short. */
    method Turn(d: Deps, t: Tooling, n: nat, round: Round) returns (error: Option<Error>, earlyStop: bool, done: seq<Call>)
      requires pending == {} && (StateAfter(trace) == Between || StateAfter(trace) == Dead)
      modifies this`trace, this`pending, this`performed, this`messages, this`streaming
      ensures pending == {} && done <= CallsOf(round) && performed == old(performed) + done
      ensures error == Some(StreamFailed) || error == Some(HookFailed) || error == None
      ensures error == Some(StreamFailed) <==> round.StreamError?
      ensures error == Some(HookFailed) ==> Hooked(t) && CutByHook(t, n, CallsOf(round), done)
      ensures error == Some(HookFailed) <==> round.Round? && HookFails(t, n, round.calls)
      ensures error.None? ==> round.Round? && done == CallsOf(round) == round.calls && earlyStop == Stops(Results(t, n, done))
      ensures messages == old(messages) + Committed(round) + if error.None? then Folded(d, Results(t, n, done)) else []
      ensures TurnLeaves(t, old(trace), trace, round, done, error)
      ensures if error.Some? then trace == old(trace) + CutRound(t, n, old(streaming), round, done)
              else trace == old(trace) + WholeRound(t, n, old(streaming), round) && streaming == BufferAfter(old(streaming), round)
    {
      hide MessageSection, CallsEntries, RoundEntries, BufferAfter, TurnLeaves, Results, Stops, Rows, StateAfter, HookFails;
      earlyStop, done := false, [];
      Emit(TurnStart);
      if round.StreamError? {
        FailedTurn(t, old(trace));
        return Some(StreamFailed), earlyStop, done;
      }
      StreamMessage(round);
      var results, hookFailed;
      results, hookFailed, earlyStop, done := RunToolCalls(t, n, round.calls);
      performed := performed + done;
      RoundInOrder(old(trace), t, n, old(streaming), round, done);
      if hookFailed {
        CutTurn(t, n, old(trace), old(streaming), round, done, Some(HookFailed));
        return Some(HookFailed), earlyStop, done;
      }
      EndedTurn(t, n, old(trace), old(streaming), round, done, TurnEnd(round.end, results));
      Emit(TurnEnd(round.end, results));
      assert trace == old(trace) + RoundEntries(t, n, old(streaming), round, done) + [Entry(TurnEnd(round.end, results), {})];
      Assoc(old(trace), RoundEntries(t, n, old(streaming), round, done), [Entry(TurnEnd(round.end, results), {})]);
      if d.fold {
        FoldResults(d, results);
      }
      error := None;
    }

    method FoldResults(d: Deps, results: seq<ToolResult>)
      modifies this`messages
      ensures messages == old(messages) + Rows(d, results)
    {
      for i := 0 to |results|
        invariant messages == old(messages) + Rows(d, results[..i])
      {
        assert results[..i + 1][..i] == results[..i];
        messages := messages + [Message(Tool, d.row(results[i]))];
      }
      assert results[..|results|] == results;
    }

    /** One round, and whether the run goes on after it. */
    method TakeRound(d: Deps, t: Tooling, rounds: seq<Round>, ghost initial: seq<Message>,
                     ghost open: Option<string>) returns (error: Option<Error>, stop: bool)
      requires pending == {} && turns < |rounds|
      requires Standing(t, rounds[..turns], performed, trace, false)
      requires Told(d, t, rounds[..turns], performed, initial, messages, false)
      requires Emitted(t, rounds[..turns], performed, open, streaming, trace, false)
      modifies this`trace, this`pending, this`performed, this`messages, this`streaming, this`turns
      ensures pending == {} && turns == old(turns) + 1
      ensures Standing(t, rounds[..turns], performed, trace, Cut(error))
      ensures Told(d, t, rounds[..turns], performed, initial, messages, Cut(error))
      ensures Emitted(t, rounds[..turns], performed, open, streaming, trace, Cut(error))
      ensures error == Some(StreamFailed) <==> rounds[turns - 1].StreamError?
      ensures error == Some(HookFailed) ==> Hooked(t)
      ensures VerdictAt(d, t, rounds, turns - 1) == if error.Some? || stop then Ends(error) else GoesOn
    {
      hide HookFails, Told, Emitted, CutRound, WholeRound, BufferAfter, Standing, TurnLeaves, Tidy, StateAfter, EventsOf,
        EndIds, Ids, QuietAtBoundaries, History, Results, AllCalls, CallsOf, Committed, Folded, Stops;
      StandingIsReadable(t, rounds[..turns], performed, trace);
      var k, n, round := turns, |performed|, rounds[turns];
      ghost var spoken, emitted, called, buffer := messages, trace, performed, streaming;
      turns, stop := turns + 1, false;
      var earlyStop, done;
      error, earlyStop, done := Turn(d, t, n, round);
      AfterTurn(d, t, rounds, k, n, called, initial, spoken, messages, emitted, trace, done, error);
      CalledSoFar(d, t, rounds[..k], called, initial, spoken);
      assert VerdictAt(d, t, rounds, k) == VerdictOn(d, t, k, n, round);
      EmittedAfterTurn(t, rounds[..k], round, n, called, open, buffer, streaming, emitted, trace, done, error.Some?);
      assert rounds[..k + 1] == rounds[..k] + [round];
      if error.Some? {
        return;
      }
      if earlyStop {
        return None, true;
      }
      if round.calls == [] {
        return if round.terminate then None else Some(Stalled), round.terminate;
      }
      if d.shouldStop(k) {
        return None, true;
      }
      if d.prepareFails(k) {
        return Some(PrepareFailed), true;
      }
    }

    method Rounds(d: Deps, t: Tooling, rounds: seq<Round>) returns (error: Option<Error>)
      requires pending == {} && turns == 0 && performed == [] && trace == [Entry(AgentStart, {})]
      modifies this`trace, this`pending, this`performed, this`messages, this`streaming, this`turns
      ensures pending == {} && turns <= |rounds|
      ensures Standing(t, rounds[..turns], performed, trace, Cut(error))
      ensures Told(d, t, rounds[..turns], performed, old(messages), messages, Cut(error))
      ensures Emitted(t, rounds[..turns], performed, old(streaming), streaming, trace, Cut(error))
      ensures error == Some(StreamFailed) <==> turns > 0 && rounds[turns - 1].StreamError?
      ensures error == Some(HookFailed) ==> Hooked(t)
      ensures StopsAt(d, t, rounds, turns, error)
    {
      hide VerdictAt, Told, Emitted, CutRound, WholeRound, BufferAfter, Standing, TurnLeaves, Tidy, StateAfter, EventsOf,
        EndIds, Ids, QuietAtBoundaries, History, Results, AllCalls, CallsOf, Committed, Folded, Stops;
      StandingAtStart(d, t, messages);
      assert rounds[..0] == [];
      while turns < |rounds|
        invariant pending == {} && turns <= |rounds|
        invariant Standing(t, rounds[..turns], performed, trace, false)
        invariant Told(d, t, rounds[..turns], performed, old(messages), messages, false)
        invariant Emitted(t, rounds[..turns], performed, old(streaming), streaming, trace, false)
        invariant turns > 0 ==> !rounds[turns - 1].StreamError?
        invariant forall k :: 0 <= k < turns ==> !d.cancelled(k) && VerdictAt(d, t, rounds, k).GoesOn?
      {
        if d.cancelled(turns) {
          return Some(ContextDone);
        }
        var stop;
        error, stop := TakeRound(d, t, rounds, old(messages), old(streaming));
        if error.Some? || stop {
          return;
        }
      }
      error := Some(ContextDone);
    }

    /** A whole run over any finite script of rounds, after which the context is cancelled. The events are in
        the documented grammar exactly when every round was well formed and every performed call registered;
        each performed call's end is announced exactly once, in order; no call is pending at a boundary. Only
        a failing model or hook cuts a turn short. The conversation is the initial one followed by what the
        complete rounds add, and by the message of a round that a hook cut short. */
    method Loop(d: Deps, t: Tooling, rounds: seq<Round>) returns (error: Option<Error>)
      requires pending == {}
      modifies this
      ensures pending == {} && turns <= |rounds|
      ensures StateAfter(trace) == if Tidy(t, rounds[..turns], performed) then Ended else Dead
      ensures trace != [] && trace[|trace| - 1] == Entry(AgentEnd(messages), {})
      ensures Emitted(t, rounds[..turns], performed, old(streaming), streaming, trace[..|trace| - 1], Cut(error))
      ensures EndIds(EventsOf(trace)) == Ids(performed)
      ensures QuietAtBoundaries(trace)
      ensures Cut(error) ==>
                turns > 0 && AllCalls(rounds[..turns - 1]) <= performed <= AllCalls(rounds[..turns])
                && messages == old(messages) + History(d, t, rounds[..turns - 1]) + Committed(rounds[turns - 1])
      ensures !Cut(error) ==>
                performed == AllCalls(rounds[..turns])
                && messages == old(messages) + History(d, t, rounds[..turns])
                && (Tidy(t, rounds[..turns], performed) ==> StateAfter(trace[..|trace| - 1]) == Between)
      ensures error == Some(StreamFailed) <==> turns > 0 && rounds[turns - 1].StreamError?
      ensures error == Some(HookFailed) ==> Hooked(t)
      ensures StopsAt(d, t, rounds, turns, error)
      ensures forall n: nat :: d.prepareFails(n) ==> turns <= n + 1
      ensures lastError == if error.Some? then error else old(lastError)
    {
      hide StopsAt, Cut, Told, Emitted, RunEntries, RunBuffer, CutRound, WholeRound, BufferAfter, Standing, TurnLeaves, Tidy,
        StateAfter, EventsOf, EndIds, Ids,
        QuietAtBoundaries, History, Results, AllCalls, CallsOf, Committed, Folded, Stops, VerdictAt;
      ghost var initial := messages;
      error := Begin(d, t, rounds);
      StopsByPrepareNext(d, t, rounds, turns, error);
      ToldAtEnd(d, t, rounds, turns, performed, initial, messages, Cut(error));
      End(t, rounds[..turns], Cut(error));
      if error.Some? {
        lastError := error;
      }
    }

    method Begin(d: Deps, t: Tooling, rounds: seq<Round>) returns (error: Option<Error>)
      requires pending == {}
      modifies this`trace, this`pending, this`performed, this`messages, this`streaming, this`turns
      ensures pending == {} && turns <= |rounds|
      ensures Standing(t, rounds[..turns], performed, trace, Cut(error))
      ensures Told(d, t, rounds[..turns], performed, old(messages), messages, Cut(error))
      ensures Emitted(t, rounds[..turns], performed, old(streaming), streaming, trace, Cut(error))
      ensures error == Some(StreamFailed) <==> turns > 0 && rounds[turns - 1].StreamError?
      ensures error == Some(HookFailed) ==> Hooked(t)
      ensures StopsAt(d, t, rounds, turns, error)
    {
      hide StopsAt, Cut, Told, Emitted, Standing;
      trace, turns, performed := [], 0, [];
      Emit(AgentStart);
      assert trace == [Entry(AgentStart, {})];
      error := Rounds(d, t, rounds);
    }

    method End(ghost t: Tooling, ghost taken: seq<Round>, ghost cut: bool)
      requires pending == {} && Standing(t, taken, performed, trace, cut)
      modifies this`trace
      ensures trace == old(trace) + [Entry(AgentEnd(messages), {})] && trace[..|trace| - 1] == old(trace)
      ensures StateAfter(trace) == if Tidy(t, taken, performed) then Ended else Dead
      ensures Tidy(t, taken, performed) && !cut ==> StateAfter(trace[..|trace| - 1]) == Between
      ensures EndIds(EventsOf(trace)) == Ids(performed) && QuietAtBoundaries(trace)
    {
      StandingAtEnd(t, taken, performed, trace, cut, messages);
      AllButLast(trace, Entry(AgentEnd(messages), {}));
      hide Standing, Tidy, StateAfter, EventsOf, EndIds, Ids, QuietAtBoundaries;
      Emit(AgentEnd(messages));
    }
  }
}
