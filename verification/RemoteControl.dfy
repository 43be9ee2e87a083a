/** The two readers of a run's control events: polling pages and draining a live stream. */
module RemoteControl {
  import opened Text
  import opened Wrappers

  // A persisted run event; instruction is what the payload decodes to, if it decodes at all.
  datatype RunEvent = RunEvent(sequenceNo: int, eventType: string, instruction: Option<string>)

  datatype Control = Control(instructions: seq<string>, cancelled: bool, next: int)

  function Instruction(e: RunEvent): seq<string> {
    if (e.eventType == "run_steer" || e.eventType == "run_follow_up") && e.instruction.Some? && Trim(e.instruction.value) != ""
    then [Trim(e.instruction.value)] else []
  }

  function Instructions(events: seq<RunEvent>): seq<string> {
    if events == [] then [] else Instructions(events[..|events| - 1]) + Instruction(events[|events| - 1])
  }

  predicate Cancels(events: seq<RunEvent>) {
    exists e :: e in events && e.eventType == "run_cancelled"
  }

  function Max(a: int, b: int): int {
    if a < b then b else a
  }

  // ----- polling -----

  function HighWater(events: seq<RunEvent>, after: int): int {
    if events == [] then after else Max(HighWater(events[..|events| - 1], after), events[|events| - 1].sequenceNo)
  }

  method ReadPage(page: seq<RunEvent>, after: int) returns (c: Control)
    ensures c == Control(Instructions(page), Cancels(page), HighWater(page, after))
  {
    var next, cancelled := after, false;
    var instructions: seq<string> := [];
    for i := 0 to |page|
      invariant instructions == Instructions(page[..i])
      invariant cancelled <==> Cancels(page[..i])
      invariant next == HighWater(page[..i], after)
    {
      var event := page[i];
      assert page[..i + 1][..i] == page[..i];
      assert page[..i + 1] == page[..i] + [event];
      if event.sequenceNo > next {
        next := event.sequenceNo;
      }
      if event.eventType == "run_cancelled" {
        cancelled := true;
      }
      if event.eventType != "run_steer" && event.eventType != "run_follow_up" {
        continue;
      }
      if event.instruction.Some? && Trim(event.instruction.value) != "" {
        instructions := instructions + [Trim(event.instruction.value)];
      }
    }
    assert page[..|page|] == page;
    c := Control(instructions, cancelled, next);
  }

  /** What a page says, event by event: the trimmed text of a run_steer or run_follow_up that has one, in order; a
      cancellation if any event is a run_cancelled; and the highest number seen, or the cursor. */
  lemma {:induction false} WhatAPageSays(page: seq<RunEvent>, after: int)
    ensures forall text :: text in Instructions(page) <==>
              exists e :: e in page && e.eventType in {"run_steer", "run_follow_up"} && e.instruction.Some?
                          && text == Trim(e.instruction.value) && text != ""
    ensures Cancels(page) <==> exists e :: e in page && e.eventType == "run_cancelled"
    ensures HighWater(page, after) == after || exists e :: e in page && e.sequenceNo == HighWater(page, after)
    ensures after <= HighWater(page, after) && forall e :: e in page ==> e.sequenceNo <= HighWater(page, after)
  {
    if page != [] {
      var init, last := page[..|page| - 1], page[|page| - 1];
      WhatAPageSays(init, after);
      assert page == init + [last];
    }
  }

  /** And in which order, each once: a page says what its parts say, one after the other. */
  lemma {:induction false} PagesSayInOrder(a: seq<RunEvent>, e: RunEvent, b: seq<RunEvent>)
    ensures Instructions(a + [e] + b) == Instructions(a) + Instructions([e]) + Instructions(b)
    ensures |Instructions([e])| <= 1
  {
    InstructionsConcat(a + [e], b);
    InstructionsConcat(a, [e]);
    assert [e][..0] == [];
  }

  // ----- streaming -----

  // What the channels hold when the reader runs; the reader stops at the first error.
  datatype Item = Event(event: RunEvent) | NilError | Failure

  // The events a cursor lets through: each has a number above every number before it.
  function Fresh(events: seq<RunEvent>, after: int): seq<RunEvent> {
    if events == [] then []
    else
      var before := events[..|events| - 1];
      var last := events[|events| - 1];
      if last.sequenceNo <= HighWater(before, after) then Fresh(before, after) else Fresh(before, after) + [last]
  }

  function Events(items: seq<Item>): seq<RunEvent> {
    if items == [] then []
    else
      var last := items[|items| - 1];
      Events(items[..|items| - 1]) + if last.Event? then [last.event] else []
  }

  // What one more event does to the cursor, to the fresh events and to what they say.
  lemma OneMoreEvent(seen: seq<RunEvent>, event: RunEvent, after: int)
    ensures HighWater(seen + [event], after) == Max(HighWater(seen, after), event.sequenceNo)
    ensures Fresh(seen + [event], after) ==
            if event.sequenceNo <= HighWater(seen, after) then Fresh(seen, after) else Fresh(seen, after) + [event]
    ensures Instructions(seen + [event]) == Instructions(seen) + Instruction(event)
    ensures Cancels(seen + [event]) <==> Cancels(seen) || event.eventType == "run_cancelled"
  {
    assert (seen + [event])[..|seen|] == seen;
    if event.eventType == "run_cancelled" {
      assert event in seen + [event];
    } else if Cancels(seen) {
      var e :| e in seen && e.eventType == "run_cancelled";
      assert e in seen + [event];
    }
  }

  lemma OneMoreItem(items: seq<Item>, i: nat)
    requires i < |items|
    ensures Events(items[..i + 1]) == Events(items[..i]) + if items[i].Event? then [items[i].event] else []
  {
    assert items[..i + 1][..i] == items[..i];
  }

  lemma NothingRead(after: int)
    ensures Events([]) == [] && Fresh([], after) == [] && Instructions([]) == [] && !Cancels([]) && HighWater([], after) == after
  {
  }

  method ReadStream(items: seq<Item>, after: int) returns (r: Result<Control, int>)
    ensures (forall i :: 0 <= i < |items| ==> items[i] != Failure) ==>
      r == Ok(Control(Instructions(Fresh(Events(items), after)), Cancels(Fresh(Events(items), after)), HighWater(Events(items), after)))
    ensures Failure in items ==> r.Err?
  {
    var next, cancelled := after, false;
    var instructions: seq<string> := [];
    ghost var seen: seq<RunEvent> := [];
    NothingRead(after);
    hide Events, Fresh, Instructions, Instruction, Cancels, HighWater;
    for i := 0 to |items|
      invariant forall j :: 0 <= j < i ==> items[j] != Failure
      invariant seen == Events(items[..i])
      invariant instructions == Instructions(Fresh(seen, after))
      invariant cancelled <==> Cancels(Fresh(seen, after))
      invariant next == HighWater(seen, after)
    {
      OneMoreItem(items, i);
      match items[i]
      case Failure =>
        return Err(next);
      case NilError =>
      case Event(event) =>
        OneMoreEvent(seen, event, after);
        OneMoreEvent(Fresh(seen, after), event, after);
        seen := seen + [event];
        if event.sequenceNo > next {
          next := event.sequenceNo;
          cancelled := cancelled || event.eventType == "run_cancelled";
          instructions := instructions + Instruction(event);
        }
    }
    assert items[..|items|] == items;
    r := Ok(Control(instructions, cancelled, next));
  }

  // ----- any number of reads over one log -----

  predicate Increasing(log: seq<RunEvent>) {
    forall i, j :: 0 <= i < j < |log| ==> log[i].sequenceNo < log[j].sequenceNo
  }

  // The rows the server returns: sequence_no > cursor, in log order.
  function After(log: seq<RunEvent>, cursor: int): (r: seq<RunEvent>)
    ensures forall e :: e in r <==> e in log && cursor < e.sequenceNo
  {
    if log == [] then []
    else (if cursor < log[0].sequenceNo then [log[0]] else []) + After(log[1..], cursor)
  }

  function Take(s: seq<RunEvent>, n: nat): seq<RunEvent> {
    if n < |s| then s[..n] else s
  }

  // Consecutive polls, the k-th being served at most cuts[k] rows.
  function PollAll(log: seq<RunEvent>, cursor: int, cuts: seq<nat>): (seq<string>, int)
    decreases |cuts|
  {
    if cuts == [] then ([], cursor)
    else
      var page := Take(After(log, cursor), cuts[0]);
      var (rest, last) := PollAll(log, HighWater(page, cursor), cuts[1..]);
      (Instructions(page) + rest, last)
  }

  // Consecutive drains of a channel that was cut into chunks.
  function StreamAll(chunks: seq<seq<RunEvent>>, cursor: int): (seq<string>, int)
    decreases |chunks|
  {
    if chunks == [] then ([], cursor)
    else
      var (rest, last) := StreamAll(chunks[1..], HighWater(chunks[0], cursor));
      (Instructions(Fresh(chunks[0], cursor)) + rest, last)
  }

  function Flatten(chunks: seq<seq<RunEvent>>): seq<RunEvent> {
    if chunks == [] then [] else chunks[0] + Flatten(chunks[1..])
  }

  lemma {:induction false} InstructionsConcat(a: seq<RunEvent>, b: seq<RunEvent>)
    ensures Instructions(a + b) == Instructions(a) + Instructions(b)
  {
    hide Instruction;
    if b == [] {
      assert a + b == a;
    } else {
      var init, last := b[..|b| - 1], Instruction(b[|b| - 1]);
      InstructionsConcat(a, init);
      assert (a + b)[..|a + b| - 1] == a + init;
      assert Instructions(a + b) == Instructions(a + init) + last;
      assert (Instructions(a) + Instructions(init)) + last == Instructions(a) + (Instructions(init) + last);
    }
  }

  lemma {:induction false} FreshConcat(a: seq<RunEvent>, b: seq<RunEvent>, after: int)
    ensures HighWater(a + b, after) == HighWater(b, HighWater(a, after))
    ensures Fresh(a + b, after) == Fresh(a, after) + Fresh(b, HighWater(a, after))
  {
    if b == [] {
      assert a + b == a;
    } else {
      FreshConcat(a, b[..|b| - 1], after);
      assert (a + b)[..|a + b| - 1] == a + b[..|b| - 1];
    }
  }

  /** The cursor lets an event through exactly when its number is above every number before it. */
  lemma FreshIfHigher(before: seq<RunEvent>, e: RunEvent, after: int)
    ensures Fresh(before + [e], after) ==
            Fresh(before, after) + if after < e.sequenceNo && forall x :: x in before ==> x.sequenceNo < e.sequenceNo then [e] else []
  {
    WhatAPageSays(before, after);
    assert (before + [e])[..|before|] == before;
    hide Instructions, Instruction;
  }

  /** Cutting a channel into reads at any points loses and repeats nothing. */
  lemma {:induction false} StreamReadsCompose(chunks: seq<seq<RunEvent>>, cursor: int)
    ensures StreamAll(chunks, cursor) == (Instructions(Fresh(Flatten(chunks), cursor)), HighWater(Flatten(chunks), cursor))
  {
    if chunks != [] {
      StreamReadsCompose(chunks[1..], HighWater(chunks[0], cursor));
      FreshConcat(chunks[0], Flatten(chunks[1..]), cursor);
      InstructionsConcat(Fresh(chunks[0], cursor), Fresh(Flatten(chunks[1..]), HighWater(chunks[0], cursor)));
    }
  }

  lemma {:induction false} HighWaterOfIncreasing(log: seq<RunEvent>, after: int)
    requires Increasing(log) && log != [] && after < log[0].sequenceNo
    ensures HighWater(log, after) == log[|log| - 1].sequenceNo
  {
    if |log| > 1 {
      HighWaterOfIncreasing(log[..|log| - 1], after);
    }
  }

  lemma RestIncreases(log: seq<RunEvent>)
    requires Increasing(log) && log != []
    ensures Increasing(log[1..])
  {
  }

  lemma {:induction false} AfterIsSuffix(log: seq<RunEvent>, i: nat, cursor: int)
    requires Increasing(log) && i <= |log|
    requires forall k :: 0 <= k < i ==> log[k].sequenceNo <= cursor
    requires forall k :: i <= k < |log| ==> cursor < log[k].sequenceNo
    ensures After(log, cursor) == log[i..]
  {
    if log != [] {
      var rest, j := log[1..], if i == 0 then 0 else i - 1;
      RestIncreases(log);
      hide Increasing;
      AfterIsSuffix(rest, j, cursor);
      assert log == [log[0]] + rest && (i > 0 ==> rest[j..] == log[i..]);
    }
  }

  // The cursor after the first m events of the log.
  function CursorAt(log: seq<RunEvent>, m: nat, start: int): int
    requires m <= |log|
  {
    if m == 0 then start else log[m - 1].sequenceNo
  }

  function Total(cuts: seq<nat>): nat {
    if cuts == [] then 0 else cuts[0] + Total(cuts[1..])
  }

  lemma CursorSeparates(log: seq<RunEvent>, i: nat, start: int)
    requires Increasing(log) && i <= |log| && (log != [] ==> start < log[0].sequenceNo)
    ensures forall k :: 0 <= k < i ==> log[k].sequenceNo <= CursorAt(log, i, start)
    ensures forall k :: i <= k < |log| ==> CursorAt(log, i, start) < log[k].sequenceNo
  {
  }

  // The position that reads of the given sizes reach from position i.
  predicate Reaches(log: seq<RunEvent>, i: nat, cuts: seq<nat>, m: nat) {
    m <= |log| && (m == i + Total(cuts) || (m == |log| && m <= i + Total(cuts)))
  }

  /** Polling with any page sizes delivers the log's instructions in order, each exactly once. */
  lemma {:induction false} PollsDeliverLog(log: seq<RunEvent>, i: nat, start: int, cuts: seq<nat>, m: nat)
    requires Increasing(log) && i <= |log| && (log != [] ==> start < log[0].sequenceNo)
    requires i <= m && Reaches(log, i, cuts, m)
    ensures PollAll(log, CursorAt(log, i, start), cuts) == (Instructions(log[i..m]), CursorAt(log, m, start))
    decreases |cuts|
  {
    var cursor := CursorAt(log, i, start);
    if cuts == [] {
      assert log[i..i] == [];
    } else {
      CursorSeparates(log, i, start);
      AfterIsSuffix(log, i, cursor);
      var j := TakeSlice(log, i, cuts[0]);
      PageCursor(log, i, j, start);
      assert Total(cuts) == cuts[0] + Total(cuts[1..]);
      PollsDeliverLog(log, j, start, cuts[1..], m);
      SplitInstructions(log, i, j, m);
    }
  }

  lemma TakeSlice(log: seq<RunEvent>, i: nat, n: nat) returns (j: nat)
    requires i <= |log|
    ensures i <= j <= |log| && Take(log[i..], n) == log[i..j]
    ensures j == i + n || (j == |log| && j < i + n)
  {
    j := i + |Take(log[i..], n)|;
  }

  lemma SplitInstructions(log: seq<RunEvent>, i: nat, j: nat, m: nat)
    requires i <= j <= m <= |log|
    ensures Instructions(log[i..m]) == Instructions(log[i..j]) + Instructions(log[j..m])
  {
    hide Instructions;
    InstructionsConcat(log[i..j], log[j..m]);
    assert log[i..m] == log[i..j] + log[j..m];
  }

  lemma PageCursor(log: seq<RunEvent>, i: nat, j: nat, start: int)
    requires Increasing(log) && i <= j <= |log| && (log != [] ==> start < log[0].sequenceNo)
    ensures HighWater(log[i..j], CursorAt(log, i, start)) == CursorAt(log, j, start)
  {
    CursorSeparates(log, i, start);
    var page := log[i..j];
    if page != [] {
      assert page[|page| - 1] == log[j - 1];
      HighWaterOfIncreasing(page, CursorAt(log, i, start));
    }
  }

  /** Whatever the cut points and however often old events are redelivered, a stream whose fresh events
      are a prefix of the log delivers exactly what polling that prefix delivers, with the same cursor. */
  lemma StreamAgreesWithPolling(log: seq<RunEvent>, m: nat, start: int, chunks: seq<seq<RunEvent>>, cuts: seq<nat>)
    requires Increasing(log) && m <= |log| && (log != [] ==> start < log[0].sequenceNo)
    requires Fresh(Flatten(chunks), start) == log[..m] && Reaches(log, 0, cuts, m)
    ensures StreamAll(chunks, start) == PollAll(log, start, cuts) == (Instructions(log[..m]), CursorAt(log, m, start))
  {
    hide Instructions, Fresh, PollAll, StreamAll;
    PollsDeliverLog(log, 0, start, cuts, m);
    assert log[0..m] == log[..m];
    StreamReadsCompose(chunks, start);
    FreshHighWater(Flatten(chunks), start);
    if m > 0 {
      HighWaterOfIncreasing(log[..m], start);
    }
  }

  lemma {:induction false} FreshHighWater(events: seq<RunEvent>, after: int)
    ensures HighWater(Fresh(events, after), after) == HighWater(events, after)
  {
    if events != [] {
      var before, last := events[..|events| - 1], events[|events| - 1];
      FreshHighWater(before, after);
      var f := Fresh(before, after);
      assert (f + [last])[..|f|] == f;
    }
  }

  /** The cursor never moves back, and a read that delivers something leaves fewer events to be read. */
  lemma ReadsMakeProgress(log: seq<RunEvent>, cursor: int, n: nat)
    ensures var page := Take(After(log, cursor), n);
            && cursor <= HighWater(page, cursor)
            && |After(log, HighWater(page, cursor))| <= |After(log, cursor)|
            && (Instructions(page) != [] ==> |After(log, HighWater(page, cursor))| < |After(log, cursor)|)
  {
    var page := Take(After(log, cursor), n);
    HighWaterBounds(page, cursor);
    AfterShrinks(log, cursor, HighWater(page, cursor));
    if Instructions(page) != [] {
      assert page != [] && page[0] in After(log, cursor);
      var next := HighWater(page, cursor);
      assert page[0].sequenceNo <= next;
    }
  }

  lemma {:induction false} HighWaterBounds(events: seq<RunEvent>, after: int)
    ensures after <= HighWater(events, after)
    ensures forall e :: e in events ==> e.sequenceNo <= HighWater(events, after)
  {
    if events != [] {
      HighWaterBounds(events[..|events| - 1], after);
      assert events == events[..|events| - 1] + [events[|events| - 1]];
    }
  }

  lemma {:induction false} AfterShrinks(log: seq<RunEvent>, low: int, high: int)
    requires low <= high
    ensures |After(log, high)| <= |After(log, low)|
    ensures (exists e :: e in log && low < e.sequenceNo <= high) ==> |After(log, high)| < |After(log, low)|
  {
    if log != [] {
      AfterShrinks(log[1..], low, high);
      if e :| e in log && low < e.sequenceNo <= high {
        assert e == log[0] || e in log[1..];
      }
    }
  }
}
