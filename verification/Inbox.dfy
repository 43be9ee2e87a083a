/** The runner's in-memory steering: which runs are active and which instructions wait for them. */
module Inbox {
  import opened Text

  // Joined with newlines, as one instruction to the planner.
  function JoinLines(lines: seq<string>): string {
    if |lines| == 0 then ""
    else if |lines| == 1 then lines[0]
    else lines[0] + "\n" + JoinLines(lines[1..])
  }

  lemma JoinLinesBlank(lines: seq<string>)
    requires forall l :: l in lines ==> l != ""
    ensures JoinLines(lines) == "" <==> lines == []
  {
    if lines != [] {
      assert lines[0] in lines;
    }
  }

  /** Instructions are joined by line ends, in order. */
  lemma {:induction false} LinesAreJoined(a: seq<string>, b: seq<string>)
    ensures JoinLines([]) == "" && forall line :: JoinLines([line]) == line
    ensures a != [] && b != [] ==> JoinLines(a + b) == JoinLines(a) + "\n" + JoinLines(b)
  {
    if a != [] && b != [] {
      assert (a + b)[1..] == a[1..] + b;
      LinesAreJoined(a[1..], b);
      if |a| > 1 {
        assert a[0] + "\n" + (JoinLines(a[1..]) + "\n" + JoinLines(b)) == (a[0] + "\n" + JoinLines(a[1..])) + "\n" + JoinLines(b);
      }
    }
  }

  datatype Box = Box(active: set<string>, steers: map<string, seq<string>>)

  predicate Valid(b: Box) {
    && b.steers.Keys <= b.active
    && forall r | r in b.steers :: b.steers[r] != [] && forall l | l in b.steers[r] :: l != ""
  }

  function Waiting(b: Box, runId: string): seq<string> {
    if runId in b.steers then b.steers[runId] else []
  }

  // One call on the runner; the calls of concurrent goroutines are serialised by its mutex.
  datatype Op = Begin(runId: string) | End(runId: string) | Steer(runId: string, instruction: string) | Take(runId: string)

  function Accepts(b: Box, runId: string, instruction: string): bool {
    Trim(runId) != "" && Trim(instruction) != "" && Trim(runId) in b.active
  }

  function Apply(b: Box, op: Op): Box {
    match op
    case Begin(r) => b.(active := b.active + {r})
    case End(r) => Box(b.active - {r}, b.steers - {r})
    case Steer(r, i) =>
      if Accepts(b, r, i) then b.(steers := b.steers[Trim(r) := Waiting(b, Trim(r)) + [Trim(i)]]) else b
    case Take(r) => b.(steers := b.steers - {r})
  }

  function Run(ops: seq<Op>): Box {
    if ops == [] then Box({}, map[]) else Apply(Run(ops[..|ops| - 1]), ops[|ops| - 1])
  }

  // What was accepted for a run, what its planner was given and what its ends threw away, in order.
  function Accepted(ops: seq<Op>, r: string): seq<string> {
    if ops == [] then []
    else
      var before, op := ops[..|ops| - 1], ops[|ops| - 1];
      if op.Steer? && Trim(op.runId) == r && Accepts(Run(before), op.runId, op.instruction)
      then Accepted(before, r) + [Trim(op.instruction)] else Accepted(before, r)
  }

  function Settled(ops: seq<Op>, r: string): seq<string> {
    if ops == [] then []
    else
      var before, op := ops[..|ops| - 1], ops[|ops| - 1];
      if (op.Take? || op.End?) && op.runId == r then Settled(before, r) + Waiting(Run(before), r) else Settled(before, r)
  }

  lemma {:induction false} RunIsValid(ops: seq<Op>)
    ensures Valid(Run(ops))
  {
    if ops != [] {
      RunIsValid(ops[..|ops| - 1]);
    }
  }

  /** No accepted instruction is lost, repeated or reordered: those handed to the planner or dropped by the
      end of the run, followed by those still waiting, are exactly those accepted. */
  lemma {:induction false} SteersConserved(ops: seq<Op>, r: string)
    ensures Accepted(ops, r) == Settled(ops, r) + Waiting(Run(ops), r)
  {
    if ops != [] {
      var before, op := ops[..|ops| - 1], ops[|ops| - 1];
      SteersConserved(before, r);
      if op.Steer? && Trim(op.runId) == r && Accepts(Run(before), op.runId, op.instruction) {
        assert Settled(before, r) + (Waiting(Run(before), r) + [Trim(op.instruction)])
            == (Settled(before, r) + Waiting(Run(before), r)) + [Trim(op.instruction)];
      }
    }
  }

  /** A run that is not active has nothing waiting, so a later run of the same id never receives old instructions. */
  lemma NothingWaitsForIdleRun(ops: seq<Op>, r: string)
    requires r !in Run(ops).active
    ensures Waiting(Run(ops), r) == []
  {
    RunIsValid(ops);
  }
}
