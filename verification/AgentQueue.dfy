/** The agent's steering and follow-up queues. */
module AgentQueue {

  datatype Mode = All | OneAtATime

  datatype Op<M> = Push(message: M) | Drain | Clear

  // What one drain takes from the queue.
  function Taken<M>(mode: Mode, items: seq<M>): seq<M> {
    if mode.OneAtATime? && items != [] then items[..1] else items
  }

  function Apply<M>(mode: Mode, items: seq<M>, op: Op<M>): seq<M> {
    match op
    case Push(m) => items + [m]
    case Drain => items[|Taken(mode, items)|..]
    case Clear => []
  }

  function Items<M>(mode: Mode, ops: seq<Op<M>>): seq<M> {
    if ops == [] then [] else Apply(mode, Items(mode, ops[..|ops| - 1]), ops[|ops| - 1])
  }

  function Pushed<M>(ops: seq<Op<M>>): seq<M> {
    if ops == [] then []
    else Pushed(ops[..|ops| - 1]) + if ops[|ops| - 1].Push? then [ops[|ops| - 1].message] else []
  }

  // What left the queue, drained or cleared, in order.
  function Gone<M>(mode: Mode, ops: seq<Op<M>>): seq<M> {
    if ops == [] then []
    else
      var before, items := Gone(mode, ops[..|ops| - 1]), Items(mode, ops[..|ops| - 1]);
      match ops[|ops| - 1]
      case Push(_) => before
      case Drain => before + Taken(mode, items)
      case Clear => before + items
  }

  /** What was pushed, and what left the queue, operation by operation. */
  lemma QueueStepByStep<M>(mode: Mode, ops: seq<Op<M>>, m: M)
    ensures Pushed<M>([]) == Gone<M>(mode, []) == Items<M>(mode, []) == []
    ensures Pushed(ops + [Push(m)]) == Pushed(ops) + [m] && Pushed(ops + [Drain]) == Pushed(ops + [Clear]) == Pushed(ops)
    ensures Gone(mode, ops + [Push(m)]) == Gone(mode, ops) && Gone(mode, ops + [Clear]) == Gone(mode, ops) + Items(mode, ops)
    ensures Gone(mode, ops + [Drain]) ==
            Gone(mode, ops) + if mode == OneAtATime && Items(mode, ops) != [] then [Items(mode, ops)[0]] else Items(mode, ops)
  {
    forall op: Op<M> ensures (ops + [op])[..|ops|] == ops {
    }
  }

  /** In both modes, whatever the order of pushes, drains and clears: what left the queue, followed by what is
      still in it, is exactly what was pushed. */
  lemma {:induction false} MessagesConserved<M>(mode: Mode, ops: seq<Op<M>>)
    ensures Pushed(ops) == Gone(mode, ops) + Items(mode, ops)
  {
    if ops != [] {
      var before, op := ops[..|ops| - 1], ops[|ops| - 1];
      MessagesConserved(mode, before);
      var items := Items(mode, before);
      match op {
        case Push(m) =>
          assert Gone(mode, before) + (items + [m]) == (Gone(mode, before) + items) + [m];
        case Drain =>
          assert Taken(mode, items) + items[|Taken(mode, items)|..] == items;
          assert (Gone(mode, before) + Taken(mode, items)) + items[|Taken(mode, items)|..] == Gone(mode, before) + items;
        case Clear =>
      }
    }
  }

  class MessageQueue<M> {
    const mode: Mode
    var items: seq<M>

    constructor (mode: Mode)
      ensures this.mode == mode && items == []
    {
      this.mode, items := mode, [];
    }

    method Push(m: M)
      modifies this
      ensures items == Apply(mode, old(items), Op.Push(m)) == old(items) + [m]
    {
      items := items + [m];
    }

    method Drain() returns (out: seq<M>)
      modifies this
      ensures out == Taken(mode, old(items)) && items == Apply(mode, old(items), Op.Drain)
      ensures out + items == old(items) && |out| == if mode == OneAtATime && old(items) != [] then 1 else |old(items)|
    {
      if |items| == 0 {
        return [];
      }
      if mode == OneAtATime {
        out := [items[0]];
        items := items[1..];
        return;
      }
      out := items;
      items := [];
    }

    method Clear()
      modifies this
      ensures items == Apply(mode, old(items), Op.Clear) == []
    {
      items := [];
    }
  }
}
