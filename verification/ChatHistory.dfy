/** The part of a conversation that a continuation is given. */
module ChatHistory {

  datatype Role = User | Assistant | Other(name: string)

  datatype Message = Message(id: string, role: Role, content: string)

  predicate Spoken(m: Message) {
    m.role.User? || m.role.Assistant?
  }

  // The store lists the newest message first; the planner reads the oldest first.
  function Ascending(messages: seq<Message>): seq<Message> {
    if messages == [] then []
    else
      var last := messages[|messages| - 1];
      (if Spoken(last) then [last] else []) + Ascending(messages[..|messages| - 1])
  }

  /** The messages of the user and the assistant, in the order opposite to the store's. */
  lemma {:induction false} OldestFirst(newer: seq<Message>, m: Message, older: seq<Message>)
    ensures Ascending(newer + [m] + older)
         == Ascending(older) + (if m.role == User || m.role == Assistant then [m] else []) + Ascending(newer)
  {
    hide Spoken;
    if older == [] {
      assert newer + [m] + older == newer + [m] && (newer + [m])[..|newer|] == newer;
      assert Spoken(m) <==> m.role == User || m.role == Assistant by {
        SpokenIff(m);
      }
      assert Ascending([]) + (if Spoken(m) then [m] else []) == if Spoken(m) then [m] else [];
    } else {
      var init, last := older[..|older| - 1], older[|older| - 1];
      OldestFirst(newer, m, init);
      assert (newer + [m] + older)[..|newer + [m] + older| - 1] == newer + [m] + init;
      var here, head := if m.role == User || m.role == Assistant then [m] else [], if Spoken(last) then [last] else [];
      assert head + (Ascending(init) + here + Ascending(newer)) == (head + Ascending(init)) + here + Ascending(newer);
    }
  }

  lemma SpokenIff(m: Message)
    ensures Spoken(m) <==> m.role == User || m.role == Assistant
  {
  }

  datatype Strategy = Empty | FullSession | SessionTail | AnchorWindow

  const WINDOW := 12
  const BEFORE_ANCHOR := 8

  // Where a window of the given size that should start at from has to start to lie inside the conversation.
  function Clamp(from: int, size: nat, length: nat): nat
    requires size <= length
  {
    if from < 0 then 0 else if from > length - size then length - size else from
  }

  method Collect(messages: seq<Message>) returns (ascending: seq<Message>)
    ensures ascending == Ascending(messages)
  {
    hide Spoken;
    ascending := [];
    var i := |messages|;
    assert messages[..i] == messages;
    while i > 0
      invariant 0 <= i <= |messages|
      invariant Ascending(messages) == ascending + Ascending(messages[..i])
    {
      i := i - 1;
      assert messages[..i + 1][..i] == messages[..i];
      if Spoken(messages[i]) {
        ascending := ascending + [messages[i]];
      }
    }
  }

  method FindAnchor(conversation: seq<Message>, anchorId: string) returns (anchor: int)
    ensures -1 <= anchor < |conversation|
    ensures anchor == -1 <==> forall m :: m in conversation ==> m.id != anchorId
    ensures anchor >= 0 ==> conversation[anchor].id == anchorId && forall i :: 0 <= i < anchor ==> conversation[i].id != anchorId
  {
    for i := 0 to |conversation|
      invariant forall j :: 0 <= j < i ==> conversation[j].id != anchorId
    {
      if conversation[i].id == anchorId {
        assert conversation[i] in conversation;
        return i;
      }
    }
    anchor := -1;
  }

  method WindowAround(all: seq<Message>, anchor: nat) returns (history: seq<Message>)
    requires anchor < |all| && WINDOW < |all|
    ensures history == Window(all, anchor) && all[anchor] in history
  {
    var start := anchor - BEFORE_ANCHOR;
    if start < 0 {
      start := 0;
    }
    var end := start + WINDOW;
    if end > |all| {
      end := |all|;
      start := end - WINDOW;
    }
    history := all[start..end];
    assert start == Clamp(anchor - BEFORE_ANCHOR, WINDOW, |all|);
    assert history[anchor - start] == all[anchor];
  }

  function Window(all: seq<Message>, anchor: nat): seq<Message>
    requires WINDOW <= |all|
  {
    var start := Clamp(anchor - BEFORE_ANCHOR, WINDOW, |all|);
    all[start..start + WINDOW]
  }

  /** Eight messages before the anchor and three behind it, moved as little as needed to lie inside the conversation. */
  lemma WindowIsAroundAnchor(all: seq<Message>, anchor: nat)
    requires anchor < |all| && 12 < |all|
    ensures var start := if anchor < 8 then 0 else if |all| < anchor + 4 then |all| - 12 else anchor - 8;
            Window(all, anchor) == all[start..start + 12]
    ensures all[anchor] in Window(all, anchor)
  {
    var start := if anchor < 8 then 0 else if |all| < anchor + 4 then |all| - 12 else anchor - 8;
    assert all[start..start + 12][anchor - start] == all[anchor];
  }

  /** The history is a contiguous part of the conversation, in order: all of it when it is short, else twelve
      messages - the last ones, or those around the first message with the anchor's id, which is among them. */
  method CompressedHistory(messages: seq<Message>, anchorId: string) returns (history: seq<Message>, strategy: Strategy)
    ensures var all := Ascending(messages);
            if |all| <= 12 then history == all && strategy == if all == [] then Empty else FullSession
            else if anchorId == "" || forall m :: m in all ==> m.id != anchorId then
              history == all[|all| - 12..] && strategy == SessionTail
            else
              strategy == AnchorWindow &&
              exists anchor :: 0 <= anchor < |all| && all[anchor].id == anchorId && history == Window(all, anchor)
                               && forall i :: 0 <= i < anchor ==> all[i].id != anchorId
  {
    var ascending := Collect(messages);
    if |ascending| == 0 {
      return [], Empty;
    }
    if |ascending| <= WINDOW {
      return ascending, FullSession;
    }
    if anchorId == "" {
      return ascending[|ascending| - WINDOW..], SessionTail;
    }
    var anchor := FindAnchor(ascending, anchorId);
    if anchor == -1 {
      return ascending[|ascending| - WINDOW..], SessionTail;
    }
    assert ascending[anchor] in ascending;
    history := WindowAround(ascending, anchor);
    strategy := AnchorWindow;
  }
}
