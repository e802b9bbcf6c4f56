/**
 * Client code over the registry and connection handlers: what callers can
 * conclude about whole sessions from the contracts alone.
 */
module Scenarios {
  import opened Wrappers
  import opened Envelope
  import opened Rooms
  import opened Relay

  /** A fresh registry where "alice" (OPEN socket) and then "bob" (socket in state `stateB`) join "r1". */
  method JoinPair(stateB: ReadyState) returns (registry: Registry, a: Connection, b: Connection)
    ensures a.registry == registry
    ensures a.Valid() && b.Valid() && a.registry == b.registry && a.registry.rooms.Keys == {"r1"}
    ensures a.room == b.room && a.room.clients == [a.user, b.user] && a.room.messages == []
    ensures a.user.ws != b.user.ws
    ensures a.user.nickname == "alice" && b.user.nickname == "bob"
    ensures a.user.ws.readyState == Open && b.user.ws.readyState == stateB
    ensures a.user.ws.outbox == [] && b.user.ws.outbox == []
    ensures fresh(a.registry) && fresh(a.room) && fresh(a.user) && fresh(b.user) && fresh(a.user.ws) && fresh(b.user.ws)
  {
    registry := new Registry();
    var wsA := new Socket(Open);
    a := registry.Connect(wsA, "r1", "alice");
    var wsB := new Socket(stateB);
    b := registry.Connect(wsB, "r1", "bob");
  }

  /** A and B join "r1"; A chats "hi": both open sockets, A's included, get one copy with A's id. */
  method TwoMembersChat() returns (aId: UserId, aOut: seq<Message>, bOut: seq<Message>)
    ensures aOut == [TextChatting(UserResp(aId, "alice"), "hi")]
    ensures bOut == aOut
  {
    var registry, a, b := JoinPair(Open);
    a.OnMessage("chatting", "hi");
    aId, aOut, bOut := a.user.id, a.user.ws.outbox, b.user.ws.outbox;
  }

  /** A alone in a room chats: its own open socket receives the message, and no history is kept. */
  method AloneInRoom() returns (aId: UserId, aOut: seq<Message>, history: seq<Message>)
    ensures aOut == [TextChatting(UserResp(aId, "alice"), "hi")]
    ensures history == []
  {
    var registry := new Registry();
    var wsA := new Socket(Open);
    var a := registry.Connect(wsA, "r1", "alice");
    a.OnMessage("chatting", "hi");
    aId, aOut, history := a.user.id, wsA.outbox, a.room.messages;
  }

  /** A message sent before a rename keeps the old nickname; the one sent after carries the new one. */
  method RenameBetweenMessages(rename: string) returns (bOut: seq<Message>)
    requires Classify(rename) == ChangeNickname
    ensures |bOut| == 2
    ensures bOut[0].sender.nickname == "alice" && bOut[0].message == "before"
    ensures bOut[1].sender.nickname == "Bob" && bOut[1].message == "after"
    ensures bOut[0].sender.id == bOut[1].sender.id
  {
    var registry, a, b := JoinPair(Open);
    a.OnMessage("chatting", "before");
    assert b.user.ws.outbox == [TextChatting(UserResp(a.user.id, "alice"), "before")];
    a.OnMessage(rename, "Bob");
    a.OnMessage("chatting", "after");
    bOut := b.user.ws.outbox;
  }

  /** A socket that is not OPEN gets nothing; a type that neither chats nor renames changes nothing. */
  method ClosedSocketAndNoOp(noOp: string) returns (aNick: string, aOut: seq<Message>, bOut: seq<Message>)
    requires Classify(noOp) !in {Chatting, ChangeNickname}
    ensures aNick == "alice"
    ensures |aOut| == 1 && bOut == []
  {
    var registry, a, b := JoinPair(Closing);
    a.OnMessage(noOp, "ignored");
    a.OnMessage("chatting", "hi");
    aNick, aOut, bOut := a.user.nickname, a.user.ws.outbox, b.user.ws.outbox;
  }

  /** After A's socket closes, a late chat from A is rejected: B receives nothing; closing twice is harmless. */
  method StaleMessageAfterClose() returns (bOut: seq<Message>, members: nat)
    ensures bOut == [] && members == 1
  {
    var registry, a, b := JoinPair(Open);
    a.OnClose();
    a.OnMessage("chatting", "late");
    a.OnClose();
    bOut, members := b.user.ws.outbox, |b.room.clients|;
  }

  /** Two joins to the same id share one room; a chat in one room reaches no other room. */
  method RoomsAreSeparate() returns (sameRoom: bool, cOut: seq<Message>)
    ensures sameRoom && cOut == []
  {
    var registry, a, b := JoinPair(Open);
    var wsC := new Socket(Open);
    var c := registry.Connect(wsC, "r2", "carol");
    a.OnMessage("chatting", "hi");
    sameRoom, cOut := a.room == b.room, wsC.outbox;
  }
}
