/**
 * Users, their sockets, the chat message they broadcast and the room that
 * fans messages out to its open members.
 */
module Rooms {
  import opened Wrappers
  import opened OrderedSet

  /** Identifiers handed out by the id supply that stands for `uuidv4()`. */
  type UserId = nat

  /** The `readyState` of a WebSocket. */
  datatype ReadyState = Connecting | Open | Closing | Closed

  /** `UserResp`: the `{id, nickname}` snapshot of a user carried by a message. */
  datatype UserResp = UserResp(id: UserId, nickname: string)

  /** `TextChattingMessage`, with its timestamp left out; it is also the payload a socket is handed. */
  datatype Message = TextChatting(sender: UserResp, message: string)

  /** A client's WebSocket: its state and everything `send` has been handed, in order. */
  class Socket {
    var readyState: ReadyState
    var outbox: seq<Message>

    constructor (state: ReadyState)
      ensures readyState == state && outbox == []
    {
      readyState := state;
      outbox := [];
    }

    method Send(m: Message)
      modifies this`outbox
      ensures outbox == old(outbox) + [m]
    {
      outbox := outbox + [m];
    }
  }

  /** A connected user; its identity as a set member is the object itself. */
  class User {
    const id: UserId
    var nickname: string
    const ws: Socket

    constructor (id: UserId, nickname: string, ws: Socket)
      ensures this.id == id && this.nickname == nickname && this.ws == ws
    {
      this.id := id;
      this.nickname := nickname;
      this.ws := ws;
    }
  }

  /** `new UserResp(user)`: the user's id and current nickname, copied into a value. */
  function Snapshot(u: User): (r: UserResp)
    reads u
    ensures r.id == u.id && r.nickname == u.nickname
  {
    UserResp(u.id, u.nickname)
  }

  /** `getOpenClients`: the members whose socket is OPEN, in the set's iteration order. */
  function OpenClients(clients: seq<User>): (r: seq<User>)
    reads set u | u in clients :: u.ws
    ensures forall u | u in r :: u in clients && u.ws.readyState == Open
    ensures forall u | u in clients && u.ws.readyState == Open :: u in r
    ensures NoDuplicates(clients) ==> NoDuplicates(r)
    ensures |r| <= |clients|
  {
    if clients == [] then []
    else
      var rest := OpenClients(clients[1..]);
      assert clients == [clients[0]] + clients[1..];
      NoDuplicatesCons(clients);
      if clients[0].ws.readyState == Open then
        assert NoDuplicates(clients) ==> NoDuplicates([clients[0]] + rest) by {
          if NoDuplicates(clients) { NoDuplicatesPrepend(clients[0], rest); }
        }
        [clients[0]] + rest
      else rest
  }

  class Room {
    const roomId: string
    var clients: seq<User>
    /** Declared by the source but never appended to. */
    var messages: seq<Message>

    /** Members are distinct, and distinct members own distinct sockets. */
    ghost predicate Valid()
      reads this
    {
      && NoDuplicates(clients)
      && forall u, v | u in clients && v in clients && u != v :: u.ws != v.ws
    }

    ghost function Sockets(): set<Socket>
      reads this
    {
      set u | u in clients :: u.ws
    }

    constructor (roomId: string)
      ensures this.roomId == roomId && clients == [] && messages == []
      ensures Valid()
    {
      this.roomId := roomId;
      clients := [];
      messages := [];
    }

    /**
     * The effect of one broadcast on the members' sockets: membership and
     * socket states do not change, an OPEN member's outbox grows by exactly
     * the one message sent, if any, and every other outbox is as it was.
     */
    twostate predicate Fanout(sent: Option<Message>)
      reads this, Sockets()
    {
      && clients == old(clients)
      && forall u | u in old(clients) ::
        && u.ws.readyState == old(u.ws.readyState)
        && u.ws.outbox == old(u.ws.outbox) + (if sent.Some? && old(u.ws.readyState) == Open then [sent.value] else [])
    }

    /**
     * `broadcastTextChatMessage`: rejected (None, nothing sent) for a sender that
     * is not a member; otherwise one copy of the message, with the sender's id and
     * current nickname, is handed to each open member's socket.
     */
    method BroadcastTextChatMessage(sender: User, messageBody: string) returns (sent: Option<Message>)
      requires Valid()
      modifies Sockets()
      ensures sent == if sender in clients then Some(TextChatting(UserResp(sender.id, sender.nickname), messageBody)) else None
      ensures Fanout(sent)
    {
      if sender !in clients {
        return None;
      }
      var message := TextChatting(Snapshot(sender), messageBody);
      var open := OpenClients(clients);
      var i := 0;
      while i < |open|
        invariant 0 <= i <= |open|
        invariant forall u | u in clients :: u.ws.readyState == old(u.ws.readyState)
        invariant forall u | u in clients :: u.ws.outbox == old(u.ws.outbox) + (if u in open[..i] then [message] else [])
      {
        var client := open[i];
        assert client !in open[..i];
        client.ws.Send(message);
        assert open[..i + 1] == open[..i] + [client];
        i := i + 1;
      }
      assert open[..i] == open;
      sent := Some(message);
    }
  }
}
