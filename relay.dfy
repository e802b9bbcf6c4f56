/**
 * The process-wide room registry and the per-connection handler: joining a
 * room on connection, dispatching each inbound envelope, leaving on close.
 */
module Relay {
  import opened Wrappers
  import opened OrderedSet
  import opened Envelope
  import opened Rooms

  /** The `rooms` map, together with the supply of fresh user ids that `uuidv4()` provides. */
  class Registry {
    var rooms: map<string, Room>
    var nextId: UserId

    /**
     * Each room is filed under its own id and is valid, every id handed out
     * so far is below `nextId`, and no user is a member of two rooms.
     */
    ghost predicate Valid()
      reads this, rooms.Values
    {
      && (forall k | k in rooms ::
            && rooms[k].roomId == k
            && rooms[k].Valid()
            && (forall u | u in rooms[k].clients :: u.id < nextId))
      && (forall k, k', u | k in rooms && k' in rooms && k != k' && u in rooms[k].clients :: u !in rooms[k'].clients)
    }

    constructor ()
      ensures rooms == map[] && Valid()
    {
      rooms := map[];
      nextId := 0;
    }

    /**
     * The first step of the `connection` callback: a room is created for an
     * unknown id and filed under it; an existing room is kept as it is.
     */
    method GetOrCreate(roomId: string) returns (room: Room)
      requires Valid()
      modifies this
      ensures Valid() && nextId == old(nextId)
      ensures rooms.Keys == old(rooms.Keys) + {roomId} && room == rooms[roomId]
      ensures roomId in old(rooms) ==> rooms == old(rooms)
      ensures roomId !in old(rooms) ==>
        fresh(room) && room.clients == [] && room.messages == [] && rooms == old(rooms)[roomId := room]
    {
      if roomId !in rooms {
        room := new Room(roomId);
        rooms := rooms[roomId := room];
      }
      room := rooms[roomId];
    }

    /**
     * The second step of the `connection` callback: a user with a fresh id is
     * created and added to the room. The socket is the one the transport opened
     * for this connection, so no member of the room owns it.
     */
    method Join(room: Room, ws: Socket, nickname: string) returns (user: User)
      requires Valid() && room.roomId in rooms && rooms[room.roomId] == room
      requires ws !in room.Sockets()
      modifies this`nextId, room`clients
      ensures Valid()
      ensures fresh(user) && user.ws == ws && user.nickname == nickname
      ensures room.clients == old(room.clients) + [user]
      ensures forall k, u | k in rooms && u in rooms[k].clients && u != user :: u.id != user.id
    {
      user := new User(nextId, nickname, ws);
      nextId := nextId + 1;
      room.clients := Add(room.clients, user);
      forall k | k in rooms
        ensures rooms[k].roomId == k && rooms[k].Valid() && forall u | u in rooms[k].clients :: u.id < nextId
      {
        assert rooms[k].roomId == k;
      }
    }

    /**
     * The `connection` callback's join: the room for `roomId` is found or
     * created, and a fresh user is added to it and to no other room.
     */
    method Connect(ws: Socket, roomId: string, nickname: string) returns (conn: Connection)
      requires Valid()
      requires roomId in rooms ==> ws !in rooms[roomId].Sockets()
      modifies this, if roomId in rooms then {rooms[roomId]} else {}
      ensures Valid() && conn.Valid() && conn.registry == this
      ensures rooms.Keys == old(rooms.Keys) + {roomId}
      ensures roomId in old(rooms) ==> rooms[roomId] == old(rooms[roomId])
      ensures roomId !in old(rooms) ==> fresh(rooms[roomId]) && rooms[roomId].messages == []
      ensures forall k | k in old(rooms) && k != roomId ::
        rooms[k] == old(rooms[k]) && rooms[k].clients == old(rooms[k].clients)
      ensures conn.room == rooms[roomId] && conn.room.messages == old(if roomId in rooms then rooms[roomId].messages else [])
      ensures fresh(conn.user) && conn.user.ws == ws && conn.user.nickname == nickname
      ensures conn.room.clients == old(if roomId in rooms then rooms[roomId].clients else []) + [conn.user]
      ensures forall k, u | k in rooms && u in rooms[k].clients && u != conn.user :: u.id != conn.user.id
    {
      var targetRoom := GetOrCreate(roomId);
      var newUser := Join(targetRoom, ws, nickname);
      conn := new Connection(this, targetRoom, newUser);
    }
  }

  /** What the `connection` callback's closures capture: the target room and the new user. */
  class Connection {
    ghost const registry: Registry
    const room: Room
    const user: User

    /** The registry is valid and still files this room under its id. */
    ghost predicate Valid()
      reads registry, registry.rooms.Values
    {
      && registry.Valid()
      && room.roomId in registry.rooms
      && registry.rooms[room.roomId] == room
    }

    constructor (ghost registry: Registry, room: Room, user: User)
      ensures this.registry == registry && this.room == room && this.user == user
    {
      this.registry := registry;
      this.room := room;
      this.user := user;
    }

    /**
     * `ws.onmessage` on an already-parsed envelope: "chatting" broadcasts `data`
     * as this user; a "control" type whose subtype is CHANGE_NICKNAME renames the
     * user; anything else changes nothing.
     */
    method OnMessage(kind: string, data: string)
      requires Valid()
      modifies user, room.Sockets()
      ensures Valid()
      ensures Classify(kind) == Chatting ==>
        room.Fanout(if user in room.clients then Some(TextChatting(UserResp(user.id, old(user.nickname)), data)) else None)
      ensures Classify(kind) != Chatting ==> room.Fanout(None)
      ensures user.nickname == if Classify(kind) == ChangeNickname then data else old(user.nickname)
    {
      assert room.Valid();
      if kind == "chatting" {
        var _ := room.BroadcastTextChatMessage(user, data);
      } else if "control" <= kind {
        var controlType := ControlSubtype(kind);
        if controlType == Some("CHANGE_NICKNAME") {
          user.nickname := data;
        } else if controlType == Some("GET_MESSAGES") {
        }
      }
    }

    /** `ws.onclose`: deletes the user from the room; a repeated close changes nothing. */
    method OnClose()
      requires Valid()
      modifies room
      ensures Valid()
      ensures room.clients == Delete(old(room.clients), user)
      ensures user !in room.clients
      ensures user !in old(room.clients) ==> room.clients == old(room.clients)
      ensures room.messages == old(room.messages)
    {
      room.clients := Delete(room.clients, user);
    }
  }
}
