# Room-based chat relay: a Dafny model

This project models the core of a small WebSocket chat relay (`backend/src/index.ts`).
Clients connect to a named room. They broadcast text messages to every member of that room
whose socket is OPEN. They may rename themselves, and they leave the room when the socket closes.

The model keeps the program's own shape:

- `Rooms.Socket` is a client's WebSocket, reduced to its `readyState` and an `outbox` holding everything `send` has been handed.
- `Rooms.User` is a connected user: an immutable id, a mutable `nickname` and the socket it owns.
- `Rooms.UserResp` and `Rooms.Message` are the `{id, nickname}` snapshot and the text chat message built from it. Both are immutable values.
- `Rooms.Room` holds `clients`, the JavaScript `Set<User>` kept as an insertion-ordered sequence without duplicates, plus the `messages` array. `BroadcastTextChatMessage` is its send loop. `Rooms.OpenClients` is `getOpenClients`.
- `Relay.Registry` is the process-wide `rooms` map, together with the id supply that stands for `uuidv4()`. `Connect` is the join part of the `connection` callback.
- `Relay.Connection` is what that callback's closures capture: the target room and the new user. `OnMessage` is `ws.onmessage` on an already-parsed `{type, data}` envelope. `OnClose` is `ws.onclose`.
- `Envelope` classifies an envelope's `type`: the exact match on `"chatting"`, the `"control"` prefix test, and `type.split(':')[1]`, modelled by a faithful `Split` and its inverse `Join`.
- `OrderedSet` holds `Set.prototype.add` and `Set.prototype.delete` on that sequence.
- `Scenarios` holds client code that derives whole sessions from the contracts alone.

Three behaviours of the code are worth stating outright:

- A broadcast reaches every OPEN member, the sender included.
- `messages` is declared but never appended to. The model keeps the field and proves it unchanged.
- The control test is `type.startsWith('control')`, not a test for the prefix `"control:"`. So `"controls:CHANGE_NICKNAME"` renames, while `"control"` with no colon does nothing.

## Model

| member | source | states |
|---|---|---|
| `OrderedSet.Add` | backend/src/index.ts:106 | `clients.add(user)`: the result holds exactly the old members plus `user`. It grows by one exactly when `user` was absent, keeps the old order as a prefix, and stays duplicate-free. |
| `OrderedSet.Delete` | backend/src/index.ts:123 | `clients.delete(user)`: the result holds exactly the old members other than `user`. It is unchanged when `user` was absent, shrinks by one when `user` was present, and stays duplicate-free. |
| `OrderedSet.DeleteIdempotent` | backend/src/index.ts:122-124 | Deleting a user twice is the same as deleting it once. |
| `OrderedSet.DeleteConcat` | backend/src/index.ts:123 | `delete` keeps the other members in their order: it works piecewise over a concatenation, and keeps a single element exactly when it is not the deleted one. |
| `OrderedSet.DeleteAdded` | backend/src/index.ts:123 | Deleting a user that was just added restores the previous membership, order included. |
| `Envelope.Split` | backend/src/index.ts:114 | `split(':')` yields at least one segment, and no segment contains the separator. There is exactly one segment iff the string has no separator. |
| `Envelope.JoinSplit` | backend/src/index.ts:114 | Joining the segments of a string with the separator gives the string back. |
| `Envelope.SplitJoin` | backend/src/index.ts:114 | Splitting the join of separator-free segments gives the segments back. |
| `Envelope.SplitPrefix` | backend/src/index.ts:114 | A separator-free prefix extends the first segment of whatever follows it and leaves the other segments alone. |
| `Envelope.ControlSubtype` | backend/src/index.ts:114 | `type.split(':')[1]` is defined (not `undefined`) iff the type contains a `:`, and it never contains a `:`. |
| `Envelope.ControlSubtypeOf` | backend/src/index.ts:114 | For `pre:sub` followed by nothing or by another `:`, where neither `pre` nor `sub` has a colon, the subtype is exactly `sub`. |
| `Envelope.ControlSubtypeDecomposes` | backend/src/index.ts:114 | Conversely, a type with a subtype splits as a colon-free prefix, `:`, the subtype, and a rest that is empty or starts with `:`. |
| `Envelope.Classify` | backend/src/index.ts:111-119 | The handler's dispatch: it broadcasts iff the type is exactly `"chatting"`. It renames iff the type starts with `"control"` and its second `:`-segment is CHANGE_NICKNAME, and reaches GET_MESSAGES iff that segment is GET_MESSAGES. It ignores the envelope iff the type is neither `"chatting"` nor `"control"`-prefixed. |
| `Envelope.ControlCommand` | backend/src/index.ts:115-118 | The switch on the control subtype: it renames iff the subtype is CHANGE_NICKNAME and reaches GET_MESSAGES iff it is GET_MESSAGES. Any other subtype, a missing one included, is an unknown control, never a broadcast or an ignored envelope. |
| `Envelope.ClassifyControl` | backend/src/index.ts:113-119 | A type that starts with `"control"` is dispatched on its second `:`-segment alone: CHANGE_NICKNAME renames, GET_MESSAGES is recognised, and any other subtype is an unknown control. |
| `Envelope.ChangeNicknameShape` | backend/src/index.ts:113-116 | Every type that renames starts with `"control"`, has CHANGE_NICKNAME as its second segment, and ends there or at the next `:`. |
| `Envelope.ClassifyPlainTypes` | backend/src/index.ts:111-119 | `"chatting"` broadcasts, `"control"` without a colon is an unknown control, and other types, including a capitalised `"Control:…"`, are ignored. |
| `Envelope.ClassifyRename` | backend/src/index.ts:113-116 | The wire type `"control:CHANGE_NICKNAME"` renames. |
| `Envelope.ClassifyGetMessages` | backend/src/index.ts:117-118 | `"control:GET_MESSAGES"` is recognised as GET_MESSAGES, a branch that does nothing. |
| `Envelope.ClassifyLongerPrefix` | backend/src/index.ts:113-116 | Only the prefix `"control"` is tested, so `"controls:CHANGE_NICKNAME:x"` also renames. |
| `Envelope.ClassifyEmptySegment` | backend/src/index.ts:114-115 | In `"control::CHANGE_NICKNAME"` the second segment is empty, so the type does not rename. |
| `Envelope.NoColonNoNicknameChange` | backend/src/index.ts:113-119 | A type without a `:` never renames and never reaches GET_MESSAGES. |
| `Rooms.Snapshot` | backend/src/index.ts:26-29 | `new UserResp(user)` copies the user's id and its nickname at that moment into a value. |
| `Rooms.OpenClients` | backend/src/index.ts:91-93 | `getOpenClients` returns exactly the members whose socket is OPEN: it is a subset of `clients`, and every open member appears exactly once when `clients` has no duplicates. |
| `Rooms.Socket.Send` | backend/src/index.ts:86 | `ws.send` appends the payload to the socket's outbox and changes nothing else. |
| `Rooms.User.constructor` | backend/src/index.ts:15-19 | A user starts with the given id, nickname and socket. |
| `Rooms.Room.constructor` | backend/src/index.ts:72-76 | A new room has the given id, no clients and no messages. |
| `Rooms.Room.BroadcastTextChatMessage` | backend/src/index.ts:78-92 | A sender that is not a member is rejected: the result is None, no outbox changes, and membership is unchanged. For a member, the result carries the sender's id and current nickname. Exactly one copy is appended to the outbox of each member whose socket is OPEN, other outboxes and all socket states are unchanged, and `clients`, `messages` and every nickname stay as they were. |
| `Relay.Registry.constructor` | backend/src/index.ts:96 | The registry starts with no rooms. |
| `Relay.Registry.GetOrCreate` | backend/src/index.ts:99-102 | An unknown room id gets a fresh, empty room filed under it. A known id keeps its existing room object, and the map is unchanged. |
| `Relay.Registry.Join` | backend/src/index.ts:104-106 | A fresh user is created with an id that no other member of any room has, and appended to the target room, which grows by exactly one. Nothing else changes, and the registry invariant is preserved, including that no user is a member of two rooms. |
| `Relay.Registry.Connect` | backend/src/index.ts:98-106 | After a connection, `rooms` has the room id and no other new key. An existing room object is kept and a missing one is created empty. The fresh user is the room's new last member, holds the given socket and nickname, and has an id distinct from that of every other member of any room. All other rooms and their members are unchanged. |
| `Relay.Connection.OnMessage` | backend/src/index.ts:108-120 | `"chatting"` has exactly the effect of `broadcastTextChatMessage(user, data)`, with the nickname the user had at that moment. A rename sets the user's nickname to `data` and sends nothing. Every other type changes no nickname, no membership and no outbox. |
| `Relay.Connection.OnClose` | backend/src/index.ts:122-124 | The user is deleted from its room and the other members stay in order. A repeated close leaves the room unchanged, and the registry invariant is preserved. |
| `Scenarios.TwoMembersChat` | backend/src/index.ts:78-92 | When A and B share a room and A chats "hi", each of them receives exactly one message, "hi", with A's id and nickname. |
| `Scenarios.AloneInRoom` | backend/src/index.ts:78-92 | A member alone in a room receives its own message, and the room's `messages` stays empty. |
| `Scenarios.RenameBetweenMessages` | backend/src/index.ts:26-42 | A message broadcast before a rename keeps the old nickname, and one broadcast after it carries the new nickname under the same id. |
| `Scenarios.ClosedSocketAndNoOp` | backend/src/index.ts:91-92 | A member whose socket is not OPEN receives nothing. An envelope that neither chats nor renames leaves the nickname as it was. |
| `Scenarios.StaleMessageAfterClose` | backend/src/index.ts:79-81 | After A's close, a late chat from A reaches nobody. Closing twice leaves the other member in place. |
| `Scenarios.RoomsAreSeparate` | backend/src/index.ts:99-106 | Two joins with the same id share one room object, and a chat in one room reaches nobody in another room. |

## Left out

- Express, `app.listen` and the HTTP `upgrade` handler are server bootstrap and transport I/O. That handler reads `roomId` from the query string and falls back to a random id.
- `JSON.parse` and `JSON.stringify` are library code. An envelope arrives already parsed as a `(type, data)` pair of strings. The payload handed to a socket is the `Message` value itself, standing for its JSON text. A frame that fails to parse, or a `type` that is not a string, throws inside the library callback; that is not modelled.
- `uuidv4()` becomes a counter. User ids are natural numbers drawn from `Registry.nextId`, so freshness is exact where the source relies on random UUIDs.
- The `sentAt` timestamp from `new Date()` is a wall-clock reading with no checkable behaviour.
- `ControlMessage` and `ControlMessageType` are declared but never constructed. CHANGE_NICKNAME and GET_MESSAGES appear only as the strings that dispatch compares against.
- The `ws` library's transport is left out. `readyState` changes made by the library and the errors `send` reports asynchronously are not modelled. A socket is its state plus the outbox of what it was handed.
- Concurrency is left out because Node runs these callbacks one at a time on a single event loop.
- The nickname at join is a parameter. The upgrade path emits `connection` without one, so the source's user starts with an `undefined` nickname.
- `Registry.Connect` requires that no member of the target room already owns the given socket. The transport opens a new socket for every connection, so the source never hands over a socket in use; the model needs this fact to keep distinct members on distinct outboxes.
- `Message.message` is typed `any` in the source, but the model uses a string, the type `TextChattingMessage` gives it.
