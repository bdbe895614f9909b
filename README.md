# Anonymous interest-matching chat: the session core in Dafny

This project models the in-memory matching and session core of a Flask +
Socket.IO chat server (`app.py`). Anonymous connections ask for a partner
with a list of interests. The server keeps two global structures:

- `waiting_users`, an ordered list of `{sid, interests}` records;
- `rooms`, an insertion-ordered dictionary from a room id to its participant list.

Each event handler updates these two structures and emits events to clients:

- `find_partner` first leaves the caller's current room. It then scans the waiting list first-fit for an entry that shares an interest. On a hit it opens a room for the pair. Otherwise it queues the caller.
- `disconnect` purges the caller's waiting entries and leaves one room.
- `message`, `typing` and `stop_typing` relay events after simple guards.

The model has six modules:

- `Types`: `Option` and the id types.
- `Pool`: waiting entries, the first-fit scan, `list.remove` by value, and the disconnect filter.
- `RoomTable`: the rooms dictionary as an ordered sequence of `Room`s. It has dictionary get, set and delete, the first-room-of-a-connection scan, and the "other participants" comprehension.
- `Session`: the global `State` (waiting list, room table, and an `outbox` log standing for every `emit`, `join_room` and `leave_room` call in order). It also has one pure transition function per handler (`Match`, `Leave`, `Connect`, `Disconnect`, `FindPartner`, `Message`, `Indicate`).
- `SessionProperties`: the lemmas about those functions.
- `ChatServer`: class `Server`, with the fields `waiting`, `rooms` and `outbox`. Its handler methods update the fields in place. `match_users` and `leave_current_room` are `while` loops with early exit, as in the source. Every method is proved to move the object's state exactly as the `Session` function of the same handler does, and to keep `Inv`: room ids are distinct and every room has two slots.

The model follows the code as written. The code never
de-duplicates seekers, so the model lets a connection be queued twice,
matched with its own stale entry (a room `[sid, sid]`), or sit in two
rooms at once. The lemmas `SelfMatch`, `QueuedTwice` and `TwoRoomsTrace`
show each of these.

## Model

| member | source | states |
|---|---|---|
| `Pool.Common` | app.py:39 | the shared interests are exactly the interests present in both lists (set intersection) |
| `Pool.FirstFit` | app.py:38-40 | the scan stops at an entry that overlaps the seeker's interests and every earlier entry is disjoint; it finds nothing exactly when every entry is disjoint |
| `Pool.FirstFitUnique` | app.py:38-40 | an index that overlaps and is preceded only by disjoint entries is the one the first-fit scan finds |
| `Pool.RemoveFirstAt` | app.py:45 | about `Pool.RemoveFirst`, the model of `list.remove`: `list.remove` of an entry that no earlier entry equals deletes exactly that position and keeps the rest in order |
| `Pool.WithoutMembers` | app.py:77 | about `Pool.Without`, the model of the comprehension: the disconnect filter keeps exactly the entries whose sid differs from the leaving one |
| `Pool.WithoutConcat` | app.py:77 | the filter works entry by entry: filtering a concatenation is the concatenation of the filtered parts, so survivors keep their order |
| `Pool.WithoutAbsent` | app.py:77 | a list with no entry for the sid passes the filter unchanged |
| `Pool.WithoutIdempotent` | app.py:77 | filtering twice removes nothing more than filtering once |
| `RoomTable.Lookup` | app.py:108-110 | a room id is found exactly when it is a key of the table, and the list found is the one stored under that key |
| `RoomTable.AssignFresh` | app.py:41-42 | about `RoomTable.Assign`, the model of `rooms[id] = users`: storing a room under a fresh id appends it after every existing room (dictionary insertion order) |
| `RoomTable.LookupAssign` | app.py:42 | about `RoomTable.Assign`: after `rooms[id] = users` the id maps to `users` and every other id keeps its entry |
| `RoomTable.DeleteAt` | app.py:61 | about `RoomTable.Delete`, the model of `del rooms[id]`: `del rooms[id]` removes exactly that room's position, keeping the others in order |
| `RoomTable.LookupDelete` | app.py:61 | about `RoomTable.Delete`: after `del rooms[id]` the id is gone and every other id keeps its entry |
| `RoomTable.FirstRoomOf` | app.py:55-56 | the scan stops at a room listing the sid with no earlier room listing it; it finds nothing exactly when no room lists the sid |
| `RoomTable.FirstRoomOfUnique` | app.py:55-56 | a room that lists the sid, with no earlier room listing it, is the one the scan finds |
| `RoomTable.Others` | app.py:57 | the "other participants" comprehension holds exactly the participants different from the given sid |
| `RoomTable.OthersOfPair` | app.py:57-59 | in a two-slot room there is another participant exactly when some slot is not the sid, and the first one is slot 0 if that is not the sid, else slot 1 |
| `SessionProperties.MatchOutcome` | app.py:35-51 | about `Session.Match`, the model of `match_users`: a match happens exactly when some waiting entry shares an interest. It takes the first such entry (all earlier ones are disjoint). It appends the room `[seeker, partner]`, removes exactly that entry keeping the rest in order, and sends `matched` to both with the same room and the same non-empty common set. Without a match the state and outbox are unchanged |
| `SessionProperties.MatchKeepsInv` | app.py:41-42 | a match with a fresh id keeps ids distinct and every room two-slot |
| `SessionProperties.LeaveOutcome` | app.py:53-62 | about `Session.Leave`, the model of `leave_current_room`: only the first room listing the sid is deleted: its key disappears and every other key keeps its participants. Its first other participant, if any, gets `partner_left`. A sid in no room changes nothing and emits nothing. The waiting list is untouched |
| `SessionProperties.LeaveKeepsInv` | app.py:53-62 | leaving keeps ids distinct and rooms two-slot, and adds no key (so a fresh id stays fresh) |
| `SessionProperties.LeaveClears` | app.py:55-62 | when the sid was in at most one room, no room lists it afterwards |
| `SessionProperties.LeaveIdempotent` | app.py:53-62 | when the sid was in at most one room, a second leave changes nothing |
| `SessionProperties.LeaveOnlyFirst` | app.py:55-62 | a sid listed by two rooms is still listed after one leave, and the later room survives |
| `SessionProperties.DisconnectOutcome` | app.py:72-79 | about `Session.Disconnect`, the model of `on_disconnect`: disconnect removes every waiting entry of the sid and keeps all others in order. It then does exactly one leave, whose effect on rooms and outbox does not depend on the waiting list |
| `SessionProperties.DisconnectIdempotent` | app.py:72-79 | for a sid in at most one room: afterwards no waiting entry and no room mentions it, and a second disconnect changes nothing |
| `SessionProperties.FindPartnerOutcome` | app.py:81-95 | about `Session.FindPartner`, the model of `find_partner`: leave comes first. Without an overlapping entry the caller is appended at the end of the waiting list, keeping all earlier entries including its own, and only the caller gets `waiting`. Otherwise the first overlapping entry is matched, in the room table the leave left behind. Either way the invariant is kept |
| `SessionProperties.SelfMatch` | app.py:88-94 | a seeker asking twice with the same non-empty interests is matched with its own stale entry in the room `[sid, sid]`; leaving that room tells nobody `partner_left` |
| `SessionProperties.QueuedTwice` | app.py:88-94 | a seeker asking again with interests disjoint from its first ones (and from all waiters) is queued a second time and told `waiting` twice |
| `SessionProperties.TwoRoomsTrace` | app.py:53-95 | a reachable run puts one connection in two rooms; its disconnect deletes only the first room and notifies only that room's peer |
| `SessionProperties.MatchThenDisconnectScenario` | app.py:72-95 | "C1" (music, film) waits. "C2" (film, sports) is then matched with it, and both get the same room and common set {film}. When "C1" disconnects, "C2" gets `partner_left` and the room is gone |
| `SessionProperties.MessageGuard` | app.py:97-103 | about `Session.Message`, the model of `handle_message`: a message is relayed exactly when the room field is present and non-empty: one `new_message` for that room from the sender, carrying the message field (the empty text when the field is missing), with waiting list and rooms unchanged |
| `SessionProperties.IndicateOutcome` | app.py:105-121 | about `Session.Indicate`, the model of `handle_typing` and `handle_stop_typing`: typing and stop-typing for a room not in the table change nothing. Otherwise they emit one event to the first participant other than the sender, or none if there is no such participant. They never emit to the sender |
| `ChatServer.Server.constructor` | app.py:29-30 | the server starts with an empty waiting list, no rooms and nothing emitted |
| `ChatServer.Server.MatchUsers` | app.py:35-51 | the first-fit loop with early return leaves the state `Match` gives and returns whether it matched; the invariant is kept |
| `ChatServer.Server.LeaveCurrentRoom` | app.py:53-62 | the loop over a snapshot of the rooms, stopping at the first hit, leaves the state `Leave` gives; the invariant is kept |
| `ChatServer.Server.OnConnect` | app.py:67-70 | the state becomes `Session.Connect` of the old state: only a `connected` acknowledgement to the caller is added |
| `ChatServer.Server.OnDisconnect` | app.py:72-79 | the state becomes `Disconnect` of the old state |
| `ChatServer.Server.FindPartner` | app.py:81-95 | the state becomes `FindPartner` of the old state; the invariant is kept |
| `ChatServer.Server.HandleMessage` | app.py:97-103 | the state becomes `Message` of the old state |
| `ChatServer.Server.HandleTyping` | app.py:105-112 | the state becomes `Indicate` (typing) of the old state |
| `ChatServer.Server.HandleStopTyping` | app.py:114-121 | the state becomes `Indicate` (stop typing) of the old state |

## Where the code falls short of its intent

The comment on `rooms` (app.py:30) describes a room as a pair of two users, and the names `find_partner` and `leave_current_room` suggest one partner and one current room per connection. The code does not enforce this, and the model follows the code:

- A room is meant to hold two different connections, and a connection to be in at most one room. The code checks neither (`SelfMatch`, `TwoRoomsTrace`). So `Inv` only says that ids are distinct and every room has two slots.
- A connection would be expected to wait in the pool at most once. `find_partner` never removes the caller's earlier entry (`QueuedTwice`, `SelfMatch`).
- Disconnecting twice would be expected to change nothing the second time. That holds only while the connection is in at most one room (`DisconnectIdempotent`). In the run of `TwoRoomsTrace`, a second disconnect would delete the second room.

## Left out

- Flask app creation, configuration and secret key, CORS, environment loading, `print` logging and `socketio.run` (app.py:6-24, 127-129): process plumbing with no effect on the state.
- `uuid.uuid4()` (app.py:41): a random generator. The room id is a method parameter, required not to be a key already.
- `join_room` / `leave_room` (app.py:43-44, 60): recorded only as `JoinRoom` / `LeaveRoom` outbox events. Socket.IO's room membership is not modelled.
- The set of clients a `new_message` reaches: Socket.IO membership decides it, not `rooms`. The model records the event with its room and sender (sender excluded).
- `markupsafe.escape` (app.py:100): a foreign library. The model relays the message text as received.
- The order of `list(common)` in the `matched` payload: it follows Python's set iteration order, so `common` is a set.
- Concurrency and eventlet scheduling: each handler is one atomic step.
- Payload fields of unexpected types: only a missing field is modelled (`Option`), with the source's defaults (`[]` for interests, `''` for the message). A room field that is not a string is not modelled. Nor is an `interests` field of `null`: on an empty pool such an entry is queued, and from then on every scan that reaches it raises at app.py:39 before the seeker is queued, so a seeker that matches no earlier entry can neither match a later one nor be queued.
- `list.remove` raising `ValueError` and `del` raising `KeyError`: neither can happen in these handlers. `RemoveFirst` requires the entry to be present, and `Delete` of an absent key returns the table unchanged.
