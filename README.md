# Real-time event core of the web chat server

This project models the socket.io part of the chat application's server
(`server.js`, lines 46-116) and proves properties of that model. The server
keeps two pieces of in-memory state:

- `typingUsers`, a JavaScript `Map` from room key to the `Set` of connection ids
  typing in that room;
- socket.io's room membership, which `socket.join` changes.

Seven inbound events act on this state:

- `setup`, `joinchat`, `typing` and `stop typing`;
- `new message` and `reaction update`;
- `disconnect`.

Each event either emits to the connection that sent it (`socket.emit`), or to a
room minus that connection (`socket.to(room).emit`).

Node runs one handler to completion before the next, so each handler is one
atomic method of the class `SocketServer.Server`. The class has three fields:

- `typing`, the typing table;
- `order`, the table's keys in insertion order, which is the order `Map.forEach`
  visits them;
- `members`, the room membership.

Each method takes the sending connection's id as `self`. It returns the sequence
of emissions the handler makes, in order. An emission records three things:

- where it was addressed (the sender itself, or a room);
- the set of connections it reaches;
- its event name and payload.

Modules:

- `SocketTypes` (socket_types.dfy) defines:
  - the values: connection ids, room keys, and the fields of the chat and
    message records that the handlers read;
  - JavaScript truthiness of a string argument;
  - what `socket.to` reaches, and what `socket.join` does.
- `MessageFanOut` (fan_out.dfy) specifies the `new message` fan-out. `FanOut`
  builds the emissions as the `forEach` builds them. `Addressees` is an
  independent reference: the participant ids in list order, with the sender's id
  filtered out. The two are proved equal, and the addressees are proved to be
  exactly the participants other than the sender, with their multiplicities.
- `TypingTable` (typing_table.dfy) specifies the `disconnect` sweep. `Sweep` is
  the loop over the typing table's keys. `Cleared` and `StopSweep` are the
  resulting table and emissions. The lemmas state what the two mean.
- `SocketServer` (server.dfy) holds the class, with one method per handler.
- `Scenarios` (scenarios.dfy) holds short client sequences whose outcomes follow
  from the contracts alone.

Behaviour of the handlers that a reader might not expect:

- `reaction update` uses `socket.to(chatId)`, so the reacting connection itself
  is excluded.
- `stop typing` emits whenever the room's tracked set is empty afterwards. This
  includes a connection that was not typing, in a set that was already empty
  (`Scenarios.RepeatedStop`).
- An emptied typing set is never removed from the table.
- `typing` does not check room membership, so a connection can be typing in a
  room it never joined (`Scenarios.TypingWithoutJoining`).
- `typing` emits on every call, not only when a room goes from no typists to
  some typists.

## Model

| member | source | states |
|---|---|---|
| `SocketTypes.Joined` | server.js:63 | joining room r: r becomes a key and holds the connection; r's other members stay; every other room is unchanged |
| `SocketTypes.JoinedIdempotent` | server.js:61-66 | joining the same room twice gives the same membership as joining once |
| `SocketTypes.RecipientsExcludeSelf` | server.js:73 | a `socket.to(room)` emission reaches exactly the room's members other than the sender |
| `MessageFanOut.FanOut` | server.js:92-95 | every fan-out emission is "message received", carries the message unchanged, goes to a room other than the sender's id, never reaches the sender, and there are at most as many as participants |
| `MessageFanOut.FanOutFollowsAddressees` | server.js:92-95 | the loop's emissions are one "message received" per addressee, in participant-list order, and nothing else |
| `MessageFanOut.AddresseesAreOtherParticipants` | server.js:92-94 | the addressed rooms are the participant ids with their multiplicities (duplicates give duplicate emissions), minus every occurrence of the sender's id |
| `MessageFanOut.AddresseeMembership` | server.js:93-94 | a room is addressed if and only if some participant has that id and it is not the sender's id |
| `TypingTable.StopSweepExact` | server.js:108-115 | every disconnect emission is a "stop typing" to a swept room whose set was exactly {self}; every such room gets one; with distinct keys, no room gets two |
| `TypingTable.Cleared` | server.js:108-110 | after disconnect the table has the same keys (emptied sets stay), no set holds the departing id, and every other id keeps its place |
| `TypingTable.ClearedInAt` | server.js:108-110 | part way through the sweep, a room's set has lost the id if and only if the room has been swept; keys never change |
| `TypingTable.ClearedInAll` | server.js:108-110 | once every key has been visited, the swept table is `Cleared` |
| `TypingTable.ClearedKeepsOthers` | server.js:109-110 | a set that did not hold the departing id is unchanged |
| `TypingTable.Sweep` | server.js:108-115 | the `forEach` loop produces the `Cleared` table and the `StopSweep` emissions |
| `SocketServer.Server.constructor` | server.js:46 | the server starts with an empty typing table and no room members |
| `SocketServer.Server.Setup` | server.js:52-58 | with a present, truthy `_id`, the connection joins room `_id` and gets exactly one "connected", addressed to itself only; otherwise nothing changes and nothing is emitted; the typing table is never touched |
| `SocketServer.Server.JoinChat` | server.js:61-66 | a truthy room key joins the connection to that room, and a falsy one changes nothing; nothing is emitted; the typing table is untouched |
| `SocketServer.Server.Typing` | server.js:69-74 | with a truthy room key: the room's set is created if absent and holds the connection afterwards; other rooms' sets are unchanged; no key is lost; every call emits one "typing" to the room minus the sender. A falsy key changes nothing |
| `SocketServer.Server.StopTyping` | server.js:76-82 | no-op for a falsy or untracked room key; otherwise the connection leaves the set, the key stays, and one "stop typing" to the room minus the sender is emitted if and only if the set is empty afterwards; nothing is emitted while another id remains |
| `SocketServer.Server.NewMessage` | server.js:85-96 | missing message, chat or `chat.users` means zero emissions; otherwise one "message received" per addressee (participants except the sender), in list order, to that participant's room minus the sender, carrying the unchanged message; state is unchanged |
| `SocketServer.Server.ReactionUpdate` | server.js:99-103 | no emission if and only if `chatId` is falsy or `message` is missing; otherwise exactly one "reaction updated" to room `chatId` minus the sender, carrying `message`; state is unchanged |
| `SocketServer.Server.Disconnect` | server.js:105-116 | the typing table becomes `Cleared` (no set holds the id, keys stay) and the emissions are the sweep's, in key insertion order; membership is unchanged |
| `Scenarios.TypingRelay` | server.js:69-82 | with c1 and c2 both in room1: c1's typing reaches c2 only, and so does c1's stop typing |
| `Scenarios.RepeatedStop` | server.js:76-82 | a second stop typing on an already-empty set emits "stop typing" again |
| `Scenarios.TypingWithoutJoining` | server.js:69-74 | a connection that never joined a room is recorded as typing there |
| `Scenarios.TypingInTwoRooms` | server.js:69-74 | three typing calls give the expected table and key order |
| `Scenarios.DisconnectLastTypist` | server.js:105-116 | a disconnect notifies only the room where the connection typed alone; the other typist stays; the emptied set stays in the table |
| `Scenarios.NewMessageSkipsSender` | server.js:85-96 | with participants A, B, C and sender B, exactly the rooms A and C are addressed, in that order |

## Left out

- Express setup, HTTP routes, the database connection, environment
  configuration, and the not-found and error middleware (server.js:1-35). These
  are wiring and modules outside the core.
- socket.io server construction, `pingTimeout` and CORS settings
  (server.js:38-43). These are transport configuration; actual delivery over the
  network is I/O. An emission is modelled as the set of connections it reaches.
- `console.log` diagnostics (server.js:49, 56, 64, 89, 106). Logging has no
  modelled meaning.
- Removing a disconnected connection from its rooms. socket.io does this itself,
  and `server.js` does not, so `Disconnect` leaves `members` unchanged. Every
  "stop typing" excludes the departing connection anyway, so the recipients of
  that disconnect's own emissions are the same either way. Later emissions to
  those rooms, however, list the departed connection in their `to` sets,
  although socket.io has already removed it from the rooms.
- socket.io also joins every connection to a room named by its own id, and
  `socket.to(r)` excludes every member of that room rather than the sender
  alone. The model leaves that room out of `members` and subtracts only the
  sender, which assumes that room keys never equal connection ids (a `joinchat`
  with another connection's id would break the assumption).
- `SocketServer.Server.NewMessage` requires `sender` to be present whenever
  `chat.users` is non-empty. The handler reads `sender._id` without a guard
  (server.js:93); with a missing sender and a non-empty list it throws, and that
  exception is not modelled.
- Handler arguments are modelled as absent (`undefined`/`null`) or as strings,
  and a string is falsy only when it is empty. Non-string ids, such as numbers
  or objects, and falsy non-strings (`0`, `false`, `NaN`) are not modelled. A
  present message record counts as truthy, as every object does in JavaScript.
- The `connection` event itself (server.js:48-49) only logs, so it has no
  method.
- Concurrency. Node's event loop runs each handler to completion, so handlers
  are atomic steps.
