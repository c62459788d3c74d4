/**
 The values the socket.io handlers of the chat server receive and emit: connection
 ids, room keys, the few fields of the chat and message records they read, and the
 outbound emissions with the connections each one reaches.
 */
module SocketTypes {

  datatype Option<T> = None | Some(value: T)

  /** A connection id (`socket.id`), stable for the connection's lifetime. */
  type ConnId = string

  /** A room key. Personal rooms (user ids) and chat rooms (chat ids) share one namespace. */
  type Room = string

  /** A room-to-connections table: both `typingUsers` and socket.io's room membership have this shape. */
  type RoomTable = map<Room, set<ConnId>>

  /**
   A string argument as JavaScript's truthiness test sees it: `undefined`/`null`
   (None) and the empty string are falsy, every other string is truthy.
   */
  predicate Truthy(k: Option<string>)
  {
    k.Some? && k.value != ""
  }

  /** An entry of `chat.users`; only `_id` is read. */
  datatype User = User(id: string)

  /** A chat record; only `users` is read, and it may be missing. */
  datatype Chat = Chat(users: Option<seq<User>>)

  /** A message record: `chat` and `sender` are read, the rest is relayed unchanged. */
  datatype Message = Message(chat: Option<Chat>, sender: Option<User>, content: string)

  /** The argument of `setup`. */
  datatype UserData = UserData(id: Option<string>)

  /** The argument of `reaction update`. */
  datatype ReactionPayload = ReactionPayload(chatId: Option<string>, message: Option<Message>)

  /** `socket.emit` addresses the originating connection; `socket.to(room).emit` a room. */
  datatype Target = ToSelf | ToRoom(room: Room)

  datatype Payload = NoPayload | MessagePayload(message: Message)

  /** One outbound emission: where it was addressed, who it reaches, its event name and payload. */
  datatype Emission = Emission(target: Target, to: set<ConnId>, name: string, payload: Payload)

  const Connected := "connected"
  const TypingEvent := "typing"
  const StopTypingEvent := "stop typing"
  const MessageReceived := "message received"
  const ReactionUpdated := "reaction updated"

  /** The connections of a room; a room nobody joined has none. */
  function Lookup(t: RoomTable, r: Room): set<ConnId>
  {
    if r in t then t[r] else {}
  }

  /** Who `socket.to(r).emit` reaches: the room's members except the originating connection. */
  function Recipients(members: RoomTable, r: Room, self: ConnId): set<ConnId>
  {
    Lookup(members, r) - {self}
  }

  /** An emission through `socket.to(r)`. */
  function ToRoomEmission(members: RoomTable, r: Room, self: ConnId, name: string, payload: Payload): Emission
  {
    Emission(ToRoom(r), Recipients(members, r, self), name, payload)
  }

  /** Membership after `socket.join(r)` by connection `c`. */
  function Joined(members: RoomTable, r: Room, c: ConnId): (j: RoomTable)
    ensures j.Keys == members.Keys + {r}
    ensures c in j[r] && Lookup(members, r) <= j[r]
    ensures j[r] - {c} == Lookup(members, r) - {c}
    ensures forall q :: q in members && q != r ==> j[q] == members[q]
  {
    members[r := Lookup(members, r) + {c}]
  }

  /** Joining a room twice leaves the membership of joining it once. */
  lemma JoinedIdempotent(members: RoomTable, r: Room, c: ConnId)
    ensures Joined(Joined(members, r, c), r, c) == Joined(members, r, c)
  {
  }

  /** A `socket.to` emission never reaches the connection that sent it. */
  lemma RecipientsExcludeSelf(members: RoomTable, r: Room, self: ConnId)
    ensures self !in Recipients(members, r, self)
    ensures forall c :: c in Recipients(members, r, self) <==> c != self && r in members && c in members[r]
  {
  }
}
