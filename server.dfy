/**
 The socket.io event core of the chat server: the `typingUsers` table and the
 room membership, changed by the handlers a connection's inbound events run.
 Node runs each handler to completion, so each method is one atomic step; the
 connection that sent the event is `self`, and each method returns what the
 handler emits, in emission order.
 */
module SocketServer {
  import opened SocketTypes
  import opened MessageFanOut
  import opened TypingTable

  class Server {
    /** `typingUsers`: room key to the connections typing there. */
    var typing: RoomTable
    /** The keys of `typingUsers` in insertion order, the order `Map.forEach` visits them. */
    var order: seq<Room>
    /** socket.io's room membership: room key to the connections that joined it. */
    var members: RoomTable

    /** `order` lists each key of `typing` exactly once. */
    ghost predicate Valid()
      reads this
    {
      && (forall r :: r in typing <==> r in order)
      && Distinct(order)
    }

    /** A fresh server: `typingUsers` is an empty Map and no connection has joined a room. */
    constructor ()
      ensures Valid()
      ensures typing == map[] && order == [] && members == map[]
    {
      typing, order, members := map[], [], map[];
    }

    /**
     `setup`: a truthy `_id` joins the connection to that user's personal room
     and sends "connected" back to the connection alone; otherwise nothing.
     */
    method Setup(self: ConnId, userData: Option<UserData>) returns (out: seq<Emission>)
      requires Valid()
      modifies this
      ensures Valid() && typing == old(typing) && order == old(order)
      ensures userData.Some? && Truthy(userData.value.id) ==>
        && members == Joined(old(members), userData.value.id.value, self)
        && out == [Emission(ToSelf, {self}, Connected, NoPayload)]
      ensures !(userData.Some? && Truthy(userData.value.id)) ==> members == old(members) && out == []
    {
      out := [];
      if userData.Some? && Truthy(userData.value.id) {
        var id := userData.value.id.value;
        members := Joined(members, id, self);
        out := [Emission(ToSelf, {self}, Connected, NoPayload)];
      }
    }

    /** `joinchat`: a truthy room key joins the connection to that room; nothing is emitted. */
    method JoinChat(self: ConnId, room: Option<string>)
      requires Valid()
      modifies this
      ensures Valid() && typing == old(typing) && order == old(order)
      ensures members == if Truthy(room) then Joined(old(members), room.value, self) else old(members)
    {
      if Truthy(room) {
        members := Joined(members, room.value, self);
      }
    }

    /**
     `typing`: with a truthy room key, the room's set is created if missing and
     gets `self`; every call relays "typing" to the room minus `self`.
     */
    method Typing(self: ConnId, room: Option<string>) returns (out: seq<Emission>)
      requires Valid()
      modifies this
      ensures Valid() && members == old(members)
      ensures !Truthy(room) ==> typing == old(typing) && order == old(order) && out == []
      ensures Truthy(room) ==>
        && typing == old(typing)[room.value := Lookup(old(typing), room.value) + {self}]
        && order == (if room.value in old(typing) then old(order) else old(order) + [room.value])
        && out == [ToRoomEmission(members, room.value, self, TypingEvent, NoPayload)]
      ensures Truthy(room) ==> self in typing[room.value]
      ensures forall r :: r in old(typing) && !(Truthy(room) && r == room.value) ==> r in typing && typing[r] == old(typing)[r]
      ensures old(typing).Keys <= typing.Keys
    {
      out := [];
      if !Truthy(room) {
        return;
      }
      var r := room.value;
      if r !in typing {
        typing := typing[r := {}];
        order := order + [r];
      }
      typing := typing[r := typing[r] + {self}];
      out := [ToRoomEmission(members, r, self, TypingEvent, NoPayload)];
    }

    /**
     `stop typing`: with a truthy, tracked room key, `self` leaves the room's set
     and "stop typing" goes to the room minus `self` exactly when the set is then
     empty, whether or not `self` was in it. The key stays in the table.
     */
    method StopTyping(self: ConnId, room: Option<string>) returns (out: seq<Emission>)
      requires Valid()
      modifies this
      ensures Valid() && members == old(members) && order == old(order)
      ensures typing.Keys == old(typing).Keys
      ensures !Truthy(room) || room.value !in old(typing) ==> typing == old(typing) && out == []
      ensures Truthy(room) && room.value in old(typing) ==>
        && typing == old(typing)[room.value := old(typing)[room.value] - {self}]
        && (out != [] <==> typing[room.value] == {})
        && (out != [] ==> out == [StopTypingTo(members, room.value, self)])
      ensures Truthy(room) && room.value in old(typing) && old(typing)[room.value] - {self} != {} ==> out == []
    {
      out := [];
      if !Truthy(room) || room.value !in typing {
        return;
      }
      var r := room.value;
      typing := typing[r := typing[r] - {self}];
      if typing[r] == {} {
        out := [StopTypingTo(members, r, self)];
      }
    }

    /**
     `new message`: nothing for a missing message, chat or participant list;
     otherwise one "message received", carrying the message unchanged, per
     participant whose id is not the sender's, in list order, each to that
     participant's personal room minus `self`.
     */
    method NewMessage(self: ConnId, m: Option<Message>) returns (out: seq<Emission>)
      requires SenderReadable(m)
      ensures !Deliverable(m) ==> out == []
      ensures Deliverable(m) && UsersOf(m) == [] ==> out == []
      ensures Deliverable(m) && UsersOf(m) != [] ==>
        && |out| == |Addressees(UsersOf(m), m.value.sender.value.id)|
        && forall k :: 0 <= k < |out| ==>
             out[k] == Received(members, Addressees(UsersOf(m), m.value.sender.value.id)[k], self, m.value)
    {
      out := [];
      if !Deliverable(m) {
        return;
      }
      var msg := m.value;
      var users := msg.chat.value.users.value;
      var i := 0;
      while i < |users|
        invariant 0 <= i <= |users|
        invariant users != [] ==> out == FanOut(users[..i], msg.sender.value.id, msg, members, self)
        invariant users == [] ==> out == []
      {
        var u := users[i];
        var senderId := msg.sender.value.id;
        assert users[..i + 1][..i] == users[..i];
        if u.id != senderId {
          out := out + [Received(members, u.id, self, msg)];
        }
        i := i + 1;
      }
      if users != [] {
        assert users[..|users|] == users;
        FanOutFollowsAddressees(users, msg.sender.value.id, msg, members, self);
      }
    }

    /**
     `reaction update`: with a truthy `chatId` and a present `message`, one
     "reaction updated" carrying `message` goes to room `chatId` minus `self`;
     otherwise nothing.
     */
    method ReactionUpdate(self: ConnId, p: Option<ReactionPayload>) returns (out: seq<Emission>)
      ensures !(p.Some? && Truthy(p.value.chatId) && p.value.message.Some?) <==> out == []
      ensures p.Some? && Truthy(p.value.chatId) && p.value.message.Some? ==>
        out == [Emission(ToRoom(p.value.chatId.value), Recipients(members, p.value.chatId.value, self),
                         ReactionUpdated, MessagePayload(p.value.message.value))]
    {
      out := [];
      if p.None? || !Truthy(p.value.chatId) || p.value.message.None? {
        return;
      }
      var chatId := p.value.chatId.value;
      out := [ToRoomEmission(members, chatId, self, ReactionUpdated, MessagePayload(p.value.message.value))];
    }

    /**
     `disconnect`: every typing set loses `self`, keys stay, and "stop typing"
     goes, in key insertion order, to each room whose set `self` empties
     (`Sweep` runs the `forEach`; `Cleared` and `StopSweepExact` state what
     its two results mean).
     */
    method Disconnect(self: ConnId) returns (out: seq<Emission>)
      requires Valid()
      modifies this
      ensures Valid() && order == old(order) && members == old(members)
      ensures typing == Cleared(old(typing), self)
      ensures out == StopSweep(order, old(typing), self, members)
    {
      typing, out := Sweep(order, typing, self, members);
    }
  }
}
