/**
 The `new message` fan-out: one "message received" emission per entry of
 `chat.users` whose id differs from the sender's, in list order, each addressed
 to the personal room named by that entry's id.
 */
module MessageFanOut {
  import opened SocketTypes

  /** The message's participant list, when the guards of `new message` let it through. */
  predicate Deliverable(m: Option<Message>)
  {
    m.Some? && m.value.chat.Some? && m.value.chat.value.users.Some?
  }

  function UsersOf(m: Option<Message>): seq<User>
    requires Deliverable(m)
  {
    m.value.chat.value.users.value
  }

  /**
   The handler reads `sender._id` once per entry of `chat.users`, so a missing
   sender is harmless only when there is no entry to compare.
   */
  predicate SenderReadable(m: Option<Message>)
  {
    Deliverable(m) && UsersOf(m) != [] ==> m.value.sender.Some?
  }

  /** The "message received" emission addressed to room `r`. */
  function Received(members: RoomTable, r: Room, self: ConnId, m: Message): Emission
  {
    ToRoomEmission(members, r, self, MessageReceived, MessagePayload(m))
  }

  /**
   The emissions of the `forEach` over `users`, built the way the loop builds
   them: the emissions of every entry but the last, then the last entry's.
   */
  function FanOut(users: seq<User>, senderId: string, m: Message, members: RoomTable, self: ConnId): (out: seq<Emission>)
    ensures |out| <= |users|
    ensures forall e :: e in out ==>
      e.name == MessageReceived && e.payload == MessagePayload(m) &&
      e.target.ToRoom? && e.target.room != senderId && self !in e.to
  {
    if users == [] then []
    else
      var u := users[|users| - 1];
      FanOut(users[..|users| - 1], senderId, m, members, self) +
      (if u.id == senderId then [] else [Received(members, u.id, self, m)])
  }

  /**
   The reference definition: the participant ids in list order, every
   occurrence of the sender's id dropped, duplicates kept.
   */
  function Addressees(users: seq<User>, senderId: string): seq<Room>
  {
    if users == [] then []
    else (if users[0].id == senderId then [] else [users[0].id]) + Addressees(users[1..], senderId)
  }

  /** The ids of a participant list, in order. */
  function Ids(users: seq<User>): (ids: seq<string>)
    ensures |ids| == |users|
    ensures forall i :: 0 <= i < |users| ==> ids[i] == users[i].id
  {
    seq(|users|, i requires 0 <= i < |users| => users[i].id)
  }

  lemma {:induction false} AddresseesAppend(a: seq<User>, b: seq<User>, senderId: string)
    ensures Addressees(a + b, senderId) == Addressees(a, senderId) + Addressees(b, senderId)
  {
    if a == [] {
      assert a + b == b;
    } else {
      assert (a + b)[0] == a[0];
      assert (a + b)[1..] == a[1..] + b;
      AddresseesAppend(a[1..], b, senderId);
    }
  }

  /** The loop's emissions are exactly one "message received" per addressee, in the same order. */
  lemma {:induction false} FanOutFollowsAddressees(users: seq<User>, senderId: string, m: Message, members: RoomTable, self: ConnId)
    ensures |FanOut(users, senderId, m, members, self)| == |Addressees(users, senderId)|
    ensures forall k :: 0 <= k < |Addressees(users, senderId)| ==>
      FanOut(users, senderId, m, members, self)[k] == Received(members, Addressees(users, senderId)[k], self, m)
  {
    if users != [] {
      var init, u := users[..|users| - 1], users[|users| - 1];
      FanOutFollowsAddressees(init, senderId, m, members, self);
      assert users == init + [u];
      AddresseesAppend(init, [u], senderId);
      assert [u][1..] == [];
    }
  }

  /**
   The addressees are the participant ids with their multiplicities, except
   that the sender's id occurs not at all.
   */
  lemma {:induction false} AddresseesAreOtherParticipants(users: seq<User>, senderId: string)
    ensures multiset(Addressees(users, senderId)) == multiset(Ids(users))[senderId := 0]
  {
    if users != [] {
      AddresseesAreOtherParticipants(users[1..], senderId);
      assert Ids(users) == [users[0].id] + Ids(users[1..]);
      var rest := multiset(Ids(users[1..]));
      if users[0].id == senderId {
        assert multiset(Ids(users)) == multiset{senderId} + rest;
        assert (multiset{senderId} + rest)[senderId := 0] == rest[senderId := 0];
      } else {
        assert multiset(Ids(users)) == multiset{users[0].id} + rest;
        assert (multiset{users[0].id} + rest)[senderId := 0] == multiset{users[0].id} + rest[senderId := 0];
      }
    }
  }

  /** A room is addressed if and only if some participant has that id and it is not the sender's. */
  lemma AddresseeMembership(users: seq<User>, senderId: string, r: Room)
    ensures r in Addressees(users, senderId) <==> r != senderId && r in Ids(users)
  {
    AddresseesAreOtherParticipants(users, senderId);
    assert r in Addressees(users, senderId) <==> multiset(Addressees(users, senderId))[r] > 0;
    assert r in Ids(users) <==> multiset(Ids(users))[r] > 0;
  }
}
