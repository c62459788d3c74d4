/**
 Clients of the server model: short event sequences whose outcomes follow from
 the handlers' contracts alone.
 */
module Scenarios {
  import opened SocketTypes
  import opened MessageFanOut
  import opened TypingTable
  import opened SocketServer

  /**
   Two users join one chat room; the first one's typing and stopping are relayed
   to the second one alone.
   */
  method TypingRelay() returns (started: seq<Emission>, stopped: seq<Emission>)
    ensures started == [Emission(ToRoom("room1"), {"c2"}, TypingEvent, NoPayload)]
    ensures stopped == [Emission(ToRoom("room1"), {"c2"}, StopTypingEvent, NoPayload)]
  {
    var s := new Server();
    var _ := s.Setup("c1", Some(UserData(Some("u1"))));
    var _ := s.Setup("c2", Some(UserData(Some("u2"))));
    s.JoinChat("c1", Some("room1"));
    s.JoinChat("c2", Some("room1"));
    assert s.members["room1"] == {"c1", "c2"};
    assert "c1"[1] != "c2"[1];
    assert {"c1", "c2"} - {"c1"} == {"c2"};
    started := s.Typing("c1", Some("room1"));
    stopped := s.StopTyping("c1", Some("room1"));
  }

  /**
   A "stop typing" from a connection that is not typing, in a room whose set is
   already empty, is relayed again: the handler tests only the set's size.
   */
  method RepeatedStop() returns (first: seq<Emission>, second: seq<Emission>)
    ensures |first| == 1 && |second| == 1
    ensures first[0].name == StopTypingEvent && second[0].name == StopTypingEvent
  {
    var s := new Server();
    var _ := s.Typing("c1", Some("room1"));
    first := s.StopTyping("c1", Some("room1"));
    second := s.StopTyping("c2", Some("room1"));
  }

  /**
   `typing` does not check membership: a connection that never joined a room can
   still be recorded as typing there.
   */
  method TypingWithoutJoining() returns (typists: set<ConnId>, joined: set<ConnId>)
    ensures "c1" in typists && "c1" !in joined
  {
    var s := new Server();
    var _ := s.Typing("c1", Some("room1"));
    typists := s.typing["room1"];
    joined := Lookup(s.members, "room1");
  }

  /** Connection c1 types in room1 and room2, connection c2 in room1; nobody has joined a room. */
  method TypingInTwoRooms() returns (s: Server)
    ensures fresh(s) && s.Valid() && s.members == map[]
    ensures s.order == ["room1", "room2"]
    ensures s.typing.Keys == {"room1", "room2"}
    ensures s.typing["room1"] == {"c1", "c2"} && s.typing["room2"] == {"c1"}
  {
    s := new Server();
    assert "room1"[4] != "room2"[4];
    var _ := s.Typing("c1", Some("room1"));
    var _ := s.Typing("c2", Some("room1"));
    var _ := s.Typing("c1", Some("room2"));
  }

  /**
   When c1 leaves, room2, where it typed alone, gets "stop typing"; room1 keeps
   c2; and room2's emptied set stays in the table.
   */
  method DisconnectLastTypist() returns (out: seq<Emission>, left: RoomTable)
    ensures out == [StopTypingTo(map[], "room2", "c1")]
    ensures left.Keys == {"room1", "room2"} && left["room1"] == {"c2"} && left["room2"] == {}
  {
    var s := TypingInTwoRooms();
    ghost var t0 := s.typing;
    assert "c1"[1] != "c2"[1];
    out := s.Disconnect("c1");
    assert ["room1", "room2"][..1] == ["room1"];
    assert StopSweep(["room1"], t0, "c1", map[]) == [];
    left := s.typing;
  }

  /** Participants A, B and C with sender B: the rooms of A and C are addressed, in that order. */
  method NewMessageSkipsSender(m: Message) returns (out: seq<Emission>)
    requires m.chat == Some(Chat(Some([User("A"), User("B"), User("C")])))
    requires m.sender == Some(User("B"))
    ensures |out| == 2
    ensures out[0].target == ToRoom("A") && out[1].target == ToRoom("C")
    ensures forall e :: e in out ==> e.name == MessageReceived && e.payload == MessagePayload(m)
  {
    var s := new Server();
    out := s.NewMessage("c", Some(m));
    assert Addressees([User("A"), User("B"), User("C")], "B") == ["A", "C"];
  }
}
