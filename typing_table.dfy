/**
 What `disconnect` does to `typingUsers`: every room's set loses the departing
 connection, and "stop typing" goes to exactly the rooms whose set that
 removal empties, in the order the Map visits its keys.
 */
module TypingTable {
  import opened SocketTypes

  /** Room `r` is tracked and `self` is its only typist, so removing `self` empties it. */
  predicate EmptiedBy(typing: RoomTable, r: Room, self: ConnId)
  {
    r in typing && typing[r] == {self}
  }

  /** No room key occurs twice, as in the key list of a JavaScript Map: each key is new when appended. */
  predicate Distinct(rooms: seq<Room>)
  {
    rooms == [] || (rooms[|rooms| - 1] !in rooms[..|rooms| - 1] && Distinct(rooms[..|rooms| - 1]))
  }

  /** In a list without repeats, an element does not occur before its own position. */
  lemma {:induction false} DistinctNotBefore(rooms: seq<Room>, i: nat)
    requires Distinct(rooms) && i < |rooms|
    ensures rooms[i] !in rooms[..i]
  {
    var n := |rooms| - 1;
    if i < n {
      DistinctNotBefore(rooms[..n], i);
      assert rooms[..n][..i] == rooms[..i];
    }
  }

  /** The "stop typing" emission to room `r`. */
  function StopTypingTo(members: RoomTable, r: Room, self: ConnId): Emission
  {
    ToRoomEmission(members, r, self, StopTypingEvent, NoPayload)
  }

  /**
   The emissions of the `forEach` over the rooms `rooms` of `typing`, built the
   way the loop builds them: a room's set that holds `self` loses it, and
   if the set is then empty "stop typing" goes to the room.
   */
  function StopSweep(rooms: seq<Room>, typing: RoomTable, self: ConnId, members: RoomTable): seq<Emission>
  {
    if rooms == [] then []
    else
      var r := rooms[|rooms| - 1];
      StopSweep(rooms[..|rooms| - 1], typing, self, members) +
      (if r in typing && self in typing[r] && typing[r] - {self} == {} then [StopTypingTo(members, r, self)] else [])
  }

  /**
   Every emission of the sweep is a "stop typing" to one of the swept rooms that
   `self` empties; every such room gets one; and no room gets two.
   */
  lemma {:induction false} StopSweepExact(rooms: seq<Room>, typing: RoomTable, self: ConnId, members: RoomTable)
    ensures forall e :: e in StopSweep(rooms, typing, self, members) ==>
      e.target.ToRoom? && e.target.room in rooms && EmptiedBy(typing, e.target.room, self) &&
      e == StopTypingTo(members, e.target.room, self)
    ensures forall r :: r in rooms && EmptiedBy(typing, r, self) ==>
      StopTypingTo(members, r, self) in StopSweep(rooms, typing, self, members)
    ensures Distinct(rooms) ==> forall i, j :: 0 <= i < j < |StopSweep(rooms, typing, self, members)| ==>
      StopSweep(rooms, typing, self, members)[i].target != StopSweep(rooms, typing, self, members)[j].target
  {
    if rooms != [] {
      var init, r := rooms[..|rooms| - 1], rooms[|rooms| - 1];
      StopSweepExact(init, typing, self, members);
      assert rooms == init + [r];
      var prefix := StopSweep(init, typing, self, members);
      var s := StopSweep(rooms, typing, self, members);
      if r in typing && self in typing[r] && typing[r] - {self} == {} {
        assert typing[r] == {self};
        assert s == prefix + [StopTypingTo(members, r, self)];
        if Distinct(rooms) {
          forall k | 0 <= k < |prefix|
            ensures prefix[k].target != ToRoom(r)
          {
            assert prefix[k] in prefix;
            var i :| 0 <= i < |init| && init[i] == prefix[k].target.room;
            assert rooms[i] == init[i] && rooms[|rooms| - 1] == r;
          }
        }
      } else {
        assert s == prefix;
        assert !EmptiedBy(typing, r, self);
      }
    }
  }

  /**
   `typingUsers` after `disconnect`: the same keys (emptied sets stay), no set
   holds `self`, and every other connection keeps its place.
   */
  function Cleared(typing: RoomTable, self: ConnId): (t: RoomTable)
    ensures t.Keys == typing.Keys
    ensures forall r :: r in t ==> self !in t[r] && t[r] <= typing[r]
    ensures forall r, c :: r in typing && c in typing[r] && c != self ==> c in t[r]
  {
    map r | r in typing :: typing[r] - {self}
  }

  /**
   `typingUsers` part way through the `disconnect` sweep, built the way the loop
   builds it: after the rooms of `done`, in order, each set that held `self` has
   lost it.
   */
  function ClearedIn(typing: RoomTable, done: seq<Room>, self: ConnId): RoomTable
  {
    if done == [] then typing
    else
      var t := ClearedIn(typing, done[..|done| - 1], self);
      var r := done[|done| - 1];
      if r in t && self in t[r] then t[r := t[r] - {self}] else t
  }

  /** Part way through the sweep, a room's set has lost `self` exactly when the room was swept. */
  lemma {:induction false} ClearedInAt(typing: RoomTable, done: seq<Room>, self: ConnId, q: Room)
    ensures q in ClearedIn(typing, done, self) <==> q in typing
    ensures q in typing ==>
      ClearedIn(typing, done, self)[q] == if q in done then typing[q] - {self} else typing[q]
  {
    if done != [] {
      var init, r := done[..|done| - 1], done[|done| - 1];
      ClearedInAt(typing, init, self, q);
      ClearedInAt(typing, init, self, r);
      assert done == init + [r];
      assert q in done <==> q in init || q == r;
    }
  }

  /** Once every key is swept, the sweep's table is `Cleared`. */
  lemma ClearedInAll(typing: RoomTable, done: seq<Room>, self: ConnId)
    requires forall r :: r in typing ==> r in done
    ensures ClearedIn(typing, done, self) == Cleared(typing, self)
  {
    var a, b := ClearedIn(typing, done, self), Cleared(typing, self);
    forall q
      ensures q in a <==> q in b
      ensures q in a ==> a[q] == b[q]
    {
      ClearedInAt(typing, done, self, q);
    }
  }

  /**
   The `forEach` of `disconnect` over the keys of `typingUsers` in insertion
   order: each set holding `self` loses it, and a set left empty sends "stop
   typing" to its room.
   */
  method Sweep(rooms: seq<Room>, typing: RoomTable, self: ConnId, members: RoomTable)
    returns (t: RoomTable, out: seq<Emission>)
    requires Distinct(rooms) && forall r :: r in typing <==> r in rooms
    ensures t == Cleared(typing, self)
    ensures out == StopSweep(rooms, typing, self, members)
  {
    t, out := typing, [];
    var i := 0;
    while i < |rooms|
      invariant 0 <= i <= |rooms|
      invariant t == ClearedIn(typing, rooms[..i], self)
      invariant out == StopSweep(rooms[..i], typing, self, members)
    {
      var r := rooms[i];
      assert rooms[..i + 1][..i] == rooms[..i];
      DistinctNotBefore(rooms, i);
      ClearedInAt(typing, rooms[..i], self, r);
      assert ClearedIn(typing, rooms[..i + 1], self) == if self in t[r] then t[r := t[r] - {self}] else t;
      assert StopSweep(rooms[..i + 1], typing, self, members) == out +
        (if self in t[r] && t[r] - {self} == {} then [StopTypingTo(members, r, self)] else []);
      if self in t[r] {
        t := t[r := t[r] - {self}];
        if t[r] == {} {
          out := out + [StopTypingTo(members, r, self)];
        }
      }
      i := i + 1;
    }
    assert rooms[..|rooms|] == rooms;
    ClearedInAll(typing, rooms, self);
  }

  /** A set that did not hold the departing connection comes through unchanged. */
  lemma ClearedKeepsOthers(typing: RoomTable, self: ConnId, r: Room)
    requires r in typing && self !in typing[r]
    ensures Cleared(typing, self)[r] == typing[r]
  {
  }
}
