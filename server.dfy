/** The server's global state as an object whose handlers update it in place:
    `waiting_users` and `rooms` are fields the handlers reassign, and `outbox`
    records every emit. Each handler is proved to move the state exactly as
    the transition function of the same name in `Session` does, and to keep
    the room table a dictionary of two-slot rooms. */
module ChatServer {
  import opened Types
  import opened Pool
  import opened RoomTable
  import opened Session
  import opened SessionProperties

  class Server {
    var waiting: seq<Entry>
    var rooms: seq<Room>
    var outbox: seq<Event>

    function Snapshot(): State
      reads this
    {
      State(waiting, rooms, outbox)
    }

    ghost predicate Valid()
      reads this
    {
      Inv(Snapshot())
    }

    /** The process starts with an empty waiting list and no rooms. */
    constructor ()
      ensures Valid() && Snapshot() == Initial
    {
      waiting, rooms, outbox := [], [], [];
    }

    /** `match_users`, with `id` standing for the uuid it draws on a hit. */
    method MatchUsers(sid: Sid, interests: seq<Interest>, id: RoomId) returns (matched: bool)
      requires Valid() && id !in Ids(rooms)
      modifies this
      ensures Valid()
      ensures MatchResult(Snapshot(), matched) == Match(old(Snapshot()), sid, interests, id)
    {
      MatchKeepsInv(Snapshot(), sid, interests, id);
      var i := 0;
      while i < |waiting|
        invariant 0 <= i <= |waiting|
        invariant Snapshot() == old(Snapshot())
        invariant forall j :: 0 <= j < i ==> !Overlaps(interests, waiting[j].interests)
      {
        var other := waiting[i];
        var common := Common(interests, other.interests);
        if common != {} {
          FirstFitUnique(waiting, interests, i);
          rooms := Assign(rooms, id, [sid, other.sid]);
          outbox := outbox + [JoinRoom(sid, id), JoinRoom(other.sid, id)];
          waiting := RemoveFirst(waiting, other);
          outbox := outbox + [Matched(sid, id, common), Matched(other.sid, id, common)];
          return true;
        }
        i := i + 1;
      }
      return false;
    }

    /** `leave_current_room`: scan a snapshot of the room table and stop at
        the first room listing `sid`. */
    method LeaveCurrentRoom(sid: Sid)
      requires Valid()
      modifies this
      ensures Valid()
      ensures Snapshot() == Leave(old(Snapshot()), sid)
    {
      LeaveKeepsInv(Snapshot(), sid);
      var items := rooms;
      var i := 0;
      while i < |items|
        invariant 0 <= i <= |items|
        invariant items == rooms && Snapshot() == old(Snapshot())
        invariant forall j :: 0 <= j < i ==> sid !in items[j].users
      {
        var room := items[i];
        if sid in room.users {
          FirstRoomOfUnique(items, sid, i);
          var others := Others(room.users, sid);
          if others != [] {
            outbox := outbox + [PartnerLeft(others[0])];
          }
          outbox := outbox + [LeaveRoom(sid, room.id)];
          rooms := Delete(rooms, room.id);
          return;
        }
        i := i + 1;
      }
    }

    /** `on_connect`. */
    method OnConnect(sid: Sid)
      requires Valid()
      modifies this
      ensures Valid()
      ensures Snapshot() == Connect(old(Snapshot()), sid)
    {
      outbox := outbox + [Connected(sid)];
    }

    /** `on_disconnect`. */
    method OnDisconnect(sid: Sid)
      requires Valid()
      modifies this
      ensures Valid()
      ensures Snapshot() == Disconnect(old(Snapshot()), sid)
    {
      waiting := Without(waiting, sid);
      LeaveCurrentRoom(sid);
    }

    /** `find_partner`, with `id` standing for the uuid a match would draw. */
    method FindPartner(sid: Sid, data: Option<seq<Interest>>, id: RoomId)
      requires Valid() && id !in Ids(rooms)
      modifies this
      ensures Valid()
      ensures Snapshot() == Session.FindPartner(old(Snapshot()), sid, data, id)
    {
      var interests := InterestsOf(data);
      LeaveKeepsInv(Snapshot(), sid);
      LeaveCurrentRoom(sid);
      var matched := MatchUsers(sid, interests, id);
      if !matched {
        waiting := waiting + [Entry(sid, interests)];
        outbox := outbox + [Waiting(sid)];
      }
    }

    /** `handle_message`. */
    method HandleMessage(sender: Sid, room: Option<RoomId>, text: Option<string>)
      requires Valid()
      modifies this
      ensures Valid()
      ensures Snapshot() == Message(old(Snapshot()), sender, room, text)
    {
      var msg := if text.Some? then text.value else "";
      if room.None? || room.value == "" {
        return;
      }
      outbox := outbox + [NewMessage(room.value, sender, msg)];
    }

    /** `handle_typing`. */
    method HandleTyping(sender: Sid, room: Option<RoomId>)
      requires Valid()
      modifies this
      ensures Valid()
      ensures Snapshot() == Indicate(old(Snapshot()), sender, room, false)
    {
      if room.Some? && Lookup(rooms, room.value).Some? {
        var others := Others(Lookup(rooms, room.value).value, sender);
        if others != [] {
          outbox := outbox + [Typing(others[0])];
        }
      }
    }

    /** `handle_stop_typing`. */
    method HandleStopTyping(sender: Sid, room: Option<RoomId>)
      requires Valid()
      modifies this
      ensures Valid()
      ensures Snapshot() == Indicate(old(Snapshot()), sender, room, true)
    {
      if room.Some? && Lookup(rooms, room.value).Some? {
        var others := Others(Lookup(rooms, room.value).value, sender);
        if others != [] {
          outbox := outbox + [StopTyping(others[0])];
        }
      }
    }
  }
}
