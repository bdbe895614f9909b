/** The room table: an insertion-ordered dictionary from room id to the list
    of its participants, kept as a sequence of rooms so that iteration order
    is the order in which the rooms were created. */
module RoomTable {
  import opened Types

  datatype Room = Room(id: RoomId, users: seq<Sid>)

  /** The keys of the dictionary. */
  function Ids(rooms: seq<Room>): set<RoomId>
  {
    set r | r in rooms :: r.id
  }

  /** A dictionary holds every key at most once. */
  predicate DistinctIds(rooms: seq<Room>)
  {
    forall i, j :: 0 <= i < j < |rooms| ==> rooms[i].id != rooms[j].id
  }

  /** Every room has two participant slots. */
  predicate Pairs(rooms: seq<Room>)
  {
    forall i :: 0 <= i < |rooms| ==> |rooms[i].users| == 2
  }

  /** `rooms.get(id)`. */
  function Lookup(rooms: seq<Room>, id: RoomId): (r: Option<seq<Sid>>)
    ensures r.Some? <==> id in Ids(rooms)
    ensures r.Some? ==> Room(id, r.value) in rooms
  {
    if rooms == [] then None
    else if rooms[0].id == id then Some(rooms[0].users)
    else
      assert rooms == [rooms[0]] + rooms[1..];
      Lookup(rooms[1..], id)
  }

  /** `rooms[id] = users`: overwrite in place when the key is present,
      otherwise insert at the end. */
  function Assign(rooms: seq<Room>, id: RoomId, users: seq<Sid>): seq<Room>
  {
    if rooms == [] then [Room(id, users)]
    else if rooms[0].id == id then [Room(id, users)] + rooms[1..]
    else [rooms[0]] + Assign(rooms[1..], id, users)
  }

  /** `del rooms[id]`: drop the entry for the key, keeping the others in order. */
  function Delete(rooms: seq<Room>, id: RoomId): seq<Room>
  {
    if rooms == [] then []
    else if rooms[0].id == id then rooms[1..]
    else [rooms[0]] + Delete(rooms[1..], id)
  }

  /** Inserting a fresh key appends the new room after all existing ones. */
  lemma {:induction false} AssignFresh(rooms: seq<Room>, id: RoomId, users: seq<Sid>)
    requires id !in Ids(rooms)
    ensures Assign(rooms, id, users) == rooms + [Room(id, users)]
  {
    if rooms != [] {
      assert rooms[0] in rooms;
      assert Ids(rooms[1..]) <= Ids(rooms) by {
        forall k | k in Ids(rooms[1..]) ensures k in Ids(rooms) {
          var r :| r in rooms[1..] && r.id == k;
          assert r in rooms;
        }
      }
      AssignFresh(rooms[1..], id, users);
      assert rooms == [rooms[0]] + rooms[1..];
    }
  }

  /** Dictionary read-after-write: the written key maps to the new list and
      every other key keeps its old entry. */
  lemma {:induction false} LookupAssign(rooms: seq<Room>, id: RoomId, users: seq<Sid>, k: RoomId)
    ensures Lookup(Assign(rooms, id, users), k) == if k == id then Some(users) else Lookup(rooms, k)
  {
    if rooms != [] && rooms[0].id != id {
      LookupAssign(rooms[1..], id, users, k);
    }
  }

  /** In a dictionary, deleting the key of position `i` removes exactly that
      position. */
  lemma {:induction false} DeleteAt(rooms: seq<Room>, i: nat)
    requires DistinctIds(rooms) && i < |rooms|
    ensures Delete(rooms, rooms[i].id) == rooms[..i] + rooms[i + 1..]
  {
    if i > 0 {
      var tail := rooms[1..];
      assert rooms[0].id != rooms[i].id;
      assert tail[i - 1] == rooms[i];
      DeleteAt(tail, i - 1);
      assert rooms[..i] == [rooms[0]] + tail[..i - 1];
      assert rooms[i + 1..] == tail[i..];
    }
  }

  /** Dictionary read-after-delete: the deleted key is gone and every other
      key keeps its entry. */
  lemma {:induction false} LookupDelete(rooms: seq<Room>, id: RoomId, k: RoomId)
    requires DistinctIds(rooms)
    ensures Lookup(Delete(rooms, id), k) == if k == id then None else Lookup(rooms, k)
  {
    if rooms != [] {
      if rooms[0].id == id {
        if k == id {
          assert id !in Ids(rooms[1..]) by {
            forall r | r in rooms[1..] ensures r.id != id {
              var j :| 0 <= j < |rooms[1..]| && rooms[1..][j] == r;
              assert rooms[j + 1] == r;
            }
          }
        }
      } else {
        LookupDelete(rooms[1..], id, k);
      }
    }
  }

  /** Removing one position keeps the keys distinct. */
  lemma RemoveAtDistinct(rooms: seq<Room>, i: nat)
    requires DistinctIds(rooms) && i < |rooms|
    ensures DistinctIds(rooms[..i] + rooms[i + 1..])
  {
    var r := rooms[..i] + rooms[i + 1..];
    forall a, b | 0 <= a < b < |r| ensures r[a].id != r[b].id {
      var a' := if a < i then a else a + 1;
      var b' := if b < i then b else b + 1;
      assert r[a] == rooms[a'] && r[b] == rooms[b'];
    }
  }

  /** Removing one position removes no other key. */
  lemma RemoveAtIds(rooms: seq<Room>, i: nat)
    requires i < |rooms|
    ensures Ids(rooms[..i] + rooms[i + 1..]) <= Ids(rooms)
  {
    var t := rooms[..i] + rooms[i + 1..];
    forall k | k in Ids(t) ensures k in Ids(rooms) {
      var r :| r in t && r.id == k;
      assert r in rooms;
    }
  }

  /** Removing one position keeps every room two-slot. */
  lemma RemoveAtPairs(rooms: seq<Room>, i: nat)
    requires Pairs(rooms) && i < |rooms|
    ensures Pairs(rooms[..i] + rooms[i + 1..])
  {
    var t := rooms[..i] + rooms[i + 1..];
    forall j | 0 <= j < |t| ensures |t[j].users| == 2 {
      assert t[j] == rooms[if j < i then j else j + 1];
    }
  }

  /** The index of the first room, in dictionary order, that lists `sid`
      among its participants. */
  function FirstRoomOf(rooms: seq<Room>, sid: Sid): (r: Option<nat>)
    ensures r.Some? ==> r.value < |rooms| && sid in rooms[r.value].users
    ensures r.Some? ==> forall j :: 0 <= j < r.value ==> sid !in rooms[j].users
    ensures r.None? <==> forall j :: 0 <= j < |rooms| ==> sid !in rooms[j].users
  {
    if rooms == [] then None
    else if sid in rooms[0].users then Some(0)
    else
      match FirstRoomOf(rooms[1..], sid)
      case None => None
      case Some(k) =>
        assert rooms[1..][k] == rooms[k + 1];
        Some(k + 1)
  }

  /** The first room listing `sid` is determined by its characterisation. */
  lemma FirstRoomOfUnique(rooms: seq<Room>, sid: Sid, i: nat)
    requires i < |rooms| && sid in rooms[i].users
    requires forall j :: 0 <= j < i ==> sid !in rooms[j].users
    ensures FirstRoomOf(rooms, sid) == Some(i)
  {
  }

  /** `[u for u in users if u != me]`: the participants other than `me`, in
      their order in the room. */
  function Others(users: seq<Sid>, me: Sid): (r: seq<Sid>)
    ensures forall u :: u in r <==> u in users && u != me
  {
    if users == [] then []
    else
      assert users == [users[0]] + users[1..];
      (if users[0] == me then [] else [users[0]]) + Others(users[1..], me)
  }

  /** In a two-slot room the first participant other than `me` is the first
      slot when it is not `me`, else the second slot when it is not `me`. */
  lemma OthersOfPair(users: seq<Sid>, me: Sid)
    requires |users| == 2
    ensures Others(users, me) != [] <==> users[0] != me || users[1] != me
    ensures Others(users, me) != [] ==>
              Others(users, me)[0] == if users[0] != me then users[0] else users[1]
  {
    var tail := users[1..];
    assert tail[0] == users[1] && tail[1..] == [];
    assert Others(tail, me) == if users[1] == me then [] else [users[1]];
  }
}
