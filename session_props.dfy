/** What the handlers promise, proved about the transition functions of
    `Session`. The code does not de-duplicate seekers, so the lemmas at the
    end show the behaviours that follow from that: a seeker matched with its
    own stale entry, a seeker queued twice, a seeker in two rooms. */
module SessionProperties {
  import opened Types
  import opened Pool
  import opened RoomTable
  import opened Session

  /** `sid` is listed by at most one room. */
  predicate InAtMostOneRoom(rooms: seq<Room>, sid: Sid)
  {
    forall i, j :: 0 <= i < j < |rooms| && sid in rooms[i].users ==> sid !in rooms[j].users
  }

  /** The first participant other than `me` of a two-slot room, if any. */
  function PeerOf(users: seq<Sid>, me: Sid): Option<Sid>
    requires |users| == 2
  {
    if users[0] != me then Some(users[0]) else if users[1] != me then Some(users[1]) else None
  }

  lemma IdsOfIndex(rooms: seq<Room>, i: nat)
    requires i < |rooms|
    ensures rooms[i].id in Ids(rooms)
  {
    assert rooms[i] in rooms;
  }

  lemma LookupTwoSlots(s: State, id: RoomId)
    requires Inv(s) && id in Ids(s.rooms)
    ensures |Lookup(s.rooms, id).value| == 2
  {
    var j :| 0 <= j < |s.rooms| && s.rooms[j] == Room(id, Lookup(s.rooms, id).value);
  }

  // ---------------------------------------------------------------- matching

  /** `match_users` succeeds exactly when some waiting entry shares an
      interest with the seeker. It then takes the first such entry in list
      order (all earlier ones are disjoint), appends the room `[seeker,
      partner]`, removes exactly that entry keeping the rest in order, and
      sends both sides `matched` with the same room and the same non-empty
      common set. Otherwise nothing changes and nothing is sent. */
  lemma MatchOutcome(s: State, sid: Sid, interests: seq<Interest>, id: RoomId)
    requires id !in Ids(s.rooms)
    ensures var r := Match(s, sid, interests, id);
      r.matched <==> exists j :: 0 <= j < |s.waiting| && Overlaps(interests, s.waiting[j].interests)
    ensures var r := Match(s, sid, interests, id);
      !r.matched ==> r.state == s
    ensures var r := Match(s, sid, interests, id);
      r.matched ==>
        var i := FirstFit(s.waiting, interests).value;
        var p := s.waiting[i];
        var c := Common(interests, p.interests);
        && c != {}
        && (forall x :: x in c <==> x in interests && x in p.interests)
        && (forall j :: 0 <= j < i ==> Common(interests, s.waiting[j].interests) == {})
        && r.state.waiting == s.waiting[..i] + s.waiting[i + 1..]
        && r.state.rooms == s.rooms + [Room(id, [sid, p.sid])]
        && r.state.outbox == s.outbox + [JoinRoom(sid, id), JoinRoom(p.sid, id),
                                         Matched(sid, id, c), Matched(p.sid, id, c)]
  {
    match FirstFit(s.waiting, interests)
    case None =>
    case Some(i) =>
      var p := s.waiting[i];
      forall j | 0 <= j < i ensures s.waiting[j] != p {
        assert !Overlaps(interests, s.waiting[j].interests);
      }
      RemoveFirstAt(s.waiting, i);
      AssignFresh(s.rooms, id, [sid, p.sid]);
  }

  /** A match with a fresh id keeps the room table a dictionary of two-slot rooms. */
  lemma MatchKeepsInv(s: State, sid: Sid, interests: seq<Interest>, id: RoomId)
    requires Inv(s) && id !in Ids(s.rooms)
    ensures Inv(Match(s, sid, interests, id).state)
  {
    MatchOutcome(s, sid, interests, id);
    var r := Match(s, sid, interests, id).state;
    if r != s {
      forall i | 0 <= i < |s.rooms| ensures s.rooms[i].id != id {
        IdsOfIndex(s.rooms, i);
      }
      assert forall i :: 0 <= i < |s.rooms| ==> r.rooms[i] == s.rooms[i];
    }
  }

  // ----------------------------------------------------------------- leaving

  /** `leave_current_room` touches only the first room, in dictionary order,
      listing `sid`: that room's key disappears and every other key keeps its
      participants; its first other participant, if there is one, gets
      `partner_left`. A `sid` listed by no room changes nothing and sends
      nothing. The waiting list is never touched. */
  lemma LeaveOutcome(s: State, sid: Sid)
    requires Inv(s)
    ensures Leave(s, sid).waiting == s.waiting
    ensures FirstRoomOf(s.rooms, sid).None? ==> Leave(s, sid) == s
    ensures FirstRoomOf(s.rooms, sid).Some? ==>
      var i := FirstRoomOf(s.rooms, sid).value;
      var room := s.rooms[i];
      var t := Leave(s, sid);
      && (forall j :: 0 <= j < i ==> sid !in s.rooms[j].users)
      && t.rooms == s.rooms[..i] + s.rooms[i + 1..]
      && Lookup(t.rooms, room.id).None?
      && (forall k :: k != room.id ==> Lookup(t.rooms, k) == Lookup(s.rooms, k))
      && t.outbox == s.outbox
                     + (match PeerOf(room.users, sid) case Some(p) => [PartnerLeft(p)] case None => [])
                     + [LeaveRoom(sid, room.id)]
  {
    match FirstRoomOf(s.rooms, sid)
    case None =>
    case Some(i) =>
      var room := s.rooms[i];
      DeleteAt(s.rooms, i);
      forall k ensures Lookup(Delete(s.rooms, room.id), k) == if k == room.id then None else Lookup(s.rooms, k) {
        LookupDelete(s.rooms, room.id, k);
      }
      OthersOfPair(room.users, sid);
  }

  /** Leaving keeps the room table a dictionary of two-slot rooms, and keeps
      every key it had (but the deleted one), so a fresh id stays fresh. */
  lemma LeaveKeepsInv(s: State, sid: Sid)
    requires Inv(s)
    ensures Inv(Leave(s, sid))
    ensures Ids(Leave(s, sid).rooms) <= Ids(s.rooms)
  {
    match FirstRoomOf(s.rooms, sid)
    case None =>
    case Some(i) =>
      var t := s.rooms[..i] + s.rooms[i + 1..];
      DeleteAt(s.rooms, i);
      assert Leave(s, sid).rooms == t;
      RemoveAtDistinct(s.rooms, i);
      RemoveAtPairs(s.rooms, i);
      RemoveAtIds(s.rooms, i);
  }

  /** Once `sid`'s only room is gone, no room lists it any more. */
  lemma LeaveClears(s: State, sid: Sid)
    requires Inv(s) && InAtMostOneRoom(s.rooms, sid)
    ensures FirstRoomOf(Leave(s, sid).rooms, sid).None?
  {
    match FirstRoomOf(s.rooms, sid)
    case None =>
    case Some(i) =>
      var t := s.rooms[..i] + s.rooms[i + 1..];
      DeleteAt(s.rooms, i);
      assert Leave(s, sid).rooms == t;
      forall j | 0 <= j < |t| ensures sid !in t[j].users {
        assert t[j] == s.rooms[if j < i then j else j + 1];
      }
  }

  /** Leaving twice is leaving once, as long as `sid` was in at most one room. */
  lemma LeaveIdempotent(s: State, sid: Sid)
    requires Inv(s) && InAtMostOneRoom(s.rooms, sid)
    ensures Leave(Leave(s, sid), sid) == Leave(s, sid)
  {
    LeaveClears(s, sid);
  }

  /** A `sid` listed by two rooms is still listed after one leave: only the
      first of them goes, and the later one stays in the table. */
  lemma LeaveOnlyFirst(s: State, sid: Sid, a: nat, b: nat)
    requires Inv(s) && a < b < |s.rooms|
    requires sid in s.rooms[a].users && sid in s.rooms[b].users
    ensures s.rooms[b] in Leave(s, sid).rooms
    ensures FirstRoomOf(Leave(s, sid).rooms, sid).Some?
  {
    var i := FirstRoomOf(s.rooms, sid).value;
    assert i <= a;
    var t := s.rooms[..i] + s.rooms[i + 1..];
    DeleteAt(s.rooms, i);
    assert Leave(s, sid).rooms == t;
    assert t[b - 1] == s.rooms[b];
  }

  // ------------------------------------------------------------- disconnect

  /** `on_disconnect` drops every waiting entry of `sid` and keeps all others
      in their order, then performs exactly one `leave_current_room`, whose
      effect on rooms and outbox does not depend on the waiting list. */
  lemma DisconnectOutcome(s: State, sid: Sid)
    requires Inv(s)
    ensures forall e :: e in Disconnect(s, sid).waiting <==> e in s.waiting && e.sid != sid
    ensures forall a, b :: s.waiting == a + b ==>
              Disconnect(s, sid).waiting == Without(a, sid) + Without(b, sid)
    ensures Disconnect(s, sid).rooms == Leave(s, sid).rooms
    ensures Disconnect(s, sid).outbox == Leave(s, sid).outbox
  {
    var s' := s.(waiting := Without(s.waiting, sid));
    LeaveOutcome(s', sid);
    LeaveOutcome(s, sid);
    WithoutMembers(s.waiting, sid);
    forall a, b | s.waiting == a + b
      ensures Disconnect(s, sid).waiting == Without(a, sid) + Without(b, sid)
    {
      WithoutConcat(a, b, sid);
    }
  }

  /** After a disconnect of a `sid` in at most one room, no waiting entry and
      no room mentions it, and a second disconnect changes nothing. */
  lemma DisconnectIdempotent(s: State, sid: Sid)
    requires Inv(s) && InAtMostOneRoom(s.rooms, sid)
    ensures forall e :: e in Disconnect(s, sid).waiting ==> e.sid != sid
    ensures forall j :: 0 <= j < |Disconnect(s, sid).rooms| ==> sid !in Disconnect(s, sid).rooms[j].users
    ensures Disconnect(Disconnect(s, sid), sid) == Disconnect(s, sid)
  {
    var w := Without(s.waiting, sid);
    var s' := s.(waiting := w);
    var t := Leave(s', sid);
    assert t.waiting == w by { LeaveOutcome(s', sid); }
    WithoutMembers(s.waiting, sid);
    LeaveClears(s', sid);
    WithoutIdempotent(s.waiting, sid);
    assert t.(waiting := Without(t.waiting, sid)) == t;
  }

  // ------------------------------------------------------------ find_partner

  /** `find_partner` leaves the current room first. With no overlapping
      waiting entry it appends `{sid, interests}` at the end of the waiting
      list, keeping every earlier entry (those of `sid` included), and sends
      `waiting` to the caller only. Otherwise it matches against the list as
      it stood, in the room table left by the leave. */
  lemma FindPartnerOutcome(s: State, sid: Sid, data: Option<seq<Interest>>, id: RoomId)
    requires Inv(s) && id !in Ids(s.rooms)
    ensures var interests := InterestsOf(data);
      var l := Leave(s, sid);
      var t := FindPartner(s, sid, data, id);
      FirstFit(s.waiting, interests).None? ==>
        && t.waiting == s.waiting + [Entry(sid, interests)]
        && t.rooms == l.rooms
        && t.outbox == l.outbox + [Waiting(sid)]
    ensures var interests := InterestsOf(data);
      var l := Leave(s, sid);
      var t := FindPartner(s, sid, data, id);
      FirstFit(s.waiting, interests).Some? ==>
        var i := FirstFit(s.waiting, interests).value;
        var p := s.waiting[i];
        var c := Common(interests, p.interests);
        && t.waiting == s.waiting[..i] + s.waiting[i + 1..]
        && t.rooms == l.rooms + [Room(id, [sid, p.sid])]
        && t.outbox == l.outbox + [JoinRoom(sid, id), JoinRoom(p.sid, id),
                                   Matched(sid, id, c), Matched(p.sid, id, c)]
    ensures Inv(FindPartner(s, sid, data, id))
  {
    var l := Leave(s, sid);
    LeaveOutcome(s, sid);
    LeaveKeepsInv(s, sid);
    MatchOutcome(l, sid, InterestsOf(data), id);
    MatchKeepsInv(l, sid, InterestsOf(data), id);
  }

  // --------------------------------------------------------------- relays

  /** `handle_message` relays only when the room field is present and
      non-empty, and then appends one `new_message` for that room from the
      sender, carrying the message field, or the empty text when the field
      is missing; it never changes the waiting list or the room table. */
  lemma MessageGuard(s: State, sender: Sid, room: Option<RoomId>, text: Option<string>)
    ensures Message(s, sender, room, text).waiting == s.waiting
    ensures Message(s, sender, room, text).rooms == s.rooms
    ensures Message(s, sender, room, text).outbox == s.outbox <==> room.None? || room.value == ""
    ensures room.Some? && room.value != "" ==>
      var o := Message(s, sender, room, text).outbox;
      |o| == |s.outbox| + 1 && o[..|s.outbox|] == s.outbox &&
      o[|s.outbox|].NewMessage? && o[|s.outbox|].room == room.value && o[|s.outbox|].sender == sender
    ensures room.Some? && room.value != "" ==>
      Message(s, sender, room, text).outbox[|s.outbox|].text == (if text.Some? then text.value else "")
  {
  }

  /** `handle_typing` / `handle_stop_typing` do nothing for a room not in the
      table; otherwise they notify only the first participant other than the
      sender (never the sender itself), and nothing when the room lists
      nobody else. */
  lemma IndicateOutcome(s: State, sender: Sid, room: Option<RoomId>, stop: bool)
    requires Inv(s)
    ensures Indicate(s, sender, room, stop).waiting == s.waiting
    ensures Indicate(s, sender, room, stop).rooms == s.rooms
    ensures room.None? || room.value !in Ids(s.rooms) ==> Indicate(s, sender, room, stop) == s
    ensures room.Some? && room.value in Ids(s.rooms) ==>
      var users := Lookup(s.rooms, room.value).value;
      && |users| == 2
      && Indicate(s, sender, room, stop).outbox ==
           s.outbox + (match PeerOf(users, sender) case Some(p) => [Signal(stop, p)] case None => [])
    ensures forall k :: |s.outbox| <= k < |Indicate(s, sender, room, stop).outbox| ==>
              Indicate(s, sender, room, stop).outbox[k] != Signal(stop, sender)
  {
    if room.Some? && room.value in Ids(s.rooms) {
      var users := Lookup(s.rooms, room.value).value;
      LookupTwoSlots(s, room.value);
      OthersOfPair(users, sender);
    }
  }

  // ------------------------------------------- what the lack of de-duplication allows

  /** `find_partner` never drops an earlier entry of the caller, so a seeker
      that asks again with the same non-empty interests is matched with its
      own stale entry: the room lists the same connection twice, and leaving
      it tells nobody `partner_left`. */
  lemma SelfMatch(s: State, sid: Sid, interests: seq<Interest>, id1: RoomId, id2: RoomId)
    requires Inv(s) && id1 !in Ids(s.rooms) && id2 !in Ids(s.rooms)
    requires interests != []
    requires FirstFit(s.waiting, interests).None?
    requires FirstRoomOf(s.rooms, sid).None?
    ensures var t1 := FindPartner(s, sid, Some(interests), id1);
      var t2 := FindPartner(t1, sid, Some(interests), id2);
      && t1.waiting == s.waiting + [Entry(sid, interests)]
      && t2.waiting == s.waiting
      && t2.rooms == s.rooms + [Room(id2, [sid, sid])]
      && Leave(t2, sid).outbox == t2.outbox + [LeaveRoom(sid, id2)]
  {
    var t1 := FindPartner(s, sid, Some(interests), id1);
    QueueOnce(s, sid, interests, id1);
    var t2 := FindPartner(t1, sid, Some(interests), id2);
    MatchOwnEntry(t1, s.waiting, s.rooms, sid, interests, id2);
    LeaveSelfRoom(t2, sid, id2);
  }

  /** First half of `SelfMatch`: nothing overlaps, so the seeker is queued. */
  lemma QueueOnce(s: State, sid: Sid, interests: seq<Interest>, id: RoomId)
    requires Inv(s) && id !in Ids(s.rooms)
    requires FirstFit(s.waiting, interests).None?
    requires FirstRoomOf(s.rooms, sid).None?
    ensures var t := FindPartner(s, sid, Some(interests), id);
      t.waiting == s.waiting + [Entry(sid, interests)] && t.rooms == s.rooms && Inv(t)
  {
    FindPartnerOutcome(s, sid, Some(interests), id);
    LeaveOutcome(s, sid);
  }

  /** Second half of `SelfMatch`: the seeker's own entry is the first fit. */
  lemma MatchOwnEntry(t: State, w: seq<Entry>, rs: seq<Room>, sid: Sid, interests: seq<Interest>, id: RoomId)
    requires Inv(t) && t.waiting == w + [Entry(sid, interests)] && t.rooms == rs
    requires id !in Ids(rs) && interests != []
    requires FirstFit(w, interests).None?
    requires FirstRoomOf(rs, sid).None?
    ensures var t2 := FindPartner(t, sid, Some(interests), id);
      t2.waiting == w && t2.rooms == rs + [Room(id, [sid, sid])] && Inv(t2)
  {
    var n := |w|;
    assert t.waiting[n] == Entry(sid, interests);
    assert forall j :: 0 <= j < n ==> t.waiting[j] == w[j];
    assert interests[0] in Common(interests, interests);
    FirstFitUnique(t.waiting, interests, n);
    LeaveOutcome(t, sid);
    FindPartnerOutcome(t, sid, Some(interests), id);
    assert t.waiting[..n] == w;
  }

  /** Leaving a room `[sid, sid]` appended last notifies nobody. */
  lemma LeaveSelfRoom(t: State, sid: Sid, id: RoomId)
    requires Inv(t) && |t.rooms| > 0 && t.rooms[|t.rooms| - 1] == Room(id, [sid, sid])
    requires FirstRoomOf(t.rooms[..|t.rooms| - 1], sid).None?
    ensures Leave(t, sid).outbox == t.outbox + [LeaveRoom(sid, id)]
  {
    var n := |t.rooms| - 1;
    assert forall j :: 0 <= j < n ==> t.rooms[j] == t.rooms[..n][j];
    FirstRoomOfUnique(t.rooms, sid, n);
    OthersOfPair([sid, sid], sid);
  }

  /** A seeker that asks again with interests disjoint from its first ones
      (and from everyone waiting) is queued a second time. */
  lemma QueuedTwice(s: State, sid: Sid, a: seq<Interest>, b: seq<Interest>, id1: RoomId, id2: RoomId)
    requires Inv(s) && id1 !in Ids(s.rooms) && id2 !in Ids(s.rooms)
    requires FirstFit(s.waiting, a).None? && FirstFit(s.waiting, b).None?
    requires Common(b, a) == {}
    requires FirstRoomOf(s.rooms, sid).None?
    ensures var t1 := FindPartner(s, sid, Some(a), id1);
      var t2 := FindPartner(t1, sid, Some(b), id2);
      && t2.waiting == s.waiting + [Entry(sid, a), Entry(sid, b)]
      && t2.rooms == s.rooms
      && t2.outbox == s.outbox + [Waiting(sid), Waiting(sid)]
  {
    var t1 := FindPartner(s, sid, Some(a), id1);
    FindPartnerOutcome(s, sid, Some(a), id1);
    LeaveOutcome(s, sid);
    forall j | 0 <= j < |t1.waiting| ensures !Overlaps(b, t1.waiting[j].interests) {
      if j < |s.waiting| {
        assert t1.waiting[j] == s.waiting[j];
      }
    }
    LeaveOutcome(t1, sid);
    FindPartnerOutcome(t1, sid, Some(b), id2);
  }

  /** A reachable run in which one connection sits in two rooms: "A" queues
      twice, "B" and "C" each match one of its entries, and when "A"
      disconnects only the first room goes; "C" is never told. */
  lemma TwoRoomsTrace()
    ensures var s1 := FindPartner(Initial, "A", Some(["x"]), "r0");
      var s2 := FindPartner(s1, "A", Some(["y"]), "r0");
      var s3 := FindPartner(s2, "B", Some(["x"]), "r1");
      var s4 := FindPartner(s3, "C", Some(["y"]), "r2");
      var s5 := Disconnect(s4, "A");
      && s2.waiting == [Entry("A", ["x"]), Entry("A", ["y"])]
      && s4.waiting == []
      && s4.rooms == [Room("r1", ["B", "A"]), Room("r2", ["C", "A"])]
      && s5.rooms == [Room("r2", ["C", "A"])]
      && s5.outbox == s4.outbox + [PartnerLeft("B"), LeaveRoom("A", "r1")]
  {
    var ex, ey := Entry("A", ["x"]), Entry("A", ["y"]);
    var o2 := [Waiting("A"), Waiting("A")];
    var o3 := o2 + [JoinRoom("B", "r1"), JoinRoom("A", "r1"),
                    Matched("B", "r1", {"x"}), Matched("A", "r1", {"x"})];
    var o4 := o3 + [JoinRoom("C", "r2"), JoinRoom("A", "r2"),
                    Matched("C", "r2", {"y"}), Matched("A", "r2", {"y"})];
    var r1, r2 := Room("r1", ["B", "A"]), Room("r2", ["C", "A"]);
    TraceQueue();
    TraceFirstMatch(State([ex, ey], [], o2));
    TraceSecondMatch(State([ey], [r1], o3));
    TraceDisconnect(State([], [r1, r2], o4));
  }

  lemma TraceQueue()
    ensures var s1 := FindPartner(Initial, "A", Some(["x"]), "r0");
      FindPartner(s1, "A", Some(["y"]), "r0") ==
        State([Entry("A", ["x"]), Entry("A", ["y"])], [], [Waiting("A"), Waiting("A")])
  {
    var ex := Entry("A", ["x"]);
    var s1 := FindPartner(Initial, "A", Some(["x"]), "r0");
    assert s1 == State([ex], [], [Waiting("A")]);
    assert Leave(s1, "A") == s1;
    assert forall x :: x in Common(["y"], ["x"]) ==> x == "y" && x == "x";
    assert Common(["y"], ["x"]) == {};
    assert FirstFit([ex], ["y"]) == None;
  }

  lemma TraceFirstMatch(s: State)
    requires s == State([Entry("A", ["x"]), Entry("A", ["y"])], [], [Waiting("A"), Waiting("A")])
    ensures FindPartner(s, "B", Some(["x"]), "r1") ==
      State([Entry("A", ["y"])], [Room("r1", ["B", "A"])],
            s.outbox + [JoinRoom("B", "r1"), JoinRoom("A", "r1"),
                        Matched("B", "r1", {"x"}), Matched("A", "r1", {"x"})])
  {
    assert "x" in Common(["x"], ["x"]);
    assert Common(["x"], ["x"]) == {"x"};
    assert Leave(s, "B") == s;
    assert FirstFit(s.waiting, ["x"]) == Some(0);
    assert RemoveFirst(s.waiting, s.waiting[0]) == [Entry("A", ["y"])];
  }

  lemma TraceSecondMatch(s: State)
    requires s.waiting == [Entry("A", ["y"])] && s.rooms == [Room("r1", ["B", "A"])]
    ensures FindPartner(s, "C", Some(["y"]), "r2") ==
      State([], [Room("r1", ["B", "A"]), Room("r2", ["C", "A"])],
            s.outbox + [JoinRoom("C", "r2"), JoinRoom("A", "r2"),
                        Matched("C", "r2", {"y"}), Matched("A", "r2", {"y"})])
  {
    assert "y" in Common(["y"], ["y"]);
    assert Common(["y"], ["y"]) == {"y"};
    assert FirstRoomOf(s.rooms, "C") == None;
    assert Leave(s, "C") == s;
    assert FirstFit(s.waiting, ["y"]) == Some(0);
    assert Assign(s.rooms, "r2", ["C", "A"]) == [Room("r1", ["B", "A"]), Room("r2", ["C", "A"])];
  }

  lemma TraceDisconnect(s: State)
    requires s.waiting == [] && s.rooms == [Room("r1", ["B", "A"]), Room("r2", ["C", "A"])]
    ensures Disconnect(s, "A") ==
      State([], [Room("r2", ["C", "A"])], s.outbox + [PartnerLeft("B"), LeaveRoom("A", "r1")])
  {
    assert Without(s.waiting, "A") == [];
    assert FirstRoomOf(s.rooms, "A") == Some(0);
    assert Others(["B", "A"], "A") == ["B"];
    assert Delete(s.rooms, "r1") == [Room("r2", ["C", "A"])];
  }

  // ------------------------------------------------------------- scenarios

  /** "C1" (music, film) waits; "C2" (film, sports) then matches it, and both
      are told the room and the single shared interest "film". When "C1"
      disconnects, "C2" is told and the room is gone. */
  lemma MatchThenDisconnectScenario()
    ensures var s1 := FindPartner(Initial, "C1", Some(["music", "film"]), "R0");
      var s2 := FindPartner(s1, "C2", Some(["film", "sports"]), "R");
      var s3 := Disconnect(s2, "C1");
      && s1.waiting == [Entry("C1", ["music", "film"])]
      && s1.outbox == [Waiting("C1")]
      && s2.waiting == []
      && s2.rooms == [Room("R", ["C2", "C1"])]
      && s2.outbox == [Waiting("C1"), JoinRoom("C2", "R"), JoinRoom("C1", "R"),
                       Matched("C2", "R", {"film"}), Matched("C1", "R", {"film"})]
      && s3.rooms == []
      && s3.outbox == s2.outbox + [PartnerLeft("C2"), LeaveRoom("C1", "R")]
  {
    var o2 := [Waiting("C1"), JoinRoom("C2", "R"), JoinRoom("C1", "R"),
               Matched("C2", "R", {"film"}), Matched("C1", "R", {"film"})];
    ScenarioWait();
    ScenarioMatch(State([Entry("C1", ["music", "film"])], [], [Waiting("C1")]));
    ScenarioDisconnect(State([], [Room("R", ["C2", "C1"])], o2));
  }

  lemma ScenarioWait()
    ensures FindPartner(Initial, "C1", Some(["music", "film"]), "R0") ==
      State([Entry("C1", ["music", "film"])], [], [Waiting("C1")])
  {
  }

  lemma ScenarioMatch(s1: State)
    requires s1 == State([Entry("C1", ["music", "film"])], [], [Waiting("C1")])
    ensures FindPartner(s1, "C2", Some(["film", "sports"]), "R") ==
      State([], [Room("R", ["C2", "C1"])],
            [Waiting("C1"), JoinRoom("C2", "R"), JoinRoom("C1", "R"),
             Matched("C2", "R", {"film"}), Matched("C1", "R", {"film"})])
  {
    var c := Common(["film", "sports"], ["music", "film"]);
    assert "film" in c;
    assert c == {"film"};
    assert Leave(s1, "C2") == s1;
    assert FirstFit(s1.waiting, ["film", "sports"]) == Some(0);
  }

  lemma ScenarioDisconnect(s2: State)
    requires s2.waiting == [] && s2.rooms == [Room("R", ["C2", "C1"])]
    ensures Disconnect(s2, "C1") == State([], [], s2.outbox + [PartnerLeft("C2"), LeaveRoom("C1", "R")])
  {
    assert Without(s2.waiting, "C1") == [];
    assert FirstRoomOf(s2.rooms, "C1") == Some(0);
    assert Others(["C2", "C1"], "C1") == ["C2"];
  }
}
