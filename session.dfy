/** The session coordinator's global state and, as pure transition functions,
    what each handler does to it. The emits of every handler are appended to
    an outbox log in the order the handler performs them. */
module Session {
  import opened Types
  import opened Pool
  import opened RoomTable

  /** One outbound call to the transport. */
  datatype Event =
    | Connected(to: Sid)                          // `connected` acknowledgement
    | Waiting(to: Sid)                            // `waiting` status to the seeker
    | Matched(to: Sid, room: RoomId, common: set<Interest>)
    | PartnerLeft(to: Sid)
    | Typing(to: Sid)
    | StopTyping(to: Sid)
    | NewMessage(room: RoomId, sender: Sid, text: string)  // to the room, sender excluded
    | JoinRoom(who: Sid, room: RoomId)            // transport membership calls
    | LeaveRoom(who: Sid, room: RoomId)

  /** `waiting_users`, `rooms`, and everything emitted so far. */
  datatype State = State(waiting: seq<Entry>, rooms: seq<Room>, outbox: seq<Event>)

  datatype MatchResult = MatchResult(state: State, matched: bool)

  /** What the handlers keep true of the room table: it is a dictionary, and
      every room is created with exactly two participant slots (which need not
      hold two different connections). */
  predicate Inv(s: State)
  {
    && DistinctIds(s.rooms)
    && Pairs(s.rooms)
  }

  const Initial := State([], [], [])

  /** `match_users`: a first-fit scan of the waiting list. On a hit the room
      `id` gets the seeker and the partner, both join it, the partner's entry
      leaves the list by `list.remove`, and both are told the shared interests. */
  function Match(s: State, sid: Sid, interests: seq<Interest>, id: RoomId): MatchResult
  {
    match FirstFit(s.waiting, interests)
    case None => MatchResult(s, false)
    case Some(i) =>
      var other := s.waiting[i];
      var common := Common(interests, other.interests);
      MatchResult(
        State(RemoveFirst(s.waiting, other),
              Assign(s.rooms, id, [sid, other.sid]),
              s.outbox + [JoinRoom(sid, id), JoinRoom(other.sid, id),
                          Matched(sid, id, common), Matched(other.sid, id, common)]),
        true)
  }

  /** `leave_current_room`: the first room in dictionary order that lists
      `sid` is deleted, after its first other participant (if any) is told
      `partner_left` and `sid` leaves it. */
  function Leave(s: State, sid: Sid): State
  {
    match FirstRoomOf(s.rooms, sid)
    case None => s
    case Some(i) =>
      var room := s.rooms[i];
      var others := Others(room.users, sid);
      var notice := if others != [] then [PartnerLeft(others[0])] else [];
      State(s.waiting, Delete(s.rooms, room.id), s.outbox + notice + [LeaveRoom(sid, room.id)])
  }

  /** `on_connect`. */
  function Connect(s: State, sid: Sid): State
  {
    s.(outbox := s.outbox + [Connected(sid)])
  }

  /** `on_disconnect`: drop every waiting entry of `sid`, then leave one room. */
  function Disconnect(s: State, sid: Sid): State
  {
    Leave(s.(waiting := Without(s.waiting, sid)), sid)
  }

  /** `data.get('interests', [])`. */
  function InterestsOf(data: Option<seq<Interest>>): seq<Interest>
  {
    if data.Some? then data.value else []
  }

  /** `find_partner`: leave the current room, try to match, and otherwise
      queue the seeker at the end of the waiting list and tell it to wait. */
  function FindPartner(s: State, sid: Sid, data: Option<seq<Interest>>, id: RoomId): State
  {
    var interests := InterestsOf(data);
    var left := Leave(s, sid);
    var m := Match(left, sid, interests, id);
    if m.matched then m.state
    else State(left.waiting + [Entry(sid, interests)], left.rooms, left.outbox + [Waiting(sid)])
  }

  /** `handle_message`: relay to the named room unless the room field is
      missing or empty. */
  function Message(s: State, sender: Sid, room: Option<RoomId>, text: Option<string>): State
  {
    var msg := if text.Some? then text.value else "";
    if room.None? || room.value == "" then s
    else s.(outbox := s.outbox + [NewMessage(room.value, sender, msg)])
  }

  /** The event a typing indicator sends to the peer. */
  function Signal(stop: bool, to: Sid): Event
  {
    if stop then StopTyping(to) else Typing(to)
  }

  /** `handle_typing` (`stop` false) and `handle_stop_typing` (`stop` true):
      when the room is in the table, tell its first participant other than
      the sender. */
  function Indicate(s: State, sender: Sid, room: Option<RoomId>, stop: bool): State
  {
    if room.Some? && Lookup(s.rooms, room.value).Some? then
      var others := Others(Lookup(s.rooms, room.value).value, sender);
      if others != [] then s.(outbox := s.outbox + [Signal(stop, others[0])]) else s
    else s
  }
}
