/** Presence: binding a connection to a role slot on connect, and the
    identity-checked unbind on disconnect (the socket `connection` and
    `disconnect` handlers of server.js and
    controllers/socket/connectionHandler.js). */
module Presence {
  import opened Base
  import opened Events
  import opened Rooms
  import opened Http

  /** What a connection remembers about itself (`socket.data`); "" marks an
      absent field, and `Unjoined` is the empty record. */
  datatype SocketData = SocketData(name: string, code: string, role: string)

  const Unjoined: SocketData := SocketData("", "", "")

  function JoinNotice(name: string, role: string): string
  {
    name + "님(" + role + ")이 입장했습니다."
  }

  function LeaveNotice(name: string, role: string): string
  {
    Or(name, "익명") + "님(" + Or(role, "알수없음") + ")이 퇴장했습니다."
  }

  /** The room after `sid` claims the slot of `role`; other roles bind nothing. */
  function Bind(room: Room, role: string, sid: SocketId): Room
  {
    if role == "client" then room.(clientId := Some(sid))
    else if role == "counselor" then room.(counselorId := Some(sid))
    else room
  }

  /** The room after `sid` leaves the slot of `role`, if it still holds it. */
  function Unbind(room: Room, role: string, sid: SocketId): Room
  {
    if role == "client" && room.clientId == Some(sid) then room.(clientId := None)
    else if role == "counselor" && room.counselorId == Some(sid) then room.(counselorId := None)
    else room
  }

  datatype Joined = Joined(rooms: Registry, data: SocketData, out: seq<Emission>)

  /** A socket connects with the session established over HTTP. */
  function Connect(v: Variant, rooms: Registry, session: Fields, sid: SocketId): (j: Joined)
    ensures var name := Read(session, "name"); var code := Read(session, CodeKey(v));
      var role := Read(session, "role");
      && ((name == "" || code == "" || role == "") <==> j == Joined(rooms, Unjoined, []))
      && (name != "" && code != "" && role != "" ==>
            && j.data == SocketData(name, code, role)
            && j.out == [Emit(WholeRoom(code), System(JoinNotice(name, role)))]
            && code in j.rooms && j.rooms.Keys == rooms.Keys + {code}
            && (forall c :: c in rooms && c != code ==> j.rooms[c] == rooms[c])
            && var before := EnsureRoom(rooms, code).1; var after := j.rooms[code];
            && after.lastClientText == before.lastClientText
            && after.conversationId == before.conversationId
            && after.clientId == (if role == "client" then Some(sid) else before.clientId)
            && after.counselorId == (if role == "counselor" then Some(sid) else before.counselorId))
  {
    var name := Read(session, "name");
    var code := Read(session, CodeKey(v));
    var role := Read(session, "role");
    if name == "" || code == "" || role == "" then Joined(rooms, Unjoined, [])
    else
      var (rooms1, room) := EnsureRoom(rooms, code);
      Joined(rooms1[code := Bind(room, role, sid)], SocketData(name, code, role),
             [Emit(WholeRoom(code), System(JoinNotice(name, role)))])
  }

  datatype Left = Left(rooms: Registry, out: seq<Emission>)

  /** A socket disconnects. */
  function Disconnect(rooms: Registry, data: SocketData, sid: SocketId): (l: Left)
    ensures data.code == "" ==> l == Left(rooms, [])
    ensures data.code != "" ==>
      && l.out == [Emit(WholeRoom(data.code), System(LeaveNotice(data.name, data.role)))]
      && data.code in l.rooms && l.rooms.Keys == rooms.Keys + {data.code}
      && (forall c :: c in rooms && c != data.code ==> l.rooms[c] == rooms[c])
      && var before := EnsureRoom(rooms, data.code).1; var after := l.rooms[data.code];
      && after.lastClientText == before.lastClientText
      && after.conversationId == before.conversationId
      && (after.clientId == None <==>
            before.clientId == None || (data.role == "client" && before.clientId == Some(sid)))
      && (after.clientId != None ==> after.clientId == before.clientId)
      && (after.counselorId == None <==>
            before.counselorId == None || (data.role == "counselor" && before.counselorId == Some(sid)))
      && (after.counselorId != None ==> after.counselorId == before.counselorId)
  {
    if data.code == "" then Left(rooms, [])
    else
      var (rooms1, room) := EnsureRoom(rooms, data.code);
      Left(rooms1[data.code := Unbind(room, data.role, sid)],
           [Emit(WholeRoom(data.code), System(LeaveNotice(data.name, data.role)))])
  }

  /** Each missing part of the leave notice falls back on its own: a missing
      name reads "익명" and a missing role reads "알수없음". */
  lemma LeaveNoticeFallbacks()
    ensures forall role :: LeaveNotice("", role) == "익명님(" + Or(role, "알수없음") + ")이 퇴장했습니다."
    ensures forall name :: LeaveNotice(name, "") == Or(name, "익명") + "님(알수없음)이 퇴장했습니다."
    ensures forall name, role :: name != "" && role != "" ==>
      LeaveNotice(name, role) == name + "님(" + role + ")이 퇴장했습니다."
  {
  }

  /** A stale disconnect does not clobber a newer binding: after `older` and
      then `newer` claim the same slot, `older` leaving keeps `newer` bound,
      while `newer` leaving frees the slot. */
  lemma StaleDisconnectKeepsNewerBinding(v: Variant, rooms: Registry, s1: Fields, s2: Fields,
                                         older: SocketId, newer: SocketId)
    requires older != newer
    requires Read(s1, "name") != "" && Read(s2, "name") != ""
    requires Read(s1, CodeKey(v)) != "" && Read(s2, CodeKey(v)) == Read(s1, CodeKey(v))
    requires Read(s1, "role") == Read(s2, "role")
    requires Read(s1, "role") in {"client", "counselor"}
    ensures var j1 := Connect(v, rooms, s1, older);
      var j2 := Connect(v, j1.rooms, s2, newer);
      var gone := Disconnect(j2.rooms, j1.data, older);
      var code := Read(s1, CodeKey(v));
      && (Read(s1, "role") == "client" ==> gone.rooms[code].clientId == Some(newer))
      && (Read(s1, "role") == "counselor" ==> gone.rooms[code].counselorId == Some(newer))
      && Disconnect(j2.rooms, j2.data, newer).rooms[code] == Unbind(j2.rooms[code], Read(s1, "role"), newer)
      && (Read(s1, "role") == "client" ==> Disconnect(j2.rooms, j2.data, newer).rooms[code].clientId == None)
      && (Read(s1, "role") == "counselor" ==> Disconnect(j2.rooms, j2.data, newer).rooms[code].counselorId == None)
  {
  }
}
