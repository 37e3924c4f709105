/** Room issuance and entry over HTTP (the `/create`, `/enter` and `/room`
    routes of server.js and controllers/roomController.js), reduced to their
    validation and the outcome each request selects. */
module Http {
  import opened Base
  import opened Ai
  import opened Rooms

  /** Request bodies and sessions as string maps; an absent key reads as "". */
  type Fields = map<string, string>

  function Read(f: Fields, key: string): string
  {
    if key in f then f[key] else ""
  }

  /** The session and form key holding the room code: `room` in server.js,
      `code` in the modular build. */
  function CodeKey(v: Variant): string
  {
    match v
    case Monolith => "room"
    case Modular => "code"
  }

  /** Response bodies and view locals; page titles are not modelled. */
  datatype Response =
    | Status(status: nat, body: string)
    | Render(view: string, locals: Fields)
    | Redirect(location: string)

  const MissingFields: string := "필수값 누락"
  const ConfigError: string := "서버 설정 오류"
  const CreateFailed: string := "대화 생성 실패"
  const CannotCreate: string := "대화를 생성할 수 없습니다."
  const UnknownRoom: string := "존재하지 않는 방 코드입니다."
  const NotPrepared: string := "이 방의 대화가 준비되지 않았습니다."

  /** The session after a successful create or enter. */
  function SignIn(v: Variant, session: Fields, name: string, role: string, code: string): Fields
  {
    session["name" := name]["role" := role][CodeKey(v) := code]
  }

  datatype Created = Created(rooms: Registry, response: Response, session: Fields, calls: seq<Call>)

  /** Whether a create request with these inputs ends in the code page. */
  predicate CreateSucceeds(v: Variant, body: Fields, configured: bool, reply: ConvReply)
  {
    && Read(body, "role") != "" && Read(body, "name") != ""
    && (v == Modular ==> configured)
    && reply.ConvObject? && reply.id != ""
  }

  /** `POST /create`. `code` is the freshly generated room code and
      `configured` whether the modular app has a provider client. */
  function Create(v: Variant, rooms: Registry, body: Fields, session: Fields,
                  code: string, configured: bool, reply: ConvReply): (c: Created)
    // Missing fields: 400 before any room exists or any call is made.
    ensures (Read(body, "role") == "" || Read(body, "name") == "") ==>
      c == Created(rooms, Status(400, MissingFields), session, [])
    // Otherwise the room is registered first, whatever follows.
    ensures Read(body, "role") != "" && Read(body, "name") != "" ==>
      && code in c.rooms && c.rooms.Keys == rooms.Keys + {code}
      && (forall k :: k in rooms && k != code ==> c.rooms[k] == rooms[k])
      && c.rooms[code].clientId == EnsureRoom(rooms, code).1.clientId
      && c.rooms[code].counselorId == EnsureRoom(rooms, code).1.counselorId
      && c.rooms[code].lastClientText == EnsureRoom(rooms, code).1.lastClientText
    ensures c.response.Render? <==> CreateSucceeds(v, body, configured, reply)
    ensures c.response.Render? ==>
      && c.response == Render("code", map["code" := code, "name" := Read(body, "name"),
                                          "role" := Read(body, "role")])
      && c.rooms[code].conversationId == reply.id
      && c.session == SignIn(v, session, Read(body, "name"), Read(body, "role"), code)
      && c.calls == [CreateConversation]
    // Every failure after validation is a 500 that leaves the session alone
    // and leaves a fresh room without a conversation.
    ensures Read(body, "role") != "" && Read(body, "name") != "" && !c.response.Render? ==>
      && c.response.Status? && c.response.status == 500
      && c.session == session
      && (code !in rooms ==> c.rooms[code] == NewRoom)
  {
    var role := Read(body, "role");
    var name := Read(body, "name");
    if role == "" || name == "" then
      Created(rooms, Status(400, MissingFields), session, [])
    else
      var (rooms1, room) := EnsureRoom(rooms, code);
      var done := Render("code", map["code" := code, "name" := name, "role" := role]);
      match v
      case Monolith =>
        (match reply
         // `conv.id` on a null result throws inside the same try block.
         case ConvThrows(_) => Created(rooms1, Status(500, CannotCreate), session, [CreateConversation])
         case ConvNull => Created(rooms1, Status(500, CannotCreate), session, [CreateConversation])
         case ConvObject(id) =>
           var rooms2 := rooms1[code := room.(conversationId := id)];
           if id == "" then Created(rooms2, Status(500, CreateFailed), session, [CreateConversation])
           else Created(rooms2, done, SignIn(v, session, name, role, code), [CreateConversation]))
      case Modular =>
        if !configured then Created(rooms1, Status(500, ConfigError), session, [])
        else
          match CreateConversationId(reply)
          case Threw(_) => Created(rooms1, Status(500, CannotCreate), session, [CreateConversation])
          case Returned(id) =>
            var rooms2 := rooms1[code := room.(conversationId := id)];
            if id == "" then Created(rooms2, Status(500, CreateFailed), session, [CreateConversation])
            else Created(rooms2, done, SignIn(v, session, name, role, code), [CreateConversation])
  }

  /** `POST /enter`. Its result carries no registry: entry never creates or
      changes a room. */
  function Enter(v: Variant, rooms: Registry, body: Fields, session: Fields): (e: (Response, Fields))
    ensures var role := Read(body, "role"); var name := Read(body, "name");
      var code := Read(body, CodeKey(v));
      && ((role == "" || name == "" || code == "") ==> e == (Status(400, MissingFields), session))
      && (role != "" && name != "" && code != "" && code !in rooms ==> e == (Status(404, UnknownRoom), session))
      && (role != "" && name != "" && code != "" && code in rooms && !HasConversation(rooms[code]) ==>
            e == (Status(500, NotPrepared), session))
      && (e.0 == Redirect("/room") <==>
            role != "" && name != "" && code != "" && code in rooms && HasConversation(rooms[code]))
      && (e.0 == Redirect("/room") ==> e.1 == SignIn(v, session, name, role, code))
  {
    var role := Read(body, "role");
    var name := Read(body, "name");
    var code := Read(body, CodeKey(v));
    if role == "" || name == "" || code == "" then (Status(400, MissingFields), session)
    else if code !in rooms then (Status(404, UnknownRoom), session)
    else if !HasConversation(rooms[code]) then (Status(500, NotPrepared), session)
    else (Redirect("/room"), SignIn(v, session, name, role, code))
  }

  /** `GET /room`: home unless the session names a known room; the client
      view for role "client", the counselor view for any other role. */
  function RoomPage(v: Variant, rooms: Registry, session: Fields): (r: Response)
    ensures var name := Read(session, "name"); var role := Read(session, "role");
      var code := Read(session, CodeKey(v));
      && (r == Redirect("/") <==> name == "" || role == "" || code == "" || code !in rooms)
      && (r != Redirect("/") ==> r.Render?)
      && (r.Render? ==> r.locals == map["name" := name, "room" := code])
      && (r.Render? ==> (r.view == "client" <==> role == "client"))
      && (r.Render? ==> (r.view == "counselor" <==> role != "client"))
  {
    var name := Read(session, "name");
    var role := Read(session, "role");
    var code := Read(session, CodeKey(v));
    if name == "" || role == "" || code == "" || code !in rooms then Redirect("/")
    else if role == "client" then Render("client", map["name" := name, "room" := code])
    else Render("counselor", map["name" := name, "room" := code])
  }

  /** A room whose create succeeded can be entered under its code, and the
      session that create left behind opens the room page. */
  lemma CreatedRoomIsEnterable(v: Variant, rooms: Registry, body: Fields, session: Fields,
                               code: string, configured: bool, reply: ConvReply, form: Fields)
    requires CreateSucceeds(v, body, configured, reply)
    requires code != ""
    requires Read(form, "role") != "" && Read(form, "name") != "" && Read(form, CodeKey(v)) == code
    ensures var c := Create(v, rooms, body, session, code, configured, reply);
      && Enter(v, c.rooms, form, session).0 == Redirect("/room")
      && RoomPage(v, c.rooms, c.session).Render?
  {
  }

  /** When a fresh room's conversation could not be created, the room stays
      registered, and an entry right after the failed create gets 500 for
      every valid form without retrying the creation. */
  lemma FailedCreateNotEnterable(v: Variant, rooms: Registry, body: Fields, session: Fields,
                                 code: string, configured: bool, reply: ConvReply, form: Fields)
    requires Read(body, "role") != "" && Read(body, "name") != ""
    requires !CreateSucceeds(v, body, configured, reply)
    requires code !in rooms && code != ""
    requires Read(form, "role") != "" && Read(form, "name") != "" && Read(form, CodeKey(v)) == code
    ensures var c := Create(v, rooms, body, session, code, configured, reply);
      && c.response == Status(500, c.response.body)
      && code in c.rooms
      && Enter(v, c.rooms, form, session) == (Status(500, NotPrepared), session)
  {
  }

  /** The two builds name the session's room-code key differently, so a
      session signed in by one build does not open the room page of the
      other. */
  lemma SessionKeysDiverge(rooms: Registry, session: Fields, name: string, role: string, code: string)
    requires "code" !in session && "room" !in session
    requires name != "" && role != "" && code != "" && code in rooms
    ensures RoomPage(Monolith, rooms, SignIn(Monolith, session, name, role, code)).Render?
    ensures RoomPage(Modular, rooms, SignIn(Monolith, session, name, role, code)) == Redirect("/")
    ensures RoomPage(Monolith, rooms, SignIn(Modular, session, name, role, code)) == Redirect("/")
  {
  }

  /** Observation: create does not check that the generated code is unused.
      On a collision the existing room keeps its participants but its
      conversation id is overwritten. */
  lemma CreateCollisionOverwritesConversation(v: Variant, rooms: Registry, body: Fields, session: Fields,
                                              code: string, reply: ConvReply)
    requires code in rooms && HasConversation(rooms[code])
    requires CreateSucceeds(v, body, true, reply) && reply.id != rooms[code].conversationId
    ensures var c := Create(v, rooms, body, session, code, true, reply);
      && c.rooms[code].clientId == rooms[code].clientId
      && c.rooms[code].counselorId == rooms[code].counselorId
      && c.rooms[code].conversationId != rooms[code].conversationId
  {
  }
}
