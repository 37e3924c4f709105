/** The whole socket side as one state machine: the room registry plus the
    live connections and what each remembers, driven by a sequence of
    socket events whose provider outcomes are part of the event. HTTP
    create/enter are not part of this machine. */
module Machine {
  import opened Base
  import opened Events
  import opened Ai
  import opened Rooms
  import opened Http
  import opened Presence
  import opened Handlers

  datatype World = World(rooms: Registry, sockets: map<SocketId, SocketData>)

  datatype Event =
    | Connected(sid: SocketId, session: Fields)
    | Disconnected(sid: SocketId)
    | ClientSaid(sid: SocketId, text: string, append: Attempt)
    | GenerateAsked(sid: SocketId, reply: Reply, append: Attempt)
    | RefineAsked(sid: SocketId, instruction: string, userAppend: Attempt, reply: Reply, assistantAppend: Attempt)
    | FinalSent(sid: SocketId, text: string, append: Attempt)

  /** Deployment parameters: which build handles connections and client
      messages, how counselor requests are shaped, and the instruction
      environment. */
  datatype Config = Config(v: Variant, shape: Shaping, env: Env)

  /** The transport gives every new connection an id not currently in use,
      and only live connections raise events. */
  predicate Valid(w: World, e: Event)
  {
    if e.Connected? then e.sid !in w.sockets else e.sid in w.sockets
  }

  datatype Out = Out(world: World, out: seq<Emission>, calls: seq<Call>)

  function Apply(c: Config, w: World, e: Event): Out
    requires Valid(w, e)
  {
    match e
    case Connected(sid, session) =>
      var j := Connect(c.v, w.rooms, session, sid);
      Out(World(j.rooms, w.sockets[sid := j.data]), j.out, [])
    case Disconnected(sid) =>
      var l := Presence.Disconnect(w.rooms, w.sockets[sid], sid);
      Out(World(l.rooms, w.sockets - {sid}), l.out, [])
    case ClientSaid(sid, text, a) =>
      var s := ClientMessage(c.v, w.rooms, w.sockets[sid], text, a);
      Out(World(s.rooms, w.sockets), s.out, s.calls)
    case GenerateAsked(sid, reply, a) =>
      var s := Generate(c.shape, w.rooms, w.sockets[sid], c.env, reply, a);
      Out(World(s.rooms, w.sockets), s.out, s.calls)
    case RefineAsked(sid, instruction, ua, reply, aa) =>
      var s := Refine(c.shape, w.rooms, w.sockets[sid], instruction, c.env, ua, reply, aa);
      Out(World(s.rooms, w.sockets), s.out, s.calls)
    case FinalSent(sid, text, a) =>
      var s := SendFinal(w.rooms, w.sockets[sid], text, a);
      Out(World(s.rooms, w.sockets), s.out, s.calls)
  }

  predicate ValidRun(c: Config, w: World, events: seq<Event>)
    decreases |events|
  {
    |events| == 0 || (Valid(w, events[0]) && ValidRun(c, Apply(c, w, events[0]).world, events[1..]))
  }

  /** Runs the events in order, collecting all emissions and provider calls. */
  function Run(c: Config, w: World, events: seq<Event>): Out
    requires ValidRun(c, w, events)
    decreases |events|
  {
    if |events| == 0 then Out(w, [], [])
    else
      var first := Apply(c, w, events[0]);
      var rest := Run(c, first.world, events[1..]);
      Out(rest.world, first.out + rest.out, first.calls + rest.calls)
  }

  // ----- Invariants -----

  /** What a connection remembers is either nothing or a complete session. */
  predicate WellFormed(d: SocketData)
  {
    d == Unjoined || (d.name != "" && d.code != "" && d.role != "")
  }

  /** Each occupied slot of room `code` holds a live connection that joined
      this room in that role. */
  predicate SlotsLive(w: World, code: string)
    requires code in w.rooms
  {
    var r := w.rooms[code];
    && (r.clientId.Some? ==>
          r.clientId.value in w.sockets
          && w.sockets[r.clientId.value].code == code
          && w.sockets[r.clientId.value].role == "client")
    && (r.counselorId.Some? ==>
          r.counselorId.value in w.sockets
          && w.sockets[r.counselorId.value].code == code
          && w.sockets[r.counselorId.value].role == "counselor")
  }

  predicate Inv(w: World)
  {
    && (forall s :: s in w.sockets ==> WellFormed(w.sockets[s]))
    && (forall code :: code in w.rooms ==> SlotsLive(w, code))
  }

  const Start: World := World(map[], map[])

  /** Rooms are never removed and a room's conversation id never changes. */
  predicate Kept(before: World, after: World)
  {
    forall code :: code in before.rooms ==>
      code in after.rooms && after.rooms[code].conversationId == before.rooms[code].conversationId
  }

  /** Every draft and AI error goes to one live connection that joined room
      `code` as its counselor. */
  predicate AiReachesLiveCounselor(w: World, out: seq<Emission>, code: string)
  {
    forall i :: 0 <= i < |out| && IsAiOutput(out[i].payload) ==>
      && out[i].to.OnlySocket?
      && out[i].to.id in w.sockets
      && w.sockets[out[i].to.id].role == "counselor"
      && w.sockets[out[i].to.id].code == code
  }

  /** The room an event acts on: the code the sending connection joined
      ("" for a new connection, which has joined nothing yet). */
  function SenderCode(w: World, e: Event): string
    requires Valid(w, e)
  {
    if e.Connected? then "" else w.sockets[e.sid].code
  }

  lemma StartInv()
    ensures Inv(Start)
  {
  }

  /** The counselor slot of a room reached through `ensureRoom`, when
      occupied, holds a live connection that joined that room as counselor. */
  lemma EnsuredCounselorLive(w: World, code: string)
    requires Inv(w)
    ensures var room := EnsureRoom(w.rooms, code).1;
      room.counselorId.Some? ==>
        && room.counselorId.value in w.sockets
        && w.sockets[room.counselorId.value].role == "counselor"
        && w.sockets[room.counselorId.value].code == code
  {
  }

  lemma ConnectKeepsInv(c: Config, w: World, sid: SocketId, session: Fields)
    requires Inv(w) && sid !in w.sockets
    ensures Inv(Apply(c, w, Connected(sid, session)).world)
  {
  }

  lemma DisconnectKeepsInv(c: Config, w: World, sid: SocketId)
    requires Inv(w) && sid in w.sockets
    ensures Inv(Apply(c, w, Disconnected(sid)).world)
  {
  }

  /** A handler run that leaves every slot where it was keeps the invariant. */
  lemma SameSlotsKeepInv(w: World, rooms': Registry)
    requires Inv(w)
    requires forall code :: code in rooms' ==>
      (code in w.rooms && rooms'[code].clientId == w.rooms[code].clientId
                       && rooms'[code].counselorId == w.rooms[code].counselorId)
      || (rooms'[code].clientId == None && rooms'[code].counselorId == None)
    ensures Inv(World(rooms', w.sockets))
  {
  }

  /** One event keeps the invariant, keeps every room and its conversation
      id, and never sends AI output anywhere but to a live counselor of the
      sender's room. */
  lemma ApplyKeepsInv(c: Config, w: World, e: Event)
    requires Inv(w) && Valid(w, e)
    ensures Inv(Apply(c, w, e).world)
    ensures Kept(w, Apply(c, w, e).world)
    ensures NoAiToRoom(Apply(c, w, e).out)
    ensures AiReachesLiveCounselor(w, Apply(c, w, e).out, SenderCode(w, e))
  {
    var o := Apply(c, w, e);
    match e
    case Connected(sid, session) =>
      ConnectKeepsInv(c, w, sid, session);
    case Disconnected(sid) =>
      DisconnectKeepsInv(c, w, sid);
    case ClientSaid(sid, text, a) =>
      SameSlotsKeepInv(w, o.world.rooms);
      EnsuredCounselorLive(w, w.sockets[sid].code);
    case GenerateAsked(sid, reply, a) =>
      SameSlotsKeepInv(w, o.world.rooms);
      EnsuredCounselorLive(w, w.sockets[sid].code);
    case RefineAsked(sid, instruction, ua, reply, aa) =>
      SameSlotsKeepInv(w, o.world.rooms);
      EnsuredCounselorLive(w, w.sockets[sid].code);
    case FinalSent(sid, text, a) =>
      SameSlotsKeepInv(w, o.world.rooms);
  }

  lemma NoAiToRoomConcat(a: seq<Emission>, b: seq<Emission>)
    requires NoAiToRoom(a) && NoAiToRoom(b)
    ensures NoAiToRoom(a + b)
  {
  }

  /** Over any run of socket events from a world satisfying the invariant:
      the invariant still holds, no room disappears, no conversation id
      changes, and no draft or AI error is ever addressed to a room. */
  lemma {:induction false} RunKeepsInv(c: Config, w: World, events: seq<Event>)
    requires Inv(w) && ValidRun(c, w, events)
    ensures Inv(Run(c, w, events).world)
    ensures Kept(w, Run(c, w, events).world)
    ensures NoAiToRoom(Run(c, w, events).out)
    decreases |events|
  {
    if |events| > 0 {
      var first := Apply(c, w, events[0]);
      ApplyKeepsInv(c, w, events[0]);
      RunKeepsInv(c, first.world, events[1..]);
      NoAiToRoomConcat(first.out, Run(c, first.world, events[1..]).out);
    }
  }

  /** From the empty start, after any valid run, every occupied slot of
      every room holds a live connection that joined this room in that
      role; no slot is left pointing at a connection that has gone. (That a
      stale disconnect keeps a newer binding is
      `Presence.StaleDisconnectKeepsNewerBinding`.) */
  lemma SlotsAlwaysLive(c: Config, events: seq<Event>, code: string)
    requires ValidRun(c, Start, events)
    requires code in Run(c, Start, events).world.rooms
    ensures SlotsLive(Run(c, Start, events).world, code)
  {
    StartInv();
    RunKeepsInv(c, Start, events);
  }
}
