/** The chat and AI-draft socket handlers: `client_message`,
    `counselor_generate`, `counselor_refine` and `counselor_send_final`
    (server.js; sockets/clientHandler.js and sockets/counselorHandler.js;
    the inlined duplicates in controllers/socket/counselorHandler.js).
    Each run is atomic; provider outcomes are inputs. */
module Handlers {
  import opened Base
  import opened Events
  import opened Ai
  import opened Rooms
  import opened Presence

  /** The effect of one handler run: the new registry, the emissions in
      order, and the provider calls in order. */
  datatype Step = Step(rooms: Registry, out: seq<Emission>, calls: seq<Call>)

  /** Unset environment variables of the deployment (None when unset). */
  datatype Env = Env(instruction: Option<string>, devInstruction: Option<string>)

  const NoUtterance: string := "생성할 내담자 발화가 없습니다."
  const NotReady: string := "대화가 준비되지 않았습니다."
  const GenerateError: string := "AI 응답 생성 오류"
  const RefineError: string := "AI 수정 오류"
  /** The model server.js hard-codes. */
  const MonolithModel: string := "gpt-5"

  /** `io.to(room.counselorId).emit(...)` guarded by `if (room.counselorId)`. */
  function ToCounselor(room: Room, p: Payload): seq<Emission>
  {
    if room.counselorId.Some? then [Emit(OnlySocket(room.counselorId.value), p)] else []
  }

  /** A JavaScript template literal renders an unset value as "undefined". */
  function Template(o: Option<string>): string
  {
    Default(o, "undefined")
  }

  /** The three ways the repository shapes a response request: server.js
      (hard-coded model, environment values passed through), the handlers
      inlined in controllers/socket/counselorHandler.js (configured model,
      environment values passed through), and the socket handlers that go
      through services/ai.js (configured model, absent values defaulted). */
  datatype Shaping = ServerJs | Inlined(model: string) | AiService(model: string)

  /** The response request of a generate run. */
  function GenerateRequest(shape: Shaping, env: Env, conv: string, clientText: string): (r: Request)
    ensures r.conversation == conv
    ensures r.input == GenerateLead + clientText + QuoteClose
    ensures r.model == (if shape.ServerJs? then MonolithModel else shape.model)
    ensures !shape.AiService? ==> r.instructions == env.instruction && r.developer == env.devInstruction
    ensures shape.AiService? ==>
      r.instructions == Some(Default(env.instruction, "")) && r.developer == Some(Default(env.devInstruction, ""))
  {
    match shape
    case ServerJs =>
      Request(MonolithModel, env.instruction, conv, Quote(GenerateLead, clientText), env.devInstruction)
    case Inlined(model) =>
      Request(model, env.instruction, conv, Quote(GenerateLead, clientText), env.devInstruction)
    case AiService(model) =>
      GenerateDraftRequest(DraftOptions(Some(model), Some(conv), env.instruction, env.devInstruction, Some(clientText)))
  }

  /** The response request of a refine run. */
  function RefineRequest(shape: Shaping, env: Env, conv: string, clientText: string): (r: Request)
    ensures r.conversation == conv
    ensures r.input == RefineLead + clientText + QuoteClose
    ensures r.model == (if shape.ServerJs? then MonolithModel else shape.model)
    ensures !shape.AiService? ==>
      r.instructions == Some(Template(env.instruction) + RefineSuffix) && r.developer == env.devInstruction
    ensures shape.AiService? ==>
      r.instructions == Some(Default(env.instruction, "") + RefineSuffix)
      && r.developer == Some(Default(env.devInstruction, ""))
  {
    match shape
    case ServerJs =>
      Request(MonolithModel, Some(Template(env.instruction) + RefineSuffix), conv,
              Quote(RefineLead, Or(clientText, "")), env.devInstruction)
    case Inlined(model) =>
      Request(model, Some(Template(env.instruction) + RefineSuffix), conv,
              Quote(RefineLead, Or(clientText, "")), env.devInstruction)
    case AiService(model) =>
      RefineDraftRequest(DraftOptions(Some(model), Some(conv), env.instruction, env.devInstruction,
                                      Some(Or(clientText, ""))))
  }

  predicate ClientMessageAccepted(data: SocketData, text: string)
  {
    data.role == "client" && data.code != "" && text != ""
  }

  /** `client_message`: broadcast, record the utterance, then best-effort
      append it as a user item. Only the modular build reports a failed
      append, to the counselor. */
  function ClientMessage(v: Variant, rooms: Registry, data: SocketData, text: string, append: Attempt): (s: Step)
    ensures !ClientMessageAccepted(data, text) <==> s == Step(rooms, [], [])
    ensures ClientMessageAccepted(data, text) ==>
      var before := EnsureRoom(rooms, data.code).1;
      && |s.out| >= 1
      && s.out[0] == Emit(WholeRoom(data.code), Message(data.name, "client", text))
      && s.rooms == EnsureRoom(rooms, data.code).0[data.code := before.(lastClientText := text)]
      && (HasConversation(before) <==> s.calls == [AppendItem(before.conversationId, User, text)])
      && (!HasConversation(before) <==> s.calls == [])
      && (|s.out| == 2 <==>
            v == Modular && HasConversation(before) && append.Throws? && before.counselorId.Some?)
      && |s.out| <= 2
      && (|s.out| == 2 ==> s.out[1] == Emit(OnlySocket(before.counselorId.value),
                                             AiError(Or(append.message, GenerateError))))
    ensures NoAiToRoom(s.out)
  {
    if !ClientMessageAccepted(data, text) then Step(rooms, [], [])
    else
      var (rooms1, room) := EnsureRoom(rooms, data.code);
      var said := [Emit(WholeRoom(data.code), Message(data.name, "client", text))];
      var rooms2 := rooms1[data.code := room.(lastClientText := text)];
      if !HasConversation(room) then Step(rooms2, said, [])
      else
        var calls := AddUserItem(room.conversationId, text);
        match append
        case Done => Step(rooms2, said, calls)
        case Throws(m) =>
          var report := if v == Modular then ToCounselor(room, AiError(Or(m, GenerateError))) else [];
          Step(rooms2, said + report, calls)
  }

  predicate CounselorAccepted(data: SocketData)
  {
    data.role == "counselor" && data.code != ""
  }

  /** `counselor_generate`: utterance check first, then conversation check;
      then one response request, a best-effort assistant append of the
      draft, and the draft to the counselor only. */
  function Generate(shape: Shaping, rooms: Registry, data: SocketData, env: Env,
                    reply: Reply, append: Attempt): (s: Step)
    ensures !CounselorAccepted(data) ==> s == Step(rooms, [], [])
    ensures CounselorAccepted(data) ==>
      var room := EnsureRoom(rooms, data.code).1;
      && s.rooms == EnsureRoom(rooms, data.code).0
      && AiOnlyTo(s.out, room.counselorId)
      && |s.out| == (if room.counselorId.Some? then 1 else 0)
      && (room.lastClientText == "" ==>
            s.calls == [] && s.out == ToCounselor(room, AiError(NoUtterance)))
      && (room.lastClientText != "" && !HasConversation(room) ==>
            s.calls == [] && s.out == ToCounselor(room, AiError(NotReady)))
      && (room.lastClientText != "" && HasConversation(room) ==>
            && 1 <= |s.calls| <= 2
            && s.calls[0] == Respond(GenerateRequest(shape, env, room.conversationId, room.lastClientText))
            && (reply.ReplyThrows? <==> |s.calls| == 1)
            && (reply.ReplyThrows? ==> s.out == ToCounselor(room, AiError(Or(reply.message, GenerateError))))
            && (reply.Replied? ==>
                  var draft := DraftText(reply, DraftFallback).value;
                  && s.calls[1] == AppendItem(room.conversationId, Assistant, draft)
                  && s.out == ToCounselor(room, AiDraft(draft, None))))
    ensures NoAiToRoom(s.out)
  {
    if !CounselorAccepted(data) then Step(rooms, [], [])
    else
      var (rooms1, room) := EnsureRoom(rooms, data.code);
      if room.lastClientText == "" then Step(rooms1, ToCounselor(room, AiError(NoUtterance)), [])
      else if !HasConversation(room) then Step(rooms1, ToCounselor(room, AiError(NotReady)), [])
      else
        var ask := Respond(GenerateRequest(shape, env, room.conversationId, room.lastClientText));
        match DraftText(reply, DraftFallback)
        case Threw(m) => Step(rooms1, ToCounselor(room, AiError(Or(m, GenerateError))), [ask])
        case Returned(draft) =>
          // A failed assistant append is logged and swallowed.
          Step(rooms1, ToCounselor(room, AiDraft(draft, None)),
               [ask] + AddAssistantItem(room.conversationId, draft))
  }

  /** `counselor_refine`: needs an instruction and a conversation but no
      client utterance; appends the instruction, requests the revision,
      appends it best-effort, and sends it to the counselor only. */
  function Refine(shape: Shaping, rooms: Registry, data: SocketData, instruction: string,
                  env: Env, userAppend: Attempt, reply: Reply, assistantAppend: Attempt): (s: Step)
    ensures !CounselorAccepted(data) || instruction == "" ==> s == Step(rooms, [], [])
    ensures CounselorAccepted(data) && instruction != "" ==>
      var room := EnsureRoom(rooms, data.code).1;
      var note := AppendItem(room.conversationId, User, Quote(InstructionLead, instruction));
      && s.rooms == EnsureRoom(rooms, data.code).0
      && AiOnlyTo(s.out, room.counselorId)
      && |s.out| == (if room.counselorId.Some? then 1 else 0)
      && (!HasConversation(room) ==> s.calls == [] && s.out == ToCounselor(room, AiError(NotReady)))
      && (HasConversation(room) ==>
            && 1 <= |s.calls| <= 3
            && s.calls[0] == note
            && (userAppend.Throws? ==>
                  s.calls == [note] && s.out == ToCounselor(room, AiError(Or(userAppend.message, RefineError))))
            && (userAppend.Done? ==>
                  |s.calls| >= 2 && s.calls[1] == Respond(RefineRequest(shape, env, room.conversationId, room.lastClientText)))
            && (userAppend.Done? && reply.ReplyThrows? ==>
                  |s.calls| == 2 && s.out == ToCounselor(room, AiError(Or(reply.message, RefineError))))
            && (userAppend.Done? && reply.Replied? ==>
                  var revised := DraftText(reply, RefineFallback).value;
                  && |s.calls| == 3
                  && s.calls[2] == AppendItem(room.conversationId, Assistant, revised)
                  && s.out == ToCounselor(room, AiDraft(revised, Some(data.name)))))
    ensures NoAiToRoom(s.out)
  {
    if !CounselorAccepted(data) || instruction == "" then Step(rooms, [], [])
    else
      var (rooms1, room) := EnsureRoom(rooms, data.code);
      if !HasConversation(room) then Step(rooms1, ToCounselor(room, AiError(NotReady)), [])
      else
        var note := AddUserItem(room.conversationId, Quote(InstructionLead, instruction));
        match userAppend
        case Throws(m) => Step(rooms1, ToCounselor(room, AiError(Or(m, RefineError))), note)
        case Done =>
          var ask := Respond(RefineRequest(shape, env, room.conversationId, room.lastClientText));
          match DraftText(reply, RefineFallback)
          case Threw(m) => Step(rooms1, ToCounselor(room, AiError(Or(m, RefineError))), note + [ask])
          case Returned(revised) =>
            Step(rooms1, ToCounselor(room, AiDraft(revised, Some(data.name))),
                 note + [ask] + AddAssistantItem(room.conversationId, revised))
  }

  /** `counselor_send_final`: broadcast to the room first, then a best-effort
      assistant append when the room has a conversation. */
  function SendFinal(rooms: Registry, data: SocketData, text: string, append: Attempt): (s: Step)
    ensures !CounselorAccepted(data) || text == "" ==> s == Step(rooms, [], [])
    ensures CounselorAccepted(data) && text != "" ==>
      var room := EnsureRoom(rooms, data.code).1;
      && s.rooms == EnsureRoom(rooms, data.code).0
      && s.out == [Emit(WholeRoom(data.code), Message(data.name, "counselor", text))]
      && (HasConversation(room) ==> s.calls == [AppendItem(room.conversationId, Assistant, text)])
      && (!HasConversation(room) ==> s.calls == [])
    ensures NoAiToRoom(s.out)
  {
    if !CounselorAccepted(data) || text == "" then Step(rooms, [], [])
    else
      var said := [Emit(WholeRoom(data.code), Message(data.name, "counselor", text))];
      var (rooms1, room) := EnsureRoom(rooms, data.code);
      Step(rooms1, said, AddAssistantItem(room.conversationId, text))
  }

  /** A client message recorded before a failed append stays recorded: the
      registry is the same whatever the append outcome. */
  lemma UtteranceSurvivesAppendFailure(v: Variant, rooms: Registry, data: SocketData, text: string, m: string)
    requires ClientMessageAccepted(data, text)
    ensures ClientMessage(v, rooms, data, text, Throws(m)).rooms == ClientMessage(v, rooms, data, text, Done).rooms
    ensures ClientMessage(v, rooms, data, text, Throws(m)).rooms[data.code].lastClientText == text
  {
  }

  /** The appended draft's fate never changes what the counselor receives. */
  lemma DraftDeliveryIgnoresAppendOutcome(shape: Shaping, rooms: Registry, data: SocketData,
                                          env: Env, reply: Reply, a1: Attempt, a2: Attempt)
    ensures Generate(shape, rooms, data, env, reply, a1) == Generate(shape, rooms, data, env, reply, a2)
  {
  }

  /** The client says "I feel anxious" in a room with conversation "conv_1",
      then the counselor asks for a draft: the room sees only the message,
      the draft reaches the counselor alone, the utterance is kept, and the
      conversation receives one user item, one request and one assistant
      item, in that order. */
  lemma AnxiousClientScenario(v: Variant, shape: Shaping, env: Env, client: SocketId, counselor: SocketId,
                              answer: string)
    requires answer != ""
    ensures var code := "R1";
      var rooms := map[code := Room(Some(client), Some(counselor), "", "conv_1")];
      var said := ClientMessage(v, rooms, SocketData("Kim", code, "client"), "I feel anxious", Done);
      var drafted := Generate(shape, said.rooms, SocketData("Lee", code, "counselor"), env,
                              Replied(answer), Done);
      && said.out == [Emit(WholeRoom(code), Message("Kim", "client", "I feel anxious"))]
      && drafted.out == [Emit(OnlySocket(counselor), AiDraft(answer, None))]
      && drafted.rooms[code].lastClientText == "I feel anxious"
      && said.calls + drafted.calls ==
           [AppendItem("conv_1", User, "I feel anxious"),
            Respond(GenerateRequest(shape, env, "conv_1", "I feel anxious")),
            AppendItem("conv_1", Assistant, answer)]
  {
  }

  /** Refine works before any generate and before any client message: one
      user item (the instruction), one request, one assistant item. */
  lemma RefineWithoutPriorDraft(shape: Shaping, env: Env, counselor: SocketId, revised: string)
    requires revised != ""
    ensures var code := "R1";
      var rooms := map[code := Room(None, Some(counselor), "", "conv_1")];
      var s := Refine(shape, rooms, SocketData("Lee", code, "counselor"), "soften the tone", env,
                      Done, Replied(revised), Done);
      && s.out == [Emit(OnlySocket(counselor), AiDraft(revised, Some("Lee")))]
      && |s.calls| == 3
      && s.calls[0] == AppendItem("conv_1", User, Quote(InstructionLead, "soften the tone"))
      && s.calls[1].Respond?
      && s.calls[2] == AppendItem("conv_1", Assistant, revised)
  {
  }

  /** A response without output text becomes the fixed generate fallback,
      which the counselor alone receives and which is appended as the
      assistant item. */
  lemma EmptyDraftFallsBack(shape: Shaping, rooms: Registry, data: SocketData, env: Env, append: Attempt)
    requires CounselorAccepted(data)
    requires var room := EnsureRoom(rooms, data.code).1;
      room.lastClientText != "" && HasConversation(room)
    ensures var room := EnsureRoom(rooms, data.code).1;
      var s := Generate(shape, rooms, data, env, Replied(""), append);
      && s.out == ToCounselor(room, AiDraft("(응답 생성 실패)", None))
      && s.calls[1] == AppendItem(room.conversationId, Assistant, "(응답 생성 실패)")
  {
  }

  /** A refine response without output text becomes the fixed refine
      fallback, marked with the sender's name and sent to the counselor
      alone, and is appended as the assistant item. */
  lemma EmptyRevisionFallsBack(shape: Shaping, rooms: Registry, data: SocketData, instruction: string,
                               env: Env, append: Attempt)
    requires CounselorAccepted(data) && instruction != ""
    requires HasConversation(EnsureRoom(rooms, data.code).1)
    ensures var room := EnsureRoom(rooms, data.code).1;
      var s := Refine(shape, rooms, data, instruction, env, Done, Replied(""), append);
      && s.out == ToCounselor(room, AiDraft("(수정 실패)", Some(data.name)))
      && s.calls[2] == AppendItem(room.conversationId, Assistant, "(수정 실패)")
  {
  }
}
