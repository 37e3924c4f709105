/** How the single-file server and the modular build differ on the
    operations they both implement, and how the three request shapings
    compare. */
module Divergence {
  import opened Base
  import opened Events
  import opened Ai
  import opened Rooms
  import opened Http
  import opened Presence
  import opened Handlers

  /** `client_message`: both builds change the registry and call the provider
      identically; the modular build may add exactly one `ai_error` to the
      counselor after the shared broadcast, and only when the user-item
      append failed. */
  lemma ClientMessageBuildsDiffer(rooms: Registry, data: SocketData, text: string, append: Attempt)
    ensures var mono := ClientMessage(Monolith, rooms, data, text, append);
      var modular := ClientMessage(Modular, rooms, data, text, append);
      && mono.rooms == modular.rooms
      && mono.calls == modular.calls
      && modular.out[..|mono.out|] == mono.out
      && |mono.out| <= |modular.out| <= |mono.out| + 1
      && (|modular.out| > |mono.out| ==>
            && append.Throws?
            && modular.out[|mono.out|].payload == AiError(Or(append.message, GenerateError)))
  {
  }

  /** `POST /create`: with a null conversation result the monolith fails on
      reading `conv.id` and answers "대화를 생성할 수 없습니다.", where the
      modular build gets null from `createConversationId` and answers
      "대화 생성 실패". Only the modular build refuses, before any provider
      call, when no provider client is configured. */
  lemma CreateBuildsDiffer(rooms: Registry, body: Fields, session: Fields, code: string, reply: ConvReply)
    requires Read(body, "role") != "" && Read(body, "name") != ""
    ensures Create(Monolith, rooms, body, session, code, true, ConvNull).response == Status(500, CannotCreate)
    ensures Create(Modular, rooms, body, session, code, true, ConvNull).response == Status(500, CreateFailed)
    ensures var c := Create(Modular, rooms, body, session, code, false, reply);
      c.response == Status(500, ConfigError) && c.calls == []
    ensures Create(Monolith, rooms, body, session, code, false, reply)
         == Create(Monolith, rooms, body, session, code, true, reply)
    ensures Create(Monolith, rooms, body, session, code, false, reply).calls == [CreateConversation]
  {
  }

  /** `counselor_generate`: every shaping emits the same events and leaves
      the same registry; the provider calls differ only in the response
      request. The inlined handlers with model "gpt-5" send exactly what
      server.js sends, and the service-based handlers send what the inlined
      ones send once both instruction variables are set. */
  lemma GenerateShapingsAgree(s1: Shaping, s2: Shaping, rooms: Registry, data: SocketData, env: Env,
                              reply: Reply, append: Attempt)
    ensures var a := Generate(s1, rooms, data, env, reply, append);
      var b := Generate(s2, rooms, data, env, reply, append);
      && a.rooms == b.rooms
      && a.out == b.out
      && |a.calls| == |b.calls|
      && (forall i :: 0 <= i < |a.calls| && !a.calls[i].Respond? ==> a.calls[i] == b.calls[i])
    ensures Generate(Inlined(MonolithModel), rooms, data, env, reply, append)
         == Generate(ServerJs, rooms, data, env, reply, append)
    ensures forall model :: env.instruction.Some? && env.devInstruction.Some? ==>
      Generate(AiService(model), rooms, data, env, reply, append)
        == Generate(Inlined(model), rooms, data, env, reply, append)
  {
  }

  /** `counselor_refine`: every shaping emits the same events and leaves the
      same registry. With the instruction variable unset, the two shapings
      that pass it through a template (server.js and the inlined handlers)
      send the literal word "undefined" before the feedback suffix, where
      the service-based handlers send the suffix alone. */
  lemma RefineShapingsDiffer(s1: Shaping, s2: Shaping, rooms: Registry, data: SocketData, instruction: string,
                             env: Env, userAppend: Attempt, reply: Reply, assistantAppend: Attempt,
                             model: string, conv: string, clientText: string)
    ensures var a := Refine(s1, rooms, data, instruction, env, userAppend, reply, assistantAppend);
      var b := Refine(s2, rooms, data, instruction, env, userAppend, reply, assistantAppend);
      && a.rooms == b.rooms
      && a.out == b.out
      && |a.calls| == |b.calls|
      && (forall i :: 0 <= i < |a.calls| && !a.calls[i].Respond? ==> a.calls[i] == b.calls[i])
    ensures env.instruction.None? ==>
      && RefineRequest(ServerJs, env, conv, clientText).instructions == Some("undefined" + RefineSuffix)
      && RefineRequest(Inlined(model), env, conv, clientText).instructions == Some("undefined" + RefineSuffix)
      && RefineRequest(AiService(model), env, conv, clientText).instructions == Some(RefineSuffix)
    ensures RefineRequest(Inlined(MonolithModel), env, conv, clientText) == RefineRequest(ServerJs, env, conv, clientText)
    ensures env.instruction.Some? && env.devInstruction.Some? ==>
      RefineRequest(AiService(model), env, conv, clientText) == RefineRequest(Inlined(model), env, conv, clientText)
  {
  }

  /** The append as server.js writes it inline: `if (conversationId)` around
      one `conversations.items.create`. */
  function InlineGuardedAppend(conversationId: string, role: ItemRole, text: string): seq<Call>
  {
    if conversationId != "" then [AppendItem(conversationId, role, text)] else []
  }

  /** The guarded helpers of services/ai.js make exactly the calls of the
      inline guarded append. */
  lemma ServiceAppendsMatchInline(conversationId: string, text: string)
    ensures AddUserItem(conversationId, text) == InlineGuardedAppend(conversationId, User, text)
    ensures AddAssistantItem(conversationId, text) == InlineGuardedAppend(conversationId, Assistant, text)
  {
  }

  /** In both builds, an accepted client message or final reply makes exactly
      the calls of the inline guarded append on the room's conversation. */
  lemma HandlerAppendsMatchInline(v: Variant, rooms: Registry, data: SocketData, text: string, append: Attempt)
    ensures var room := EnsureRoom(rooms, data.code).1;
      ClientMessage(v, rooms, data, text, append).calls
        == (if ClientMessageAccepted(data, text) then InlineGuardedAppend(room.conversationId, User, text) else [])
    ensures var room := EnsureRoom(rooms, data.code).1;
      SendFinal(rooms, data, text, append).calls
        == (if CounselorAccepted(data) && text != "" then InlineGuardedAppend(room.conversationId, Assistant, text) else [])
  {
  }
}
