/** The conversation provider as the server sees it (services/ai.js), reduced
    to three abstract calls: create a conversation, append an item, request a
    response. Every call's outcome is an input of the model. */
module Ai {
  import opened Base

  datatype ItemRole = User | Assistant

  /** The shaped part of a response request. `instructions` and `developer`
      are `None` when the server passes an unset environment variable
      through unchanged; `conversation` is "" for a null id. The `store` flag
      and the payload layout are not modelled. */
  datatype Request = Request(
    model: string,
    instructions: Option<string>,
    conversation: string,
    input: string,
    developer: Option<string>)

  datatype Call =
    | CreateConversation
    | AppendItem(conversation: string, role: ItemRole, text: string)
    | Respond(request: Request)

  /** A response request either throws or resolves; `outputText` is "" when
      the response or its `output_text` is missing. */
  datatype Reply = Replied(outputText: string) | ReplyThrows(message: string)

  /** Conversation creation: it throws, resolves to nothing, or resolves to an
      object whose `id` may be missing (""). */
  datatype ConvReply = ConvThrows(message: string) | ConvNull | ConvObject(id: string)

  /** Options of `generateDraft` / `refineDraft`; `None` is an absent option.
      `clientText` is named `clientText` in the first and `lastClientText`
      in the second. */
  datatype DraftOptions = DraftOptions(
    model: Option<string>,
    conversationId: Option<string>,
    instructionString: Option<string>,
    devInstructionString: Option<string>,
    clientText: Option<string>)

  const NoOptions: DraftOptions := DraftOptions(None, None, None, None, None)

  const DefaultModel: string := "gpt-5.1"
  const DraftFallback: string := "(응답 생성 실패)"
  const RefineFallback: string := "(수정 실패)"
  const RefineSuffix: string := " 상담사의 피드백을 반영해 2~4문장으로 개선하세요."
  const GenerateLead: string := "내담자 최신 메시지 참조: \"\"\""
  const RefineLead: string := "내담자 메시지: \"\"\""
  const InstructionLead: string := "상담사 지시: \"\"\""
  const QuoteClose: string := "\"\"\""

  function Quote(lead: string, text: string): string
  {
    lead + text + QuoteClose
  }

  /** `getOutputText`: the response text when present, the fallback otherwise. */
  function GetOutputText(outputText: string, fallback: string): (r: string)
    ensures outputText != "" ==> r == outputText
    ensures outputText == "" ==> r == fallback
    ensures fallback != "" ==> r != ""
  {
    Or(outputText, fallback)
  }

  /** `addUserItem`: no provider call at all without a conversation id. */
  function AddUserItem(conversationId: string, text: string): (calls: seq<Call>)
    ensures conversationId == "" <==> calls == []
    ensures conversationId != "" ==> calls == [AppendItem(conversationId, User, text)]
  {
    if conversationId == "" then [] else [AppendItem(conversationId, User, text)]
  }

  /** `addAssistantItem`: no provider call at all without a conversation id. */
  function AddAssistantItem(conversationId: string, text: string): (calls: seq<Call>)
    ensures conversationId == "" <==> calls == []
    ensures conversationId != "" ==> calls == [AppendItem(conversationId, Assistant, text)]
  {
    if conversationId == "" then [] else [AppendItem(conversationId, Assistant, text)]
  }

  /** The request `generateDraft` sends: every absent option takes its default. */
  function GenerateDraftRequest(opts: DraftOptions): (req: Request)
    ensures opts.model.Some? ==> req.model == opts.model.value
    ensures opts.model.None? ==> req.model == DefaultModel
    ensures req.instructions == Some(Default(opts.instructionString, ""))
    ensures req.developer == Some(Default(opts.devInstructionString, ""))
    ensures req.conversation == Default(opts.conversationId, "")
    ensures opts.instructionString.None? ==> req.instructions == Some("")
    ensures opts.devInstructionString.None? ==> req.developer == Some("")
    ensures opts.conversationId.None? ==> req.conversation == ""
    ensures req.input == GenerateLead + Default(opts.clientText, "") + QuoteClose
  {
    Request(
      Default(opts.model, DefaultModel),
      Some(Default(opts.instructionString, "")),
      Default(opts.conversationId, ""),
      Quote(GenerateLead, Default(opts.clientText, "")),
      Some(Default(opts.devInstructionString, "")))
  }

  /** The request `refineDraft` sends: the instructions always end with the
      fixed feedback suffix, preceded by the configured instruction string. */
  function RefineDraftRequest(opts: DraftOptions): (req: Request)
    ensures opts.model.Some? ==> req.model == opts.model.value
    ensures opts.model.None? ==> req.model == DefaultModel
    ensures req.instructions.Some?
    ensures req.developer == Some(Default(opts.devInstructionString, ""))
    ensures req.conversation == Default(opts.conversationId, "")
    ensures var ins := req.instructions.value;
      |ins| >= |RefineSuffix|
      && ins[|ins| - |RefineSuffix|..] == RefineSuffix
      && ins[..|ins| - |RefineSuffix|] == Default(opts.instructionString, "")
    ensures req.input == RefineLead + Default(opts.clientText, "") + QuoteClose
  {
    Request(
      Default(opts.model, DefaultModel),
      Some(Default(opts.instructionString, "") + RefineSuffix),
      Default(opts.conversationId, ""),
      Quote(RefineLead, Default(opts.clientText, "")),
      Some(Default(opts.devInstructionString, "")))
  }

  /** Result of a provider request seen by the caller: a value or a thrown error. */
  datatype Fallible<T> = Returned(value: T) | Threw(message: string)

  /** `generateDraft` / `refineDraft` after the request: a thrown error
      propagates; otherwise the text, never empty, falls back when missing. */
  function DraftText(reply: Reply, fallback: string): (r: Fallible<string>)
    requires fallback != ""
    ensures r.Threw? <==> reply.ReplyThrows?
    ensures r.Threw? ==> r.message == reply.message
    ensures r.Returned? ==> r.value != ""
    ensures r.Returned? && reply.outputText != "" ==> r.value == reply.outputText
    ensures r.Returned? && reply.outputText == "" ==> r.value == fallback
  {
    match reply
    case ReplyThrows(m) => Threw(m)
    case Replied(t) => Returned(GetOutputText(t, fallback))
  }

  /** With no options at all, `generateDraft` asks the default model with
      empty instructions and an empty quoted client text. */
  lemma NoOptionsDraftRequest()
    ensures GenerateDraftRequest(NoOptions)
         == Request(DefaultModel, Some(""), "", GenerateLead + QuoteClose, Some(""))
    ensures RefineDraftRequest(NoOptions).instructions == Some(RefineSuffix)
  {
  }
}
