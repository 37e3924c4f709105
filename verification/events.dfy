/** Events the server emits toward connections, each tagged with its audience:
    every socket joined to a room, or one socket only. */
module Events {
  import opened Base

  datatype Audience = WholeRoom(code: string) | OnlySocket(id: SocketId)

  /** Payloads; the `ts` timestamps the server attaches are not modelled. */
  datatype Payload =
    | Message(name: string, role: string, text: string)
    | System(text: string)
    | AiDraft(text: string, revisedBy: Option<string>)
    | AiError(message: string)

  datatype Emission = Emit(to: Audience, payload: Payload)

  predicate IsAiOutput(p: Payload)
  {
    p.AiDraft? || p.AiError?
  }

  /** Drafts and AI errors are never addressed to a whole room. */
  predicate NoAiToRoom(out: seq<Emission>)
  {
    forall i :: 0 <= i < |out| && out[i].to.WholeRoom? ==> !IsAiOutput(out[i].payload)
  }

  /** Every AI output in `out` goes to the socket bound to the counselor slot. */
  predicate AiOnlyTo(out: seq<Emission>, counselor: Option<SocketId>)
  {
    forall i :: 0 <= i < |out| && IsAiOutput(out[i].payload) ==>
      counselor.Some? && out[i].to == OnlySocket(counselor.value)
  }
}
