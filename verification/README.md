# Counselling chat rooms: room state machine

A model, in Dafny, of the room state behind a two-party counselling chat. A
"client" and a "counselor" share a room identified by a 20-character code.
The counselor can ask an AI provider for draft replies, which only they see,
before sending a final reply to the room.

The model covers:

- the in-memory room registry (`ensureRoom`);
- room-code generation and conversation creation;
- the HTTP `/create`, `/enter` and `/room` flows, reduced to the outcome each
  selects (400, 404, 500, render or redirect);
- the socket handlers `connection`, `client_message`, `counselor_generate`,
  `counselor_refine`, `counselor_send_final` and `disconnect`;
- the request shaping and fallbacks of `services/ai.js`.

Each handler is a pure function. It takes the registry, the sender's socket
data, the event payload and the provider outcomes. It returns the new
registry, the emitted events with their audience (a whole room, or one socket
only), and the provider calls in order.

The same behaviour is written twice in the repository: once in `server.js`,
and once in the modular split (`services/`, `controllers/`, `sockets/`). The
model writes each operation once. Where the builds differ, it takes a
`Variant` parameter (`Monolith` or `Modular`). The differences are:

- the session and form key for the room code is `room` in `server.js` and
  `code` in the modular files (proved by `Http.SessionKeysDiverge`);
- a failed user-item append on `client_message` is only logged by `server.js`,
  while `sockets/clientHandler.js` also sends `ai_error` to the counselor
  (`Divergence.ClientMessageBuildsDiffer`);
- `/create` answers a null conversation with different 500 messages, and only
  the modular build refuses when no provider client is configured
  (`Divergence.CreateBuildsDiffer`).

AI requests are shaped three ways, modelled by `Shaping`:

- `server.js` hard-codes model `gpt-5` and passes the instruction environment
  variables through unchanged;
- the handlers inlined in `controllers/socket/counselorHandler.js` do the same
  but use the configured model;
- the handlers in `sockets/counselorHandler.js` go through `services/ai.js`,
  which replaces absent values with "".

So with the instruction variable unset, the first two send refine
instructions that start with the word `undefined`
(`Divergence.RefineShapingsDiffer`). Apart from the request itself, the three
shapings behave identically (`Divergence.GenerateShapingsAgree`).

Observation: the modular build has two independent registries.
`controllers/roomController.js` and the handlers under `sockets/` use the
registry of `services/room.js`. The handlers under `controllers/socket/`
(connection and counselor) use the registry of `controllers/roomsController.js`.
A room created over HTTP is therefore unknown to the `controllers/socket/`
handlers until one of them registers it afresh. The model uses one registry,
which is what `server.js` does.

Encoding: a JavaScript string that may be `null`, `undefined` or `""` is a
Dafny `string` in which `""` stands for all three. Every reader in the source
tests such values only for truthiness. Socket ids are non-empty strings, and a
role slot is `Option<SocketId>`.

Modules: `Base` (shared types), `Events` (emissions and audiences), `Ai`
(provider calls and `services/ai.js`), `Rooms` (registry, room codes,
conversation ids), `Http`, `Presence`, `Handlers`, `Divergence`, and `Machine`.
`Machine` is the socket side as a state machine over event traces, with
invariants proved by induction.

## Model

| member | source | states |
|---|---|---|
| Rooms.EnsureRoom | server.js:49-59 | After the call the code is registered. An existing room is returned untouched. A missing code gets null slots, empty `lastClientText` and no conversation. No other entry changes. |
| Rooms.EnsureRoomIdempotent | controllers/roomsController.js:3-13 | A second `ensureRoom` for the same code returns the same entry and leaves the registry as the first call left it. |
| Rooms.EnsureRoomKeepsUpdates | services/room.js:3-13 | Fields written into a room after it was ensured are not reset by a later `ensureRoom` for that code. |
| Rooms.GenerateRoomCode | services/room.js:15-19 | If each chosen index is in [0,62), the code has exactly `len` characters and the i-th is the alphabet character at the i-th chosen index. |
| Rooms.AlphabetPositions | services/room.js:16 | The alphabet has 62 characters, and each one's position can be recovered from the character alone. |
| Rooms.RoomCodeRoundTrip | server.js:31-37 | Decoding a generated code gives back exactly the sequence of random choices that produced it, since the 62 characters are distinct. |
| Rooms.CreateConversationId | services/room.js:22-26 | It throws exactly when the provider throws. It returns null when the result or its id is missing, and the id otherwise. |
| Ai.GetOutputText | services/ai.js:1-4 | It returns the response text when that is truthy and the fallback otherwise, so it is never empty when the fallback is not. |
| Ai.AddUserItem | services/ai.js:6-16 | It makes no provider call exactly when the conversation id is falsy. Otherwise it makes one user-item append with the given text. |
| Ai.AddAssistantItem | services/ai.js:18-28 | It makes no provider call exactly when the conversation id is falsy. Otherwise it makes one assistant-item append with the given text. |
| Ai.GenerateDraftRequest | services/ai.js:30-55 | Present options pass through: model, instruction string, developer string and conversation id. Each absent option takes its default: model `gpt-5.1`, "" for both instruction strings, null for the conversation. The input quotes the client text. |
| Ai.RefineDraftRequest | services/ai.js:60-85 | The instructions are the configured string followed by the fixed feedback suffix. Model, developer string and conversation pass through or default as in `generateDraft`. The input quotes the last client text. |
| Ai.DraftText | services/ai.js:40-57 | A provider error propagates with its message. Otherwise the draft is the output text when that is truthy and the fallback when it is missing, so it is never empty. |
| Ai.NoOptionsDraftRequest | services/ai.js:31-38 | With no options, `generateDraft` asks model `gpt-5.1` with empty instructions and an empty quoted client text. |
| Http.Create | controllers/roomController.js:7-32 | Missing role or name gives 400 with no room, no call and no session change. Otherwise the room is registered before anything else. The code page appears exactly when the provider is configured (modular build) and conversation creation yields an id. That page carries the code, name and role; the id is stored and the session signed in. Every other path is a 500 that leaves the session unchanged and a new room without a conversation. Both builds are covered. |
| Http.Enter | controllers/roomController.js:34-51 | The result carries no registry, so entry never creates or changes a room. Missing fields give 400, an unknown code 404, and a room without a conversation 500. Redirect to /room happens exactly when the room exists and has a conversation, and only then is the session set. |
| Http.RoomPage | controllers/roomController.js:53-62 | It redirects home exactly when a session field is missing or the room is unknown. Otherwise it renders a page with the name and code: the client view for role "client" and the counselor view for any other role. |
| Http.CreatedRoomIsEnterable | server.js:66-110 | After a successful create, entering with that code redirects to /room, and the session create left behind renders the room page. |
| Http.FailedCreateNotEnterable | server.js:73-103 | If create fails after validation on a fresh code, the new room stays registered, and entry right after the failed create gets 500 for every valid form. |
| Http.SessionKeysDiverge | server.js:105-114 | A session signed in by one build lacks the code key the other build reads, so the other build's room page sends it home. |
| Http.CreateCollisionOverwritesConversation | controllers/roomController.js:13-21 | Create does not check that a generated code is unused. On a collision the existing room keeps its participants but gets a new conversation id. |
| Presence.Connect | controllers/socket/connectionHandler.js:3-21 | Nothing happens exactly when name, code or role is missing. Otherwise the socket remembers its session. Role "client" sets only `clientId` and role "counselor" sets only `counselorId`, each unconditionally. One join notice goes to the whole room. |
| Presence.Disconnect | controllers/socket/connectionHandler.js:23-37 | With no code it is a no-op. Otherwise a slot becomes null only if the leaving socket's role matches and the slot holds this socket's id; every other slot and field is unchanged. One leave notice goes to the room. |
| Presence.LeaveNoticeFallbacks | controllers/socket/connectionHandler.js:34-36 | Each part of the leave notice falls back on its own: a missing name reads "익명" whatever the role, and a missing role reads "알수없음" whatever the name. Present values appear as given. |
| Presence.StaleDisconnectKeepsNewerBinding | server.js:340-353 | Two sockets claim the same slot in turn. The older one disconnecting leaves the newer one bound; the newer one disconnecting frees the slot. |
| Handlers.ClientMessage | sockets/clientHandler.js:6-36 | It has no effect unless the role is client, the code is present and the text is non-empty. Otherwise it first broadcasts the text to the room as "client", then overwrites `lastClientText`. It appends a user item exactly when the room has a conversation. A failed append adds one `ai_error`, in the modular build only and only to a bound counselor. |
| Handlers.Generate | sockets/counselorHandler.js:9-59 | Empty `lastClientText` is checked before a missing conversation. Either failure gives one `ai_error` and no provider call. Otherwise there is one response request and, on success, one assistant append of the non-empty draft. Every output goes to the counselor slot only. The registry changes at most by `ensureRoom`. |
| Handlers.Refine | sockets/counselorHandler.js:61-119 | It needs an instruction and a conversation but not `lastClientText`. Calls come in order: instruction user item, then response request, then assistant item. A failure at either of the first two steps gives `ai_error` and no draft. The draft carries `revisedBy` = sender name and goes to the counselor only. |
| Handlers.SendFinal | sockets/counselorHandler.js:121-143 | It has no effect for a non-counselor, a missing code or empty text. Otherwise it broadcasts one counselor message to the room. It appends an assistant item only when the room has a conversation, and never reports an append failure. |
| Handlers.UtteranceSurvivesAppendFailure | sockets/clientHandler.js:23-35 | A failed user-item append does not roll back the recorded `lastClientText`. The registry is the same as after a successful append. |
| Handlers.DraftDeliveryIgnoresAppendOutcome | controllers/socket/counselorHandler.js:45-64 | Whether the best-effort assistant append fails changes nothing the counselor receives. |
| Handlers.AnxiousClientScenario | server.js:140-235 | The client says "I feel anxious" in room `R1` with conversation `conv_1`, then the counselor generates. The room sees only the message. The draft goes to the counselor alone and the utterance is kept. The conversation receives a user item, a request and an assistant item, in that order. |
| Handlers.RefineWithoutPriorDraft | controllers/socket/counselorHandler.js:72-149 | Refine succeeds with no prior draft or client message. It makes one instruction user item, one request and one assistant item, and the counselor gets a draft marked with their name. |
| Divergence.ClientMessageBuildsDiffer | server.js:156-167 | Both builds leave the same registry and make the same calls. The modular build's emissions extend the monolith's by at most one `ai_error`, and only when the append failed. |
| Handlers.GenerateRequest | server.js:196-213 | Every shaping asks about the room's conversation with the client text quoted. `server.js` uses model `gpt-5`, the others the configured model. `server.js` and the inlined handlers pass both instruction variables through as they are (unset stays unset); the service-based handlers send "" for an unset one. |
| Handlers.RefineRequest | server.js:267-282 | Every shaping asks about the room's conversation with the last client text quoted. The instructions are the configured string plus the fixed feedback suffix. An unset variable renders as "undefined" in `server.js` and the inlined handlers, and as "" in the service-based handlers. |
| Handlers.EmptyDraftFallsBack | services/ai.js:57 | A generate response without output text delivers the draft "(응답 생성 실패)" to the counselor only, and appends that same text as the assistant item. |
| Handlers.EmptyRevisionFallsBack | services/ai.js:87 | A refine response without output text delivers "(수정 실패)", marked with the sender's name, to the counselor only, and appends that same text as the assistant item. |
| Divergence.CreateBuildsDiffer | server.js:73-82 | For a null conversation result, `server.js` answers 500 "대화를 생성할 수 없습니다." and the modular build answers 500 "대화 생성 실패". Without a provider client, the modular build answers 500 "서버 설정 오류" with no call, while `server.js` does not depend on that setting. |
| Divergence.GenerateShapingsAgree | controllers/socket/counselorHandler.js:27-43 | All three shapings leave the same registry, emit the same events and make the same calls except for the response request. The inlined handlers with model `gpt-5` behave exactly like `server.js`. The service-based handlers behave exactly like the inlined ones once both instruction variables are set. |
| Divergence.RefineShapingsDiffer | controllers/socket/counselorHandler.js:105-120 | All three shapings leave the same registry and emit the same events. With the instruction variable unset, `server.js` and the inlined handlers start the instructions with "undefined" and the service-based handlers do not. The inlined handlers with model `gpt-5` send what `server.js` sends. |
| Divergence.ServiceAppendsMatchInline | server.js:158-164 | The guarded helpers `addUserItem` and `addAssistantItem` make exactly the calls of `server.js`'s inline `if (conversationId)` append. |
| Divergence.HandlerAppendsMatchInline | server.js:327-337 | In both builds, an accepted client message or final reply makes exactly the inline guarded append on the room's conversation; a rejected one makes no call. |
| Machine.ApplyKeepsInv | server.js:121-353 | Every socket event keeps the invariant: every occupied slot names a live socket that joined that room in that role. No room disappears and no conversation id changes. Drafts and AI errors go only to a live socket that joined the sender's room as counselor, never to a room. |
| Machine.RunKeepsInv | server.js:121-353 | Over any valid sequence of socket events, the invariant holds throughout. Rooms and their conversation ids persist, and no draft or AI error in the collected emissions is addressed to a room. |
| Machine.SlotsAlwaysLive | controllers/socket/connectionHandler.js:17-32 | From an empty server, after any valid event sequence, every occupied role slot of every room holds a live socket that joined this room in that role. No slot is left pointing at a socket that has disconnected. |

## Left out

- Busy guard: the source has no per-room in-flight flag and no "busy" rejection. None is modelled, and two overlapping generate runs are not covered.
- Concurrency: each handler run is modelled atomically, with provider outcomes supplied as inputs. Socket.io scheduling and interleaving across awaits are not modelled.
- Handlers.ClientMessage: the modular handler reads `counselorId` after its await; the model reads it at the start of the run. The two agree when no other event interleaves.
- Two registries: the modular build's split registries are modelled as one (see the observation above).
- Timestamps (`ts`, `Date.now()`) on messages and drafts are dropped. `Math.random()` is the index oracle `pick` of `GenerateRoomCode`.
- Provider payloads: item layout (`items: [...]` versus a single item), content types, `store: true` and the developer/instruction environment values themselves. Only the shaping done by `services/ai.js` and `server.js` is modelled.
- A thrown error that is `null` or `undefined` is not modelled. Every provider error carries a message string, possibly empty.
- Express, pug and session plumbing: page titles, the home route, `socket.join` (room membership is the socket's remembered code), the no-op `join` event, `console.error` logging.
- HTTP create and enter are not events of `Machine`. `Machine` covers socket events only; the create-collision lemma shows that create can replace a conversation id.
- Wiring and UI: `routers/routes.js`, `sockets/socketHub.js` (whose `./connectionHandler.js` import is not part of this model), and `public/client.js`.
- Room expiry: the source never removes rooms, and neither does the model.
- `client_message` overwrites `lastClientText` (it does not append). There is no in-flight guard. A room code can in principle be issued twice.
- Socket payloads that are not strings: `text` and `payload.instruction` are modelled as strings. A number or object payload, which `!text` and the template literals treat differently, is not modelled.
