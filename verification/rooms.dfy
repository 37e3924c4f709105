/** The room registry (services/room.js, its duplicate
    controllers/roomsController.js, and the copy inside server.js), room-code
    issuance and conversation-id creation. */
module Rooms {
  import opened Base
  import opened Ai

  /** One room. `conversationId` is "" while it is null. */
  datatype Room = Room(
    clientId: Option<SocketId>,
    counselorId: Option<SocketId>,
    lastClientText: string,
    conversationId: string)

  type Registry = map<string, Room>

  /** The record `ensureRoom` stores for a code it has not seen. */
  const NewRoom: Room := Room(None, None, "", "")

  predicate HasConversation(r: Room)
  {
    r.conversationId != ""
  }

  /** `after` differs from `before` at most by a fresh default room at `code`. */
  predicate OnlyEnsured(before: Registry, after: Registry, code: string)
  {
    && code in after
    && after.Keys == before.Keys + {code}
    && (forall c :: c in before ==> after[c] == before[c])
    && (code !in before ==> after[code] == NewRoom)
  }

  /** `ensureRoom(code)`: the existing room, untouched, or a new default room
      registered under `code`; no other entry changes. */
  function EnsureRoom(rooms: Registry, code: string): (res: (Registry, Room))
    ensures OnlyEnsured(rooms, res.0, code)
    ensures res.0[code] == res.1
    ensures code in rooms ==> res.0 == rooms
  {
    if code in rooms then (rooms, rooms[code]) else (rooms[code := NewRoom], NewRoom)
  }

  /** A second `ensureRoom` for the same code returns the same entry and
      changes nothing. */
  lemma EnsureRoomIdempotent(rooms: Registry, code: string)
    ensures EnsureRoom(EnsureRoom(rooms, code).0, code) == EnsureRoom(rooms, code)
  {
  }

  /** Fields set on a room after it was ensured survive the next `ensureRoom`. */
  lemma EnsureRoomKeepsUpdates(rooms: Registry, code: string, updated: Room)
    ensures var rooms1 := EnsureRoom(rooms, code).0[code := updated];
      EnsureRoom(rooms1, code) == (rooms1, updated)
  {
  }

  // ----- Room codes -----

  /** `n` consecutive characters starting at `first`. */
  function Range(first: char, n: nat): (s: string)
    requires first as int + n < 0xD800
    ensures |s| == n
    ensures forall k :: 0 <= k < n ==> s[k] == (first as int + k) as char
  {
    seq(n, k requires 0 <= k < n => (first as int + k) as char)
  }

  /** The 62 code characters in source order: A-Z, a-z, 0-9. */
  const Alphabet: string := Range('A', 26) + Range('a', 26) + Range('0', 10)

  /** Position of a character in `Alphabet`, computed from its code point. */
  function IndexOf(c: char): int
  {
    if 'A' <= c <= 'Z' then c as int - 'A' as int
    else if 'a' <= c <= 'z' then c as int - 'a' as int + 26
    else c as int - '0' as int + 52
  }

  lemma AlphabetPositions()
    ensures |Alphabet| == 62
    ensures forall k :: 0 <= k < |Alphabet| ==> IndexOf(Alphabet[k]) == k
  {
  }

  /** `generateRoomCode(len)`: `pick(i)` is the index the random source yields
      for the i-th character. */
  method GenerateRoomCode(len: nat, pick: nat -> int) returns (code: string)
    requires forall i :: 0 <= i < len ==> 0 <= pick(i) < |Alphabet|
    ensures |code| == len
    ensures forall i :: 0 <= i < len ==> code[i] == Alphabet[pick(i)]
    ensures forall i :: 0 <= i < |code| ==> code[i] in Alphabet
  {
    code := "";
    var i := 0;
    while i < len
      invariant 0 <= i <= len
      invariant |code| == i
      invariant forall k :: 0 <= k < i ==> code[k] == Alphabet[pick(k)]
    {
      code := code + [Alphabet[pick(i)]];
      i := i + 1;
    }
  }

  /** Recovers the chosen indices from a room code. */
  function DecodeRoomCode(code: string): (picks: seq<int>)
    ensures |picks| == |code|
  {
    seq(|code|, k requires 0 <= k < |code| => IndexOf(code[k]))
  }

  /** A generated code determines the random choices that produced it: the
      62 characters are distinct. */
  lemma RoomCodeRoundTrip(len: nat, pick: nat -> int, code: string)
    requires forall i :: 0 <= i < len ==> 0 <= pick(i) < |Alphabet|
    requires |code| == len
    requires forall i :: 0 <= i < len ==> code[i] == Alphabet[pick(i)]
    ensures DecodeRoomCode(code) == seq(len, i requires 0 <= i < len => pick(i))
  {
  }

  // ----- Conversation creation -----

  /** `createConversationId`: a thrown error propagates; a missing result or
      a missing id gives null (""); otherwise the id. */
  function CreateConversationId(reply: ConvReply): (r: Fallible<string>)
    ensures r.Threw? <==> reply.ConvThrows?
    ensures r.Returned? ==> (r.value != "" <==> reply.ConvObject? && reply.id != "")
    ensures r.Returned? && reply.ConvObject? ==> r.value == reply.id
  {
    match reply
    case ConvThrows(m) => Threw(m)
    case ConvNull => Returned("")
    case ConvObject(id) => Returned(id)
  }
}
