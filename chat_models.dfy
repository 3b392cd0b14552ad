/**
 * Records of the chat service: the database rows of app/db/models/chat.py and
 * app/db/models/user.py, and the response shapes of app/schemas/chat.py.
 */
module ChatModels {
  import opened Results

  type UserId = int
  type ChatId = int
  type MessageId = int
  /** The identity of one accepted WebSocket. */
  type ConnId = nat
  /** A database `func.now()` value; supplied by the caller. */
  type Timestamp = int

  /** A `users` row, reduced to the columns the chat endpoints read. */
  datatype User = User(id: UserId, username: string)

  /** A `chat_rooms` row. */
  datatype ChatRoom = ChatRoom(id: ChatId, name: Option<string>, isGroup: bool, createdAt: Timestamp)

  /** A `chat_participants` row: the membership relation. */
  datatype ChatParticipant = ChatParticipant(chatId: ChatId, userId: UserId)

  /** A `chat_messages` row. */
  datatype ChatMessage = ChatMessage(id: MessageId, chatId: ChatId, senderId: UserId, message: string, createdAt: Timestamp)

  /** The `ChatResponse` schema. */
  datatype ChatResponse = ChatResponse(id: ChatId, name: Option<string>, isGroup: bool, createdAt: Timestamp)

  /** The `MessageResponse` schema; `id` and `createdAt` default to `None`. */
  datatype MessageResponse = MessageResponse(
    id: Option<MessageId>, createdAt: Option<Timestamp>,
    chatId: ChatId, senderId: UserId, message: string)

  /** A frame written to a WebSocket: a bare text, or a serialised `MessageResponse`. */
  datatype Frame = TextFrame(text: string) | PayloadFrame(payload: MessageResponse)

  /** The `HTTPException` a REST endpoint finally raises. */
  datatype HttpError = HttpError(status: int, detail: string)

  /** The close code of a refused WebSocket handshake (policy violation). */
  const PolicyViolation: int := 1008

  /** The text sent to a user who posts to a chat they do not belong to. */
  const NotParticipantText: string := "Error: You are not a participant in this chat."

  /*
   * Every REST handler catches its own `HTTPException(404, d)` and raises
   * `HTTPException(400, str(e))`, and `str` of an HTTPException is "<status>: <detail>".
   */
  const UserNotFound: HttpError := HttpError(400, "404: User not found")
  const ChatNotFound: HttpError := HttpError(400, "404: Chat not found")
  const AlreadyParticipant: HttpError := HttpError(400, "400: User is already a participant in this chat")

  /** `chat_id` columns are 32-bit `Integer`s: the values the database accepts for them. */
  predicate FitsInt4(n: int)
  {
    -0x8000_0000 <= n < 0x8000_0000
  }

  /** The `ChatResponse` built from a room. */
  function ToChatResponse(room: ChatRoom): ChatResponse
  {
    ChatResponse(room.id, room.name, room.isGroup, room.createdAt)
  }

  /** The `MessageResponse` the REST listing builds: no id, no timestamp. */
  function ToListedMessage(m: ChatMessage): MessageResponse
  {
    MessageResponse(None, None, m.chatId, m.senderId, m.message)
  }

  /** The payload broadcast over WebSockets: every column of the new row. */
  function ToPayload(m: ChatMessage): (r: MessageResponse)
    ensures r.id.Some? && r.createdAt.Some?
    ensures ChatMessage(r.id.value, r.chatId, r.senderId, r.message, r.createdAt.value) == m
  {
    MessageResponse(Some(m.id), Some(m.createdAt), m.chatId, m.senderId, m.message)
  }
}
