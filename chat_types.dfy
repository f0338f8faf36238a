/**
 * The records the chat client keeps in memory, as the REST API and the push
 * channel deliver them. Timestamps are opaque ISO strings; the client never
 * compares them.
 */
module ChatTypes {
  import opened Wrappers

  /**
   * A conversation as listed by `GET /conversations`. `unreadCount` may be
   * missing from a payload; the client reads a missing count like 0.
   */
  datatype Conversation = Conversation(
    id: string,
    participants: seq<string>,
    latestMessage: string,
    createdAt: string,
    updatedAt: string,
    unreadCount: Option<nat>)

  /** The `_id` by which the conversation list is keyed. */
  function ConversationKey(c: Conversation): string
  {
    c.id
  }

  /** The unread count as the client reads it (`undefined` counts as 0). */
  function Unread(c: Conversation): nat
  {
    match c.unreadCount
    case Some(n) => n
    case None => 0
  }

  /** A chat message; `id` is either the server's `_id` or a client temp id. */
  datatype Message = Message(
    id: string,
    content: string,
    senderId: string,
    conversationId: Option<string>,
    messageType: string,
    attachments: seq<string>,
    createdAt: string,
    updatedAt: string)

  /** The `_id` by which the message list is keyed. */
  function MessageKey(m: Message): string
  {
    m.id
  }

  /** The fields an edit may carry; an absent field leaves the message's own. */
  datatype Patch = Patch(
    content: Option<string>,
    messageType: Option<string>,
    attachments: Option<seq<string>>)

  /** The body of a socket `sendMessage`. */
  datatype Outgoing = Outgoing(conversationId: string, content: string, senderId: string)

  /** An event the client hands to a socket with `emit`. */
  datatype Emission =
    | ConversationCreate(conversation: Conversation)
    | ConversationDelete(conversationId: string)
    | JoinChat(chatId: string)
    | LeaveChat(chatId: string)
    | SendMessage(data: Outgoing)
    | Typing(conversationId: string, isTyping: bool)
    | UpdateMessage(messageId: string, patch: Patch)
    | DeleteMessage(messageId: string)
    | GetOnlineUsers
}
