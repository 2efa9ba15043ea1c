/** Rows of the chat tables `chat_conversations` and `chat_messages`. */
module ChatSchema {
  import opened Wrappers

  /** A row of `chat_conversations`: one conversation per customer. */
  datatype Conversation = Conversation(id: int, userId: string)

  /** A row of `chat_messages`; `createdAt` is in whole seconds. */
  datatype ChatMessage = ChatMessage(
    id: int,
    conversationId: int,
    senderId: string,
    senderRole: string,
    senderName: string,
    message: string,
    isAiResponse: bool,
    aiModel: Option<string>,
    createdAt: int,
    read: bool)

  /** Rows appear in the table in the order of their creation time. */
  predicate Chronological(rows: seq<ChatMessage>) {
    forall i, j :: 0 <= i < j < |rows| ==> rows[i].createdAt <= rows[j].createdAt
  }

  predicate InConversation(conversationId: int, m: ChatMessage) {
    m.conversationId == conversationId
  }

  /** The row filter of a query on one conversation. */
  function ConversationRows(conversationId: int): ChatMessage -> bool {
    (m: ChatMessage) => InConversation(conversationId, m)
  }
}
