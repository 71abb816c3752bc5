/**
 * The rows shared by the server and the browser: a conversation and one of its
 * messages. Identifiers are the database's serial keys; `createdAt` is a
 * logical timestamp (a counter that grows by one on every insert) standing in
 * for the database clock.
 */
module Schema {

  /** Who wrote a persisted message. */
  datatype Role = User | Assistant

  datatype Conversation = Conversation(id: int, title: string, userId: int, createdAt: int)

  datatype Message = Message(id: int, conversationId: int, role: Role, content: string, createdAt: int)
}
