/** The records a chat session is stored as. */
module ChatMemory {
  import opened Wrappers

  datatype MessageRole = User | Assistant

  datatype UserType = PublicUser | AdminUser

  /** One message; `timestamp` is the clock reading when it was saved. */
  datatype ChatMessage = ChatMessage(role: MessageRole, content: string, timestamp: int)

  /** A stored session; the nullable fields are `None` when null or absent. */
  datatype ChatSession = ChatSession(
    sessionId: string,
    userType: UserType,
    identity: Option<string>,
    viewedProperties: seq<string>,
    lastIntent: Option<string>,
    journeyStage: Option<string>,
    messages: seq<ChatMessage>,
    createdAt: int)

  /** The stored spelling of a user type. */
  function UserTypeName(t: UserType): (r: string)
    ensures r == "PUBLIC" || r == "ADMIN"
    ensures (r == "ADMIN") <==> t == AdminUser
  {
    match t
    case PublicUser => "PUBLIC"
    case AdminUser => "ADMIN"
  }
}
