/**
 * Chat messages as the OpenAI client takes them (role and text), and the
 * outcome of one model call. The model itself is not modelled: its reply is
 * an input of the operations that call it.
 */
module Chat {
  import opened Strings

  datatype Role = System | User | Assistant

  /** The role as it is spelled on the wire. */
  function RoleName(r: Role): GoString {
    match r
    case System => "system"
    case User => "user"
    case Assistant => "assistant"
  }

  datatype ChatMessage = ChatMessage(role: Role, content: GoString)

  /** One call of the model: its text, or the error the client returned. */
  datatype ModelReply = Replied(text: GoString) | ModelFailed
}
