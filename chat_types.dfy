/**
 The chat-message types that the Anthropic helpers consume. They belong to the
 surrounding client library; only the two fields the helpers read are kept:
 a role and a text content.
 */
module ChatTypes {

  /** The role of a chat turn. The library's enumeration has more members than
      the four the helpers name; `Other` stands for any of those, carrying its
      string value. */
  datatype MessageRole = System | User | Assistant | Function | Other(name: string)
  {
    /** An `Other` member is a distinct enumeration member, so its value differs
        from the values of the four named members. */
    predicate Valid() {
      Other? ==> name !in {"system", "user", "assistant", "function"}
    }
  }

  /** The lower-case string value of a role (the enumeration member's `.value`). */
  function RoleValue(role: MessageRole): (v: string)
    ensures role.Other? ==> v == role.name
  {
    match role
    case System => "system"
    case User => "user"
    case Assistant => "assistant"
    case Function => "function"
    case Other(name) => name
  }

  /** Distinct valid roles have distinct values, so a role can be told from its value. */
  lemma RoleValueInjective(a: MessageRole, b: MessageRole)
    requires a.Valid() && b.Valid()
    ensures RoleValue(a) == RoleValue(b) <==> a == b
  {
  }

  /** One turn of a conversation. */
  datatype ChatMessage = ChatMessage(role: MessageRole, content: string)
}
