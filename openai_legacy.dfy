/** The first chat client (src/openai.rs): a conversation is a list of
    role-tagged messages that opens with a system prompt, grows by
    appending and can be cleared. */
module OpenAiLegacy {

  import opened Common

  datatype MessageRole = System | User | Assistant

  /** A message of the conversation; `role()` and `content()` are its
      fields. */
  datatype Message = Message(role: MessageRole, content: string)

  const DEFAULT_SYSTEM_PROMPT: string := "You are a helpful assistant."

  /** `Message::new`: what `role()` and `content()` return is what was
      passed in. */
  function NewMessage(role: MessageRole, content: string): (m: Message)
    ensures m.role == role && m.content == content
  {
    Message(role, content)
  }

  class Conversation {
    var messages: seq<Message>

    /** The conversation opens with a system message, or is empty after a
        clear. */
    predicate OpensWithSystem()
      reads this
    {
      messages == [] || messages[0].role == System
    }

    /** `Conversation::new`: exactly one system message, with the given
        text or the default prompt. */
    constructor (systemMsg: Option<string>)
      ensures OpensWithSystem()
      ensures messages == [NewMessage(System, if systemMsg.Some? then systemMsg.value else DEFAULT_SYSTEM_PROMPT)]
    {
      var text := match systemMsg
        case Some(m) => m
        case None => DEFAULT_SYSTEM_PROMPT;
      messages := [NewMessage(System, text)];
    }

    /** `append`: a copy of the message goes at the end; what was there
        stays, so the conversation still opens the way it did. */
    method Append(msg: Message)
      modifies this
      ensures messages == old(messages) + [msg]
      ensures old(messages) != [] ==> messages[0] == old(messages)[0]
      ensures old(messages) != [] && old(OpensWithSystem()) ==> OpensWithSystem()
    {
      messages := messages + [msg];
    }

    /** `clear`: no message is left. */
    method Clear()
      modifies this
      ensures messages == [] && OpensWithSystem()
    {
      messages := [];
    }
  }
}
