/** The OpenAI provider of the reception generation
    (src/reception/providers/openai.rs): the roles of the chat API and their
    conversion to and from the core roles, the chargeable answer with its
    cost, and the request body built from a conversation. */
module ReceptionOpenAi {

  import C = ReceptionCore

  /** The roles of the chat API. */
  datatype ChatRole = System | User | Assistant | Tool | Function

  datatype ChatMessage = ChatMessage(role: ChatRole, content: string)

  datatype ApiUsage = ApiUsage(promptTokens: nat, completionTokens: nat, totalTokens: nat)

  datatype ChatResult = ChatResult(message: ChatMessage, finishReason: string, index: nat)

  datatype ChatResponse = ChatResponse(
    id: string, object: string, created: nat, model: string, usage: ApiUsage, choices: seq<ChatResult>)

  /** An answer together with the deployment's prices per thousand
      tokens. */
  datatype ChargeableMsg = ChargeableMsg(promptTokenPrice: real, completionTokenPrice: real, response: ChatResponse)

  /** The request body. */
  datatype ChatConversation = ChatConversation(messages: seq<ChatMessage>)

  const DEFAULT_SYSTEM_PROMPT: string := "You are a helpful assistant."

  /** `From<ChatRole> for MessageRole`: the roles the core knows map to
      themselves; tool and function output is supplementary. */
  function ToMessageRole(r: ChatRole): (m: C.MessageRole)
    ensures m.Supplementary? <==> r.Tool? || r.Function?
  {
    match r
    case System => C.MessageRole.System
    case User => C.MessageRole.User
    case Assistant => C.MessageRole.Assistant
    case _ => C.MessageRole.Supplementary
  }

  /** `From<MessageRole> for ChatRole`: supplementary messages are sent as
      tool output. */
  function ToChatRole(m: C.MessageRole): (r: ChatRole)
    ensures !r.Function?
    ensures r.Tool? <==> m.Supplementary?
  {
    match m
    case System => System
    case User => User
    case Assistant => Assistant
    case Supplementary => Tool
  }

  /** A core role survives the trip through the chat API. */
  lemma MessageRoleRoundTrip(m: C.MessageRole)
    ensures ToMessageRole(ToChatRole(m)) == m
  {
  }

  /** A chat role survives the trip through the core, except that function
      output comes back as tool output. */
  lemma ChatRoleRoundTrip(r: ChatRole)
    ensures ToChatRole(ToMessageRole(r)) == if r.Function? then Tool else r
  {
  }

  /** `From<T: AIMessage> for ChatMessage` on a core message. */
  function FromCore(m: C.Message): (c: ChatMessage)
    ensures ToMessageRole(c.role) == m.role && c.content == m.content
  {
    ChatMessage(ToChatRole(m.role), m.content)
  }

  /** `ChargeableMsg::content`: the first choice's text, or nothing. */
  function Content(m: ChargeableMsg): string
  {
    if |m.response.choices| > 0 then m.response.choices[0].message.content else ""
  }

  /** `ChargeableMsg::role`: the first choice's role, or supplementary. */
  function Role(m: ChargeableMsg): C.MessageRole
  {
    if |m.response.choices| > 0 then ToMessageRole(m.response.choices[0].message.role)
    else C.MessageRole.Supplementary
  }

  /** `From<T: AIMessage> for ChatMessage` on a chargeable answer. */
  function FromChargeable(m: ChargeableMsg): ChatMessage
  {
    ChatMessage(ToChatRole(Role(m)), Content(m))
  }

  /** Turning an answer back into a chat message gives the first choice's
      message, with function output relabelled as tool output; an answer
      without choices becomes an empty tool message. */
  lemma ChargeableRoundTrip(m: ChargeableMsg)
    ensures |m.response.choices| == 0 ==> FromChargeable(m) == ChatMessage(Tool, "")
    ensures |m.response.choices| > 0 && !m.response.choices[0].message.role.Function? ==>
      FromChargeable(m) == m.response.choices[0].message
    ensures |m.response.choices| > 0 && m.response.choices[0].message.role.Function? ==>
      FromChargeable(m) == ChatMessage(Tool, m.response.choices[0].message.content)
  {
    if |m.response.choices| > 0 {
      ChatRoleRoundTrip(m.response.choices[0].message.role);
    }
  }

  /** `ChargeableMsg::cost`: prices are per thousand tokens. */
  function Cost(m: ChargeableMsg): (r: real)
    ensures m.response.usage.promptTokens == 0 && m.response.usage.completionTokens == 0 ==> r == 0.0
    ensures m.promptTokenPrice >= 0.0 && m.completionTokenPrice >= 0.0 ==> r >= 0.0
  {
    (m.promptTokenPrice * m.response.usage.promptTokens as real +
     m.completionTokenPrice * m.response.usage.completionTokens as real) / 1000.0
  }

  /** The cost of two answers' tokens at one price list is the cost of
      their tokens together. */
  lemma CostAdditive(m1: ChargeableMsg, m2: ChargeableMsg, m: ChargeableMsg)
    requires m1.promptTokenPrice == m2.promptTokenPrice == m.promptTokenPrice
    requires m1.completionTokenPrice == m2.completionTokenPrice == m.completionTokenPrice
    requires m.response.usage.promptTokens ==
      m1.response.usage.promptTokens + m2.response.usage.promptTokens
    requires m.response.usage.completionTokens ==
      m1.response.usage.completionTokens + m2.response.usage.completionTokens
    ensures Cost(m) == Cost(m1) + Cost(m2)
  {
    var p, c := m.promptTokenPrice, m.completionTokenPrice;
    var u1, u2 := m1.response.usage, m2.response.usage;
    assert p * (u1.promptTokens + u2.promptTokens) as real ==
      p * u1.promptTokens as real + p * u2.promptTokens as real;
    assert c * (u1.completionTokens + u2.completionTokens) as real ==
      c * u1.completionTokens as real + c * u2.completionTokens as real;
  }

  /** The system prompt of the request: the first message's text whatever
      its role, or the default. */
  function SystemPrompt(ms: seq<C.Message>): string
  {
    if |ms| > 0 then ms[0].content else DEFAULT_SYSTEM_PROMPT
  }

  /** Where the messages after the system prompt start. */
  function RestStart(ms: seq<C.Message>): nat
  {
    if |ms| > 0 then 1 else 0
  }

  /** Each message converted for the chat API. */
  function Converted(ms: seq<C.Message>): (r: seq<ChatMessage>)
    ensures |r| == |ms| && forall i :: 0 <= i < |ms| ==> r[i] == FromCore(ms[i])
  {
    seq(|ms|, i requires 0 <= i < |ms| => FromCore(ms[i]))
  }

  /** `From<T: AIConversation> for ChatConversation`: a system message,
      then the remaining messages converted. */
  function ChatConversationOf(ms: seq<C.Message>): ChatConversation
  {
    ChatConversation([ChatMessage(System, SystemPrompt(ms))] + Converted(ms[RestStart(ms)..]))
  }

  /** The request always opens with one system message carrying the first
      message's text (its own role is dropped) or the default, and every
      later message keeps its role and text; the body holds max(1, n)
      messages. */
  lemma ChatConversationShape(ms: seq<C.Message>)
    ensures |ChatConversationOf(ms).messages| == if |ms| > 0 then |ms| else 1
    ensures ChatConversationOf(ms).messages[0].role == System
    ensures |ms| == 0 ==> ChatConversationOf(ms).messages[0].content == DEFAULT_SYSTEM_PROMPT
    ensures |ms| > 0 ==> ChatConversationOf(ms).messages[0].content == ms[0].content
    ensures forall i :: 1 <= i < |ms| ==>
      ToMessageRole(ChatConversationOf(ms).messages[i].role) == ms[i].role &&
      ChatConversationOf(ms).messages[i].content == ms[i].content
  {
    var out := ChatConversationOf(ms).messages;
    forall i | 1 <= i < |ms|
      ensures ToMessageRole(out[i].role) == ms[i].role && out[i].content == ms[i].content
    {
      assert out[i] == FromCore(ms[1..][i - 1]);
    }
  }

  /** The builder as written: push the system message, then push each
      remaining message from the iterator. */
  method FromConversation(conversation: C.Conversation) returns (c: ChatConversation)
    ensures c == ChatConversationOf(conversation.content)
  {
    var ms := conversation.content;
    var messages := [ChatMessage(System, SystemPrompt(ms))];
    var start := RestStart(ms);
    var i := start;
    while i < |ms|
      invariant start <= i <= |ms|
      invariant messages == [ChatMessage(System, SystemPrompt(ms))] + Converted(ms[start..i])
    {
      assert ms[start..i + 1] == ms[start..i] + [ms[i]];
      messages := messages + [FromCore(ms[i])];
      i := i + 1;
    }
    assert ms[start..i] == ms[start..];
    c := ChatConversation(messages);
  }
}
