/** The chat-completion provider client used by the assistant engine
    (src/provider/openai.rs): the role tables, the wire message, the typed
    response with its accessors, and the cost formula. The HTTP call itself
    (`process`) is an oracle supplied by the caller. */
module ProviderOpenAi {

  import opened Common
  import Rows

  /** Message roles as the provider names them. */
  datatype Role = System | User | Assistant | Tool | Function

  const UNKNOWN_ROLE: string := "Unknown chat role"

  /** `Role::to_id`: the role's id in the store's `message_type` column. */
  function RoleToId(r: Role): (id: int)
    ensures 1 <= id <= 5
  {
    match r
    case System => 1
    case User => 2
    case Assistant => 3
    case Tool => 4
    case Function => 5
  }

  /** `TryFrom<i32> for Role`. */
  function RoleFromId(id: int): (r: Result<Role, string>)
    ensures r.Ok? <==> 1 <= id <= 5
    ensures r.Ok? ==> RoleToId(r.value) == id
    ensures r.Err? ==> r.error == UNKNOWN_ROLE
  {
    match id
    case 1 => Ok(System)
    case 2 => Ok(User)
    case 3 => Ok(Assistant)
    case 4 => Ok(Tool)
    case 5 => Ok(Function)
    case _ => Err(UNKNOWN_ROLE)
  }

  /** Reading back the id of a role gives the role. */
  lemma RoleIdRoundTrip(r: Role)
    ensures RoleFromId(RoleToId(r)) == Ok(r)
  {
  }

  /** `ToString for Role`: the wire name. */
  function RoleName(r: Role): (s: string)
  {
    match r
    case System => "system"
    case User => "user"
    case Assistant => "assistant"
    case Tool => "tool"
    case Function => "function"
  }

  /** `TryFrom<&str> for Role`: exactly the five wire names are accepted. */
  function RoleFromName(s: string): (r: Result<Role, string>)
    ensures r.Ok? <==> s in {"system", "user", "assistant", "tool", "function"}
    ensures r.Ok? ==> RoleName(r.value) == s
    ensures r.Err? ==> r.error == UNKNOWN_ROLE
  {
    if s == "system" then Ok(System)
    else if s == "user" then Ok(User)
    else if s == "assistant" then Ok(Assistant)
    else if s == "tool" then Ok(Tool)
    else if s == "function" then Ok(Function)
    else Err(UNKNOWN_ROLE)
  }

  /** Parsing the wire name of a role gives the role back. */
  lemma RoleNameRoundTrip(r: Role)
    ensures RoleFromName(RoleName(r)) == Ok(r)
  {
  }

  /** One message of the provider's wire format: a role name and text. */
  datatype Message = Message(role: string, content: string)

  datatype Conversation = Conversation(messages: seq<Message>)

  datatype Usage = Usage(promptTokens: nat, completionTokens: nat, totalTokens: nat)

  datatype Choice = Choice(message: Message, finishReason: string, index: nat)

  /** The decoded JSON reply of a chat-completion request. */
  datatype Response = Response(
    id: string, object: string, created: nat, model: string,
    usage: Usage, choices: seq<Choice>)

  /** `Response::content`: the first choice's text, or "" without choices. */
  function ResponseContent(resp: Response): (c: string)
    ensures resp.choices != [] ==> c == resp.choices[0].message.content
    ensures resp.choices == [] ==> c == ""
  {
    if resp.choices == [] then "" else resp.choices[0].message.content
  }

  /** `Response::role`: the first choice's role (the unwrap panics on an
      unknown name), or System without choices. */
  function ResponseRole(resp: Response): (r: Fallible<Role>)
    ensures resp.choices == [] ==> r == Returns(System)
    ensures resp.choices != [] ==>
      (r.Returns? <==> RoleFromName(resp.choices[0].message.role).Ok?)
    ensures resp.choices != [] && r.Returns? ==>
      RoleName(r.value) == resp.choices[0].message.role
  {
    if resp.choices == [] then Returns(System)
    else match RoleFromName(resp.choices[0].message.role)
      case Ok(role) => Returns(role)
      case Err(_) => Panics
  }

  /** `Response::prompt_tokens`: the usage field, unchanged. */
  function PromptTokens(resp: Response): (n: nat)
    ensures n == resp.usage.promptTokens
  {
    resp.usage.promptTokens
  }

  /** `Response::completion_tokens`: the usage field, unchanged. */
  function CompletionTokens(resp: Response): (n: nat)
    ensures n == resp.usage.completionTokens
  {
    resp.usage.completionTokens
  }

  /** Provider configuration; prices are per 1000 tokens. */
  datatype Config = Config(
    id: nat, name: string, endpoint: string, apiKey: string, maxTokens: nat,
    promptTokenPrice: real, completionTokenPrice: real)

  /** `Agent::max_tokens`: the context-window ceiling of the provider. */
  function MaxTokens(cfg: Config): (n: nat)
    ensures n == cfg.maxTokens
  {
    cfg.maxTokens
  }

  /** Price of `p` prompt tokens and `c` completion tokens. */
  function Price(cfg: Config, p: nat, c: nat): real
  {
    (cfg.promptTokenPrice * p as real + cfg.completionTokenPrice * c as real) / 1000.0
  }

  /** `Agent::cost`: the price of the tokens a response reports. */
  function Cost(cfg: Config, resp: Response): (c: real)
    ensures c == Price(cfg, resp.usage.promptTokens, resp.usage.completionTokens)
  {
    (cfg.promptTokenPrice * PromptTokens(resp) as real
      + cfg.completionTokenPrice * CompletionTokens(resp) as real) / 1000.0
  }

  /** A response that used no tokens costs nothing. */
  lemma CostOfNoTokens(cfg: Config, resp: Response)
    requires resp.usage.promptTokens == 0 && resp.usage.completionTokens == 0
    ensures Cost(cfg, resp) == 0.0
  {
  }

  /** With non-negative prices a response never has a negative cost, and
      more tokens never cost less. */
  lemma CostMonotone(cfg: Config, p: nat, c: nat, p': nat, c': nat)
    requires cfg.promptTokenPrice >= 0.0 && cfg.completionTokenPrice >= 0.0
    requires p <= p' && c <= c'
    ensures 0.0 <= Price(cfg, p, c) <= Price(cfg, p', c')
  {
    assert cfg.promptTokenPrice * p as real <= cfg.promptTokenPrice * p' as real;
    assert cfg.completionTokenPrice * c as real <= cfg.completionTokenPrice * c' as real;
  }

  /** Billing two exchanges separately costs the same as billing their
      summed token counts at once. */
  lemma CostAdditive(cfg: Config, p1: nat, c1: nat, p2: nat, c2: nat)
    ensures Price(cfg, p1 + p2, c1 + c2) == Price(cfg, p1, c1) + Price(cfg, p2, c2)
  {
  }

  /** `From<&model::Message> for Message`: the stored row's content with the
      wire name of its `message_type`; the `expect` panics on an id outside
      1..5. */
  function FromStoredMessage(m: Rows.MessageRow): (r: Fallible<Message>)
    ensures r.Returns? <==> 1 <= m.messageType <= 5
    ensures r.Returns? ==> r.value.content == m.content
    ensures r.Returns? ==>
      RoleFromName(r.value.role).Ok? && RoleToId(RoleFromName(r.value.role).value) == m.messageType
  {
    match RoleFromId(m.messageType)
    case Ok(role) =>
      RoleNameRoundTrip(role);
      Returns(Message(RoleName(role), m.content))
    case Err(_) => Panics
  }
}
