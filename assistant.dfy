/** The assistant engine (src/assistant.rs): it loads the guest's active
    conversation from the store, trims its context, converts it to the
    provider's wire format, asks the provider, and records both the guest's
    message and the reply. The provider call is the parameter `process`. */
module Assistant {

  import opened Common
  import opened Rows
  import Core
  import P = ProviderOpenAi
  import S = Storage

  datatype Error = StorageError(message: string) | ProviderError(message: string)

  /** What `chat` hands back: the reply text and what it cost. */
  datatype Reply = Reply(content: string, cost: real)

  /** The string `audit` returns: the bill, or the internal-error notice. */
  datatype AuditReport =
    | Report(lastTokens: int, promptTokens: int, completionTokens: int, cost: real)
    | InternalError(message: string)

  const CREATE_FAILED: string := "创建会话记录失败。"
  const PROVIDER_FAILED: string := "获取AI回复时发生错误。请等一分钟再试，或者向管理员寻求帮助。"
  const INTERNAL_ERROR: string := "内部错误，请稍后再试。"

  /** Tokens a stored message accounts for. */
  function Tokens(m: MessageRow): int
  {
    m.promptTokens + m.completionTokens
  }

  /** Left fold of `f` over the rows, from the first to the last. */
  function SumOf(s: seq<MessageRow>, f: MessageRow -> int): int
  {
    if s == [] then 0 else SumOf(s[..|s| - 1], f) + f(s[|s| - 1])
  }

  function RowCost(m: MessageRow): real { m.cost }

  /** The summed cost of the rows. */
  function SumCost(s: seq<MessageRow>): real
  {
    RealSum(s, RowCost)
  }

  function PromptOf(m: MessageRow): int { m.promptTokens }
  function CompletionOf(m: MessageRow): int { m.completionTokens }

  lemma {:induction false} SumOfAppend(a: seq<MessageRow>, b: seq<MessageRow>, f: MessageRow -> int)
    ensures SumOf(a + b, f) == SumOf(a, f) + SumOf(b, f)
  {
    if b == [] {
      assert a + b == a;
    } else {
      assert (a + b)[..|a + b| - 1] == a + b[..|b| - 1];
      SumOfAppend(a, b[..|b| - 1], f);
    }
  }

  /** The bill is additive: the cost of a history extended by new messages is
      the old cost plus the new messages' costs. */
  lemma {:induction false} SumCostAppend(a: seq<MessageRow>, b: seq<MessageRow>)
    ensures SumCost(a + b) == SumCost(a) + SumCost(b)
  {
    RealSumAppend(a, b, RowCost);
  }

  /** Tokens of the `n` messages right after the first. */
  function DroppedTokens(c: seq<MessageRow>, n: nat): int
    requires n < |c|
  {
    SumOf(c[1..1 + n], Tokens)
  }

  /** One more message dropped adds its tokens. */
  lemma DroppedTokensStep(c: seq<MessageRow>, n: nat)
    requires n + 1 < |c|
    ensures DroppedTokens(c, n + 1) == DroppedTokens(c, n) + Tokens(c[1 + n])
  {
    var s := c[1..2 + n];
    assert s[..|s| - 1] == c[1..1 + n];
    assert s[|s| - 1] == c[1 + n];
  }

  /** How many messages after the first the trimming loop drops, starting
      from `n` already dropped: it stops once the dropped tokens reach the
      budget or only two messages remain. */
  function DropFrom(c: seq<MessageRow>, budget: int, n: nat): (k: nat)
    decreases |c| - n
    ensures n <= k
    ensures k == n || |c| - k >= 2
    ensures forall m :: n <= m < k ==> |c| - m > 2 && DroppedTokens(c, m) < budget
    ensures !(|c| - k > 2 && DroppedTokens(c, k) < budget)
  {
    if |c| - n > 2 && DroppedTokens(c, n) < budget then DropFrom(c, budget, n + 1) else n
  }

  /** The context after trimming with a token budget: messages right after
      the first are removed while fewer tokens than the budget have been
      dropped and more than two messages remain. */
  function Trimmed(c: seq<MessageRow>, budget: int): seq<MessageRow>
  {
    if |c| >= 3 then [c[0]] + c[1 + DropFrom(c, budget, 0)..] else c
  }

  /** Trimming keeps the first and the latest message and never leaves fewer
      than two of three or more; the removed messages are a contiguous run
      right after the first. */
  lemma TrimmedShape(c: seq<MessageRow>, budget: int)
    ensures |c| < 3 ==> Trimmed(c, budget) == c
    ensures |c| >= 3 ==>
      var t := Trimmed(c, budget);
      2 <= |t| <= |c| && t[0] == c[0] && t[|t| - 1] == c[|c| - 1] &&
      t[1..] == c[|c| - |t| + 1..]
  {
  }

  /** The loop stops as early as it may: either two messages remain or the
      dropped messages carry at least the budget, and every shorter run of
      dropped messages carried less. */
  lemma TrimmedStopsAtBudget(c: seq<MessageRow>, budget: int)
    requires |c| >= 3
    ensures var n := |c| - |Trimmed(c, budget)|;
      (n == |c| - 2 || DroppedTokens(c, n) >= budget) &&
      forall m :: 0 <= m < n ==> DroppedTokens(c, m) < budget
  {
  }

  /** A budget that is zero or negative after the `as i32` cast trims
      nothing. */
  lemma TrimmedNothingWithoutBudget(c: seq<MessageRow>, reservation: nat)
    requires AsI32(reservation) <= 0
    ensures Trimmed(c, AsI32(reservation)) == c
  {
    if |c| >= 3 {
      assert c[1..1] == [];
      assert [c[0]] + c[1..] == c;
    }
  }

  /** `conversation.iter().map(Message::from).collect()`: panics on the first
      row whose message type is not a known role. */
  function ConvertAll(rows: seq<MessageRow>): (r: Fallible<seq<P.Message>>)
    ensures r.Returns? <==> forall i :: 0 <= i < |rows| ==> 1 <= rows[i].messageType <= 5
    ensures r.Returns? ==>
      |r.value| == |rows| && forall i :: 0 <= i < |rows| ==> P.FromStoredMessage(rows[i]) == Returns(r.value[i])
  {
    if rows == [] then Returns([])
    else
      match P.FromStoredMessage(rows[0])
      case Panics => Panics
      case Returns(m) =>
        match ConvertAll(rows[1..])
        case Panics => Panics
        case Returns(ms) => Returns([m] + ms)
  }

  /** Insert the default system prompt when the first message is not a
      system message; an empty list is left empty. */
  function WithSystemPrompt(msgs: seq<P.Message>, prompt: string): (r: seq<P.Message>)
    ensures |msgs| <= |r| <= |msgs| + 1 && r[|r| - |msgs|..] == msgs
    ensures msgs != [] ==> r[0].role == P.RoleName(P.System)
    ensures msgs == [] ==> r == []
    ensures |r| == |msgs| + 1 ==> r[0] == P.Message(P.RoleName(P.System), prompt)
    ensures msgs != [] && msgs[0].role == P.RoleName(P.System) ==> r == msgs
    ensures msgs != [] && msgs[0].role != P.RoleName(P.System) ==>
      r == [P.Message(P.RoleName(P.System), prompt)] + msgs
  {
    if msgs != [] && msgs[0].role != P.RoleName(P.System)
    then [P.Message(P.RoleName(P.System), prompt)] + msgs
    else msgs
  }

  /** The request sent to the provider for a stored history: the trimmed
      history converted row by row, behind the system prompt when needed,
      and the guest's message last. */
  function Request(history: seq<MessageRow>, prompt: string, budget: int, text: string)
    : (r: Fallible<P.Conversation>)
    ensures r.Returns? <==> ConvertAll(Trimmed(history, budget)).Returns?
    ensures r.Returns? ==>
      var ms := r.value.messages;
      |ms| >= 1 && ms[|ms| - 1] == P.Message(P.RoleName(P.User), text) &&
      (|ms| > 1 ==> ms[0].role == P.RoleName(P.System))
    ensures r.Returns? ==>
      r.value.messages == WithSystemPrompt(ConvertAll(Trimmed(history, budget)).value, prompt)
                          + [P.Message(P.RoleName(P.User), text)]
    ensures r.Returns? ==>
      var t := Trimmed(history, budget);
      var ms := r.value.messages;
      && |t| + 1 <= |ms| <= |t| + 2
      && (|ms| == |t| + 2 ==> ms[0] == P.Message(P.RoleName(P.System), prompt))
      && forall i :: 0 <= i < |t| ==> P.FromStoredMessage(t[i]) == Returns(ms[|ms| - 1 - |t| + i])
  {
    match ConvertAll(Trimmed(history, budget))
    case Panics => Panics
    case Returns(msgs) =>
      Returns(P.Conversation(WithSystemPrompt(msgs, prompt) + [P.Message(P.RoleName(P.User), text)]))
  }

  /** The first exchange of a conversation reaches the provider as the
      guest's message alone, without the system prompt. */
  lemma FirstExchangeWithoutPrompt(prompt: string, budget: int, text: string)
    ensures Request([], prompt, budget, text)
      == Returns(P.Conversation([P.Message(P.RoleName(P.User), text)]))
  {
    assert Trimmed([], budget) == [];
    assert ConvertAll([]) == Returns([]);
    assert WithSystemPrompt([], prompt) == [];
    assert [] + [P.Message(P.RoleName(P.User), text)] == [P.Message(P.RoleName(P.User), text)];
  }

  /** The stored conversation a chat starts from: the active one, or the
      empty conversation just created. */
  function History(pre: Result<seq<MessageRow>, S.Error>): seq<MessageRow>
  {
    if pre.Ok? then pre.value else []
  }

  /** What `audit` answers, from whether the guest is known and the active
      conversation before the call: the bill of a non-empty conversation; a
      panic on the last message of an empty one, including the one created
      for a known guest who had none; the internal-error notice for an
      unknown guest. */
  function AuditOf(known: bool, pre: Result<seq<MessageRow>, S.Error>): Fallible<AuditReport>
  {
    match pre
    case Ok(h) =>
      if h == [] then Panics
      else Returns(Report(Tokens(h[|h| - 1]), SumOf(h, PromptOf), SumOf(h, CompletionOf), SumCost(h)))
    case Err(_) =>
      if known then Panics else Returns(InternalError(INTERNAL_ERROR))
  }

  class Assistant {
    const id: nat
    const prompt: string
    const reservation: nat
    const provider: P.Config
    const storage: S.StorageAgent

    constructor (id: nat, prompt: string, reservation: nat, provider: P.Config, storage: S.StorageAgent)
      ensures this.id == id && this.prompt == prompt && this.reservation == reservation
      ensures this.provider == provider && this.storage == storage
    {
      this.id := id;
      this.prompt := prompt;
      this.reservation := reservation;
      this.provider := provider;
      this.storage := storage;
    }

    /** What `chat` answers, from whether the guest is known and the history
        of the active conversation before the call: the storage error for an
        unknown guest, a panic when a stored row has no known role, the
        provider error when the provider fails, a panic on a reply role the
        provider's client does not know, and otherwise the reply's text and
        its cost under this assistant's prices. */
    function Answer(known: bool, history: seq<MessageRow>, text: string,
                    process: P.Conversation -> Result<P.Response, string>): Fallible<Result<Reply, Error>>
    {
      if !known then Returns(Err(StorageError(CREATE_FAILED)))
      else
        match Request(history, prompt, AsI32(reservation), text)
        case Panics => Panics
        case Returns(req) =>
          match process(req)
          case Err(_) => Returns(Err(ProviderError(PROVIDER_FAILED)))
          case Ok(resp) =>
            if P.ResponseRole(resp).Panics? then Panics
            else Returns(Ok(Reply(P.ResponseContent(resp), P.Cost(provider, resp))))
    }

    /** The context-trimming loop of `chat`. The budget is the reservation
        read through `as i32`. */
    method TrimContext(conversation: seq<MessageRow>) returns (trimmed: seq<MessageRow>)
      ensures trimmed == Trimmed(conversation, AsI32(reservation))
    {
      trimmed := conversation;
      if |trimmed| >= 3 {
        var budget := AsI32(reservation);
        var dropped := 0;
        ghost var n: nat := 0;
        assert trimmed == [conversation[0]] + conversation[1..];
        while dropped < budget && |trimmed| > 2
          invariant n <= |conversation| - 2
          invariant |trimmed| == |conversation| - n
          invariant trimmed == [conversation[0]] + conversation[1 + n..]
          invariant dropped == DroppedTokens(conversation, n)
          invariant DropFrom(conversation, budget, n) == DropFrom(conversation, budget, 0)
          decreases |trimmed|
        {
          DroppedTokensStep(conversation, n);
          assert [trimmed[0]] + trimmed[2..] == [conversation[0]] + conversation[2 + n..];
          dropped := dropped + Tokens(trimmed[1]);
          trimmed := [trimmed[0]] + trimmed[2..];
          n := n + 1;
        }
      }
    }

    /** `append_message` on the active conversation with a valid role: it
        cannot fail, and the new row belongs to that conversation. */
    method Append(guest: Core.Guest, m: P.Message, cost: real, p: nat, c: nat)
      requires storage.Valid() && S.ActiveIdOf(storage.guests, storage.conversations, guest.name, AsI32(id)).Some?
      requires P.RoleFromName(m.role).Ok?
      modifies storage
      ensures storage.Valid()
      ensures storage.guests == old(storage.guests) && storage.conversations == old(storage.conversations)
      ensures var k := |old(storage.messages)|;
        && |storage.messages| == k + 1 && storage.messages[..k] == old(storage.messages)
        && S.Stores(storage.messages[k], m, cost, p, c)
        && S.ActiveIdOf(storage.guests, storage.conversations, guest.name, AsI32(id))
             == Some(storage.messages[k].conversationId)
    {
      var appended := storage.AppendMessage(guest, id, m, cost, p, c);
      if appended != Returns(Ok(())) {
        // Unreachable: the guest and the active conversation exist, and the
        // role name is a valid one.
        assert false;
      }
    }

    /** The tail of `chat` once the provider has answered: record the
        guest's message, then the reply with its cost and token counts, both
        in the active conversation. An unknown reply role panics after the
        guest's message is recorded. */
    method RecordExchange(guest: Core.Guest, text: string, resp: P.Response)
      returns (r: Fallible<Result<Reply, Error>>)
      requires storage.Valid() && S.ActiveIdOf(storage.guests, storage.conversations, guest.name, AsI32(id)).Some?
      modifies storage
      ensures storage.Valid()
      ensures storage.guests == old(storage.guests) && storage.conversations == old(storage.conversations)
      ensures var k := |old(storage.messages)|;
        var added := if P.ResponseRole(resp).Panics? then 1 else 2;
        && |storage.messages| == k + added
        && storage.messages[..k] == old(storage.messages)
        && (forall j :: k <= j < |storage.messages| ==>
              S.ActiveIdOf(storage.guests, storage.conversations, guest.name, AsI32(id))
                == Some(storage.messages[j].conversationId))
        && S.Stores(storage.messages[k], P.Message(P.RoleName(P.User), text), 0.0, 0, 0)
        && (P.ResponseRole(resp).Panics? ==> r.Panics?)
        && (P.ResponseRole(resp).Returns? ==>
              && r == Returns(Ok(Reply(P.ResponseContent(resp), P.Cost(provider, resp))))
              && S.Stores(storage.messages[k + 1],
                          P.Message(P.RoleName(P.ResponseRole(resp).value), P.ResponseContent(resp)),
                          P.Cost(provider, resp), P.PromptTokens(resp), P.CompletionTokens(resp)))
    {
      ghost var k := |storage.messages|;
      P.RoleNameRoundTrip(P.User);
      Append(guest, P.Message(P.RoleName(P.User), text), 0.0, 0, 0);
      ghost var once := storage.messages;
      var role := P.ResponseRole(resp);
      if role.Panics? {
        return Panics;
      }
      var reply := P.Message(P.RoleName(role.value), P.ResponseContent(resp));
      var cost := P.Cost(provider, resp);
      P.RoleNameRoundTrip(role.value);
      Append(guest, reply, cost, P.PromptTokens(resp), P.CompletionTokens(resp));
      assert storage.messages[..k] == once[..k];
      assert storage.messages[k] == once[k];
      r := Returns(Ok(Reply(P.ResponseContent(resp), cost)));
    }

    /** The opening of `chat` and `audit`: the active conversation's
        messages, creating an empty active conversation when there is none.
        None when even that fails (the guest is unknown). */
    method ActiveHistory(guest: Core.Guest) returns (h: Option<seq<MessageRow>>)
      requires storage.Valid()
      modifies storage
      ensures storage.Valid()
      ensures storage.guests == old(storage.guests) && storage.messages == old(storage.messages)
      ensures old(storage.GetConversation(guest, id)).Ok? ==>
        h == Some(old(storage.GetConversation(guest, id)).value) &&
        storage.conversations == old(storage.conversations)
      ensures old(storage.GetConversation(guest, id)).Err? ==>
        if S.GuestByName(old(storage.guests), guest.name).None?
        then h == None && storage.conversations == old(storage.conversations)
        else h == Some([])
      ensures h.Some? ==>
        storage.GetConversation(guest, id) == Ok(h.value) &&
        S.ActiveIdOf(storage.guests, storage.conversations, guest.name, AsI32(id)).Some?
    {
      var pre := storage.GetConversation(guest, id);
      if pre.Err? {
        var created := storage.CreateConversation(guest, id);
        if created.Err? {
          return None;
        }
      }
      var conversation := storage.GetConversation(guest, id);
      if conversation.Err? {
        // Unreachable: the active conversation exists at this point.
        assert false;
      }
      h := Some(conversation.value);
    }

    /** The request `chat` sends: the trimmed history in the provider's
        format, the default system prompt when needed, and the guest's
        message. */
    method BuildRequest(history: seq<MessageRow>, text: string) returns (req: Fallible<P.Conversation>)
      ensures req == Request(history, prompt, AsI32(reservation), text)
    {
      var trimmed := TrimContext(history);
      var converted := ConvertAll(trimmed);
      if converted.Panics? {
        return Panics;
      }
      var messages := WithSystemPrompt(converted.value, prompt);
      messages := messages + [P.Message(P.RoleName(P.User), text)];
      req := Returns(P.Conversation(messages));
    }

    /** `chat`: answer the guest's message and record the exchange. */
    method Chat(guest: Core.Guest, text: string, process: P.Conversation -> Result<P.Response, string>)
      returns (r: Fallible<Result<Reply, Error>>)
      requires storage.Valid()
      modifies storage
      ensures storage.Valid()
      ensures storage.guests == old(storage.guests)
      ensures r == Answer(S.GuestByName(old(storage.guests), guest.name).Some?,
                          History(old(storage.GetConversation(guest, id))), text, process)
      ensures S.GuestByName(old(storage.guests), guest.name).None? ==>
        r == Returns(Err(StorageError(CREATE_FAILED))) &&
        storage.conversations == old(storage.conversations) && storage.messages == old(storage.messages)
      ensures S.GuestByName(old(storage.guests), guest.name).Some? ==>
        var history := History(old(storage.GetConversation(guest, id)));
        var req := Request(history, prompt, AsI32(reservation), text);
        && (req.Panics? ==> r.Panics? && storage.messages == old(storage.messages))
        && (req.Returns? && process(req.value).Err? ==>
              r == Returns(Err(ProviderError(PROVIDER_FAILED))) && storage.messages == old(storage.messages))
        && (req.Returns? && process(req.value).Ok? ==>
              var resp := process(req.value).value;
              var k := |old(storage.messages)|;
              var added := if P.ResponseRole(resp).Panics? then 1 else 2;
              && |storage.messages| == k + added
              && storage.messages[..k] == old(storage.messages)
              && S.Stores(storage.messages[k], P.Message(P.RoleName(P.User), text), 0.0, 0, 0)
              && (forall j :: k <= j < |storage.messages| ==>
                    S.ActiveIdOf(storage.guests, storage.conversations, guest.name, AsI32(id))
                      == Some(storage.messages[j].conversationId))
              && (P.ResponseRole(resp).Panics? ==> r.Panics?)
              && (P.ResponseRole(resp).Returns? ==>
                    && r == Returns(Ok(Reply(P.ResponseContent(resp), P.Cost(provider, resp))))
                    && S.Stores(storage.messages[k + 1],
                                P.Message(P.RoleName(P.ResponseRole(resp).value), P.ResponseContent(resp)),
                                P.Cost(provider, resp), P.PromptTokens(resp), P.CompletionTokens(resp))))
    {
      var history := ActiveHistory(guest);
      if history.None? {
        return Returns(Err(StorageError(CREATE_FAILED)));
      }
      var req := BuildRequest(history.value, text);
      if req.Panics? {
        return Panics;
      }
      var response := process(req.value);
      if response.Err? {
        return Returns(Err(ProviderError(PROVIDER_FAILED)));
      }
      r := RecordExchange(guest, text, response.value);
    }

    /** `audit`: the bill of the active conversation. Right after the
        conversation had to be created it is empty, and reading its last
        message panics. */
    method Audit(guest: Core.Guest) returns (r: Fallible<AuditReport>)
      requires storage.Valid()
      modifies storage
      ensures storage.Valid()
      ensures storage.guests == old(storage.guests) && storage.messages == old(storage.messages)
      ensures r == AuditOf(S.GuestByName(old(storage.guests), guest.name).Some?,
                           old(storage.GetConversation(guest, id)))
      ensures old(storage.GetConversation(guest, id)).Ok? ==>
        var h := old(storage.GetConversation(guest, id)).value;
        && storage.conversations == old(storage.conversations)
        && (h == [] ==> r.Panics?)
        && (h != [] ==> r == Returns(Report(Tokens(h[|h| - 1]), SumOf(h, PromptOf),
                                            SumOf(h, CompletionOf), SumCost(h))))
      ensures old(storage.GetConversation(guest, id)).Err? ==>
        if S.GuestByName(old(storage.guests), guest.name).None?
        then r == Returns(InternalError(INTERNAL_ERROR))
        else r.Panics?
    {
      var history := ActiveHistory(guest);
      if history.None? {
        return Returns(InternalError(INTERNAL_ERROR));
      }
      var h := history.value;
      if h == [] {
        return Panics;
      }
      r := Returns(Report(Tokens(h[|h| - 1]), SumOf(h, PromptOf), SumOf(h, CompletionOf), SumCost(h)));
    }

    /** `new_conversation`: start a fresh active conversation. */
    method NewConversation(guest: Core.Guest) returns (r: Result<(), S.Error>)
      requires storage.Valid()
      modifies storage
      ensures storage.Valid()
      ensures storage.guests == old(storage.guests) && storage.messages == old(storage.messages)
      ensures r.Err? <==> S.GuestByName(old(storage.guests), guest.name).None?
      ensures r.Ok? ==> storage.GetConversation(guest, id) == Ok([])
    {
      r := storage.CreateConversation(guest, id);
    }
  }
}
