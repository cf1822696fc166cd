/** The reception generation's store (src/reception/database/agent.rs):
    the conversions between core values and table rows, the seeding of a
    new database and the `PersistStore` operations. Tables are fields of an
    in-memory object; each query is a function over them. */
module ReceptionDbAgent {

  import opened Common
  import opened Rows
  import C = ReceptionCore
  import S = Storage

  /** A `msg_types` or `content_types` row. */
  datatype NamedRow = NamedRow(id: int, name: string)

  /** A `providers` row; the id is the row's position plus one. */
  datatype ProviderRow = ProviderRow(
    name: string, endpoint: string, maxTokens: int, promptTokenPrice: real, completionTokenPrice: real)

  /** An `assistants` row; the id is the row's position plus one. */
  datatype AssistantRow = AssistantRow(name: string, agentId: int, providerId: int)

  /** A `messages` row of this generation: one token count. */
  datatype StoredMessage = StoredMessage(
    id: int, conversationId: int, createdAt: nat, content: string, cost: real,
    messageType: int, contentType: int, tokens: int)

  /** `From<&MessageRole> for MessageType`. */
  function RoleToType(r: C.MessageRole): (t: NamedRow)
    ensures 1 <= t.id <= 4
  {
    match r
    case System => NamedRow(1, "system")
    case User => NamedRow(2, "user")
    case Assistant => NamedRow(3, "assistant")
    case Supplementary => NamedRow(4, "supplementary")
  }

  /** `From<i32> for MessageRole`: ids 1 to 3 name their role; any other id
      reads as Supplementary. */
  function RoleFromId(id: int): (r: C.MessageRole)
    ensures (id < 1 || id > 3) <==> r == C.Supplementary
  {
    if id == 1 then C.System
    else if id == 2 then C.User
    else if id == 3 then C.MessageRole.Assistant
    else C.Supplementary
  }

  /** A role survives the trip through its stored id. */
  lemma RoleIdRoundTrip(r: C.MessageRole)
    ensures RoleFromId(RoleToType(r).id) == r
  {
  }

  /** Distinct roles get distinct ids and names. */
  lemma RoleTypeInjective(a: C.MessageRole, b: C.MessageRole)
    ensures RoleToType(a).id == RoleToType(b).id ==> a == b
    ensures RoleToType(a).name == RoleToType(b).name ==> a == b
  {
  }

  /** `From<&ContentType> for model::ContentType`. */
  function ContentTypeToRow(t: C.ContentType): (row: NamedRow)
    ensures 1 <= row.id <= 5
    ensures row.id == 1 <==> t == C.Text
  {
    match t
    case Text => NamedRow(1, "text")
    case Image => NamedRow(2, "image")
    case Audio => NamedRow(3, "audio")
    case Video => NamedRow(4, "video")
    case File => NamedRow(5, "file")
  }

  /** Distinct content types get distinct ids and names. */
  lemma ContentTypeRowInjective(a: C.ContentType, b: C.ContentType)
    ensures ContentTypeToRow(a).id == ContentTypeToRow(b).id ==> a == b
    ensures ContentTypeToRow(a).name == ContentTypeToRow(b).name ==> a == b
  {
  }

  const ROLE_NAMES: seq<string> := ["system", "user", "assistant", "supplementary"]
  const CONTENT_TYPE_NAMES: seq<string> := ["text", "image", "audio", "video", "file"]

  /** Rows of a table whose ids count up from one. */
  function Numbered(names: seq<string>): (rows: seq<NamedRow>)
    ensures |rows| == |names|
    ensures forall i :: 0 <= i < |names| ==> rows[i] == NamedRow(i + 1, names[i])
  {
    seq(|names|, i requires 0 <= i < |names| => NamedRow(i + 1, names[i]))
  }

  /** The seeded `msg_types` table holds exactly the rows the role
      conversion produces, and the seeded `content_types` table exactly the
      rows the content-type conversion produces. */
  lemma SeededTablesMatchConversions(r: C.MessageRole, t: C.ContentType)
    ensures Numbered(ROLE_NAMES)[RoleToType(r).id - 1] == RoleToType(r)
    ensures Numbered(CONTENT_TYPE_NAMES)[ContentTypeToRow(t).id - 1] == ContentTypeToRow(t)
  {
  }

  /** `From<model::Assistant> for core::Assistant`: the agent id through
      `as usize`. */
  function AssistantOf(row: AssistantRow): (a: C.Assistant)
    requires -TWO_31 <= row.agentId < TWO_31
    ensures a.name == row.name && a.agentId == AsUsize(row.agentId)
    ensures row.agentId >= 0 ==> a.agentId == row.agentId
    ensures AsI32(a.agentId) == row.agentId
  {
    AsUsizeAsI32(row.agentId);
    C.Assistant.Assistant(row.name, AsUsize(row.agentId))
  }

  /** `From<&model::Message> for core::Message`: the token count through
      `as usize`. */
  function MessageOf(m: StoredMessage): (r: C.Message)
    requires -TWO_31 <= m.tokens < TWO_31
    ensures r.content == m.content && r.cost == m.cost && r.role == RoleFromId(m.messageType)
    ensures r.tokens == AsUsize(m.tokens) && (m.tokens >= 0 ==> r.tokens == m.tokens)
    ensures AsI32(r.tokens) == m.tokens
  {
    AsUsizeAsI32(m.tokens);
    C.Message(m.content, RoleFromId(m.messageType), m.cost, AsUsize(m.tokens))
  }

  /** The row `append_message` writes for a message. */
  function StoredOf(message: C.Message, id: int, conversationId: int, t: nat): StoredMessage
  {
    StoredMessage(id, conversationId, t, message.content, message.cost,
                  RoleToType(message.role).id, ContentTypeToRow(C.Text).id, AsI32(message.tokens))
  }

  /** Storing a message and reading it back gives the same message, as long
      as its token count fits in an `i32`. */
  lemma StoredMessageRoundTrip(message: C.Message, id: int, conversationId: int, t: nat)
    requires message.tokens < TWO_31
    ensures MessageOf(StoredOf(message, id, conversationId, t)) == message
  {
    RoleIdRoundTrip(message.role);
  }

  const DEFAULT_PROVIDER: ProviderRow := ProviderRow(
    "openai/gpt-4-32k",
    "https://ai-openai872806641955.openai.azure.com/openai/deployments/gpt-4-32k/chat/completions?api-version=2023-03-15-preview",
    32 * 1000, 0.06, 0.12)

  const DEFAULT_ASSISTANT: AssistantRow := AssistantRow("小白", 1000002, 1)

  function StoredCreatedAt(m: StoredMessage): int { m.createdAt }

  predicate ActiveOf(c: ConversationRow, guestId: int)
  {
    c.active && c.guestId == guestId
  }

  /** The first active conversation of a guest, whichever the assistant. */
  function ActiveConversationOf(cs: seq<ConversationRow>, guestId: int): (r: Option<ConversationRow>)
    ensures r.Some? ==> ActiveOf(r.value, guestId)
    ensures r.None? ==> forall i :: 0 <= i < |cs| ==> !ActiveOf(cs[i], guestId)
  {
    First(cs, (c: ConversationRow) => ActiveOf(c, guestId))
  }

  /** Two conversations are not both active for the same guest. */
  predicate ActiveApart(a: ConversationRow, b: ConversationRow)
  {
    a.active && b.active ==> a.guestId != b.guestId
  }

  /** At most one active conversation per guest. */
  predicate OneActivePerGuest(cs: seq<ConversationRow>)
  {
    Pairwise(cs, ActiveApart)
  }

  /** `UPDATE conversations SET active = false, updated_at = t` on every
      active conversation of the guest. */
  function DeactivateAll(cs: seq<ConversationRow>, guestId: int, t: nat): (r: seq<ConversationRow>)
    ensures |r| == |cs|
    ensures forall i :: 0 <= i < |cs| ==>
      r[i] == if ActiveOf(cs[i], guestId) then cs[i].(active := false, updatedAt := t) else cs[i]
  {
    seq(|cs|, i requires 0 <= i < |cs| =>
      if ActiveOf(cs[i], guestId) then cs[i].(active := false, updatedAt := t) else cs[i])
  }

  /** After deactivation the guest has no active conversation and every
      other guest keeps theirs. */
  lemma DeactivateAllEffect(cs: seq<ConversationRow>, guestId: int, t: nat)
    requires OneActivePerGuest(cs)
    ensures OneActivePerGuest(DeactivateAll(cs, guestId, t))
    ensures ActiveConversationOf(DeactivateAll(cs, guestId, t), guestId).None?
  {
    FirstIn(DeactivateAll(cs, guestId, t), (c: ConversationRow) => ActiveOf(c, guestId));
  }

  /** The messages of one conversation ordered by `created_at`. */
  function MessagesOf(ms: seq<StoredMessage>, conversationId: int): (r: seq<StoredMessage>)
    ensures SortedBy(r, StoredCreatedAt)
    ensures multiset(r) == multiset(Filter(ms, (m: StoredMessage) => m.conversationId == conversationId))
    ensures TokensFit(ms) ==> TokensFit(r)
  {
    FilterTokensFit(ms, (m: StoredMessage) => m.conversationId == conversationId);
    SortBySorted(Filter(ms, (m: StoredMessage) => m.conversationId == conversationId), StoredCreatedAt);
    SortByPermutes(Filter(ms, (m: StoredMessage) => m.conversationId == conversationId), StoredCreatedAt);
    SortBy(Filter(ms, (m: StoredMessage) => m.conversationId == conversationId), StoredCreatedAt)
  }

  predicate TokensFit(ms: seq<StoredMessage>)
  {
    forall i :: 0 <= i < |ms| ==> -TWO_31 <= ms[i].tokens < TWO_31
  }

  function ToCore(ms: seq<StoredMessage>): (r: seq<C.Message>)
    requires TokensFit(ms)
    ensures |r| == |ms| && forall i :: 0 <= i < |ms| ==> r[i] == MessageOf(ms[i])
  {
    seq(|ms|, i requires 0 <= i < |ms| && TokensFit(ms) => MessageOf(ms[i]))
  }

  lemma FilterTokensFit(ms: seq<StoredMessage>, p: StoredMessage -> bool)
    ensures TokensFit(ms) ==> TokensFit(SortBy(Filter(ms, p), StoredCreatedAt))
  {
    FilterMembers(ms, p);
    var f := Filter(ms, p);
    SortByPermutes(f, StoredCreatedAt);
    var s := SortBy(f, StoredCreatedAt);
    if TokensFit(ms) {
      forall i | 0 <= i < |s| ensures -TWO_31 <= s[i].tokens < TWO_31 {
        assert s[i] in multiset(f);
      }
    }
  }

  /** The `get_conversation` query: the guest, their first active
      conversation, its messages in creation order. */
  function ConversationOf(gs: seq<GuestRow>, cs: seq<ConversationRow>, ms: seq<StoredMessage>, name: string)
    : (r: Result<C.Conversation, S.Error>)
    requires TokensFit(ms)
    ensures r.Err? <==>
      S.GuestByName(gs, name).None? || ActiveConversationOf(cs, S.GuestByName(gs, name).value.id).None?
    ensures r.Err? ==> r.error == S.Database(S.NO_ROW)
    ensures r.Ok? ==>
      var c := ActiveConversationOf(cs, S.GuestByName(gs, name).value.id).value;
      r.value.content == ToCore(MessagesOf(ms, c.id))
  {
    match S.GuestByName(gs, name)
    case None => Err(S.Database(S.NO_ROW))
    case Some(user) =>
      match ActiveConversationOf(cs, user.id)
      case None => Err(S.Database(S.NO_ROW))
      case Some(c) => Ok(C.Conversation(ToCore(MessagesOf(ms, c.id))))
  }

  /** The id of the guest's active conversation, if both exist. */
  function ActiveIdOf(gs: seq<GuestRow>, cs: seq<ConversationRow>, name: string): (r: Option<int>)
    ensures r.Some? <==>
      S.GuestByName(gs, name).Some? && ActiveConversationOf(cs, S.GuestByName(gs, name).value.id).Some?
  {
    match S.GuestByName(gs, name)
    case None => None
    case Some(user) =>
      match ActiveConversationOf(cs, user.id)
      case None => None
      case Some(c) => Some(c.id)
  }

  /** A row stamped after every stored row of its conversation comes out
      last among that conversation's messages. */
  lemma MessagesOfAppend(ms: seq<StoredMessage>, row: StoredMessage)
    requires SortedBy(ms + [row], StoredCreatedAt)
    ensures MessagesOf(ms + [row], row.conversationId) == MessagesOf(ms, row.conversationId) + [row]
  {
    SortedFilterAppend(ms, row, (m: StoredMessage) => m.conversationId == row.conversationId, StoredCreatedAt);
  }

  /** A row of the active conversation stamped after every stored row comes
      out last in what the query returns. */
  lemma AppendExtendsConversation(gs: seq<GuestRow>, cs: seq<ConversationRow>, ms: seq<StoredMessage>,
                                  name: string, row: StoredMessage)
    requires TokensFit(ms) && -TWO_31 <= row.tokens < TWO_31
    requires SortedBy(ms + [row], StoredCreatedAt)
    requires ActiveIdOf(gs, cs, name) == Some(row.conversationId)
    ensures TokensFit(ms + [row])
    ensures ConversationOf(gs, cs, ms + [row], name)
         == Ok(C.Conversation(ConversationOf(gs, cs, ms, name).value.content + [MessageOf(row)]))
  {
    MessagesOfAppend(ms, row);
    var user := S.GuestByName(gs, name).value;
    var c := ActiveConversationOf(cs, user.id).value;
    assert c.id == row.conversationId;
    var before := MessagesOf(ms, c.id);
    assert ConversationOf(gs, cs, ms, name) == Ok(C.Conversation(ToCore(before)));
    assert ConversationOf(gs, cs, ms + [row], name) == Ok(C.Conversation(ToCore(before + [row])));
    assert ToCore(before + [row]) == ToCore(before) + [MessageOf(row)];
  }

  /** The core guest a stored row describes. */
  function GuestOf(g: GuestRow): C.Guest
  {
    C.Guest(g.name, g.credit, g.admin)
  }

  predicate GuestsValid(gs: seq<GuestRow>, nextId: int)
  {
    S.UniqueGuests(gs) && forall i :: 0 <= i < |gs| ==> gs[i].id < nextId
  }

  predicate ConversationsValid(cs: seq<ConversationRow>, nextId: int)
  {
    OneActivePerGuest(cs) && forall i :: 0 <= i < |cs| ==> cs[i].id < nextId
  }

  /** Messages belong to conversations that were created, carry no time
      after the clock, are in creation order and hold `i32` token counts. */
  predicate MessagesValid(ms: seq<StoredMessage>, nextConversationId: int, clock: nat)
  {
    && (forall i :: 0 <= i < |ms| ==> ms[i].conversationId < nextConversationId && ms[i].createdAt <= clock)
    && SortedBy(ms, StoredCreatedAt)
    && TokensFit(ms)
  }

  lemma MessagesValidLater(ms: seq<StoredMessage>, nextConversationId: int, clock: nat, later: nat)
    requires MessagesValid(ms, nextConversationId, clock) && clock <= later
    ensures MessagesValid(ms, nextConversationId, later)
  {
  }

  lemma MessagesValidAppend(ms: seq<StoredMessage>, nextConversationId: int, clock: nat, row: StoredMessage)
    requires MessagesValid(ms, nextConversationId, clock)
    requires row.createdAt == clock && row.conversationId < nextConversationId
    requires -TWO_31 <= row.tokens < TWO_31
    ensures MessagesValid(ms + [row], nextConversationId, clock)
  {
  }

  lemma GuestsValidAppend(gs: seq<GuestRow>, nextId: int, row: GuestRow, nextId': int)
    requires GuestsValid(gs, nextId) && nextId <= nextId' && row.id < nextId'
    requires forall i :: 0 <= i < |gs| ==> gs[i].id != row.id && gs[i].name != row.name
    ensures GuestsValid(gs + [row], nextId')
  {
  }

  lemma ConversationsValidAppend(cs: seq<ConversationRow>, nextId: int, row: ConversationRow)
    requires ConversationsValid(cs, nextId) && row.id == nextId
    requires ActiveConversationOf(cs, row.guestId).None?
    ensures ConversationsValid(cs + [row], nextId + 1)
  {
  }

  /** The active conversation found for a guest is one that was created. */
  lemma ActiveIdBelow(gs: seq<GuestRow>, cs: seq<ConversationRow>, nextId: int, name: string)
    requires ConversationsValid(cs, nextId)
    ensures ActiveIdOf(gs, cs, name).Some? ==> ActiveIdOf(gs, cs, name).value < nextId
  {
    if S.GuestByName(gs, name).Some? {
      FirstIn(cs, (c: ConversationRow) => ActiveOf(c, S.GuestByName(gs, name).value.id));
    }
  }

  /** Neither id 1 nor the name is taken by a stored guest. */
  predicate Unclaimed(gs: seq<GuestRow>, admin: string)
  {
    forall i :: 0 <= i < |gs| ==> gs[i].id != 1 && gs[i].name != admin
  }

  class Agent {
    /** Whether the `db_init_status` row exists. */
    var initialized: bool
    var guests: seq<GuestRow>
    var providers: seq<ProviderRow>
    var assistants: seq<AssistantRow>
    var msgTypes: seq<NamedRow>
    var contentTypes: seq<NamedRow>
    var conversations: seq<ConversationRow>
    var messages: seq<StoredMessage>
    /** The last timestamp handed out. */
    var clock: nat
    var nextGuestId: int
    var nextConversationId: int
    var nextMessageId: int

    ghost predicate Valid()
      reads this
    {
      && GuestsValid(guests, nextGuestId)
      && ConversationsValid(conversations, nextConversationId)
      && MessagesValid(messages, nextConversationId, clock)
      && (forall i :: 0 <= i < |assistants| ==> -TWO_31 <= assistants[i].agentId < TWO_31)
    }

    /** The tables right after the schema migrations ran on a new file. */
    constructor Empty()
      ensures Valid() && !initialized
      ensures guests == [] && providers == [] && assistants == [] && msgTypes == [] && contentTypes == []
      ensures conversations == [] && messages == []
    {
      initialized := false;
      guests, providers, assistants, msgTypes, contentTypes := [], [], [], [], [];
      conversations, messages := [], [];
      clock := 0;
      nextGuestId, nextConversationId, nextMessageId := 1, 1, 1;
    }

    method Tick() returns (t: nat)
      requires Valid()
      modifies this`clock
      ensures Valid() && clock == t == old(clock) + 1
    {
      MessagesValidLater(messages, nextConversationId, clock, clock + 1);
      clock := clock + 1;
      t := clock;
    }

    /** `Agent::new` after the migrations: on a store without the init
        record, run `default_init` with the administrator named by
        `APP_ADMIN`, whose absence panics; an initialised store is left as
        it is. */
    method Open(appAdmin: Option<string>) returns (r: Fallible<Result<(), S.Error>>)
      requires Valid()
      modifies this
      ensures Valid()
      ensures conversations == old(conversations) && messages == old(messages)
      ensures old(initialized) ==> r == Returns(Ok(())) && unchanged(this)
      ensures !old(initialized) && appAdmin.None? ==> r == Panics && unchanged(this)
      ensures !old(initialized) && appAdmin.Some? ==>
        && r.Returns?
        && (r.value.Ok? <==> Unclaimed(old(guests), appAdmin.value))
        && (r.value.Ok? ==> SeededFrom(old(guests), old(providers), old(assistants), old(msgTypes),
                                       old(contentTypes), appAdmin.value))
        && (r.value.Err? ==> r.value.error == S.Database(S.UNIQUE_VIOLATION) && Untouched(
              old(guests), old(providers), old(assistants), old(msgTypes), old(contentTypes)))
    {
      if initialized {
        return Returns(Ok(()));
      }
      if appAdmin.None? {
        return Panics;
      }
      var seeded := DefaultInit(appAdmin.value);
      r := Returns(seeded);
    }

    /** The tables `default_init` leaves after seeding. */
    ghost predicate SeededFrom(gs: seq<GuestRow>, ps: seq<ProviderRow>, as_: seq<AssistantRow>,
                               mts: seq<NamedRow>, cts: seq<NamedRow>, admin: string)
      reads this
    {
      && initialized
      && guests == gs + [GuestRow(1, admin, 0.0, clock, clock, true)]
      && providers == ps + [DEFAULT_PROVIDER]
      && assistants == as_ + [DEFAULT_ASSISTANT]
      && msgTypes == mts + Numbered(ROLE_NAMES)
      && contentTypes == cts + Numbered(CONTENT_TYPE_NAMES)
    }

    ghost predicate Untouched(gs: seq<GuestRow>, ps: seq<ProviderRow>, as_: seq<AssistantRow>,
                              mts: seq<NamedRow>, cts: seq<NamedRow>)
      reads this
    {
      !initialized && guests == gs && providers == ps && assistants == as_ && msgTypes == mts &&
      contentTypes == cts
    }

    /** `default_init`: insert the administrator as guest 1 with no credit
        and the admin right, then the provider, the assistant, the message
        types, the content types and the init record. The first insert fails
        when id 1 or the name is taken, and then nothing is written. */
    method DefaultInit(admin: string) returns (r: Result<(), S.Error>)
      requires Valid() && !initialized
      modifies this
      ensures Valid()
      ensures conversations == old(conversations) && messages == old(messages)
      ensures r.Ok? <==> Unclaimed(old(guests), admin)
      ensures r.Ok? ==>
        SeededFrom(old(guests), old(providers), old(assistants), old(msgTypes), old(contentTypes), admin)
      ensures r.Err? ==>
        r.error == S.Database(S.UNIQUE_VIOLATION) &&
        Untouched(old(guests), old(providers), old(assistants), old(msgTypes), old(contentTypes))
    {
      var t := Tick();
      if !Unclaimed(guests, admin) {
        return Err(S.Database(S.UNIQUE_VIOLATION));
      }
      InsertAdmin(admin, t);
      SeedTables();
      r := Ok(());
    }

    /** The administrator's row: id 1, no credit, the admin right. */
    method InsertAdmin(admin: string, t: nat)
      requires Valid() && Unclaimed(guests, admin)
      modifies this`guests, this`nextGuestId
      ensures Valid()
      ensures guests == old(guests) + [GuestRow(1, admin, 0.0, t, t, true)]
    {
      var next := if nextGuestId < 2 then 2 else nextGuestId;
      GuestsValidAppend(guests, nextGuestId, GuestRow(1, admin, 0.0, t, t, true), next);
      guests := guests + [GuestRow(1, admin, 0.0, t, t, true)];
      nextGuestId := next;
    }

    /** The provider, the assistant, the message types, the content types
        and the init record. */
    method SeedTables()
      requires Valid()
      modifies this`providers, this`assistants, this`msgTypes, this`contentTypes, this`initialized
      ensures Valid() && initialized
      ensures providers == old(providers) + [DEFAULT_PROVIDER]
      ensures assistants == old(assistants) + [DEFAULT_ASSISTANT]
      ensures msgTypes == old(msgTypes) + Numbered(ROLE_NAMES)
      ensures contentTypes == old(contentTypes) + Numbered(CONTENT_TYPE_NAMES)
    {
      providers := providers + [DEFAULT_PROVIDER];
      assistants := assistants + [DEFAULT_ASSISTANT];
      msgTypes := msgTypes + Numbered(ROLE_NAMES);
      contentTypes := contentTypes + Numbered(CONTENT_TYPE_NAMES);
      initialized := true;
    }

    /** `get_provider`: the provider with that id. */
    function GetProvider(id: int): (r: Result<ProviderRow, S.Error>)
      reads this
      ensures r.Ok? <==> 1 <= id <= |providers|
      ensures r.Ok? ==> r.value == providers[id - 1]
      ensures r.Err? ==> r.error == S.Database(S.NO_ROW)
    {
      if 1 <= id <= |providers| then Ok(providers[id - 1]) else Err(S.Database(S.NO_ROW))
    }

    /** `get_assistant_id_by_agent_id`: the id of the first assistant that
        answers in that application. */
    function AssistantIdByAgentId(agentId: int): (r: Result<int, S.Error>)
      reads this
      ensures r.Err? <==> forall i :: 0 <= i < |assistants| ==> assistants[i].agentId != agentId
      ensures r.Err? ==> r.error == S.Database(S.NO_ROW)
      ensures r.Ok? ==> 1 <= r.value <= |assistants| && assistants[r.value - 1].agentId == agentId
      ensures r.Ok? ==> forall i :: 0 <= i < r.value - 1 ==> assistants[i].agentId != agentId
    {
      FirstIndex(assistants, agentId, 0)
    }

    /** `get_assistant_by_agent_id`: the same row, as a core assistant. */
    function GetAssistantByAgentId(agentId: int): (r: Result<C.Assistant, S.Error>)
      reads this
      requires Valid()
      ensures r.Err? <==> AssistantIdByAgentId(agentId).Err?
      ensures r.Err? ==> r.error == S.Database(S.NO_ROW)
      ensures r.Ok? ==>
        r.value == AssistantOf(assistants[AssistantIdByAgentId(agentId).value - 1])
      ensures r.Ok? ==> AsI32(r.value.agentId) == agentId
    {
      match AssistantIdByAgentId(agentId)
      case Err(e) => Err(e)
      case Ok(id) => Ok(AssistantOf(assistants[id - 1]))
    }

    /** `get_msg_types`: the whole message-type table. */
    function GetMsgTypes(): (r: Result<seq<NamedRow>, S.Error>)
      reads this
      ensures r == Ok(msgTypes)
    {
      Ok(msgTypes)
    }

    /** `get_content_types`: the whole content-type table. */
    function GetContentTypes(): (r: Result<seq<NamedRow>, S.Error>)
      reads this
      ensures r == Ok(contentTypes)
    {
      Ok(contentTypes)
    }

    /** `create_user`: insert a guest; a second guest with the same name
        violates the unique constraint. */
    method CreateUser(guest: C.Guest) returns (r: Result<(), S.Error>)
      requires Valid()
      modifies this
      ensures Valid()
      ensures conversations == old(conversations) && messages == old(messages)
      ensures assistants == old(assistants) && initialized == old(initialized)
      ensures r.Ok? <==> S.GuestByName(old(guests), guest.name).None?
      ensures r.Ok? ==>
        guests == old(guests) + [GuestRow(old(nextGuestId), guest.name, guest.credit, clock, clock, guest.admin)]
      ensures r.Ok? ==> GetUser(guest.name) == Ok(guest)
      ensures r.Err? ==> r.error == S.Database(S.UNIQUE_VIOLATION) && guests == old(guests)
    {
      var t := Tick();
      if S.GuestByName(guests, guest.name).Some? {
        return Err(S.Database(S.UNIQUE_VIOLATION));
      }
      var row := GuestRow(nextGuestId, guest.name, guest.credit, t, t, guest.admin);
      GuestsValidAppend(guests, nextGuestId, row, nextGuestId + 1);
      guests := guests + [row];
      nextGuestId := nextGuestId + 1;
      FirstOnlyLast(guests, (g: GuestRow) => g.name == guest.name);
      r := Ok(());
    }

    /** `get_user`: the first guest with that name. */
    function GetUser(name: string): (r: Result<C.Guest, S.Error>)
      reads this
      ensures r.Err? <==> forall i :: 0 <= i < |guests| ==> guests[i].name != name
      ensures r.Err? ==> r.error == S.Database(S.NO_ROW)
      ensures r.Ok? ==>
        r.value.name == name && exists i :: 0 <= i < |guests| && r.value == GuestOf(guests[i])
    {
      S.GuestByNameIn(guests, name);
      match S.GuestByName(guests, name)
      case None => Err(S.Database(S.NO_ROW))
      case Some(g) => Ok(GuestOf(g))
    }

    /** `update_user`: set credit and admin of the guests with that name;
        no row matching is not an error. */
    method UpdateUser(guest: C.Guest) returns (r: Result<(), S.Error>)
      requires Valid()
      modifies this
      ensures Valid() && r.Ok?
      ensures conversations == old(conversations) && messages == old(messages)
      ensures assistants == old(assistants) && initialized == old(initialized)
      ensures guests == S.SetGuest(old(guests), guest.name, guest.credit, guest.admin, clock)
    {
      var t := Tick();
      guests := S.SetGuest(guests, guest.name, guest.credit, guest.admin, t);
      r := Ok(());
    }

    /** `create_conversation`: find the guest, deactivate every active
        conversation of theirs, then look up the assistant by its agent id
        (through `as i32`) and insert a new active conversation. A failed
        assistant lookup leaves the deactivation in place. */
    method CreateConversation(guest: C.Guest, assistant: C.Assistant) returns (r: Result<(), S.Error>)
      requires Valid()
      modifies this
      ensures Valid()
      ensures guests == old(guests) && messages == old(messages) && assistants == old(assistants)
      ensures initialized == old(initialized)
      ensures S.GuestByName(old(guests), guest.name).None? ==>
        r == Err(S.Database(S.NO_ROW)) && conversations == old(conversations)
      ensures S.GuestByName(old(guests), guest.name).Some? ==>
        var user := S.GuestByName(old(guests), guest.name).value;
        var lookup := AssistantIdByAgentId(AsI32(assistant.agentId));
        && (r.Ok? <==> lookup.Ok?)
        && (lookup.Err? ==>
              r == Err(lookup.error) && conversations == DeactivateAll(old(conversations), user.id, clock))
        && (lookup.Ok? ==>
              conversations == DeactivateAll(old(conversations), user.id, clock) +
                [ConversationRow(old(nextConversationId), user.id, lookup.value, true, clock, clock)])
      ensures r.Ok? ==> ConversationOf(guests, conversations, messages, guest.name) == Ok(C.Conversation([]))
      ensures r.Err? ==> ConversationOf(guests, conversations, messages, guest.name).Err?
    {
      var t := Tick();
      var user := S.GuestByName(guests, guest.name);
      if user.None? {
        return Err(S.Database(S.NO_ROW));
      }
      var uid := user.value.id;
      DeactivateGuest(uid, t);
      var lookup := AssistantIdByAgentId(AsI32(assistant.agentId));
      if lookup.Err? {
        return Err(lookup.error);
      }
      InsertConversation(uid, lookup.value, t, guest.name);
      r := Ok(());
    }

    /** Mark every active conversation of the guest inactive. */
    method DeactivateGuest(guestId: int, t: nat)
      requires Valid()
      modifies this`conversations
      ensures Valid()
      ensures conversations == DeactivateAll(old(conversations), guestId, t)
      ensures ActiveConversationOf(conversations, guestId).None?
    {
      DeactivateAllEffect(conversations, guestId, t);
      conversations := DeactivateAll(conversations, guestId, t);
    }

    /** Insert the new active conversation of a guest who has none. */
    method InsertConversation(guestId: int, assistantId: int, t: nat, ghost name: string)
      requires Valid()
      requires S.GuestByName(guests, name).Some? && S.GuestByName(guests, name).value.id == guestId
      requires ActiveConversationOf(conversations, guestId).None?
      modifies this`conversations, this`nextConversationId
      ensures Valid()
      ensures conversations == old(conversations) + [ConversationRow(old(nextConversationId), guestId, assistantId, true, t, t)]
      ensures ConversationOf(guests, conversations, messages, name) == Ok(C.Conversation([]))
    {
      var row := ConversationRow(nextConversationId, guestId, assistantId, true, t, t);
      ConversationsValidAppend(conversations, nextConversationId, row);
      conversations := conversations + [row];
      nextConversationId := nextConversationId + 1;
      FirstOnlyLast(conversations, (c: ConversationRow) => ActiveOf(c, guestId));
      FilterNone(messages, (m: StoredMessage) => m.conversationId == row.id);
    }

    /** `get_conversation`: the messages of the guest's first active
        conversation, in creation order. */
    function GetConversation(guest: C.Guest): (r: Result<C.Conversation, S.Error>)
      reads this
      requires Valid()
      ensures r.Err? <==> ActiveIdOf(guests, conversations, guest.name).None?
      ensures r == ConversationOf(guests, conversations, messages, guest.name)
    {
      ConversationOf(guests, conversations, messages, guest.name)
    }

    /** `append_message`: add the message to the guest's active
        conversation, with its role's id, text content and the token count
        through `as i32`. */
    method AppendMessage(guest: C.Guest, message: C.Message) returns (r: Result<(), S.Error>)
      requires Valid()
      modifies this
      ensures Valid()
      ensures guests == old(guests) && conversations == old(conversations) && assistants == old(assistants)
      ensures initialized == old(initialized)
      ensures r.Err? <==> old(ActiveIdOf(guests, conversations, guest.name)).None?
      ensures r.Err? ==> r == Err(S.Database(S.NO_ROW)) && messages == old(messages)
      ensures r.Ok? ==>
        && messages == old(messages) +
             [StoredOf(message, old(nextMessageId), old(ActiveIdOf(guests, conversations, guest.name)).value, clock)]
        && ConversationOf(guests, conversations, messages, guest.name) ==
             Ok(C.Conversation(old(ConversationOf(guests, conversations, messages, guest.name)).value.content +
                               [MessageOf(messages[|messages| - 1])]))
      ensures r.Ok? && message.tokens < TWO_31 ==> MessageOf(messages[|messages| - 1]) == message
    {
      var user := S.GuestByName(guests, guest.name);
      if user.None? {
        return Err(S.Database(S.NO_ROW));
      }
      var conv := ActiveConversationOf(conversations, user.value.id);
      if conv.None? {
        return Err(S.Database(S.NO_ROW));
      }
      ghost var before := messages;
      ghost var id := nextMessageId;
      ActiveIdBelow(guests, conversations, nextConversationId, guest.name);
      InsertMessage(message, conv.value.id);
      AppendExtendsConversation(guests, conversations, before, guest.name, messages[|messages| - 1]);
      if message.tokens < TWO_31 {
        StoredMessageRoundTrip(message, id, conv.value.id, clock);
      }
      r := Ok(());
    }

    /** The insert itself: the message, stamped with the current time, goes
        at the end of the message table of a conversation that exists. */
    method InsertMessage(message: C.Message, conversationId: int)
      requires Valid() && conversationId < nextConversationId
      modifies this`messages, this`nextMessageId, this`clock
      ensures Valid()
      ensures messages == old(messages) + [StoredOf(message, old(nextMessageId), conversationId, clock)]
      ensures nextMessageId == old(nextMessageId) + 1
    {
      var row := StoredOf(message, nextMessageId, conversationId, clock + 1);
      MessagesValidLater(messages, nextConversationId, clock, clock + 1);
      MessagesValidAppend(messages, nextConversationId, clock + 1, row);
      clock := clock + 1;
      messages := messages + [row];
      nextMessageId := nextMessageId + 1;
    }
  }

  /** The position (plus one) of the first assistant at or after `from`
      that answers in application `agentId`. */
  function FirstIndex(rows: seq<AssistantRow>, agentId: int, from: nat): (r: Result<int, S.Error>)
    requires from <= |rows|
    requires forall i :: 0 <= i < from ==> rows[i].agentId != agentId
    ensures r.Err? <==> forall i :: 0 <= i < |rows| ==> rows[i].agentId != agentId
    ensures r.Err? ==> r.error == S.Database(S.NO_ROW)
    ensures r.Ok? ==> 1 <= r.value <= |rows| && rows[r.value - 1].agentId == agentId
    ensures r.Ok? ==> forall i :: 0 <= i < r.value - 1 ==> rows[i].agentId != agentId
    decreases |rows| - from
  {
    if from == |rows| then Err(S.Database(S.NO_ROW))
    else if rows[from].agentId == agentId then Ok(from + 1)
    else FirstIndex(rows, agentId, from + 1)
  }
}
