/** The current store generation (src/storage/agent.rs): guests,
    conversations and messages kept in three tables. The relational database
    is an in-memory object whose fields are the tables; each SQL query becomes
    a function over those fields and each insert or update reassigns them.
    `Utc::now()` is a logical clock that advances on every write. */
module Storage {

  import opened Common
  import opened Rows
  import Core
  import P = ProviderOpenAi

  datatype Error = NotFound | Database(message: string) | Connection(message: string)

  /** Diesel's text for a query that matched no row. */
  const NO_ROW: string := "Record not found"
  /** SQLite's text for a second row with the same unique name or id. */
  const UNIQUE_VIOLATION: string := "UNIQUE constraint failed"

  /** The `Display` text of an error. */
  function ErrorText(e: Error): string
  {
    match e
    case NotFound => "Item not found"
    case Database(message) => message
    case Connection(message) => message
  }

  function CreatedAt(m: MessageRow): int { m.createdAt }

  /** The row of the guest called `name`, if any. */
  function GuestByName(gs: seq<GuestRow>, name: string): (r: Option<GuestRow>)
    ensures r.Some? ==> r.value.name == name
    ensures r.None? ==> forall i :: 0 <= i < |gs| ==> gs[i].name != name
  {
    First(gs, (g: GuestRow) => g.name == name)
  }

  lemma GuestByNameIn(gs: seq<GuestRow>, name: string)
    ensures GuestByName(gs, name).Some? ==> GuestByName(gs, name).value in gs
  {
    FirstIn(gs, (g: GuestRow) => g.name == name);
  }

  predicate IsActiveFor(c: ConversationRow, guestId: int, assistantId: int)
  {
    c.active && c.guestId == guestId && c.assistantId == assistantId
  }

  /** The active conversation of a (guest, assistant) pair, if any. */
  function ActiveConversation(cs: seq<ConversationRow>, guestId: int, assistantId: int)
    : (r: Option<ConversationRow>)
    ensures r.Some? ==> IsActiveFor(r.value, guestId, assistantId)
    ensures r.None? ==> forall i :: 0 <= i < |cs| ==> !IsActiveFor(cs[i], guestId, assistantId)
  {
    First(cs, (c: ConversationRow) => IsActiveFor(c, guestId, assistantId))
  }

  /** The messages of one conversation ordered by `created_at`. */
  function ConversationMessages(ms: seq<MessageRow>, conversationId: int): seq<MessageRow>
  {
    SortBy(Filter(ms, (m: MessageRow) => m.conversationId == conversationId), CreatedAt)
  }

  function ToGuest(g: GuestRow): Core.Guest
  {
    Core.Guest(g.name, g.credit, g.admin)
  }

  function GuestsOf(gs: seq<GuestRow>): (r: seq<Core.Guest>)
    ensures |r| == |gs| && forall i :: 0 <= i < |gs| ==> r[i] == ToGuest(gs[i])
  {
    seq(|gs|, i requires 0 <= i < |gs| => ToGuest(gs[i]))
  }

  /** At most one active conversation per (guest, assistant) pair. */
  predicate OneActivePerPair(cs: seq<ConversationRow>)
  {
    forall i, j :: 0 <= i < j < |cs| && cs[i].active && cs[j].active ==>
      cs[i].guestId != cs[j].guestId || cs[i].assistantId != cs[j].assistantId
  }

  predicate UniqueGuests(gs: seq<GuestRow>)
  {
    forall i, j :: 0 <= i < j < |gs| ==> gs[i].name != gs[j].name && gs[i].id != gs[j].id
  }

  /** `UPDATE conversations SET active = false, updated_at = t` on the active
      rows of one (guest, assistant) pair. */
  function Deactivate(cs: seq<ConversationRow>, guestId: int, assistantId: int, t: nat)
    : (r: seq<ConversationRow>)
    ensures |r| == |cs|
    ensures forall i :: 0 <= i < |cs| ==>
      r[i] == if IsActiveFor(cs[i], guestId, assistantId)
              then cs[i].(active := false, updatedAt := t) else cs[i]
  {
    seq(|cs|, i requires 0 <= i < |cs| =>
      if IsActiveFor(cs[i], guestId, assistantId) then cs[i].(active := false, updatedAt := t)
      else cs[i])
  }

  /** `UPDATE guests SET credit, updated_at, admin WHERE name = ...`. */
  function SetGuest(gs: seq<GuestRow>, name: string, credit: real, admin: bool, t: nat)
    : (r: seq<GuestRow>)
    ensures |r| == |gs|
    ensures forall i :: 0 <= i < |gs| ==>
      r[i] == if gs[i].name == name
              then gs[i].(credit := credit, admin := admin, updatedAt := t) else gs[i]
  {
    seq(|gs|, i requires 0 <= i < |gs| =>
      if gs[i].name == name then gs[i].(credit := credit, admin := admin, updatedAt := t)
      else gs[i])
  }

  /** Deactivating one pair and adding an active row for it keeps at most one
      active conversation per pair. */
  lemma {:induction false} CreateKeepsOneActive(
    cs: seq<ConversationRow>, guestId: int, assistantId: int, t: nat, row: ConversationRow)
    requires OneActivePerPair(cs)
    requires row.guestId == guestId && row.assistantId == assistantId
    ensures OneActivePerPair(Deactivate(cs, guestId, assistantId, t) + [row])
  {
    var r := Deactivate(cs, guestId, assistantId, t) + [row];
    forall i, j | 0 <= i < j < |r| && r[i].active && r[j].active
      ensures r[i].guestId != r[j].guestId || r[i].assistantId != r[j].assistantId
    {
      if j == |r| - 1 {
        assert !IsActiveFor(r[i], guestId, assistantId);
      }
    }
  }

  /** The id of the active conversation of guest `name` with the
      assistant, if both exist. */
  function ActiveIdOf(gs: seq<GuestRow>, cs: seq<ConversationRow>, name: string, assistantId: int)
    : (r: Option<int>)
    ensures r.Some? <==>
      GuestByName(gs, name).Some? && ActiveConversation(cs, GuestByName(gs, name).value.id, assistantId).Some?
  {
    match GuestByName(gs, name)
    case None => None
    case Some(user) =>
      match ActiveConversation(cs, user.id, assistantId)
      case None => None
      case Some(c) => Some(c.id)
  }

  /** The `get_conversation` query over the three tables: the messages of
      the active conversation of guest `name` with the assistant, by
      creation time. */
  function ConversationOf(gs: seq<GuestRow>, cs: seq<ConversationRow>, ms: seq<MessageRow>,
                          name: string, assistantId: int): (r: Result<seq<MessageRow>, Error>)
    ensures r.Err? <==>
      GuestByName(gs, name).None? ||
      ActiveConversation(cs, GuestByName(gs, name).value.id, assistantId).None?
    ensures r.Err? ==> r.error == Database(NO_ROW)
    ensures r.Ok? ==>
      var c := ActiveConversation(cs, GuestByName(gs, name).value.id, assistantId).value;
      r.value == ConversationMessages(ms, c.id)
  {
    match GuestByName(gs, name)
    case None => Err(Database(NO_ROW))
    case Some(user) =>
      match ActiveConversation(cs, user.id, assistantId)
      case None => Err(Database(NO_ROW))
      case Some(c) => Ok(ConversationMessages(ms, c.id))
  }

  /** Appending a row of the active conversation to a table kept in creation
      order adds it at the end of what the query returns. */
  lemma AppendExtendsConversation(gs: seq<GuestRow>, cs: seq<ConversationRow>, ms: seq<MessageRow>,
                                  name: string, assistantId: int, row: MessageRow)
    requires SortedBy(ms + [row], CreatedAt)
    requires ActiveIdOf(gs, cs, name, assistantId) == Some(row.conversationId)
    ensures ConversationOf(gs, cs, ms + [row], name, assistantId)
         == Ok(ConversationOf(gs, cs, ms, name, assistantId).value + [row])
  {
    var p := (m: MessageRow) => m.conversationId == row.conversationId;
    FilterAppend(ms, [row], p);
    assert [row][..0] == [];
    assert ms == (ms + [row])[..|ms|];
    FilterSorted(ms, p, CreatedAt);
    FilterSorted(ms + [row], p, CreatedAt);
    SortByIdentity(Filter(ms, p), CreatedAt);
    SortByIdentity(Filter(ms + [row], p), CreatedAt);
  }

  /** A row stamped no earlier than every row of a table in creation order
      keeps the table in creation order. */
  lemma AppendSorted(ms: seq<MessageRow>, row: MessageRow)
    requires SortedBy(ms, CreatedAt)
    requires forall i :: 0 <= i < |ms| ==> ms[i].createdAt <= row.createdAt
    ensures SortedBy(ms + [row], CreatedAt)
  {
  }

  /** A message row carries the given message, cost and token counts (the
      counts through `as i32`), with text content. */
  predicate Stores(row: MessageRow, m: P.Message, cost: real, promptTokens: nat, completionTokens: nat)
  {
    && row.content == m.content && row.cost == cost
    && P.RoleFromName(m.role).Ok? && row.messageType == P.RoleToId(P.RoleFromName(m.role).value)
    && row.contentType == Core.ContentTypeToId(Core.Text)
    && row.promptTokens == AsI32(promptTokens) && row.completionTokens == AsI32(completionTokens)
  }

  class StorageAgent {
    /** Whether the `db_init_status` row exists. */
    var initialized: bool
    var guests: seq<GuestRow>
    var conversations: seq<ConversationRow>
    var messages: seq<MessageRow>
    /** The last timestamp handed out. */
    var clock: nat
    var nextGuestId: int
    var nextConversationId: int
    var nextMessageId: int

    ghost predicate Valid()
      reads this
    {
      && UniqueGuests(guests)
      && (forall i :: 0 <= i < |guests| ==> guests[i].id < nextGuestId)
      && OneActivePerPair(conversations)
      && (forall i :: 0 <= i < |conversations| ==>
            conversations[i].id < nextConversationId && conversations[i].guestId < nextGuestId)
      && (forall i :: 0 <= i < |messages| ==>
            messages[i].conversationId < nextConversationId && messages[i].createdAt <= clock)
      && SortedBy(messages, CreatedAt)
    }

    /** The tables right after the schema migrations ran on a new file. */
    constructor Empty()
      ensures Valid() && !initialized
      ensures guests == [] && conversations == [] && messages == []
    {
      initialized := false;
      guests, conversations, messages := [], [], [];
      clock := 0;
      nextGuestId, nextConversationId, nextMessageId := 1, 1, 1;
    }

    method Tick() returns (t: nat)
      modifies this`clock
      ensures clock == t == old(clock) + 1
    {
      clock := clock + 1;
      t := clock;
    }

    /** `Agent::new` after the migrations: when the init record is absent,
        seed the administrator (id 1, credit 0, admin) and the init record;
        an initialised store is left as it is. */
    method Open(admin: string) returns (r: Result<(), Error>)
      requires Valid()
      modifies this
      ensures Valid()
      ensures conversations == old(conversations) && messages == old(messages)
      ensures old(initialized) ==> r.Ok? && guests == old(guests) && initialized
      ensures !old(initialized) ==>
        (r.Ok? <==> forall i :: 0 <= i < |old(guests)| ==>
                      old(guests)[i].id != 1 && old(guests)[i].name != admin)
      ensures !old(initialized) && r.Ok? ==>
        initialized && guests == old(guests) + [GuestRow(1, admin, 0.0, clock, clock, true)]
      ensures r.Err? ==>
        r.error.Database? && guests == old(guests) && initialized == old(initialized)
    {
      if initialized {
        return Ok(());
      }
      var t := Tick();
      if exists i :: 0 <= i < |guests| && (guests[i].id == 1 || guests[i].name == admin) {
        return Err(Database("创建管理员账户出错。" + UNIQUE_VIOLATION));
      }
      guests := guests + [GuestRow(1, admin, 0.0, t, t, true)];
      if nextGuestId < 2 {
        nextGuestId := 2;
      }
      initialized := true;
      r := Ok(());
    }

    /** `create_user`: insert a guest; a second guest with the same name
        violates the unique constraint. */
    method CreateUser(guest: Core.Guest) returns (r: Result<(), Error>)
      requires Valid()
      modifies this
      ensures Valid()
      ensures conversations == old(conversations) && messages == old(messages)
      ensures initialized == old(initialized)
      ensures r.Ok? <==> GuestByName(old(guests), guest.name).None?
      ensures r.Ok? ==>
        guests == old(guests) + [GuestRow(old(nextGuestId), guest.name, guest.credit, clock, clock, guest.admin)]
      ensures r.Err? ==> r.error.Database? && guests == old(guests)
    {
      var t := Tick();
      if GuestByName(guests, guest.name).Some? {
        return Err(Database(UNIQUE_VIOLATION));
      }
      guests := guests + [GuestRow(nextGuestId, guest.name, guest.credit, t, t, guest.admin)];
      nextGuestId := nextGuestId + 1;
      r := Ok(());
    }

    /** `get_users`: every guest, in table order. */
    function GetUsers(): (r: Result<seq<Core.Guest>, Error>)
      reads this
      ensures r.Ok? && |r.value| == |guests|
      ensures forall i :: 0 <= i < |guests| ==>
        r.value[i] == Core.Guest(guests[i].name, guests[i].credit, guests[i].admin)
    {
      Ok(GuestsOf(guests))
    }

    /** `get_user`: the guest with that name, or NotFound. */
    function GetUser(name: string): (r: Result<Core.Guest, Error>)
      reads this
      ensures r.Err? <==> forall i :: 0 <= i < |guests| ==> guests[i].name != name
      ensures r.Err? ==> r.error == NotFound
      ensures r.Ok? ==>
        r.value.name == name && exists i :: 0 <= i < |guests| && r.value == ToGuest(guests[i])
    {
      GuestByNameIn(guests, name);
      match GuestByName(guests, name)
      case None => Err(NotFound)
      case Some(g) => Ok(ToGuest(g))
    }

    /** `update_user`: set credit and admin of the guest with that name to the
        given values; no other guest changes. */
    method UpdateUser(guest: Core.Guest) returns (r: Result<(), Error>)
      requires Valid()
      modifies this
      ensures Valid() && r.Ok?
      ensures conversations == old(conversations) && messages == old(messages)
      ensures initialized == old(initialized)
      ensures guests == SetGuest(old(guests), guest.name, guest.credit, guest.admin, clock)
    {
      var t := Tick();
      guests := SetGuest(guests, guest.name, guest.credit, guest.admin, t);
      r := Ok(());
    }

    /** `create_conversation`: deactivate the guest's active conversations
        with this assistant and insert a new active one. The assistant id is
        stored through `as i32`. */
    method CreateConversation(guest: Core.Guest, assistantId: nat) returns (r: Result<(), Error>)
      requires Valid()
      modifies this
      ensures Valid()
      ensures guests == old(guests) && messages == old(messages)
      ensures initialized == old(initialized)
      ensures r.Err? <==> GuestByName(old(guests), guest.name).None?
      ensures r.Err? ==> r.error == Database(NO_ROW) && conversations == old(conversations)
      ensures r.Ok? ==>
        var user := GuestByName(old(guests), guest.name).value;
        var row := ConversationRow(old(nextConversationId), user.id, AsI32(assistantId), true, clock, clock);
        conversations == Deactivate(old(conversations), user.id, AsI32(assistantId), clock) + [row]
      ensures r.Ok? ==> GetConversation(guest, assistantId) == Ok([])
    {
      var t := Tick();
      var user := GuestByName(guests, guest.name);
      if user.None? {
        return Err(Database(NO_ROW));
      }
      GuestByNameIn(guests, guest.name);
      var aid := AsI32(assistantId);
      var row := ConversationRow(nextConversationId, user.value.id, aid, true, t, t);
      CreateKeepsOneActive(conversations, user.value.id, aid, t, row);
      conversations := Deactivate(conversations, user.value.id, aid, t) + [row];
      nextConversationId := nextConversationId + 1;
      r := Ok(());
      FirstOnlyLast(conversations, (c: ConversationRow) => IsActiveFor(c, user.value.id, aid));
      FilterNone(messages, (m: MessageRow) => m.conversationId == row.id);
    }

    /** `get_conversation`: the messages of the guest's active conversation
        with this assistant, ordered by creation time. */
    function GetConversation(guest: Core.Guest, assistantId: nat): (r: Result<seq<MessageRow>, Error>)
      reads this
      ensures r.Err? <==>
        GuestByName(guests, guest.name).None? ||
        ActiveConversation(conversations, GuestByName(guests, guest.name).value.id, AsI32(assistantId)).None?
      ensures r.Err? ==> r.error == Database(NO_ROW)
      ensures r.Ok? ==>
        var c := ActiveConversation(conversations, GuestByName(guests, guest.name).value.id, AsI32(assistantId)).value;
        r.value == ConversationMessages(messages, c.id)
    {
      ConversationOf(guests, conversations, messages, guest.name, AsI32(assistantId))
    }

    /** `append_message`: add one message to the guest's active conversation
        with this assistant. The role name must parse (the unwrap panics
        otherwise); the token counts are stored through `as i32`. */
    method AppendMessage(guest: Core.Guest, assistantId: nat, message: P.Message,
                         cost: real, promptTokens: nat, completionTokens: nat)
      returns (r: Fallible<Result<(), Error>>)
      requires Valid()
      modifies this
      ensures Valid()
      ensures guests == old(guests) && conversations == old(conversations)
      ensures initialized == old(initialized)
      ensures old(ActiveIdOf(guests, conversations, guest.name, AsI32(assistantId))).None? ==>
        r == Returns(Err(NotFound)) && messages == old(messages)
      ensures old(ActiveIdOf(guests, conversations, guest.name, AsI32(assistantId))).Some? &&
              P.RoleFromName(message.role).Err? ==>
        r == Panics && messages == old(messages)
      ensures old(ActiveIdOf(guests, conversations, guest.name, AsI32(assistantId))).Some? &&
              P.RoleFromName(message.role).Ok? ==>
        var k := |old(messages)|;
        && r == Returns(Ok(()))
        && |messages| == k + 1 && messages[..k] == old(messages)
        && messages[k].id == old(nextMessageId) && messages[k].createdAt == clock
        && Stores(messages[k], message, cost, promptTokens, completionTokens)
        && ActiveIdOf(guests, conversations, guest.name, AsI32(assistantId)) == Some(messages[k].conversationId)
    {
      var user := GuestByName(guests, guest.name);
      if user.None? {
        return Returns(Err(NotFound));
      }
      var conv := ActiveConversation(conversations, user.value.id, AsI32(assistantId));
      if conv.None? {
        return Returns(Err(NotFound));
      }
      var role := P.RoleFromName(message.role);
      if role.Err? {
        return Panics;
      }
      var t := Tick();
      var row := MessageRow(nextMessageId, conv.value.id, t, message.content, cost,
                            P.RoleToId(role.value), Core.ContentTypeToId(Core.Text),
                            AsI32(promptTokens), AsI32(completionTokens));
      AppendSorted(messages, row);
      FirstIn(conversations, (c: ConversationRow) => IsActiveFor(c, user.value.id, AsI32(assistantId)));
      assert conv.value.id < nextConversationId;
      messages := messages + [row];
      nextMessageId := nextMessageId + 1;
      r := Returns(Ok(()));
    }
  }
}
