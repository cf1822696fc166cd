/** The first reception store (src/reception/database.rs): `DBAgent` keeps
    guests, AI providers, assistants, the message-type and content-type
    lookup tables, conversations and messages. Here the tables are fields of
    one object, `Utc::now()` is a logical clock that every write advances,
    and the ids of guests, conversations and messages come from counters
    that never hand out an id twice (a deleted id is not reused). */
module ReceptionDatabase {

  import opened Common
  import opened Rows
  import S = Storage
  import D = ReceptionDbAgent

  /** `NotFound` of this module, or a failed query with the database's
      text. */
  datatype Error = NotFound | Database(message: string)

  /** The `Display` text of an error. */
  function ErrorText(e: Error): string
  {
    match e
    case NotFound => "Item not found in database"
    case Database(message) => message
  }

  datatype Provider = Provider(id: int, name: string, maxTokens: int)

  datatype Assistant = Assistant(id: int, name: string, agentId: int, providerId: int)

  const MSG_TYPE_NAMES: seq<string> := ["system", "user", "assistant"]
  const CONTENT_TYPE_NAMES: seq<string> :=
    ["text", "image", "voice", "video", "file", "markdown", "news", "textcard"]
  const DEFAULT_PROVIDER: Provider := Provider(1, "openai/gpt4-32k", 32 * 1000)
  const DEFAULT_ASSISTANT: Assistant := Assistant(1, "小白", 1000002, 1)

  function GuestId(g: GuestRow): int { g.id }
  function ConversationId(c: ConversationRow): int { c.id }
  function MessageId(m: MessageRow): int { m.id }
  function NamedId(t: D.NamedRow): int { t.id }
  function ProviderId(p: Provider): int { p.id }
  function AssistantId(a: Assistant): int { a.id }

  /** `table.find(id).first()`: the row with that id. */
  function ById<T>(rows: seq<T>, idOf: T -> int, id: int): (r: Result<T, Error>)
    ensures r.Err? <==> forall i :: 0 <= i < |rows| ==> idOf(rows[i]) != id
    ensures r.Err? ==> r.error == Database(S.NO_ROW)
    ensures r.Ok? ==> r.value in rows && idOf(r.value) == id
  {
    FirstIn(rows, (x: T) => idOf(x) == id);
    match First(rows, (x: T) => idOf(x) == id)
    case None => Err(Database(S.NO_ROW))
    case Some(x) => Ok(x)
  }

  /** `table.filter(name.eq(...)).first()` on a lookup table. */
  function ByName(rows: seq<D.NamedRow>, name: string): (r: Result<D.NamedRow, Error>)
    ensures r.Err? <==> forall i :: 0 <= i < |rows| ==> rows[i].name != name
    ensures r.Err? ==> r.error == Database(S.NO_ROW)
    ensures r.Ok? ==> r.value in rows && r.value.name == name
  {
    FirstIn(rows, (x: D.NamedRow) => x.name == name);
    match First(rows, (x: D.NamedRow) => x.name == name)
    case None => Err(Database(S.NO_ROW))
    case Some(x) => Ok(x)
  }

  /** The ids of a table filled in one go count up from one. */
  predicate Positional<T>(rows: seq<T>, idOf: T -> int)
  {
    forall i :: 0 <= i < |rows| ==> idOf(rows[i]) == i + 1
  }

  /** In such a table the row with id `k` is the `k`-th row. */
  lemma ByIdPositional<T>(rows: seq<T>, idOf: T -> int, id: int)
    requires Positional(rows, idOf)
    ensures ById(rows, idOf, id).Ok? <==> 1 <= id <= |rows|
    ensures ById(rows, idOf, id).Ok? ==> ById(rows, idOf, id).value == rows[id - 1]
  {
    if 1 <= id <= |rows| {
      assert idOf(rows[id - 1]) == id;
    }
  }

  /** Looking a row up by name and then by the id found gives the same row,
      and in a table whose names are distinct the row found by name is the
      one at the position its id names. */
  lemma NameThenId(rows: seq<D.NamedRow>, name: string)
    requires Positional(rows, NamedId)
    ensures ByName(rows, name).Ok? ==> ById(rows, NamedId, ByName(rows, name).value.id) == ByName(rows, name)
  {
    if ByName(rows, name).Ok? {
      var k :| 0 <= k < |rows| && rows[k] == ByName(rows, name).value;
      ByIdPositional(rows, NamedId, k + 1);
    }
  }

  /** A table seeded from distinct names: the row named `names[k]` is row
      `k + 1`, and no other id is taken. */
  lemma {:induction false} SeededLookups(names: seq<string>, k: int)
    requires forall i, j :: 0 <= i < j < |names| ==> names[i] != names[j]
    requires 0 <= k < |names|
    ensures ByName(D.Numbered(names), names[k]) == Ok(D.NamedRow(k + 1, names[k]))
    ensures ById(D.Numbered(names), NamedId, k + 1) == Ok(D.NamedRow(k + 1, names[k]))
  {
    var rows := D.Numbered(names);
    assert rows[k].name == names[k];
    var j :| 0 <= j < |rows| && rows[j] == ByName(rows, names[k]).value;
    assert rows[j].name == names[j];
    ByIdPositional(rows, NamedId, k + 1);
  }

  /** `DELETE ... WHERE id = ?`: the rows with another id, in order. */
  function Without<T>(rows: seq<T>, idOf: T -> int, id: int): (r: seq<T>)
    ensures forall i :: 0 <= i < |r| ==> r[i] in rows && idOf(r[i]) != id
    ensures forall i :: 0 <= i < |rows| && idOf(rows[i]) != id ==> rows[i] in r
  {
    FilterMembers(rows, (x: T) => idOf(x) != id);
    Filter(rows, (x: T) => idOf(x) != id)
  }

  /** Deleting rows keeps every pairwise property. */
  lemma WithoutPairwise<T>(rows: seq<T>, idOf: T -> int, apart: (T, T) -> bool, id: int)
    requires Pairwise(rows, apart)
    ensures Pairwise(Without(rows, idOf, id), apart)
  {
    FilterPairwise(rows, (x: T) => idOf(x) != id, apart);
  }

  /** Deleting rows keeps the rest in order. */
  lemma WithoutSorted<T>(rows: seq<T>, idOf: T -> int, key: T -> int, id: int)
    requires SortedBy(rows, key)
    ensures SortedBy(Without(rows, idOf, id), key)
  {
    FilterSorted(rows, (x: T) => idOf(x) != id, key);
  }

  /** With distinct ids, a delete by id removes one row when the id is
      present and none otherwise; what stays keeps every pairwise
      property. */
  lemma DeleteCount<T>(rows: seq<T>, idOf: T -> int, apart: (T, T) -> bool, id: int)
    requires Pairwise(rows, apart)
    requires forall a, b :: apart(a, b) ==> idOf(a) != idOf(b)
    ensures |rows| - |Without(rows, idOf, id)| == if ById(rows, idOf, id).Ok? then 1 else 0
    ensures Pairwise(Without(rows, idOf, id), apart)
  {
    var keep := (x: T) => idOf(x) != id;
    WithoutPairwise(rows, idOf, apart, id);
    if ById(rows, idOf, id).Ok? {
      var k :| 0 <= k < |rows| && rows[k] == ById(rows, idOf, id).value;
      forall j | 0 <= j < |rows| && j != k ensures keep(rows[j]) {
        if j < k {
          assert apart(rows[j], rows[k]);
        } else {
          assert apart(rows[k], rows[j]);
        }
      }
      FilterDropsOne(rows, keep, k);
    } else {
      FilterAll(rows, keep);
    }
  }

  predicate GuestsApart(a: GuestRow, b: GuestRow)
  {
    a.id != b.id && a.name != b.name
  }

  predicate ConversationsApart(a: ConversationRow, b: ConversationRow)
  {
    a.id != b.id
  }

  predicate MessagesApart(a: MessageRow, b: MessageRow)
  {
    a.id != b.id
  }

  /** Guest ids and names are distinct, ids were handed out, and no row
      carries a time after the clock. */
  predicate GuestsValid(gs: seq<GuestRow>, nextId: int, clock: nat)
  {
    && Pairwise(gs, GuestsApart)
    && forall i :: 0 <= i < |gs| ==> gs[i].id < nextId && gs[i].createdAt <= gs[i].updatedAt <= clock
  }

  /** Conversation ids are distinct and were handed out, and each guest has
      at most one active conversation. */
  predicate ConversationsValid(cs: seq<ConversationRow>, nextId: int)
  {
    Pairwise(cs, ConversationsApart) && D.OneActivePerGuest(cs) && forall i :: 0 <= i < |cs| ==> cs[i].id < nextId
  }

  /** Message ids are distinct and were handed out, and the table is in
      creation order with no time after the clock. */
  predicate MessagesValid(ms: seq<MessageRow>, nextId: int, clock: nat)
  {
    && Pairwise(ms, MessagesApart)
    && SortedBy(ms, S.CreatedAt)
    && forall i :: 0 <= i < |ms| ==> ms[i].id < nextId && ms[i].createdAt <= clock
  }

  /** The lookup tables are empty until `default_init` runs and hold exactly
      what it seeds afterwards; nothing writes them again. */
  predicate Seeded(initialized: bool, ps: seq<Provider>, as_: seq<Assistant>, mts: seq<D.NamedRow>,
                   cts: seq<D.NamedRow>)
  {
    if initialized then
      ps == [DEFAULT_PROVIDER] && as_ == [DEFAULT_ASSISTANT] &&
      mts == D.Numbered(MSG_TYPE_NAMES) && cts == D.Numbered(CONTENT_TYPE_NAMES)
    else
      ps == [] && as_ == [] && mts == [] && cts == []
  }

  lemma GuestsValidAppend(gs: seq<GuestRow>, nextId: int, clock: nat, row: GuestRow, nextId': int)
    requires GuestsValid(gs, nextId, clock) && nextId <= nextId' && row.id < nextId'
    requires row.createdAt <= row.updatedAt <= clock
    requires forall i :: 0 <= i < |gs| ==> gs[i].id != row.id && gs[i].name != row.name
    ensures GuestsValid(gs + [row], nextId', clock)
  {
  }

  /** `guests.find(id)` updated: the row with that id is replaced. */
  function Replace(gs: seq<GuestRow>, row: GuestRow): (r: seq<GuestRow>)
    ensures |r| == |gs|
    ensures forall i :: 0 <= i < |gs| ==> r[i] == if gs[i].id == row.id then row else gs[i]
  {
    seq(|gs|, i requires 0 <= i < |gs| => if gs[i].id == row.id then row else gs[i])
  }

  /** Replacing a guest's row by one with the same id, name and creation
      time, stamped later, keeps the table valid, and the guest's name then
      finds the new row. */
  lemma ReplaceGuest(gs: seq<GuestRow>, nextId: int, clock: nat, row: GuestRow, later: nat)
    requires GuestsValid(gs, nextId, clock) && clock <= later
    requires ById(gs, GuestId, row.id).Ok?
    requires ById(gs, GuestId, row.id).value.name == row.name
    requires ById(gs, GuestId, row.id).value.createdAt == row.createdAt && row.updatedAt == later
    ensures GuestsValid(Replace(gs, row), nextId, later)
    ensures S.GuestByName(Replace(gs, row), row.name) == Some(row)
  {
    var old_ := ById(gs, GuestId, row.id).value;
    var k :| 0 <= k < |gs| && gs[k] == old_;
    var r := Replace(gs, row);
    forall i | 0 <= i < |gs| && i != k ensures gs[i].id != row.id && gs[i].name != row.name {
      if i < k {
        assert GuestsApart(gs[i], gs[k]);
      } else {
        assert GuestsApart(gs[k], gs[i]);
      }
    }
    assert Pairwise(r, GuestsApart) by {
      forall i, j | 0 <= i < j < |r| ensures GuestsApart(r[i], r[j]) {
        assert GuestsApart(gs[i], gs[j]);
      }
    }
    S.GuestByNameIn(r, row.name);
  }

  /** Deleting a named guest's row by its id removes exactly that row,
      keeps the table valid and leaves no guest of that name. */
  lemma RemoveGuestKeeps(gs: seq<GuestRow>, nextId: int, clock: nat, name: string)
    requires GuestsValid(gs, nextId, clock) && S.GuestByName(gs, name).Some?
    ensures var after := Without(gs, GuestId, S.GuestByName(gs, name).value.id);
      && |gs| - |after| == 1
      && GuestsValid(after, nextId, clock)
      && forall i :: 0 <= i < |after| ==> after[i].name != name
  {
    S.GuestByNameIn(gs, name);
    var user := S.GuestByName(gs, name).value;
    var j :| 0 <= j < |gs| && gs[j] == user;
    assert ById(gs, GuestId, user.id).Ok?;
    DeleteCount(gs, GuestId, GuestsApart, user.id);
    var after := Without(gs, GuestId, user.id);
    forall i | 0 <= i < |after| ensures after[i].name != name {
      var k :| 0 <= k < |gs| && gs[k] == after[i];
      if k < j {
        assert GuestsApart(gs[k], gs[j]);
      } else if j < k {
        assert GuestsApart(gs[j], gs[k]);
      }
    }
  }

  lemma ConversationsValidAppend(cs: seq<ConversationRow>, nextId: int, row: ConversationRow)
    requires ConversationsValid(cs, nextId) && row.id == nextId
    requires D.ActiveConversationOf(cs, row.guestId).None?
    ensures ConversationsValid(cs + [row], nextId + 1)
  {
  }

  /** Deactivating a guest's conversations keeps the table valid and leaves
      the guest without an active one. */
  lemma DeactivateKeeps(cs: seq<ConversationRow>, nextId: int, guestId: int, t: nat)
    requires ConversationsValid(cs, nextId)
    ensures ConversationsValid(D.DeactivateAll(cs, guestId, t), nextId)
    ensures D.ActiveConversationOf(D.DeactivateAll(cs, guestId, t), guestId).None?
  {
    D.DeactivateAllEffect(cs, guestId, t);
    var r := D.DeactivateAll(cs, guestId, t);
    assert Pairwise(r, ConversationsApart) by {
      forall i, j | 0 <= i < j < |r| ensures ConversationsApart(r[i], r[j]) {
        assert ConversationsApart(cs[i], cs[j]);
      }
    }
  }

  /** Deleting a conversation keeps the table valid; a guest keeps an active
      conversation exactly when the deleted one was not it. */
  lemma RemoveConversationKeeps(cs: seq<ConversationRow>, nextId: int, id: int, guestId: int)
    requires ConversationsValid(cs, nextId)
    ensures ConversationsValid(Without(cs, ConversationId, id), nextId)
    ensures D.ActiveConversationOf(Without(cs, ConversationId, id), guestId).Some? <==>
      D.ActiveConversationOf(cs, guestId).Some? && D.ActiveConversationOf(cs, guestId).value.id != id
  {
    var r := Without(cs, ConversationId, id);
    WithoutPairwise(cs, ConversationId, ConversationsApart, id);
    WithoutPairwise(cs, ConversationId, D.ActiveApart, id);
    var active := (c: ConversationRow) => D.ActiveOf(c, guestId);
    FirstIn(cs, active);
    FirstIn(r, active);
    if D.ActiveConversationOf(cs, guestId).Some? {
      var c := D.ActiveConversationOf(cs, guestId).value;
      if c.id != id {
        assert c in r;
      } else {
        var j :| 0 <= j < |cs| && cs[j] == c;
        forall k | 0 <= k < |r| ensures !D.ActiveOf(r[k], guestId) {
          var i :| 0 <= i < |cs| && cs[i] == r[k];
          if i < j {
            assert D.ActiveApart(cs[i], cs[j]);
          } else if j < i {
            assert D.ActiveApart(cs[j], cs[i]);
          }
        }
      }
    }
  }

  lemma MessagesValidAppend(ms: seq<MessageRow>, nextId: int, clock: nat, row: MessageRow)
    requires MessagesValid(ms, nextId, clock)
    requires row.id == nextId && row.createdAt == clock
    ensures MessagesValid(ms + [row], nextId + 1, clock)
  {
  }

  lemma MessagesValidRemove(ms: seq<MessageRow>, nextId: int, clock: nat, id: int)
    requires MessagesValid(ms, nextId, clock)
    ensures MessagesValid(Without(ms, MessageId, id), nextId, clock)
  {
    WithoutPairwise(ms, MessageId, MessagesApart, id);
    WithoutSorted(ms, MessageId, S.CreatedAt, id);
  }

  /** `get_messages_by_conversation`'s answer: every message of the
      conversation and no other, in `created_at` order. */
  function MessagesOf(ms: seq<MessageRow>, conversationId: int): (r: seq<MessageRow>)
    ensures SortedBy(r, S.CreatedAt)
    ensures forall i :: 0 <= i < |r| ==> r[i] in ms && r[i].conversationId == conversationId
    ensures forall i :: 0 <= i < |ms| && ms[i].conversationId == conversationId ==> ms[i] in r
    ensures multiset(r) == multiset(Filter(ms, (m: MessageRow) => m.conversationId == conversationId))
  {
    var p := (m: MessageRow) => m.conversationId == conversationId;
    SortBySorted(Filter(ms, p), S.CreatedAt);
    SortByPermutes(Filter(ms, p), S.CreatedAt);
    SelectMembers(ms, p, S.CreatedAt);
    S.ConversationMessages(ms, conversationId)
  }

  /** Filtering and then sorting keeps exactly the rows that satisfy the
      filter. */
  lemma SelectMembers<T>(s: seq<T>, p: T -> bool, key: T -> int)
    ensures forall x :: x in SortBy(Filter(s, p), key) <==> x in s && p(x)
  {
    var f := Filter(s, p);
    SortByPermutes(f, key);
    FilterMembers(s, p);
    forall x ensures x in SortBy(f, key) <==> x in s && p(x) {
      assert x in SortBy(f, key) <==> x in multiset(SortBy(f, key));
      assert x in f <==> x in multiset(f);
      if x in f {
        var k :| 0 <= k < |f| && f[k] == x;
      }
      if x in s && p(x) {
        var k :| 0 <= k < |s| && s[k] == x;
      }
    }
  }

  /** A message stamped after every stored one comes out last among its
      conversation's messages. */
  lemma MessagesOfAppend(ms: seq<MessageRow>, row: MessageRow)
    requires SortedBy(ms + [row], S.CreatedAt)
    ensures MessagesOf(ms + [row], row.conversationId) == MessagesOf(ms, row.conversationId) + [row]
  {
    SortedFilterAppend(ms, row, (m: MessageRow) => m.conversationId == row.conversationId, S.CreatedAt);
  }

  class DBAgent {
    /** Whether the `db_init_status` row exists. */
    var initialized: bool
    var guests: seq<GuestRow>
    var providers: seq<Provider>
    var assistants: seq<Assistant>
    var msgTypes: seq<D.NamedRow>
    var contentTypes: seq<D.NamedRow>
    var conversations: seq<ConversationRow>
    var messages: seq<MessageRow>
    /** The last timestamp handed out. */
    var clock: nat
    var nextGuestId: int
    var nextConversationId: int
    var nextMessageId: int

    ghost predicate Valid()
      reads this
    {
      && GuestsValid(guests, nextGuestId, clock)
      && ConversationsValid(conversations, nextConversationId)
      && MessagesValid(messages, nextMessageId, clock)
      && Seeded(initialized, providers, assistants, msgTypes, contentTypes)
    }

    /** The tables right after the schema migrations ran on a new file. */
    constructor Empty()
      ensures Valid() && !initialized
      ensures guests == [] && conversations == [] && messages == []
    {
      initialized := false;
      guests, providers, assistants, msgTypes, contentTypes := [], [], [], [], [];
      conversations, messages := [], [];
      clock := 0;
      nextGuestId, nextConversationId, nextMessageId := 1, 1, 1;
    }

    method Tick() returns (t: nat)
      requires Valid()
      modifies this`clock
      ensures Valid() && clock == t == old(clock) + 1
    {
      clock := clock + 1;
      t := clock;
    }

    /** `DBAgent::new` after the migrations: without the init record run
        `default_init`, whose `APP_ADMIN` lookup panics when the variable is
        unset; an initialised store is left as it is. */
    method Open(appAdmin: Option<string>) returns (r: Fallible<Result<(), Error>>)
      requires Valid()
      modifies this
      ensures Valid()
      ensures conversations == old(conversations) && messages == old(messages)
      ensures old(initialized) ==> r == Returns(Ok(())) && unchanged(this)
      ensures !old(initialized) && appAdmin.None? ==> r == Panics && unchanged(this)
      ensures !old(initialized) && appAdmin.Some? ==>
        && r.Returns?
        && (r.value.Ok? <==> D.Unclaimed(old(guests), appAdmin.value))
        && (r.value.Ok? ==>
              initialized && guests == old(guests) + [GuestRow(1, appAdmin.value, 0.0, clock, clock, true)])
        && (r.value.Err? ==>
              r.value.error == Database(S.UNIQUE_VIOLATION) && !initialized && guests == old(guests))
    {
      if initialized {
        return Returns(Ok(()));
      }
      if appAdmin.None? {
        return Panics;
      }
      var seeded := DefaultInit(appAdmin.value);
      r := Returns(seeded);
    }

    /** `default_init`: the administrator as guest 1 with no credit and the
        admin right, then the provider, the assistant, the message types,
        the content types and the init record. The first insert fails when
        id 1 or the name is taken, and then nothing is written. */
    method DefaultInit(admin: string) returns (r: Result<(), Error>)
      requires Valid() && !initialized
      modifies this
      ensures Valid()
      ensures conversations == old(conversations) && messages == old(messages)
      ensures r.Ok? <==> D.Unclaimed(old(guests), admin)
      ensures r.Ok? ==> initialized && guests == old(guests) + [GuestRow(1, admin, 0.0, clock, clock, true)]
      ensures r.Err? ==> r.error == Database(S.UNIQUE_VIOLATION) && !initialized && guests == old(guests)
    {
      var t := Tick();
      if !D.Unclaimed(guests, admin) {
        return Err(Database(S.UNIQUE_VIOLATION));
      }
      InsertAdmin(admin, t);
      SeedTables();
      r := Ok(());
    }

    /** The administrator's row: id 1, no credit, the admin right. */
    method InsertAdmin(admin: string, t: nat)
      requires Valid() && D.Unclaimed(guests, admin) && t == clock
      modifies this`guests, this`nextGuestId
      ensures Valid()
      ensures guests == old(guests) + [GuestRow(1, admin, 0.0, t, t, true)]
    {
      var next := if nextGuestId < 2 then 2 else nextGuestId;
      GuestsValidAppend(guests, nextGuestId, clock, GuestRow(1, admin, 0.0, t, t, true), next);
      guests := guests + [GuestRow(1, admin, 0.0, t, t, true)];
      nextGuestId := next;
    }

    /** The provider, the assistant, the two type tables and the init
        record. */
    method SeedTables()
      requires Valid() && !initialized
      modifies this`providers, this`assistants, this`msgTypes, this`contentTypes, this`initialized
      ensures Valid() && initialized
    {
      providers := [DEFAULT_PROVIDER];
      assistants := [DEFAULT_ASSISTANT];
      msgTypes := D.Numbered(MSG_TYPE_NAMES);
      contentTypes := D.Numbered(CONTENT_TYPE_NAMES);
      initialized := true;
    }

    /** `register`: the guest with that name, inserted with no credit when
        there is none yet; a second call returns the same row. */
    method Register(name: string) returns (r: Result<GuestRow, Error>)
      requires Valid()
      modifies this`guests, this`nextGuestId, this`clock
      ensures Valid() && r.Ok?
      ensures GetUser(name) == Ok(Some(r.value))
      ensures old(GetUser(name)).value.Some? ==>
        r.value == old(GetUser(name)).value.value && guests == old(guests)
      ensures old(GetUser(name)).value.None? ==>
        && r.value == GuestRow(old(nextGuestId), name, 0.0, clock, clock, false)
        && guests == old(guests) + [r.value]
    {
      var existing := S.GuestByName(guests, name);
      if existing.Some? {
        return Ok(existing.value);
      }
      var t := Tick();
      var row := GuestRow(nextGuestId, name, 0.0, t, t, false);
      GuestsValidAppend(guests, nextGuestId, clock, row, nextGuestId + 1);
      guests := guests + [row];
      nextGuestId := nextGuestId + 1;
      FirstOnlyLast(guests, (g: GuestRow) => g.name == name);
      r := Ok(row);
    }

    /** `get_user`: the guest with that name, if any. */
    function GetUser(name: string): (r: Result<Option<GuestRow>, Error>)
      reads this
      ensures r.Ok?
      ensures r.value.None? <==> forall i :: 0 <= i < |guests| ==> guests[i].name != name
      ensures r.value.Some? ==> r.value.value in guests && r.value.value.name == name
    {
      S.GuestByNameIn(guests, name);
      Ok(S.GuestByName(guests, name))
    }

    /** `update_user`: add `creditVar` to the stored credit (not to the
        credit of the row passed in), set the admin right and stamp the
        row; a guest whose id is gone is an error. */
    method UpdateUser(user: GuestRow, creditVar: real, asAdmin: bool) returns (r: Result<GuestRow, Error>)
      requires Valid()
      modifies this`guests, this`clock
      ensures Valid()
      ensures r.Ok? <==> old(ById(guests, GuestId, user.id)).Ok?
      ensures r.Err? ==> r.error == Database(S.NO_ROW) && guests == old(guests)
      ensures r.Ok? ==>
        var stored := old(ById(guests, GuestId, user.id)).value;
        && r.value == stored.(credit := stored.credit + creditVar, updatedAt := clock, admin := asAdmin)
        && r.value.createdAt < r.value.updatedAt
        && guests == Replace(old(guests), r.value)
        && GetUser(r.value.name) == Ok(Some(r.value))
    {
      var stored := ById(guests, GuestId, user.id);
      if stored.Err? {
        return Err(stored.error);
      }
      var t := Tick();
      var row := stored.value.(credit := stored.value.credit + creditVar, updatedAt := t, admin := asAdmin);
      ReplaceGuest(guests, nextGuestId, clock - 1, row, t);
      guests := Replace(guests, row);
      r := Ok(row);
    }

    /** `remove_user`: delete the guest with that name and report one
        deleted row, or NotFound when there is no such guest. */
    method RemoveUser(name: string) returns (r: Result<nat, Error>)
      requires Valid()
      modifies this`guests
      ensures Valid()
      ensures r.Err? <==> old(GetUser(name)).value.None?
      ensures r.Err? ==> r.error == NotFound && guests == old(guests)
      ensures r.Ok? ==>
        && r.value == 1
        && guests == Without(old(guests), GuestId, old(GetUser(name)).value.value.id)
        && GetUser(name) == Ok(None)
    {
      var user := S.GuestByName(guests, name);
      if user.None? {
        return Err(NotFound);
      }
      var id := user.value.id;
      RemoveGuestKeeps(guests, nextGuestId, clock, name);
      var before := guests;
      guests := Without(guests, GuestId, id);
      r := Ok(|before| - |guests|);
    }

    /** `get_providers`: the provider table as seeded. */
    function GetProviders(): (r: Result<seq<Provider>, Error>)
      reads this
      requires Valid()
      ensures r == Ok(if initialized then [DEFAULT_PROVIDER] else [])
    {
      Ok(providers)
    }

    /** `get_provider`: the provider with that id. */
    function GetProvider(id: int): (r: Result<Provider, Error>)
      reads this
      requires Valid()
      ensures r.Ok? <==> initialized && id == 1
      ensures r.Ok? ==> r.value == DEFAULT_PROVIDER
      ensures r.Err? ==> r.error == Database(S.NO_ROW)
    {
      ByIdPositional(providers, ProviderId, id);
      ById(providers, ProviderId, id)
    }

    /** `get_assistant`: the assistant with that id. */
    function GetAssistant(id: int): (r: Result<Assistant, Error>)
      reads this
      requires Valid()
      ensures r.Ok? <==> initialized && id == 1
      ensures r.Ok? ==> r.value == DEFAULT_ASSISTANT
      ensures r.Err? ==> r.error == Database(S.NO_ROW)
    {
      ByIdPositional(assistants, AssistantId, id);
      ById(assistants, AssistantId, id)
    }

    /** `get_assistant_by_agent_id`: the first assistant answering in that
        application. */
    function GetAssistantByAgentId(agentId: int): (r: Result<Assistant, Error>)
      reads this
      requires Valid()
      ensures r.Ok? <==> initialized && agentId == DEFAULT_ASSISTANT.agentId
      ensures r.Ok? ==> r.value == DEFAULT_ASSISTANT
      ensures r.Err? ==> r.error == Database(S.NO_ROW)
    {
      FirstIn(assistants, (a: Assistant) => a.agentId == agentId);
      match First(assistants, (a: Assistant) => a.agentId == agentId)
      case None => Err(Database(S.NO_ROW))
      case Some(a) => Ok(a)
    }

    /** `get_msg_types`: the message-type table as seeded. */
    function GetMsgTypes(): (r: Result<seq<D.NamedRow>, Error>)
      reads this
      requires Valid()
      ensures r == Ok(if initialized then D.Numbered(MSG_TYPE_NAMES) else [])
    {
      Ok(msgTypes)
    }

    /** `get_msg_type`: the message type with that id. */
    function GetMsgType(id: int): (r: Result<D.NamedRow, Error>)
      reads this
      requires Valid()
      ensures r.Ok? <==> initialized && 1 <= id <= |MSG_TYPE_NAMES|
      ensures r.Ok? ==> r.value == D.NamedRow(id, MSG_TYPE_NAMES[id - 1])
      ensures r.Err? ==> r.error == Database(S.NO_ROW)
    {
      ByIdPositional(msgTypes, NamedId, id);
      ById(msgTypes, NamedId, id)
    }

    /** `get_msg_type_by_name`: the message type with that name. */
    function GetMsgTypeByName(name: string): (r: Result<D.NamedRow, Error>)
      reads this
      requires Valid()
      ensures r.Ok? <==> initialized && name in MSG_TYPE_NAMES
      ensures r.Ok? ==> 1 <= r.value.id <= |MSG_TYPE_NAMES| && MSG_TYPE_NAMES[r.value.id - 1] == name
      ensures r.Ok? ==> r.value.name == name
      ensures r.Err? ==> r.error == Database(S.NO_ROW)
    {
      ByName(msgTypes, name)
    }

    /** `get_content_types`: the content-type table as seeded. */
    function GetContentTypes(): (r: Result<seq<D.NamedRow>, Error>)
      reads this
      requires Valid()
      ensures r == Ok(if initialized then D.Numbered(CONTENT_TYPE_NAMES) else [])
    {
      Ok(contentTypes)
    }

    /** `get_content_type`: the content type with that id. */
    function GetContentType(id: int): (r: Result<D.NamedRow, Error>)
      reads this
      requires Valid()
      ensures r.Ok? <==> initialized && 1 <= id <= |CONTENT_TYPE_NAMES|
      ensures r.Ok? ==> r.value == D.NamedRow(id, CONTENT_TYPE_NAMES[id - 1])
      ensures r.Err? ==> r.error == Database(S.NO_ROW)
    {
      ByIdPositional(contentTypes, NamedId, id);
      ById(contentTypes, NamedId, id)
    }

    /** `get_content_type_by_name`: the content type with that name. */
    function GetContentTypeByName(name: string): (r: Result<D.NamedRow, Error>)
      reads this
      requires Valid()
      ensures r.Ok? <==> initialized && name in CONTENT_TYPE_NAMES
      ensures r.Ok? ==> 1 <= r.value.id <= |CONTENT_TYPE_NAMES| && CONTENT_TYPE_NAMES[r.value.id - 1] == name
      ensures r.Ok? ==> r.value.name == name
      ensures r.Err? ==> r.error == Database(S.NO_ROW)
    {
      ByName(contentTypes, name)
    }

    /** On a seeded store, looking a type up by name and then by the id
        found gives the same row. */
    lemma TypeLookupsAgree(name: string)
      requires Valid()
      ensures GetMsgTypeByName(name).Ok? ==>
        GetMsgType(GetMsgTypeByName(name).value.id) == GetMsgTypeByName(name)
      ensures GetContentTypeByName(name).Ok? ==>
        GetContentType(GetContentTypeByName(name).value.id) == GetContentTypeByName(name)
    {
      if initialized {
        NameThenId(msgTypes, name);
        NameThenId(contentTypes, name);
      }
    }

    /** `create_conversation`: deactivate every active conversation of the
        guest, then insert an active one with the assistant, both at the
        same time stamp. */
    method CreateConversation(forUser: GuestRow, withAssistant: Assistant)
      returns (r: Result<ConversationRow, Error>)
      requires Valid()
      modifies this`conversations, this`nextConversationId, this`clock
      ensures Valid() && r.Ok?
      ensures r.value == ConversationRow(old(nextConversationId), forUser.id, withAssistant.id, true, clock, clock)
      ensures clock == old(clock) + 1
      ensures conversations == D.DeactivateAll(old(conversations), forUser.id, clock) + [r.value]
      ensures GetActiveConversation(forUser) == Ok(r.value)
    {
      var t := Tick();
      DeactivateKeeps(conversations, nextConversationId, forUser.id, t);
      var deactivated := D.DeactivateAll(conversations, forUser.id, t);
      var row := ConversationRow(nextConversationId, forUser.id, withAssistant.id, true, t, t);
      ConversationsValidAppend(deactivated, nextConversationId, row);
      conversations := deactivated + [row];
      nextConversationId := nextConversationId + 1;
      FirstOnlyLast(conversations, (c: ConversationRow) => D.ActiveOf(c, forUser.id));
      r := Ok(row);
    }

    /** `get_conversation`: the conversation with that id. */
    function GetConversation(id: int): (r: Result<ConversationRow, Error>)
      reads this
      requires Valid()
      ensures r.Err? <==> forall i :: 0 <= i < |conversations| ==> conversations[i].id != id
      ensures r.Err? ==> r.error == Database(S.NO_ROW)
      ensures forall i :: 0 <= i < |conversations| && conversations[i].id == id ==> r == Ok(conversations[i])
    {
      var r := ById(conversations, ConversationId, id);
      assert forall i :: 0 <= i < |conversations| && conversations[i].id == id ==> r == Ok(conversations[i]) by {
        forall i | 0 <= i < |conversations| && conversations[i].id == id ensures r == Ok(conversations[i]) {
          var k :| 0 <= k < |conversations| && conversations[k] == r.value;
        }
      }
      r
    }

    /** `get_active_conversation`: the guest's active conversation, which is
        the only one. */
    function GetActiveConversation(byUser: GuestRow): (r: Result<ConversationRow, Error>)
      reads this
      requires Valid()
      ensures r.Err? <==> forall i :: 0 <= i < |conversations| ==> !D.ActiveOf(conversations[i], byUser.id)
      ensures r.Err? ==> r.error == Database(S.NO_ROW)
      ensures forall i :: 0 <= i < |conversations| && D.ActiveOf(conversations[i], byUser.id) ==>
        r == Ok(conversations[i])
    {
      FirstIn(conversations, (c: ConversationRow) => D.ActiveOf(c, byUser.id));
      var r := match D.ActiveConversationOf(conversations, byUser.id)
        case None => Err(Database(S.NO_ROW))
        case Some(c) => Ok(c);
      assert forall i :: 0 <= i < |conversations| && D.ActiveOf(conversations[i], byUser.id) ==>
        r == Ok(conversations[i]) by {
        forall i | 0 <= i < |conversations| && D.ActiveOf(conversations[i], byUser.id)
          ensures r == Ok(conversations[i])
        {
          var k :| 0 <= k < |conversations| && conversations[k] == r.value;
        }
      }
      r
    }

    /** `remove_conversation`: delete the conversation with that id and
        report how many rows went (one or none). Its messages stay. */
    method RemoveConversation(id: int) returns (r: Result<nat, Error>)
      requires Valid()
      modifies this`conversations
      ensures Valid()
      ensures r == Ok(if old(GetConversation(id)).Ok? then 1 else 0)
      ensures conversations == Without(old(conversations), ConversationId, id)
      ensures GetConversation(id).Err?
    {
      DeleteCount(conversations, ConversationId, ConversationsApart, id);
      RemoveConversationKeeps(conversations, nextConversationId, id, 0);
      var before := conversations;
      conversations := Without(conversations, ConversationId, id);
      r := Ok(|before| - |conversations|);
    }

    /** `create_message`: store a message of the conversation with the given
        type ids, cost and token counts, stamped now. */
    method CreateMessage(conversation: ConversationRow, msgRole: D.NamedRow, content: string,
                         contentType: D.NamedRow, creditCost: real, promptTokens: int,
                         completionTokens: int)
      returns (r: Result<MessageRow, Error>)
      requires Valid()
      modifies this`messages, this`nextMessageId, this`clock
      ensures Valid() && r.Ok?
      ensures r.value == MessageRow(old(nextMessageId), conversation.id, clock, content, creditCost, msgRole.id,
                                    contentType.id, promptTokens, completionTokens)
      ensures forall i :: 0 <= i < |old(messages)| ==> old(messages)[i].id < r.value.id
      ensures messages == old(messages) + [r.value]
      ensures GetMessagesByConversation(conversation) ==
        Ok(old(GetMessagesByConversation(conversation)).value + [r.value])
    {
      var t := Tick();
      var row := MessageRow(nextMessageId, conversation.id, t, content, creditCost, msgRole.id,
                            contentType.id, promptTokens, completionTokens);
      ghost var before := messages;
      InsertMessage(row);
      MessagesOfAppend(before, row);
      r := Ok(row);
    }

    /** The insert itself: the row goes at the end of the message table. */
    method InsertMessage(row: MessageRow)
      requires Valid() && row.id == nextMessageId && row.createdAt == clock
      modifies this`messages, this`nextMessageId
      ensures Valid()
      ensures messages == old(messages) + [row] && nextMessageId == old(nextMessageId) + 1
    {
      MessagesValidAppend(messages, nextMessageId, clock, row);
      messages := messages + [row];
      nextMessageId := nextMessageId + 1;
    }

    /** `get_messages_by_conversation`: the conversation's messages by
        creation time. */
    function GetMessagesByConversation(conv: ConversationRow): (r: Result<seq<MessageRow>, Error>)
      reads this
      ensures r.Ok?
      ensures SortedBy(r.value, S.CreatedAt)
      ensures forall i :: 0 <= i < |r.value| ==> r.value[i] in messages && r.value[i].conversationId == conv.id
      ensures forall i :: 0 <= i < |messages| && messages[i].conversationId == conv.id ==> messages[i] in r.value
      ensures multiset(r.value) == multiset(Filter(messages, (m: MessageRow) => m.conversationId == conv.id))
    {
      Ok(MessagesOf(messages, conv.id))
    }

    /** `remove_message`: delete the message with that id and report how
        many rows went (one or none). */
    method RemoveMessage(id: int) returns (r: Result<nat, Error>)
      requires Valid()
      modifies this`messages
      ensures Valid()
      ensures r == Ok(if old(ById(messages, MessageId, id)).Ok? then 1 else 0)
      ensures messages == Without(old(messages), MessageId, id)
    {
      DeleteCount(messages, MessageId, MessagesApart, id);
      MessagesValidRemove(messages, nextMessageId, clock, id);
      var before := messages;
      messages := Without(messages, MessageId, id);
      r := Ok(|before| - |messages|);
    }
  }

  /** With no active conversation left for a guest, asking for one fails;
      deleting a guest's active conversation leaves it none. */
  lemma RemovingActiveLeavesNone(cs: seq<ConversationRow>, nextId: int, id: int, guestId: int)
    requires ConversationsValid(cs, nextId)
    requires D.ActiveConversationOf(cs, guestId).Some? && D.ActiveConversationOf(cs, guestId).value.id == id
    ensures D.ActiveConversationOf(Without(cs, ConversationId, id), guestId).None?
  {
    RemoveConversationKeeps(cs, nextId, id, guestId);
  }
}
