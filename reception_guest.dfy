/** The in-memory guest of the reception generation
    (src/reception/guest.rs): a history of messages, the index where the
    active conversation starts, and a credit that every appended message
    debits. The wall clock and the UUID generator are parameters. */
module ReceptionGuest {

  import opened Common

  datatype MessageRole = System | User | Assistant

  /** A message of the history; `timestamp` is in seconds since the Unix
      epoch. The accessors `role`, `content` and `cost` are its fields. */
  datatype Message = Message(
    content: string, embedding: Option<seq<byte>>, cost: real, timestamp: real, role: MessageRole)

  /** `SystemTimeError`: the clock reads `behind` seconds before the epoch. */
  datatype TimeError = TimeError(behind: real)

  /** `SystemTime::now().duration_since(UNIX_EPOCH)` for a clock reading
      `now` (seconds, negative before the epoch). */
  function SinceEpoch(now: real): (r: Result<real, TimeError>)
    ensures r.Ok? <==> now >= 0.0
    ensures r.Ok? ==> r.value == now
    ensures r.Err? ==> r.error.behind > 0.0 && now + r.error.behind == 0.0
  {
    if now >= 0.0 then Ok(now) else Err(TimeError(-now))
  }

  /** `Message::new`: stamp a message with the current time. */
  function NewMessage(content: string, embedding: Option<seq<byte>>, cost: real, role: MessageRole,
                      now: real): (r: Result<Message, TimeError>)
    ensures r.Err? <==> now < 0.0
    ensures r.Ok? ==>
      r.value.content == content && r.value.embedding == embedding && r.value.cost == cost &&
      r.value.role == role && r.value.timestamp == now
  {
    match SinceEpoch(now)
    case Err(e) => Err(e)
    case Ok(t) => Ok(Message(content, embedding, cost, t, role))
  }

  /** A borrowed run of messages. */
  datatype Conversation = Conversation(messages: seq<Message>)

  /** `Conversation::len`. */
  function Len(c: Conversation): nat
  {
    |c.messages|
  }

  function MessageCost(m: Message): real { m.cost }

  /** The summed cost of the messages, folded first to last. */
  function CostOf(ms: seq<Message>): real
  {
    RealSum(ms, MessageCost)
  }

  /** `Conversation::cost`. */
  function Cost(c: Conversation): real
  {
    CostOf(c.messages)
  }

  class Guest {
    const id: string
    const name: string
    var credit: real
    const createTime: real
    var history: seq<Message>
    var activeIndex: nat
    /** The credit the guest was created with. */
    ghost const openingCredit: real

    /** The active conversation starts inside the history, and the credit is
        the opening credit less the cost of every message so far. */
    ghost predicate Valid()
      reads this
    {
      activeIndex <= |history| && credit == openingCredit - CostOf(history)
    }

    constructor (id: string, name: string, credit: real, createTime: real)
      ensures Valid()
      ensures this.id == id && this.name == name && this.credit == credit
      ensures this.createTime == createTime && history == [] && activeIndex == 0
      ensures openingCredit == credit
    {
      this.id := id;
      this.name := name;
      this.credit := credit;
      this.createTime := createTime;
      this.history := [];
      this.activeIndex := 0;
      this.openingCredit := credit;
    }

    /** `Guest::new`: a guest with an empty history, or the clock error. */
    static method New(name: string, credit: real, uuid: string, now: real)
      returns (r: Result<Guest, TimeError>)
      ensures r.Err? <==> now < 0.0
      ensures r.Ok? ==>
        && fresh(r.value) && r.value.Valid()
        && r.value.id == uuid && r.value.name == name && r.value.credit == credit
        && r.value.createTime == now && r.value.history == [] && r.value.activeIndex == 0
    {
      var t := SinceEpoch(now);
      if t.Err? {
        return Err(t.error);
      }
      var g := new Guest(uuid, name, credit, t.value);
      r := Ok(g);
    }

    /** `get_conversation`: the messages after the active index. The
        history is the closed messages followed by this conversation. */
    function GetConversation(): (c: Conversation)
      reads this
      requires Valid()
      ensures history == history[..activeIndex] + c.messages
      ensures Len(c) == |history| - activeIndex
    {
      Conversation(history[activeIndex..])
    }

    /** `close_conversation`: the active conversation becomes empty; the
        history and the credit are kept. */
    method CloseConversation()
      requires Valid()
      modifies this`activeIndex
      ensures Valid()
      ensures GetConversation().messages == []
      ensures history == old(history) && credit == old(credit)
    {
      activeIndex := |history|;
    }

    /** `append_message`: record the message in the active conversation and
        debit its cost; the cost of what was spent stays in step with the
        credit. */
    method AppendMessage(msg: Message)
      requires Valid()
      modifies this`history, this`credit
      ensures Valid()
      ensures history == old(history) + [msg]
      ensures GetConversation().messages == old(GetConversation().messages) + [msg]
      ensures credit == old(credit) - msg.cost
      ensures Cost(GetConversation()) == old(Cost(GetConversation())) + msg.cost
    {
      RealSumAppend(history, [msg], MessageCost);
      RealSumAppend(history[activeIndex..], [msg], MessageCost);
      assert (history + [msg])[activeIndex..] == history[activeIndex..] + [msg];
      history := history + [msg];
      credit := credit - msg.cost;
    }

    /** The credit spent on the active conversation is its cost. */
    lemma SpentOnActive()
      requires Valid()
      ensures credit == openingCredit - CostOf(history[..activeIndex]) - Cost(GetConversation())
    {
      RealSumAppend(history[..activeIndex], history[activeIndex..], MessageCost);
      assert history[..activeIndex] + history[activeIndex..] == history;
    }
  }
}
