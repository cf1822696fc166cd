/** Core entities of the reception generation (src/reception/core.rs):
    roles, content types, messages, conversations and their running totals
    of cost and tokens. */
module ReceptionCore {

  import opened Common

  /** Who sent a message; Supplementary covers every other role. */
  datatype MessageRole = System | User | Assistant | Supplementary

  datatype ContentType = Text | Image | Audio | Video | File

  /** A message with the credit it cost and the tokens it consumed. */
  datatype Message = Message(content: string, role: MessageRole, cost: real, tokens: nat)

  datatype Conversation = Conversation(content: seq<Message>)

  /** A human end user; a negative credit is an overdraft. */
  datatype Guest = Guest(name: string, credit: real, admin: bool)

  /** An assistant and the WeCom application it answers in. */
  datatype Assistant = Assistant(name: string, agentId: nat)

  /** `fold(0.0, |acc, x| acc + x.cost)` over the messages, first to last. */
  function CostOf(ms: seq<Message>): real
  {
    RealSum(ms, MessageCost)
  }

  function MessageCost(m: Message): real { m.cost }

  /** `fold(0, |acc, x| acc + x.tokens)` over the messages, first to last. */
  function TokensOf(ms: seq<Message>): nat
  {
    if ms == [] then 0 else TokensOf(ms[..|ms| - 1]) + ms[|ms| - 1].tokens
  }

  /** `Conversation::cost`. */
  function Cost(c: Conversation): real
  {
    CostOf(c.content)
  }

  /** `Conversation::tokens`. */
  function Tokens(c: Conversation): nat
  {
    TokensOf(c.content)
  }

  /** The cost of two stretches of messages is the sum of their costs. */
  lemma {:induction false} CostAppend(a: seq<Message>, b: seq<Message>)
    ensures CostOf(a + b) == CostOf(a) + CostOf(b)
  {
    RealSumAppend(a, b, MessageCost);
  }

  /** The tokens of two stretches of messages add up. */
  lemma {:induction false} TokensAppend(a: seq<Message>, b: seq<Message>)
    ensures TokensOf(a + b) == TokensOf(a) + TokensOf(b)
  {
    if b == [] {
      assert a + b == a;
    } else {
      assert (a + b)[..|a + b| - 1] == a + b[..|b| - 1];
      TokensAppend(a, b[..|b| - 1]);
    }
  }

  /** Every message's tokens are counted in the conversation's total. */
  lemma {:induction false} TokensCoverEach(ms: seq<Message>, i: nat)
    requires i < |ms|
    ensures ms[i].tokens <= TokensOf(ms)
  {
    if i < |ms| - 1 {
      TokensCoverEach(ms[..|ms| - 1], i);
    }
  }

  /** A conversation whose messages all cost nothing costs nothing, and one
      whose messages cost nothing negative has a non-negative cost. */
  lemma {:induction false} CostNonNegative(ms: seq<Message>)
    requires forall i :: 0 <= i < |ms| ==> ms[i].cost >= 0.0
    ensures CostOf(ms) >= 0.0
    ensures (forall i :: 0 <= i < |ms| ==> ms[i].cost == 0.0) ==> CostOf(ms) == 0.0
  {
    if ms != [] {
      CostNonNegative(ms[..|ms| - 1]);
    }
  }
}
