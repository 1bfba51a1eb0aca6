/**
 * Conversation-context assembly: the ordered message list handed to the
 * completion service, built by `api_chatbot` (app/api_routes.py:316-322) from
 * the stored turns and by `api_anonymous_chatbot` (app/api_routes.py:443-448)
 * from the turns the client sends back.
 */
module Conversation {

  datatype Role = System | User | Assistant

  /** One `{"role": ..., "content": ...}` entry. */
  datatype Message = Message(role: Role, content: string)

  /** One exchange: the user's query and the assistant's response. */
  datatype Turn = Turn(userQuery: string, response: string)

  /** The user/assistant pair for each turn, oldest turn first. */
  function Exchanges(turns: seq<Turn>): (messages: seq<Message>)
    ensures |messages| == 2 * |turns|
  {
    if turns == [] then []
    else
      var last := turns[|turns| - 1];
      Exchanges(turns[..|turns| - 1]) + [Message(User, last.userQuery), Message(Assistant, last.response)]
  }

  /** The context of an authenticated chat turn: the prompt, the history, the new query. */
  function AuthenticatedContext(prompt: string, turns: seq<Turn>, query: string): (messages: seq<Message>)
    ensures |messages| == 2 * |turns| + 2
    ensures messages[0] == Message(System, prompt) && messages[|messages| - 1] == Message(User, query)
    ensures messages[1..|messages| - 1] == Exchanges(turns)
  {
    [Message(System, prompt)] + Exchanges(turns) + [Message(User, query)]
  }

  /** The context of an anonymous chat turn: like the authenticated one, without the prompt. */
  function AnonymousContext(turns: seq<Turn>, query: string): (messages: seq<Message>)
    ensures |messages| == 2 * |turns| + 1
    ensures messages[|messages| - 1] == Message(User, query)
    ensures messages[..|messages| - 1] == Exchanges(turns)
  {
    Exchanges(turns) + [Message(User, query)]
  }

  lemma ExchangesSnoc(turns: seq<Turn>, t: Turn)
    ensures Exchanges(turns + [t]) == Exchanges(turns) + [Message(User, t.userQuery), Message(Assistant, t.response)]
  {
    assert (turns + [t])[..|turns|] == turns;
  }

  /** Entries 2i and 2i+1 of the history are the query and the response of turn i. */
  lemma {:induction false} ExchangesAt(turns: seq<Turn>, i: nat)
    requires i < |turns|
    ensures Exchanges(turns)[2 * i] == Message(User, turns[i].userQuery)
    ensures Exchanges(turns)[2 * i + 1] == Message(Assistant, turns[i].response)
  {
    var front := turns[..|turns| - 1];
    if i < |turns| - 1 {
      ExchangesAt(front, i);
      assert front[i] == turns[i];
    }
  }

  /** No entry of the history is a system entry. */
  lemma {:induction false} ExchangesHaveNoSystemEntry(turns: seq<Turn>)
    ensures forall k :: 0 <= k < |Exchanges(turns)| ==> Exchanges(turns)[k].role != System
  {
    forall k | 0 <= k < |Exchanges(turns)| ensures Exchanges(turns)[k].role != System {
      ExchangesAt(turns, k / 2);
      assert k == 2 * (k / 2) || k == 2 * (k / 2) + 1;
    }
  }

  /**
   * The loop of `api_chatbot`: 2N+2 entries for N turns, the system entry first,
   * each turn's query and response in stored order, and the new query last.
   */
  method BuildAuthenticatedContext(prompt: string, turns: seq<Turn>, query: string) returns (messages: seq<Message>)
    ensures messages == AuthenticatedContext(prompt, turns, query)
    ensures |messages| == 2 * |turns| + 2
    ensures messages[0] == Message(System, prompt)
    ensures forall i :: 0 <= i < |turns| ==>
      messages[2 * i + 1] == Message(User, turns[i].userQuery) && messages[2 * i + 2] == Message(Assistant, turns[i].response)
    ensures messages[|messages| - 1] == Message(User, query)
  {
    messages := [Message(System, prompt)];
    var k := 0;
    while k < |turns|
      invariant 0 <= k <= |turns|
      invariant messages == [Message(System, prompt)] + Exchanges(turns[..k])
    {
      ExchangesSnoc(turns[..k], turns[k]);
      assert turns[..k + 1] == turns[..k] + [turns[k]];
      messages := messages + [Message(User, turns[k].userQuery)];
      messages := messages + [Message(Assistant, turns[k].response)];
      k := k + 1;
    }
    assert turns[..k] == turns;
    messages := messages + [Message(User, query)];
    forall i | 0 <= i < |turns|
      ensures messages[2 * i + 1] == Message(User, turns[i].userQuery)
      ensures messages[2 * i + 2] == Message(Assistant, turns[i].response)
    {
      ExchangesAt(turns, i);
    }
  }

  /**
   * The loop of `api_anonymous_chatbot`: 2N+1 entries for N client-supplied
   * turns, no system entry, each turn's pair in the order given, the new query last.
   */
  method BuildAnonymousContext(turns: seq<Turn>, query: string) returns (messages: seq<Message>)
    ensures messages == AnonymousContext(turns, query)
    ensures |messages| == 2 * |turns| + 1
    ensures forall k :: 0 <= k < |messages| ==> messages[k].role != System
    ensures forall i :: 0 <= i < |turns| ==>
      messages[2 * i] == Message(User, turns[i].userQuery) && messages[2 * i + 1] == Message(Assistant, turns[i].response)
    ensures messages[|messages| - 1] == Message(User, query)
  {
    messages := [];
    var k := 0;
    while k < |turns|
      invariant 0 <= k <= |turns|
      invariant messages == Exchanges(turns[..k])
    {
      ExchangesSnoc(turns[..k], turns[k]);
      assert turns[..k + 1] == turns[..k] + [turns[k]];
      messages := messages + [Message(User, turns[k].userQuery)];
      messages := messages + [Message(Assistant, turns[k].response)];
      k := k + 1;
    }
    assert turns[..k] == turns;
    ExchangesHaveNoSystemEntry(turns);
    messages := messages + [Message(User, query)];
    forall i | 0 <= i < |turns|
      ensures messages[2 * i] == Message(User, turns[i].userQuery)
      ensures messages[2 * i + 1] == Message(Assistant, turns[i].response)
    {
      ExchangesAt(turns, i);
    }
  }
}
