/**
 * Client code that drives the endpoints through their contracts only, the
 * way a caller of app/api_routes.py would: a revert and its undo, the prompt
 * history of one chatbot, a fresh anonymous session, a run of anonymous
 * requests and an authenticated caller on the anonymous endpoint.
 */
module Scenarios {
  import opened Wrappers
  import opened Conversation
  import opened Completion
  import opened Quota
  import opened Store
  import opened Http

  /**
   * Revert to some version, then back to the version that was current before:
   * the chatbot table ends exactly as it started, and if the first revert
   * succeeded the second one does too.
   */
  method RevertAndBack(db: Database, chatbotId: int, versionId: int, caller: int) returns (first: Reply, second: Reply)
    requires db.Valid()
    modifies db
    ensures db.Valid()
    ensures db.chatbots == old(db.chatbots) && db.versions == old(db.versions)
    ensures first.success ==> second == Reply(STATUS_OK, true)
  {
    var back := if chatbotId in db.chatbots then db.chatbots[chatbotId].latestVersionId else versionId;
    var version;
    first, version := db.RevertChatbot(chatbotId, versionId, caller);
    second, version := db.RevertChatbot(chatbotId, back, caller);
  }

  /**
   * A chatbot created with "You are helpful", updated to "You are sarcastic" and
   * reverted to its first version: the next chat turn's system entry is
   * "You are helpful" again, and the turn is stored.
   */
  method PromptHistoryScenario() returns (systemEntry: Message, stored: nat)
    ensures systemEntry == Message(System, "You are helpful")
    ensures stored == 1
  {
    var db := new Database(map[1 := Store.User("alice", 0)], "user");
    var created, id := db.CreateChatbot(1, "Helper", "You are helpful", "general");
    var first := db.chatbots[id].latestVersionId;
    var updated := db.UpdateChatbot(id, 1, "Helper", "You are sarcastic", "general");
    assert db.CurrentPrompt(id) == "You are sarcastic";
    var reverted, version := db.RevertChatbot(id, first, 1);
    assert db.CurrentPrompt(id) == "You are helpful";
    var service := new CompletionService(request => Some("Happy to help."));
    var reply, response, history := db.ChatbotRequest(id, 1, Post, "Hello", "key", "engine", service);
    systemEntry := service.requests[0].messages[0];
    stored := |db.chats|;
  }

  /**
   * Six requests from a fresh anonymous session: the first five are answered,
   * the sixth gets 429 and the completion service sees only five requests.
   */
  method FreshAnonymousSession() returns (statuses: seq<nat>, calls: nat)
    ensures statuses == [200, 200, 200, 200, 200, 429]
    ensures calls == 5
  {
    var session := new AnonymousSession();
    var service := new CompletionService(request => Some("Hi."));
    statuses := [];
    var status, answer, sent := AnonymousChatbot(session, service, false, [], "one", "key", "engine", "t1");
    statuses := statuses + [status];
    status, answer, sent := AnonymousChatbot(session, service, false, [], "two", "key", "engine", "t2");
    statuses := statuses + [status];
    status, answer, sent := AnonymousChatbot(session, service, false, [], "three", "key", "engine", "t3");
    statuses := statuses + [status];
    status, answer, sent := AnonymousChatbot(session, service, false, [], "four", "key", "engine", "t4");
    statuses := statuses + [status];
    status, answer, sent := AnonymousChatbot(session, service, false, [], "five", "key", "engine", "t5");
    statuses := statuses + [status];
    status, answer, sent := AnonymousChatbot(session, service, false, [], "six", "key", "engine", "t6");
    statuses := statuses + [status];
    calls := |service.requests|;
  }

  /**
   * One unauthenticated request per query, each with an empty history: the
   * session counter follows `CountAfter`, and request k is answered 429 exactly
   * when `Verdicts` rejects it; every other request is answered 200.
   */
  method AnonymousRun(session: AnonymousSession, service: CompletionService, queries: seq<string>)
    returns (statuses: seq<nat>)
    modifies session, service
    ensures |statuses| == |queries| == |Verdicts(old(session.messageCount), |queries|)|
    ensures session.messageCount == CountAfter(old(session.messageCount), |queries|)
    ensures forall k :: 0 <= k < |queries| ==>
      (statuses[k] == STATUS_TOO_MANY_REQUESTS <==> !Verdicts(old(session.messageCount), |queries|)[k])
    ensures forall k :: 0 <= k < |queries| ==> statuses[k] in {STATUS_OK, STATUS_TOO_MANY_REQUESTS}
  {
    ghost var start := old(session.messageCount);
    VerdictsOfRequests(start, |queries|);
    CountAfterRequests(start, |queries|);
    statuses := [];
    var i := 0;
    while i < |queries|
      invariant 0 <= i <= |queries| && |statuses| == i
      invariant session.messageCount == CountAfter(start, i)
      invariant forall k :: 0 <= k < i ==>
        (statuses[k] == STATUS_TOO_MANY_REQUESTS <==> start.GetOr(0) + k + 1 > ANONYMOUS_MESSAGE_LIMIT)
      invariant forall k :: 0 <= k < i ==> statuses[k] in {STATUS_OK, STATUS_TOO_MANY_REQUESTS}
    {
      CountAfterRequests(start, i);
      CountAfterRequests(start, i + 1);
      var status, answer, sent := AnonymousChatbot(session, service, false, [], queries[i], "key", "engine", "now");
      statuses := statuses + [status];
      i := i + 1;
    }
  }

  /** An authenticated caller is never stopped by the quota and its session count never moves. */
  method AuthenticatedBypassesQuota(session: AnonymousSession, service: CompletionService, prev: seq<Turn>, query: string)
    returns (status: nat)
    modifies session, service
    ensures status == STATUS_OK
    ensures session.messageCount == old(session.messageCount)
  {
    var answer, sent;
    status, answer, sent := AnonymousChatbot(session, service, true, prev, query, "key", "engine", "now");
  }
}
