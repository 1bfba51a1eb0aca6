/**
 * The anonymous-usage quota of `api_anonymous_chatbot`
 * (app/api_routes.py:411-458): an unauthenticated caller's session counts its
 * requests, the count being created at 0 on first use and raised by one on
 * every unauthenticated request, and a request whose raised count exceeds the
 * limit is answered 429 before the completion service is called.
 */
module Quota {
  import opened Wrappers
  import opened Conversation
  import opened Completion
  import opened Http

  const ANONYMOUS_MESSAGE_LIMIT: nat := 5

  /** The session counter after one more unauthenticated request. */
  function NextCount(count: Option<nat>): (next: nat)
    ensures count.None? ==> next == 1
    ensures count.Some? ==> next == count.value + 1
  {
    count.GetOr(0) + 1
  }

  /** The session counter after `n` more unauthenticated requests. */
  function CountAfter(count: Option<nat>, n: nat): Option<nat>
    decreases n
  {
    if n == 0 then count else CountAfter(Some(NextCount(count)), n - 1)
  }

  /** For each of `n` consecutive unauthenticated requests, whether it gets past the quota. */
  function Verdicts(count: Option<nat>, n: nat): seq<bool>
    decreases n
  {
    if n == 0 then []
    else [NextCount(count) <= ANONYMOUS_MESSAGE_LIMIT] + Verdicts(Some(NextCount(count)), n - 1)
  }

  /** Every request, admitted or rejected, raises the counter by exactly one. */
  lemma {:induction false} CountAfterRequests(count: Option<nat>, n: nat)
    ensures CountAfter(count, n) == if n == 0 then count else Some(count.GetOr(0) + n)
    decreases n
  {
    if n > 0 {
      CountAfterRequests(Some(NextCount(count)), n - 1);
    }
  }

  /** Request k (from 0) of a run is admitted iff the counter it raises is at most the limit. */
  lemma {:induction false} VerdictsOfRequests(count: Option<nat>, n: nat)
    ensures |Verdicts(count, n)| == n
    ensures forall k :: 0 <= k < n ==> (Verdicts(count, n)[k] <==> count.GetOr(0) + k + 1 <= ANONYMOUS_MESSAGE_LIMIT)
    decreases n
  {
    if n > 0 {
      VerdictsOfRequests(Some(NextCount(count)), n - 1);
      var tail := Verdicts(Some(NextCount(count)), n - 1);
      assert Verdicts(count, n) == [NextCount(count) <= ANONYMOUS_MESSAGE_LIMIT] + tail;
      forall k | 1 <= k < n
        ensures Verdicts(count, n)[k] <==> count.GetOr(0) + k + 1 <= ANONYMOUS_MESSAGE_LIMIT
      {
        assert Verdicts(count, n)[k] == tail[k - 1];
      }
    }
  }

  /**
   * A fresh session: after n requests the counter is n; requests 1 to 5 are
   * admitted and every later one is rejected.
   */
  lemma FreshSession(n: nat)
    ensures CountAfter(None, n) == if n == 0 then None else Some(n)
    ensures |Verdicts(None, n)| == n
    ensures forall k :: 0 <= k < n ==> (Verdicts(None, n)[k] <==> k < ANONYMOUS_MESSAGE_LIMIT)
  {
    CountAfterRequests(None, n);
    VerdictsOfRequests(None, n);
  }

  /** Once a request is rejected, every later request of the session is rejected too. */
  lemma RejectionIsPermanent(count: Option<nat>, n: nat, j: nat, k: nat)
    requires j <= k < n
    ensures |Verdicts(count, n)| == n
    ensures !Verdicts(count, n)[j] ==> !Verdicts(count, n)[k]
  {
    VerdictsOfRequests(count, n);
  }

  /** The session dictionary's two quota entries. */
  class AnonymousSession {
    /** `session["anonymous_message_count"]`; `None` while the key is absent. */
    var messageCount: Option<nat>
    /** `session["first_message_time"]`, the ISO time of the first anonymous request. */
    var firstMessageTime: Option<string>

    constructor ()
      ensures messageCount == None && firstMessageTime == None
    {
      messageCount := None;
      firstMessageTime := None;
    }

    /** Create the counter at 0 (noting the time) if absent, then add one. */
    method CountRequest(now: string) returns (count: nat)
      modifies this
      ensures count == NextCount(old(messageCount)) && messageCount == Some(count)
      ensures firstMessageTime == if old(messageCount).None? then Some(now) else old(firstMessageTime)
    {
      if messageCount.None? {
        messageCount := Some(0);
        firstMessageTime := Some(now);
      }
      count := messageCount.value + 1;
      messageCount := Some(count);
    }
  }

  /**
   * `api_anonymous_chatbot`. `authenticated` is what the optional JWT check
   * found; `now` stands for `datetime.now().isoformat()`. The reply is 200 with
   * whatever the service answered (even nothing) and the assembled context as
   * the updated history, or 429 without any call of the service.
   */
  method AnonymousChatbot(session: AnonymousSession, service: CompletionService, authenticated: bool,
                          prev: seq<Turn>, query: string, apikey: string, engine: string, now: string)
    returns (status: nat, response: Option<string>, updatedChats: seq<Message>)
    modifies session, service
    ensures authenticated ==>
      session.messageCount == old(session.messageCount) && session.firstMessageTime == old(session.firstMessageTime)
    ensures !authenticated ==> session.messageCount == Some(NextCount(old(session.messageCount)))
    ensures !authenticated ==>
      session.firstMessageTime == if old(session.messageCount).None? then Some(now) else old(session.firstMessageTime)
    ensures status == STATUS_TOO_MANY_REQUESTS <==>
      !authenticated && NextCount(old(session.messageCount)) > ANONYMOUS_MESSAGE_LIMIT
    ensures status == STATUS_TOO_MANY_REQUESTS ==>
      service.requests == old(service.requests) && response == None && updatedChats == []
    ensures status != STATUS_TOO_MANY_REQUESTS ==>
      && status == STATUS_OK
      && updatedChats == AnonymousContext(prev, query)
      && service.requests == old(service.requests) + [Request(updatedChats, apikey, engine)]
      && response == service.answer(Request(updatedChats, apikey, engine))
  {
    if !authenticated {
      var count := session.CountRequest(now);
      if count > ANONYMOUS_MESSAGE_LIMIT {
        return STATUS_TOO_MANY_REQUESTS, None, [];
      }
    }
    updatedChats := BuildAnonymousContext(prev, query);
    response := service.Complete(updatedChats, apikey, engine);
    status := STATUS_OK;
  }
}
