/**
 * The external completion service (`chat_with_chatbot`), seen only at its
 * interface: it maps the message list, the API key and the engine name to an
 * optional reply. The service object keeps a log of the requests it received,
 * so that "the service was not called" can be stated as "the log is unchanged".
 */
module Completion {
  import opened Wrappers
  import opened Conversation

  /** One call of the completion service. */
  datatype Request = Request(messages: seq<Message>, apikey: string, engine: string)

  class CompletionService {
    /** What the service replies to a request; `None` when it fails. */
    const answer: Request -> Option<string>
    /** Every request received so far, oldest first. */
    var requests: seq<Request>

    constructor (answer: Request -> Option<string>)
      ensures this.answer == answer && requests == []
    {
      this.answer := answer;
      requests := [];
    }

    method Complete(messages: seq<Message>, apikey: string, engine: string) returns (reply: Option<string>)
      modifies this
      ensures requests == old(requests) + [Request(messages, apikey, engine)]
      ensures reply == answer(Request(messages, apikey, engine))
    {
      requests := requests + [Request(messages, apikey, engine)];
      reply := answer(Request(messages, apikey, engine));
    }
  }
}
