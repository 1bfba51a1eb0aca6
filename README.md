# bot-verse: chatbot conversations, prompt versions and the anonymous quota

A Dafny model of the chat and versioning core of bot-verse's Flask API
(`app/api_routes.py`). There, users write chatbots whose system prompt has a
version history, chat with them, and can try the anonymous chat a limited
number of times per browser session. The model covers:

- **Conversation assembly** (`Conversation`). The message list sent to the
  completion service. For a signed-in user it is the current prompt as a system
  entry, then a user/assistant pair for each stored turn, then the new query.
  For an anonymous caller it is the same list without the system entry, built
  from turns the client sends back. Both are the loops of the source, proved
  against a recursive specification.
- **The anonymous quota** (`Quota`). The session counter is created at 0 and
  raised by one on every unauthenticated request. A request that raises it
  above `ANONYMOUS_MESSAGE_LIMIT = 5` gets 429 and never reaches the completion
  service.
- **The completion service** (`Completion`). An object with an opaque answer
  function and a log of the requests it received. "Not called" therefore means
  "log unchanged".
- **The database and the authenticated endpoints** (`Store`). Chatbots,
  versions, chats, images and users are class fields. The class has:
  - chat (`api_chatbot`), with its access rule and with a turn stored only on a
    non-empty reply;
  - clearing a history;
  - creating, updating, reverting, deleting and publishing.

  `Database.Valid()` is the invariant that every chatbot's current-version
  pointer refers to one of its own versions, and every endpoint preserves it.
- **Dashboard helpers** (`Dashboard`): the queue-name whitelist and the
  contribution-score formula.
- **The password rule** (`Passwords`): `is_strong_password`.
- **Client scenarios** (`Scenarios`). These drive the endpoints only through
  their contracts: a revert and its undo, a prompt update then revert followed by
  a chat turn, six anonymous requests, a run of any number of anonymous
  requests, and an authenticated caller on the anonymous endpoint.

Points where the code behaves differently from what one might expect; the model follows the code:

- The anonymous endpoint answers 200 with `"success": True` even when the
  completion service returns nothing. It has no separate completion-failure
  reply.
- The anonymous context has 2N+1 entries, not 2N+2, because it has no system
  entry.
- A refused update answers status 200 with `success` false, not an error status.
- A request whose JWT names no existing user makes the handler dereference
  `None`. The model answers `UNHANDLED_ERROR` (500) and changes nothing. Revert
  uses the JWT identity directly, so it has no such case.

Identity comes from the JWT layer. It is a user id for the authenticated
endpoints and a boolean `authenticated` for the anonymous one.
`datetime.now().isoformat()` is the parameter `now`. The request's API key and
engine are passed through to the service unchanged.

## Model

| member | source | states |
|---|---|---|
| `Passwords.InClass` | app/api_routes.py:47-50 | membership of `[A-Z]`, `[a-z]`, `[0-9]` or the twenty-character special class; every class holds only visible ASCII characters, and no special character is a letter or a digit |
| `Passwords.Search` | app/api_routes.py:47-50 | true iff some character of the string belongs to the class (one `re.search` over a one-character class) |
| `Passwords.IsStrongPassword` | app/api_routes.py:43-53 | true iff the length is at least 8 and there is an upper-case letter, a lower-case letter, a digit and one of the twenty special characters |
| `Passwords.StrongExample` | app/api_routes.py:43-53 | "Secret#42" satisfies the rule |
| `Passwords.BackslashIsNotSpecial` | app/api_routes.py:50 | a backslash is not one of the special characters (`\"` in the class is an escaped quote), so "Secret\\42" fails |
| `Conversation.Exchanges` | app/api_routes.py:319-321 | the history part has exactly two entries per turn |
| `Conversation.ExchangesSnoc` | app/api_routes.py:319-321 | one more turn appends exactly its user entry and then its assistant entry |
| `Conversation.ExchangesAt` | app/api_routes.py:319-321 | entry 2i is turn i's query as a user entry and entry 2i+1 its response as an assistant entry |
| `Conversation.ExchangesHaveNoSystemEntry` | app/api_routes.py:445-447 | no history entry has the system role |
| `Conversation.AuthenticatedContext` | app/api_routes.py:316-322 | 2N+2 entries: the system entry with the prompt first, the new query last as a user entry, and the turns' user/assistant pairs in between |
| `Conversation.AnonymousContext` | app/api_routes.py:443-448 | 2N+1 entries: the turns' user/assistant pairs followed by the new query as a user entry |
| `Conversation.BuildAuthenticatedContext` | app/api_routes.py:316-322 | 2N+2 entries: the system prompt first, entry 2i+1 the query and 2i+2 the response of turn i in stored order, the new query last as a user entry |
| `Conversation.BuildAnonymousContext` | app/api_routes.py:443-448 | 2N+1 entries with no system entry: entry 2i the query and 2i+1 the response of client turn i, the new query last |
| `Completion.CompletionService.constructor` | app/api_routes.py:324 | a service with the given answer function and an empty request log |
| `Completion.CompletionService.Complete` | app/api_routes.py:324 | logs exactly this request and returns the service's answer to it |
| `Quota.CountAfterRequests` | app/api_routes.py:420-426 | n unauthenticated requests, admitted or not, raise the counter by exactly n, starting from 0 when absent |
| `Quota.VerdictsOfRequests` | app/api_routes.py:426-437 | request k of a run is admitted iff the counter it raises, start + k + 1, is at most 5 |
| `Quota.FreshSession` | app/api_routes.py:419-437 | from a fresh session the counter after n requests is n; requests 1 to 5 are admitted and every later one is rejected |
| `Quota.RejectionIsPermanent` | app/api_routes.py:426-428 | once a request of a session is rejected, every later one is too |
| `Quota.NextCount` | app/api_routes.py:420-426 | the counter after one more unauthenticated request: 1 when the key was absent, otherwise the old value plus 1 |
| `Quota.AnonymousSession.constructor` | app/api_routes.py:420 | a session without the counter or the first-message time |
| `Quota.AnonymousSession.CountRequest` | app/api_routes.py:420-426 | the counter becomes (old or 0) + 1; the first-message time is set only when the counter was absent |
| `Quota.AnonymousChatbot` | app/api_routes.py:411-458 | authenticated calls leave the session alone; otherwise the counter rises by one and 429 comes iff it exceeds 5, with no service call and nothing returned; otherwise 200 with the service's answer and `updated_chats` equal to the anonymous context, which does not include the new response |
| `Store.TurnsOf` | app/api_routes.py:296-298 | the selected chats are chats of the table belonging to the (chatbot, user) pair |
| `Store.OtherTurns` | app/api_routes.py:466-469 | what clearing leaves: chats of the table not belonging to the pair |
| `Store.ClearPartitions` | app/api_routes.py:466-469 | removed and kept chats together are exactly the table, as a multiset and in number |
| `Store.NoTurnsLeft` | app/api_routes.py:466-469 | a table with no chat of the pair gives the pair an empty history |
| `Store.KeepAll` | app/api_routes.py:466-469 | clearing a table with no chat of the pair keeps it unchanged |
| `Store.ClearIsIdempotent` | app/api_routes.py:466-476 | after clearing, the pair has no history and clearing again changes nothing |
| `Store.ClearKeepsOtherHistories` | app/api_routes.py:466-469 | clearing one pair leaves every other pair's history identical |
| `Store.AppendExtendsHistory` | app/api_routes.py:326-333 | an appended chat extends its own pair's history by itself and no other pair's |
| `Store.Turns` | app/api_routes.py:319-321 | the query/response pair of each stored chat, one per chat, in stored order |
| `Store.TurnsAppend` | app/api_routes.py:319-321 | reading the turns of two runs of chats gives the turns of the first run followed by those of the second |
| `Store.HistoryGrowsByTurn` | app/api_routes.py:319-333 | a chat stored for a pair becomes the last turn of the history sent with that pair's next request |
| `Store.CanAccess` | app/api_routes.py:289-293 | true iff the caller owns the chatbot, or it is public, or its `generated_by` is "system" |
| `Store.Truthy` | app/api_routes.py:326 | true iff the completion result is present and not the empty string |
| `Store.Database.constructor` | app/api_routes.py:36-40 | the database handle the routes receive; the model chooses to start it with empty chatbot, version, chat and image tables over the given users, and it satisfies the invariant |
| `Store.Database.CurrentPrompt` | app/api_routes.py:317 | the prompt of the version the chatbot's pointer names, which is always a prompt of one of that chatbot's own versions |
| `Store.Database.CreateVersion` | app/api_routes.py:175-177 | appends one version under a fresh id, moves this chatbot's pointer to it, changes nothing else, and restores the pointer invariant |
| `Store.Database.CreateChatbot` | app/api_routes.py:150-181 | a private chatbot owned by the caller with one version holding the prompt, and five points for the caller; 500 with no change for an unknown caller |
| `Store.Database.UpdateChatbot` | app/api_routes.py:184-206 | 404 if absent; 200 with success false and no change for a non-owner; otherwise one version appended (old ones kept) and the current prompt becomes the new one |
| `Store.Database.RevertChatbot` | app/api_routes.py:209-226 | 404 with no change unless the caller owns the chatbot and the version is one of its own; otherwise the pointer equals the given version; versions never change |
| `Store.Database.DeleteObject` | app/api_routes.py:251-278 | 400 for another kind; 403 with no change for a non-owner; the owner's chatbot goes with exactly its versions, or the owner's image goes |
| `Store.Database.PublishObject` | app/api_routes.py:349-381 | 400, 404 or 403 with no change; otherwise the owner's item has its public flag negated, the new flag is returned and the owner earns two points |
| `Store.Database.ChatbotRequest` | app/api_routes.py:281-346 | 403 iff the caller is not the owner, the chatbot is not public and not system-made, and then nothing is sent or stored; POST sends exactly the authenticated context of the current prompt and the caller's history; a chat is appended iff the reply is non-empty, else 500 and the table is unchanged |
| `Store.Database.Converse` | app/api_routes.py:316-346 | the service receives exactly one request, the authenticated context of the given prompt, the history's turns and the query, and its answer is returned; a chat holding the query and that answer is appended iff the answer is non-empty (200), otherwise 500 and the chat table is unchanged; no other table or id counter changes |
| `Store.Database.ClearChats` | app/api_routes.py:461-480 | the table becomes exactly the other pairs' chats, the count is the number removed, and the pair's history is empty afterwards |
| `Dashboard.FilterQueues` | app/api_routes.py:574 | keeps only whitelisted names that were requested |
| `Dashboard.FilterKeepsValidNames` | app/api_routes.py:563-574 | each whitelisted name is kept exactly as often as requested; every other name is dropped |
| `Dashboard.FilterDistributes` | app/api_routes.py:574 | filtering a concatenation filters each part, so the requested order is kept |
| `Dashboard.FilterKeepsValidList` | app/api_routes.py:574 | a list of whitelisted names passes unchanged, so the filter is idempotent |
| `Dashboard.ContributionScore` | app/api_routes.py:533-537 | five points per chatbot plus one per image |
| `Dashboard.OwnedChatbots` | app/api_routes.py:531 | the ids of the chatbots whose owner is the user, all of them stored chatbots |
| `Dashboard.OwnedImages` | app/api_routes.py:532 | the ids of the images whose owner is the user, all of them stored images |
| `Dashboard.DisplayedScore` | app/api_routes.py:531-537 | five points per chatbot the user owns plus one per image the user owns; at most five per stored chatbot plus one per stored image, and 0 for a user who owns nothing |
| `Dashboard.NewChatbotScore` | app/api_routes.py:531-537 | a new chatbot raises its owner's displayed score by exactly 5 and leaves every other user's unchanged |
| `Dashboard.DeletedChatbotScore` | app/api_routes.py:531-537 | deleting a chatbot lowers its owner's displayed score by exactly 5 |
| `Dashboard.PublishKeepsScore` | app/api_routes.py:531-537 | toggling `public` changes no displayed score |
| `Scenarios.RevertAndBack` | app/api_routes.py:216-226 | reverting to a version and then to the previous pointer restores the chatbot table exactly; if the first revert succeeds, so does the second |
| `Scenarios.PromptHistoryScenario` | app/api_routes.py:184-226 | create "You are helpful", update to "You are sarcastic", revert to the first version: the next chat sends "You are helpful" as its system entry and stores one turn |
| `Scenarios.FreshAnonymousSession` | app/api_routes.py:419-450 | six requests from a fresh session get 200 five times and then 429, and the service receives five requests |
| `Scenarios.AnonymousRun` | app/api_routes.py:419-450 | n unauthenticated calls of the endpoint leave the session counter at `CountAfter` of its start; call k is answered 429 iff `Verdicts` rejects request k, and otherwise 200 |
| `Scenarios.AuthenticatedBypassesQuota` | app/api_routes.py:414-419 | an authenticated request gets 200 and leaves the session counter unchanged |

## Left out

- Store.Database.CreateVersion: `create_version` lives in the models module, which is not part of this model. It is modelled only as "append a version under a fresh id and move the pointer". The model has no `version_number`, so it claims nothing about numbering or the newest-first listing.
- Login, signup, JWT and session issuance, `login_user`, `create_access_token` and bcrypt (app/api_routes.py:62-146) are the identity layer of foreign libraries. Only `is_strong_password` is modelled.
- Commit and rollback are not modelled, nor is the 500 reply when the revert commit fails (app/api_routes.py:228-248). Every operation is taken to commit.
- `chat_with_chatbot` is only an opaque function of the request. Text-to-speech, translation, image captions, OCR and the handwritten PDF (app/api_routes.py:766-918) are external libraries, file output and floating-point font metrics.
- Most of the `api_get_data` queues, `trend_today`, the leaderboard, `create_default_chatbots` and `fetch_contribution_data` are left out. They are database reads, random ordering or code not part of this model. Only the whitelist filter is modelled, over the list that `split(",")` produced.
- The user lookup by username in `api_get_user_data` is left out; the score is computed for a user id.
- Likes, reports, comments, profile edits, image creation, user info and chatbot data (app/api_routes.py:384-409, 483-521, 639-763) are record updates outside the chat and version core.
- The `type=session` form variant of chatbot creation is left out (app/api_routes.py:153-156). In that variant `chatbot_category` is never assigned. The JSON variant is modelled.
- Missing JSON fields or headers (`None` values, `KeyError` on `apikey`/`engine`, a missing `prev`) are not modelled. Inputs are always present strings and lists.
- Row order: the chat query has no `ORDER BY`. The model takes stored (insertion) order.
- The avatar URL prefix `BOT_AVATAR_API` belongs to the constants module, so the model stores only the name part (`avatarName`).
- The default of `generated_by` for user-made chatbots is in the models module. It is the `defaultGeneratedBy` parameter of the database.
- Store.Database.DeleteObject: removes the chatbot row and, as the handler does by hand, its versions. Whatever the models module's relationships may cascade on delete is not modelled: a deleted chatbot's chats stay in the chat table.
- Concurrency is not modelled, including the race between tabs on the session counter. Sessions are sequential and single-threaded.
- The `first_message_time` clock value is the parameter `now`.
- `static/js/dashboard.js` is user-interface code (DOM, fetch, local storage).
